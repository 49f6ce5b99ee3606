/**
 * "Update Persona: <name>" issues: parsing the request and the three steps
 * that turn it into a pull request.
 */
module UpdatePersona {
  import opened Wrappers
  import opened Str
  import opened IssueParser

  datatype UpdatePersonaRequest = UpdatePersonaRequest(personaName: string, userPersona: string)

  /**
   * The user's persona in an update body: the trimmed text between the first
   * `[[[` and the last `]]]` when both occur in that order, else the whole
   * trimmed body.
   */
  function UpdateContent(body: string): (r: string)
    ensures Marked(body) ==>
      (Index(body, "[[[").value + 3 <= LastIndex(body, "]]]").value
       && r == TrimSpace(body[Index(body, "[[[").value + 3..LastIndex(body, "]]]").value]))
    ensures !Marked(body) ==> r == TrimSpace(body)
  {
    var startIndex := Index(body, "[[[");
    var endIndex := LastIndex(body, "]]]");
    if startIndex.Some? && endIndex.Some? && endIndex.value > startIndex.value then
      MarkersApart(body, "[[[", "]]]", startIndex.value, endIndex.value);
      TrimSpace(body[startIndex.value + 3..endIndex.value])
    else TrimSpace(body)
  }

  /** The body has a `[[[` and, after it, a `]]]`. */
  predicate Marked(body: string)
  {
    Index(body, "[[[").Some? && LastIndex(body, "]]]").Some?
    && LastIndex(body, "]]]").value > Index(body, "[[[").value
  }

  /** `ParseUpdateRequest`. */
  function ParseUpdateRequest(issue: Issue): (r: Result<UpdatePersonaRequest>)
    ensures r.Ok? <==>
      (issue.title.Some? && HasPrefix(Lower(issue.title.value), "update persona:")
       && !AllSpace(issue.title.value[15..])
       && issue.body.Some? && issue.body.value != [] && UpdateContent(issue.body.value) != [])
    ensures r.Ok? ==>
      r.value.personaName == TrimSpace(issue.title.value[15..])
      && r.value.userPersona == UpdateContent(issue.body.value)
      && r.value.personaName != [] && r.value.userPersona != []
  {
    if issue.title.None? then Err("issue title is missing")
    else
      var title := issue.title.value;
      if !HasPrefix(Lower(title), "update persona:") then Err("title must start with 'Update Persona:'")
      else
        FirstColon(title);
        var parts := SplitFirst(title, ':');
        if |parts| < 2 then Err("invalid title format")
        else
          var personaName := TrimSpace(parts[1]);
          TrimSpaceEmptyIff(parts[1]);
          if personaName == [] then Err("persona name cannot be empty")
          else if issue.body.None? || issue.body.value == [] then Err("issue body must contain the updated persona")
          else
            var userPersona := UpdateContent(issue.body.value);
            if userPersona == [] then Err("no persona content provided")
            else Ok(UpdatePersonaRequest(personaName, userPersona))
  }

  /**
   * A title that starts with "update persona:" in any letter case has its
   * first colon at index 14: the name is everything after it.
   */
  lemma FirstColon(title: string)
    requires HasPrefix(Lower(title), "update persona:")
    ensures ':' in title
    ensures SplitFirst(title, ':') == [title[..14], title[15..]]
  {
    forall k | 0 <= k < 14 ensures title[k] != ':' {
      assert Lower(title)[k] == "update persona:"[k];
      assert LowerChar(title[k]) != ':';
    }
    assert Lower(title)[14] == ':';
    assert title[14] == ':';
    assert title == title[..14] + [':'] + title[15..];
    IndexOfCharAfter(title[..14], ':', title[15..]);
  }

  /** The standard title gives back the trimmed name after the colon. */
  lemma StandardUpdate(title: string, name: string, body: string)
    requires title == "Update Persona:" + name
    requires !AllSpace(name) && body != [] && UpdateContent(body) != []
    ensures ParseUpdateRequest(Issue(None, Some(title), Some(body)))
            == Ok(UpdatePersonaRequest(TrimSpace(name), UpdateContent(body)))
  {
    StandardUpdateTitle(title, name);
  }

  lemma StandardUpdateTitle(title: string, name: string)
    requires title == "Update Persona:" + name
    ensures HasPrefix(Lower(title), "update persona:") && title[15..] == name
  {
    LowerConcat("Update Persona:", name);
    assert Lower("Update Persona:") == "update persona:";
    assert Lower(title)[..15] == "update persona:";
    assert title[15..] == name;
  }

  /** A body with no `[[[` is used whole. */
  lemma UnmarkedBody(body: string)
    requires !Contains(body, "[[[")
    ensures UpdateContent(body) == TrimSpace(body)
  {
  }

  // ------------------------------------------------------------ the update

  /** The steps of `ProcessPersonaUpdate`, in the order they run. */
  datatype UpdateStep = FetchPersona | Synthesize | CreateUpdatePr

  /** What the outside world answers at each step. */
  datatype UpdateServices = UpdateServices(
    getExisting: string -> Result<string>,
    synthesize: (string, string, string) -> Result<string>,
    createPr: (string, string, string, string) -> Result<int>)

  /** The steps run and the error, if any, that ended the update. */
  datatype UpdateOutcome = UpdateOutcome(steps: seq<UpdateStep>, error: Option<string>)

  /** `ProcessPersonaUpdate`: fetch, synthesize and open a PR, stopping at the first failure. */
  function ProcessPersonaUpdate(req: UpdatePersonaRequest, svc: UpdateServices): (o: UpdateOutcome)
    ensures 1 <= |o.steps| <= 3 && o.steps == [FetchPersona, Synthesize, CreateUpdatePr][..|o.steps|]
    ensures o.error.None? <==>
      (svc.getExisting(req.personaName).Ok?
       && svc.synthesize(req.personaName, svc.getExisting(req.personaName).value, req.userPersona).Ok?
       && svc.createPr(req.personaName, svc.getExisting(req.personaName).value, req.userPersona,
                       svc.synthesize(req.personaName, svc.getExisting(req.personaName).value, req.userPersona).value).Ok?)
    ensures o.error.None? ==> |o.steps| == 3
    ensures |o.steps| < 3 ==> o.error.Some?
    ensures svc.getExisting(req.personaName).Err? ==> o.steps == [FetchPersona]
  {
    match svc.getExisting(req.personaName)
    case Err(e) => UpdateOutcome([FetchPersona], Some("failed to retrieve existing persona: " + e))
    case Ok(existing) =>
      match svc.synthesize(req.personaName, existing, req.userPersona)
      case Err(e) => UpdateOutcome([FetchPersona, Synthesize], Some("failed to synthesize persona update: " + e))
      case Ok(synthesized) =>
        match svc.createPr(req.personaName, existing, req.userPersona, synthesized)
        case Err(e) => UpdateOutcome([FetchPersona, Synthesize, CreateUpdatePr], Some("failed to create update PR: " + e))
        case Ok(_) => UpdateOutcome([FetchPersona, Synthesize, CreateUpdatePr], None)
  }

  /** The PR is created from exactly the persona that was fetched and the text that was synthesized from it. */
  lemma UpdateUsesFetchedPersona(req: UpdatePersonaRequest, svc: UpdateServices, existing: string, synthesized: string)
    requires svc.getExisting(req.personaName) == Ok(existing)
    requires svc.synthesize(req.personaName, existing, req.userPersona) == Ok(synthesized)
    ensures ProcessPersonaUpdate(req, svc).error.None? <==>
            svc.createPr(req.personaName, existing, req.userPersona, synthesized).Ok?
  {
  }
}
