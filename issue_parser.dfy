/**
 * Parsing a "Create Persona: <name>" issue: the name from the title, the
 * detailed description between `<<<` and `>>>`, and an optional user-supplied
 * persona between `[[[` and `]]]`.
 */
module IssueParser {
  import opened Wrappers
  import opened Str

  /** The parts of a GitHub issue the pipelines read; a nil title or body is `None`. */
  datatype Issue = Issue(number: Option<int>, title: Option<string>, body: Option<string>)

  datatype ParsedIssue = ParsedIssue(fullName: string, detailedContent: string, userPersona: string, rawContent: string)

  // ------------------------------------------------------------- the title

  /** `pat`, written in lower case, occurs at `i` ignoring ASCII case. */
  predicate CiAt(s: string, pat: string, i: int)
  {
    At(Lower(s), pat, i)
  }

  /** The end of the line that holds position `i`. */
  function LineEnd(s: string, i: nat): (j: nat)
    requires i <= |s|
    ensures i <= j <= |s| && '\n' !in s[i..j] && (j == |s| || s[j] == '\n')
    decreases |s| - i
  {
    if i == |s| || s[i] == '\n' then i else LineEnd(s, i + 1)
  }

  /** The last position in `[p, r)` that is not a newline, if any. */
  function LastNonNewline(s: string, p: nat, r: nat): (k: Option<nat>)
    requires p <= r <= |s|
    ensures k.Some? ==> p <= k.value < r && s[k.value] != '\n' && forall t :: k.value < t < r ==> s[t] == '\n'
    ensures k.None? ==> forall t :: p <= t < r ==> s[t] == '\n'
    decreases r - p
  {
    if r == p then None
    else if s[r - 1] != '\n' then Some(r - 1)
    else LastNonNewline(s, p, r - 1)
  }

  /**
   * The regular expression `(?i)create\s+persona:\s*(.+)` tried at position
   * `i`: its captured group, or `None` where it does not match. The blanks
   * after "persona:" are greedy and give back characters only when nothing is
   * left for the group, which `.` requires to start with a non-newline.
   */
  function TitleMatchAt(s: string, i: nat): (g: Option<string>)
    requires i <= |s|
    ensures g.Some? ==> g.value != [] && '\n' !in g.value
  {
    if !CiAt(s, "create", i) then None
    else
      var j := SpaceEnd(s, i + 6);
      if j == i + 6 || !CiAt(s, "persona:", j) then None
      else
        var p := j + 8;
        var r := SpaceEnd(s, p);
        if r < |s| then
          assert s[r] != '\n';
          Some(s[r..LineEnd(s, r)])
        else match LastNonNewline(s, p, r)
          case None => None
          case Some(k) => Some([s[k]])
  }

  /** The leftmost match: the first position from `i` on where the expression matches. */
  function TitleSearch(s: string, i: nat): (g: Option<string>)
    requires i <= |s|
    ensures g.Some? ==> exists k :: i <= k <= |s| && TitleMatchAt(s, k) == g
    ensures g.None? ==> forall k :: i <= k <= |s| ==> TitleMatchAt(s, k).None?
    decreases |s| - i
  {
    if TitleMatchAt(s, i).Some? then TitleMatchAt(s, i)
    else if i == |s| then None
    else TitleSearch(s, i + 1)
  }

  /** `extractFullNameFromTitle`: the trimmed capture, which must not be blank. */
  function ExtractFullNameFromTitle(title: string): (r: Result<string>)
    ensures r.Ok? ==> r.value != [] && TrimSpace(r.value) == r.value && '\n' !in r.value
    ensures r.Ok? <==> TitleSearch(title, 0).Some? && !AllSpace(TitleSearch(title, 0).value)
  {
    match TitleSearch(title, 0)
    case None => Err("title must follow format 'Create Persona: [Full Name]'")
    case Some(g) =>
      var name := TrimSpace(g);
      TrimSpaceEmptyIff(g);
      TrimSpaceIdempotent(g);
      if name == [] then Err("persona name cannot be empty") else Ok(name)
  }

  /** A title with no "create" in any letter case names no persona. */
  lemma NoCreateRejected(title: string)
    requires forall i :: !CiAt(title, "create", i)
    ensures ExtractFullNameFromTitle(title).Err?
  {
  }

  /** "David Attenborough Persona" is rejected: it has no "create". */
  lemma PlainTitleRejected(title: string)
    requires title == "David Attenborough Persona"
    ensures ExtractFullNameFromTitle(title).Err?
  {
    forall i ensures !CiAt(title, "create", i) {
      if 0 <= i && i + 6 <= |title| {
        assert Lower(title)[i..i + 6][0] == LowerChar(title[i]);
      }
    }
    NoCreateRejected(title);
  }

  /** `"Create Persona: " + name` gives the name back. */
  lemma StandardTitle(name: string)
    requires name != [] && TrimSpace(name) == name && '\n' !in name
    ensures ExtractFullNameFromTitle("Create Persona: " + name) == Ok(name)
  {
    var s := "Create Persona: " + name;
    StandardMatch(s, name);
    assert TitleSearch(s, 0) == Some(name);
    TrimSpaceIdempotent(name);
  }

  lemma StandardMatch(s: string, name: string)
    requires s == "Create Persona: " + name
    requires name != [] && TrimSpace(name) == name && '\n' !in name
    ensures TitleMatchAt(s, 0) == Some(name)
  {
    StandardPrefix(s, name);
    StandardName(s, name);
    MatchAtParts(s, 0, 7, 16);
    assert s[16..LineEnd(s, 16)] == name;
  }

  /** The expression matches at `i` when its parts are found where given. */
  lemma MatchAtParts(s: string, i: nat, j: nat, r: nat)
    requires i <= |s| && CiAt(s, "create", i) && j == SpaceEnd(s, i + 6) && j > i + 6
    requires CiAt(s, "persona:", j) && r == SpaceEnd(s, j + 8) && r < |s|
    ensures TitleMatchAt(s, i) == Some(s[r..LineEnd(s, r)])
  {
  }

  lemma StandardName(s: string, name: string)
    requires s == "Create Persona: " + name
    requires name != [] && TrimSpace(name) == name && '\n' !in name
    ensures SpaceEnd(s, 15) == 16 && LineEnd(s, 16) == |s| && s[16..] == name
  {
    assert s[15] == ' ';
    assert s[16] == name[0];
    assert !IsSpace(name[0]);
    assert !IsRegexSpace(name[0]);
    assert SpaceEnd(s, 16) == 16;
    assert s[16..] == name;
    forall t | 16 <= t < |s| ensures s[t] != '\n' {
      assert s[t] == name[t - 16];
    }
    LineEndNoNewline(s, 16);
  }

  /** The fixed part of the standard title matches up to its last blank. */
  lemma StandardPrefix(s: string, name: string)
    requires s == "Create Persona: " + name
    ensures CiAt(s, "create", 0) && SpaceEnd(s, 6) == 7 && CiAt(s, "persona:", 7)
  {
    var head := "Create Persona: ";
    LowerConcat(head, name);
    assert Lower(head) == "create persona: ";
    assert Lower(s)[0..6] == "create";
    assert Lower(s)[7..15] == "persona:";
    assert s[6] == ' ' && s[7] == 'P';
    assert SpaceEnd(s, 7) == 7;
  }

  lemma {:induction false} LineEndNoNewline(s: string, i: nat)
    requires i <= |s| && forall t :: i <= t < |s| ==> s[t] != '\n'
    ensures LineEnd(s, i) == |s|
    decreases |s| - i
  {
    if i < |s| {
      LineEndNoNewline(s, i + 1);
    }
  }

  // -------------------------------------------------------------- the body

  /**
   * The trimmed text between the first `open` and the last `close` marker, or
   * the reason there is none.
   */
  function Between(body: string, open: string, close: string): (r: Result<string>)
    requires |open| == 3 && |close| == 3 && close[0] !in open
    ensures r.Ok? ==>
      (Index(body, open).Some? && LastIndex(body, close).Some?
       && Index(body, open).value + 3 <= LastIndex(body, close).value
       && r.value == TrimSpace(body[Index(body, open).value + 3..LastIndex(body, close).value]))
    ensures r.Err? <==>
      (Index(body, open).None? || LastIndex(body, close).None?
       || LastIndex(body, close).value <= Index(body, open).value)
  {
    match Index(body, open)
    case None => Err("missing opening marker")
    case Some(startIndex) =>
      match LastIndex(body, close)
      case None => Err("missing closing marker")
      case Some(endIndex) =>
        if endIndex <= startIndex then Err("closing marker must come after opening marker")
        else
          MarkersApart(body, open, close, startIndex, endIndex);
          Ok(TrimSpace(body[startIndex + 3..endIndex]))
  }

  /**
   * A closing marker that starts after an opening marker starts at least three
   * characters later, so the text between them is always in range.
   */
  lemma MarkersApart(body: string, open: string, close: string, s: nat, e: nat)
    requires |open| == 3 && |close| == 3 && close[0] !in open
    requires At(body, open, s) && At(body, close, e) && s < e
    ensures s + 3 <= e
  {
  }

  /** `extractDetailedContent`: the text between `<<<` and `>>>`, when non-blank and structured. */
  function ExtractDetailedContent(body: string): (r: Result<string>)
    ensures r.Ok? <==>
      (Between(body, "<<<", ">>>").Ok? && Between(body, "<<<", ">>>").value != []
       && (Contains(Between(body, "<<<", ">>>").value, "**") || Contains(Between(body, "<<<", ">>>").value, ":")))
    ensures r.Ok? ==> r.value == Between(body, "<<<", ">>>").value
  {
    match Between(body, "<<<", ">>>")
    case Err(e) => Err(e)
    case Ok(content) =>
      if content == [] then Err("no content found between markers")
      else if !Contains(content, "**") && !Contains(content, ":") then
        Err("content appears to be unstructured - please use the template format")
      else Ok(content)
  }

  const Placeholder: string := "[Paste your complete persona here]"

  /** `extractUserPersona`: the text between `[[[` and `]]]`, unless blank or the template's placeholder. */
  function ExtractUserPersona(body: string): (r: Result<string>)
    ensures r.Ok? <==>
      (Between(body, "[[[", "]]]").Ok? && Between(body, "[[[", "]]]").value != []
       && Between(body, "[[[", "]]]").value != Placeholder)
    ensures r.Ok? ==> r.value == Between(body, "[[[", "]]]").value
  {
    match Between(body, "[[[", "]]]")
    case Err(e) => Err(e)
    case Ok(content) =>
      if content == [] || content == Placeholder then Err("no user persona content provided")
      else Ok(content)
  }

  /** `ParsePersonaIssue`. */
  function ParsePersonaIssue(issue: Issue): (r: Result<ParsedIssue>)
    ensures issue.title.None? ==> r.Err?
    ensures r.Ok? <==> issue.title.Some? && ExtractFullNameFromTitle(issue.title.value).Ok?
    ensures r.Ok? ==> r.value.fullName == ExtractFullNameFromTitle(issue.title.value).value
    ensures r.Ok? && (issue.body.None? || issue.body.value == []) ==>
      r.value.detailedContent == [] && r.value.userPersona == [] && r.value.rawContent == []
    ensures r.Ok? && issue.body.Some? && issue.body.value != [] ==>
      r.value.rawContent == issue.body.value
      && r.value.detailedContent ==
         (if ExtractDetailedContent(issue.body.value).Ok? then ExtractDetailedContent(issue.body.value).value
          else TrimSpace(issue.body.value))
      && r.value.userPersona == (if ExtractUserPersona(issue.body.value).Ok? then ExtractUserPersona(issue.body.value).value else [])
  {
    if issue.title.None? then Err("issue title is missing")
    else match ExtractFullNameFromTitle(issue.title.value)
      case Err(e) => Err("failed to extract persona name from title: " + e)
      case Ok(fullName) =>
        if issue.body.Some? && issue.body.value != [] then
          var body := issue.body.value;
          var detailed := match ExtractDetailedContent(body)
            case Err(_) => TrimSpace(body)
            case Ok(content) => content;
          var user := match ExtractUserPersona(body)
            case Err(_) => []
            case Ok(content) => content;
          Ok(ParsedIssue(fullName, detailed, user, body))
        else Ok(ParsedIssue(fullName, [], [], []))
  }

  /** A body without markers is kept whole: a missing `<<<` is not an error. */
  lemma MissingMarkersUseWholeBody(issue: Issue)
    requires issue.title.Some? && ExtractFullNameFromTitle(issue.title.value).Ok?
    requires issue.body.Some? && issue.body.value != [] && !Contains(issue.body.value, "<<<")
    ensures ParsePersonaIssue(issue).Ok?
    ensures ParsePersonaIssue(issue).value.detailedContent == TrimSpace(issue.body.value)
  {
  }

  // ----------------------------------------------------------- formatting

  const NameOnlyTail: string :=
    "\n\nNo additional details were provided. Please create a detailed persona profile based on your "
    + "knowledge of this person/character, including their background, personality traits, speaking style, "
    + "areas of expertise, values, beliefs, goals, and any other relevant characteristics that would help in AI interactions."

  const DetailedTail: string :=
    "\n\nPlease create a detailed persona profile that captures all the provided information and expands "
    + "upon it to create a complete, nuanced character that can be used for AI interactions."

  /** `FormatForPrompt`. */
  function FormatForPrompt(p: ParsedIssue): (r: string)
    ensures p.detailedContent == [] ==> r == "Create a comprehensive persona for: " + p.fullName + NameOnlyTail
    ensures Contains(r, p.fullName)
    ensures p.detailedContent != [] ==> Contains(r, p.detailedContent)
  {
    var head := "Create a comprehensive persona for: ";
    if p.detailedContent == [] then
      var r := head + p.fullName + NameOnlyTail;
      ContainsSelf(p.fullName);
      ContainsInside(head, p.fullName, NameOnlyTail, p.fullName);
      r
    else
      var r := head + p.fullName + "\n\n" + p.detailedContent + DetailedTail;
      ContainsSelf(p.fullName);
      ContainsSelf(p.detailedContent);
      ContainsInside(head, p.fullName, "\n\n" + p.detailedContent + DetailedTail, p.fullName);
      assert r == head + p.fullName + ("\n\n" + p.detailedContent + DetailedTail);
      ContainsInside(head + p.fullName + "\n\n", p.detailedContent, DetailedTail, p.detailedContent);
      r
  }

  lemma ContainsSelf(s: string)
    ensures Contains(s, s)
  {
    assert At(s, s, 0);
  }

  const ErrorCommentHead: string := "\U{274C} **Unable to Parse Issue**\n\nI couldn't parse this issue to create a persona. "

  const ErrorCommentTail: string :=
    "\n\n**Required Format:**\n1. **Title**: Must be \"Create Persona: [Full Name]\"\n"
    + "2. **Body**: Must include content wrapped in <<< and >>> markers\n\n**Example:**\n```markdown\n"
    + "**Full Name:** David Attenborough\n\n<<<\n**Background & Context:**\nNatural historian and broadcaster...\n\n"
    + "**Personality Traits:**\n- Gentle and patient\n- Deeply curious...\n\n[Continue with other sections]\n>>>\n```\n\n"
    + "Please update your issue to match the template format and I'll process it. You can find the full template "
    + "in the repository's issue templates.\n\n---\n*[Studio](https://github.com/twin2ai/studio) - Multi-AI Persona Generation Pipeline*"

  /** `GetParsingErrorComment`: the fixed help text around the error's own text. */
  function GetParsingErrorComment(err: string): (r: string)
    ensures Contains(r, err)
    ensures HasPrefix(r, ErrorCommentHead)
  {
    ContainsSelf(err);
    ContainsInside(ErrorCommentHead, err, ErrorCommentTail, err);
    ErrorCommentHead + err + ErrorCommentTail
  }
}
