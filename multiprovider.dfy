/**
 * Multi-provider persona generation: the four providers' answers to an
 * issue, and their combination into one persona by a synthesis call.
 *
 * Each provider (and Gemini's synthesis call) is a function from its prompt
 * to a text or an error (`ProviderCalls`). The four calls run concurrently
 * and their answers arrive in some order: that order is the parameter
 * `arrived`, of which only the multiset is known. Files that may be missing
 * (the persona template, the combination prompts) are `Result` inputs.
 */
module MultiProvider {
  import opened Wrappers
  import opened Str
  import opened IssueParser
  import Feedback
  import Pipelines

  /** One provider's answer: its name, its text and, if it failed, the error. */
  datatype ProviderResponse = ProviderResponse(provider: string, content: string, error: Option<string>)
  {
    predicate Succeeded() { error.None? }
  }

  /**
   * The providers' `GeneratePersona` calls and Gemini's `GenerateSynthesis`.
   * Claude receives the issue content and the template separately.
   */
  datatype ProviderCalls = ProviderCalls(
    claude: (string, string) -> Result<string>,
    gemini: string -> Result<string>,
    grok: string -> Result<string>,
    gpt: string -> Result<string>,
    synthesize: string -> Result<string>)

  const ProviderNames: seq<string> := ["claude", "gemini", "grok", "gpt"]
  const AllFailedError := "all providers failed to generate personas"
  const NothingToCombine := "no successful persona responses to combine"
  const TemplateGuide := "\n\nUse this template as a guide:\n"
  const ShortPromptTail: string :=
    "\n\nCreate a detailed user persona based on the above information. Include:\n"
    + "1. Name and demographics\n2. Background and goals\n3. Pain points and challenges\n"
    + "4. Technical proficiency\n5. Behavioral patterns\n6. Success criteria\n\n"
    + "Format as a well-structured Markdown document."

  /** The response recorded for a provider's answer; a failed call leaves no text. */
  function Response(provider: string, answer: Result<string>): (r: ProviderResponse)
    ensures r.provider == provider
    ensures r.Succeeded() <==> answer.Ok?
    ensures answer.Ok? ==> r.content == answer.value
  {
    match answer
    case Ok(c) => ProviderResponse(provider, c, None)
    case Err(e) => ProviderResponse(provider, "", Some(e))
  }

  /** `"Title: <title>\n\nDescription:\n<body>"`, a missing body read as empty. */
  function IssueContent(issue: Issue): string
    requires issue.title.Some?
  {
    "Title: " + issue.title.value + "\n\nDescription:\n" + issue.body.GetOr("")
  }

  /** The Gemini and Grok prompt: the issue content, followed by the template when there is one. */
  function FullPrompt(issueContent: string, template: string): (r: string)
    ensures HasPrefix(r, issueContent)
    ensures HasSuffix(r, template)
    ensures r == issueContent <==> template == ""
  {
    if template != "" then issueContent + TemplateGuide + template else issueContent
  }

  /** The shorter GPT prompt, which never carries the template. */
  function ShortPrompt(issueContent: string): (r: string)
    ensures HasPrefix(r, issueContent)
  {
    var r := issueContent + ShortPromptTail;
    assert r[..|issueContent|] == issueContent;
    r
  }

  /** The four providers' responses, one per provider, in the order the calls are started. */
  function FourResponses(issueContent: string, template: string, calls: ProviderCalls): (rs: seq<ProviderResponse>)
    ensures |rs| == 4
    ensures forall i :: 0 <= i < 4 ==> rs[i].provider == ProviderNames[i]
  {
    [Response("claude", calls.claude(issueContent, template)),
     Response("gemini", calls.gemini(FullPrompt(issueContent, template))),
     Response("grok", calls.grok(FullPrompt(issueContent, template))),
     Response("gpt", calls.gpt(ShortPrompt(issueContent)))]
  }

  predicate AllFailed(rs: seq<ProviderResponse>)
  {
    forall i :: 0 <= i < |rs| ==> !rs[i].Succeeded()
  }

  /** The successful responses, in their order. */
  function Successful(rs: seq<ProviderResponse>): (r: seq<ProviderResponse>)
    ensures |r| <= |rs|
    ensures forall x :: x in r <==> x in rs && x.Succeeded()
  {
    if rs == [] then []
    else Successful(rs[..|rs| - 1]) + (if rs[|rs| - 1].Succeeded() then [rs[|rs| - 1]] else [])
  }

  /** Nothing succeeded exactly when nothing is left after filtering. */
  lemma SuccessfulEmptyIff(rs: seq<ProviderResponse>)
    ensures Successful(rs) == [] <==> AllFailed(rs)
  {
    if Successful(rs) != [] {
      assert Successful(rs)[0] in Successful(rs);
    }
    if !AllFailed(rs) {
      var i :| 0 <= i < |rs| && rs[i].Succeeded();
      assert rs[i] in rs;
    }
  }

  /** Whether every provider failed does not depend on the order the answers arrive in. */
  lemma AllFailedPermutation(a: seq<ProviderResponse>, b: seq<ProviderResponse>)
    requires multiset(a) == multiset(b)
    ensures AllFailed(a) <==> AllFailed(b)
  {
    forall x ensures x in a <==> x in b {
      assert x in a <==> x in multiset(a);
      assert x in b <==> x in multiset(b);
    }
    if !AllFailed(a) {
      var i :| 0 <= i < |a| && a[i].Succeeded();
      assert a[i] in b;
    }
    if !AllFailed(b) {
      var i :| 0 <= i < |b| && b[i].Succeeded();
      assert b[i] in a;
    }
  }

  /** The loop of `generateFromAllProviders` that drains the channel, counting the successes. */
  method Collect(arrived: seq<ProviderResponse>) returns (results: seq<ProviderResponse>, successCount: nat)
    ensures results == arrived
    ensures successCount == |Successful(arrived)|
  {
    results := [];
    successCount := 0;
    for i := 0 to |arrived|
      invariant results == arrived[..i]
      invariant successCount == |Successful(arrived[..i])|
    {
      assert arrived[..i + 1][..i] == arrived[..i];
      results := results + [arrived[i]];
      if arrived[i].error.None? {
        successCount := successCount + 1;
      }
    }
    assert arrived[..|arrived|] == arrived;
  }

  /**
   * `generateFromAllProviders`: collects the answers as they arrive and
   * fails only when none of the four succeeded.
   */
  method GenerateFromAllProviders(issueContent: string, template: string, calls: ProviderCalls,
                                  arrived: seq<ProviderResponse>)
    returns (r: Result<seq<ProviderResponse>>)
    requires multiset(arrived) == multiset(FourResponses(issueContent, template, calls))
    ensures r.Err? <==> AllFailed(FourResponses(issueContent, template, calls))
    ensures r.Err? ==> r.error == AllFailedError
    ensures r.Ok? ==> r.value == arrived
  {
    var results, successCount := Collect(arrived);
    assert successCount == 0 <==> AllFailed(FourResponses(issueContent, template, calls)) by {
      SuccessfulEmptyIff(arrived);
      AllFailedPermutation(arrived, FourResponses(issueContent, template, calls));
    }
    if successCount == 0 {
      return Err(AllFailedError);
    }
    return Ok(results);
  }

  // ------------------------------------------------------------ combining

  const PersonasPlaceholder := "{{PERSONAS}}"
  const FeedbackPlaceholder := "{{FEEDBACK}}"
  const InputHeading := "INPUT PERSONAS TO COMBINE:"
  const InputHeadingWithUser := "INPUT PERSONAS TO COMBINE (including user-supplied version):"
  const UserSupplied := "User-Supplied"
  const EntrySeparator := "\n\n"

  /** `getDefaultCombinationPrompt`. */
  const DefaultCombinationPrompt: string :=
    "You are tasked with creating the best possible persona by analyzing and combining the following "
    + "persona profiles generated by different AI providers.\n\n"
    + "Start your response immediately with the persona content using proper Markdown formatting. "
    + "Do NOT include any preambles or meta-commentary.\n\n"
    + "INPUT PERSONAS TO COMBINE:\n\n{{PERSONAS}}\n\n"
    + "Create a comprehensive, unified persona that represents the best synthesis of all the above "
    + "profiles. Start directly with a persona title and content."

  /** `getDefaultFeedbackCombinationPrompt`. */
  const DefaultFeedbackPrompt: string :=
    "You are tasked with creating an improved persona by analyzing and combining the following "
    + "regenerated persona profiles. Each profile was created after incorporating user feedback.\n\n"
    + "Start your response immediately with the persona content using proper Markdown formatting. "
    + "Do NOT include any preambles or meta-commentary.\n\n"
    + "USER FEEDBACK TO ADDRESS:\n\n{{FEEDBACK}}\n\n"
    + "INPUT PERSONAS TO COMBINE:\n\n{{PERSONAS}}\n\n"
    + "Create a comprehensive, unified persona that represents the best synthesis of all the above "
    + "profiles while ensuring all feedback points are addressed. Start directly with a persona title and content."

  /** A prompt file's text, or the built-in prompt when it cannot be read. */
  function PromptText(file: Result<string>, fallback: string): string
  {
    match file
    case Ok(text) => text
    case Err(_) => fallback
  }

  /** One entry of the personas section. */
  function Labelled(k: nat, provider: string, content: string): string
  {
    "Persona " + NatToString(k) + ": " + provider + "\n<<<\n" + content + "\n>>>"
  }

  /** The responses that have some text, in their order. */
  function WithText(rs: seq<ProviderResponse>): (r: seq<ProviderResponse>)
    ensures |r| <= |rs|
    ensures forall x :: x in r <==> x in rs && x.content != ""
  {
    if rs == [] then []
    else WithText(rs[..|rs| - 1]) + (if rs[|rs| - 1].content != "" then [rs[|rs| - 1]] else [])
  }

  /** The entries built from the responses, skipping empty texts and counting up as they go. */
  function Entries(succ: seq<ProviderResponse>): seq<string>
  {
    if succ == [] then []
    else
      var es := Entries(succ[..|succ| - 1]);
      var last := succ[|succ| - 1];
      if last.content == "" then es else es + [Labelled(|es| + 1, last.provider, last.content)]
  }

  /** The entries, then the user-supplied persona's entry when there is one. */
  function AllEntries(succ: seq<ProviderResponse>, userPersona: string): seq<string>
  {
    var es := Entries(succ);
    if userPersona == "" then es else es + [Labelled(|es| + 1, UserSupplied, userPersona)]
  }

  /**
   * The k-th entry (from 1) names the k-th response that has text, with its
   * provider and its text: the numbering skips empty texts.
   */
  lemma {:induction false} EntriesNumbered(succ: seq<ProviderResponse>)
    ensures |Entries(succ)| == |WithText(succ)|
    ensures forall k :: 0 <= k < |WithText(succ)| ==>
      Entries(succ)[k] == Labelled(k + 1, WithText(succ)[k].provider, WithText(succ)[k].content)
    decreases |succ|
  {
    if succ != [] {
      var prev, last := succ[..|succ| - 1], succ[|succ| - 1];
      EntriesNumbered(prev);
      var ws, es := WithText(prev), Entries(prev);
      if last.content == "" {
        assert WithText(succ) == ws && Entries(succ) == es;
      } else {
        assert WithText(succ) == ws + [last];
        assert Entries(succ) == es + [Labelled(|es| + 1, last.provider, last.content)];
      }
    }
  }

  /** With a user persona, its entry comes last and is numbered after all the others. */
  lemma UserEntryLast(succ: seq<ProviderResponse>, userPersona: string)
    requires userPersona != ""
    ensures var all := AllEntries(succ, userPersona);
      |all| == |WithText(succ)| + 1
      && all[..|all| - 1] == Entries(succ)
      && all[|all| - 1] == Labelled(|WithText(succ)| + 1, UserSupplied, userPersona)
  {
    EntriesNumbered(succ);
    var all := AllEntries(succ, userPersona);
    assert all[..|all| - 1] == Entries(succ);
  }

  /** The synthesis prompt built by `combinePersonasWithUser` from a template. */
  function CombinationPrompt(template: string, succ: seq<ProviderResponse>, userPersona: string): string
  {
    var headed := if userPersona != "" then ReplaceFirst(template, InputHeading, InputHeadingWithUser) else template;
    ReplaceAll(headed, PersonasPlaceholder, Join(AllEntries(succ, userPersona), EntrySeparator))
  }

  /**
   * Every `{{PERSONAS}}` in the template becomes the joined entries; the
   * rest of the template is kept as it is.
   */
  lemma PersonasEverywhere(pieces: seq<string>, succ: seq<ProviderResponse>)
    requires forall k :: 0 <= k < |pieces| ==> '{' !in pieces[k]
    ensures CombinationPrompt(Join(pieces, PersonasPlaceholder), succ, "")
         == Join(pieces, Join(Entries(succ), EntrySeparator))
  {
    ReplaceAllJoin(pieces, PersonasPlaceholder, Join(Entries(succ), EntrySeparator));
  }

  /** The position of the text longest in bytes (Go's `len`), the earliest one among equals. */
  function BestIndex(succ: seq<ProviderResponse>): (b: nat)
    requires succ != []
    ensures b < |succ|
    ensures forall j :: 0 <= j < |succ| ==> ByteLength(succ[j].content) <= ByteLength(succ[b].content)
    ensures forall j :: 0 <= j < b ==> ByteLength(succ[j].content) < ByteLength(succ[b].content)
  {
    if |succ| == 1 then 0
    else
      var b := BestIndex(succ[..|succ| - 1]);
      if ByteLength(succ[|succ| - 1].content) > ByteLength(succ[b].content) then |succ| - 1 else b
  }

  /**
   * Length is counted in bytes: three two-byte letters outweigh four ASCII
   * ones, so the first text is kept although it has fewer characters.
   */
  lemma BytesDecideLongest(a: ProviderResponse, b: ProviderResponse)
    requires a.content == "ééé" && b.content == "abcd"
    ensures |a.content| < |b.content| && BestIndex([a, b]) == 0
  {
    var e := a.content;
    assert e[1..] == "éé" && e[1..][1..] == "é" && e[1..][1..][1..] == [];
    assert Utf8Width('é') == 2;
    assert ByteLength(e) == 6 by {
      assert ByteLength("é") == 2;
      assert ByteLength("éé") == 4;
    }
    AsciiByteLength(b.content);
    assert [a, b][..1] == [a];
  }

  /** What `combinePersonasWithUser` returns. */
  function CombineWithUser(responses: seq<ProviderResponse>, userPersona: string,
                           promptFile: Result<string>, synthesize: string -> Result<string>): Result<string>
  {
    var succ := Successful(responses);
    if succ == [] then Err(NothingToCombine)
    else if |succ| == 1 && userPersona == "" then Ok(succ[0].content)
    else
      match synthesize(CombinationPrompt(PromptText(promptFile, DefaultCombinationPrompt), succ, userPersona))
      case Ok(combined) => Ok(combined)
      case Err(_) => Ok(succ[BestIndex(succ)].content)
  }

  /** The successful responses, kept in order. */
  method FilterSuccessful(responses: seq<ProviderResponse>) returns (succ: seq<ProviderResponse>)
    ensures succ == Successful(responses)
  {
    succ := [];
    for i := 0 to |responses|
      invariant succ == Successful(responses[..i])
    {
      assert responses[..i + 1][..i] == responses[..i];
      if responses[i].error.None? {
        succ := succ + [responses[i]];
      }
    }
    assert responses[..|responses|] == responses;
  }

  /** The loop that numbers the entries, then the user's entry. */
  method BuildEntries(succ: seq<ProviderResponse>, userPersona: string) returns (personas: seq<string>)
    ensures personas == AllEntries(succ, userPersona)
  {
    var personaCount := 0;
    personas := [];
    for i := 0 to |succ|
      invariant personas == Entries(succ[..i])
      invariant personaCount == |personas|
    {
      assert succ[..i + 1][..i] == succ[..i];
      if succ[i].content != "" {
        personaCount := personaCount + 1;
        personas := personas + [Labelled(personaCount, succ[i].provider, succ[i].content)];
      }
    }
    assert succ[..|succ|] == succ;
    if userPersona != "" {
      personaCount := personaCount + 1;
      personas := personas + [Labelled(personaCount, UserSupplied, userPersona)];
    }
  }

  /** The fallback: the first response whose text is longest in bytes. */
  method PickLongest(succ: seq<ProviderResponse>) returns (best: ProviderResponse)
    requires succ != []
    ensures best == succ[BestIndex(succ)]
  {
    var b := 0;
    best := succ[0];
    for i := 1 to |succ|
      invariant b == BestIndex(succ[..i]) && best == succ[b]
    {
      assert succ[..i + 1][..i] == succ[..i];
      if ByteLength(succ[i].content) > ByteLength(best.content) {
        b := i;
        best := succ[i];
      }
    }
    assert succ[..|succ|] == succ;
  }

  /** `combinePersonasWithUser`. */
  method CombinePersonasWithUser(responses: seq<ProviderResponse>, userPersona: string,
                                 promptFile: Result<string>, synthesize: string -> Result<string>)
    returns (r: Result<string>)
    ensures r == CombineWithUser(responses, userPersona, promptFile, synthesize)
  {
    var succ := FilterSuccessful(responses);
    if |succ| == 0 {
      return Err(NothingToCombine);
    }
    if |succ| == 1 && userPersona == "" {
      return Ok(succ[0].content);
    }
    var prompt := CombinationPrompt(PromptText(promptFile, DefaultCombinationPrompt), succ, userPersona);
    r := Synthesize(prompt, succ, synthesize);
  }

  /** The synthesis call, falling back to the longest text when it fails. */
  method Synthesize(prompt: string, succ: seq<ProviderResponse>, synthesize: string -> Result<string>)
    returns (r: Result<string>)
    requires succ != []
    ensures r == match synthesize(prompt)
      case Ok(combined) => Ok(combined)
      case Err(_) => Ok(succ[BestIndex(succ)].content)
  {
    match synthesize(prompt)
    case Ok(combined) =>
      return Ok(combined);
    case Err(_) =>
      var best := PickLongest(succ);
      return Ok(best.content);
  }

  /** Combining fails exactly when no response succeeded, and then with that message. */
  lemma CombineErrIff(responses: seq<ProviderResponse>, userPersona: string,
                      promptFile: Result<string>, synthesize: string -> Result<string>)
    ensures CombineWithUser(responses, userPersona, promptFile, synthesize).Err? <==> AllFailed(responses)
    ensures CombineWithUser(responses, userPersona, promptFile, synthesize).Err?
      ==> CombineWithUser(responses, userPersona, promptFile, synthesize).error == NothingToCombine
  {
    SuccessfulEmptyIff(responses);
  }

  /** The only successful response, wherever it is. */
  lemma {:induction false} SuccessfulSingle(rs: seq<ProviderResponse>, i: nat)
    requires i < |rs| && rs[i].Succeeded()
    requires forall j :: 0 <= j < |rs| && j != i ==> !rs[j].Succeeded()
    ensures Successful(rs) == [rs[i]]
    decreases |rs|
  {
    var init := rs[..|rs| - 1];
    if i < |rs| - 1 {
      SuccessfulSingle(init, i);
    } else {
      assert AllFailed(init);
      SuccessfulEmptyIff(init);
    }
  }

  /**
   * With one successful response and no user persona, its text is the
   * result whatever the synthesis call would answer: it is not called.
   */
  lemma SingleSuccessVerbatim(responses: seq<ProviderResponse>, i: nat,
                              promptFile: Result<string>, synthesize: string -> Result<string>)
    requires i < |responses| && responses[i].Succeeded()
    requires forall j :: 0 <= j < |responses| && j != i ==> !responses[j].Succeeded()
    ensures CombineWithUser(responses, "", promptFile, synthesize) == Ok(responses[i].content)
  {
    SuccessfulSingle(responses, i);
  }

  /**
   * When the synthesis call fails, the result is the successful text longest
   * in bytes, the earliest one among equals, and no error.
   */
  lemma FallbackLongest(responses: seq<ProviderResponse>, userPersona: string,
                        promptFile: Result<string>, synthesize: string -> Result<string>)
    requires var succ := Successful(responses);
      succ != [] && !(|succ| == 1 && userPersona == "")
      && synthesize(CombinationPrompt(PromptText(promptFile, DefaultCombinationPrompt), succ, userPersona)).Err?
    ensures var succ := Successful(responses);
      exists b :: 0 <= b < |succ|
        && CombineWithUser(responses, userPersona, promptFile, synthesize) == Ok(succ[b].content)
        && (forall j :: 0 <= j < |succ| ==> ByteLength(succ[j].content) <= ByteLength(succ[b].content))
        && (forall j :: 0 <= j < b ==> ByteLength(succ[j].content) < ByteLength(succ[b].content))
  {
    var succ := Successful(responses);
    var b := BestIndex(succ);
    assert CombineWithUser(responses, userPersona, promptFile, synthesize) == Ok(succ[b].content);
  }

  // ------------------------------------------------------- with feedback

  /** The synthesis prompt of `combinePersonasWithFeedback`: no user entry. */
  function FeedbackCombinationPrompt(template: string, succ: seq<ProviderResponse>, feedback: seq<string>): string
  {
    var withFeedback := ReplaceFirst(template, FeedbackPlaceholder, Feedback.FeedbackText(feedback));
    ReplaceAll(withFeedback, PersonasPlaceholder, Join(Entries(succ), EntrySeparator))
  }

  /** Only the first `{{FEEDBACK}}` receives the numbered feedback; a later one stays. */
  lemma FirstFeedbackOnly(a: string, b: string, feedback: seq<string>)
    requires '{' !in a
    ensures ReplaceFirst(a + FeedbackPlaceholder + b, FeedbackPlaceholder, Feedback.FeedbackText(feedback))
         == a + Feedback.FeedbackText(feedback) + b
  {
    ReplaceFirstAfter(a, b, FeedbackPlaceholder, Feedback.FeedbackText(feedback));
  }

  /** What `combinePersonasWithFeedback` returns. */
  function CombineWithFeedback(responses: seq<ProviderResponse>, feedback: seq<string>,
                               promptFile: Result<string>, synthesize: string -> Result<string>): Result<string>
  {
    var succ := Successful(responses);
    if succ == [] then Err(NothingToCombine)
    else if |succ| == 1 then Ok(succ[0].content)
    else
      match synthesize(FeedbackCombinationPrompt(PromptText(promptFile, DefaultFeedbackPrompt), succ, feedback))
      case Ok(combined) => Ok(combined)
      case Err(_) => Ok(succ[BestIndex(succ)].content)
  }

  /** `combinePersonasWithFeedback`. */
  method CombinePersonasWithFeedback(responses: seq<ProviderResponse>, feedback: seq<string>,
                                     promptFile: Result<string>, synthesize: string -> Result<string>)
    returns (r: Result<string>)
    ensures r == CombineWithFeedback(responses, feedback, promptFile, synthesize)
  {
    var succ := FilterSuccessful(responses);
    if |succ| == 0 {
      return Err(NothingToCombine);
    }
    if |succ| == 1 {
      return Ok(succ[0].content);
    }
    var template := PromptText(promptFile, DefaultFeedbackPrompt);
    var feedbackSection := Feedback.FormatFeedback(feedback);
    var withFeedback := ReplaceFirst(template, FeedbackPlaceholder, feedbackSection);
    var personas := BuildEntries(succ, "");
    var prompt := ReplaceAll(withFeedback, PersonasPlaceholder, Join(personas, EntrySeparator));
    r := Synthesize(prompt, succ, synthesize);
  }

  /** Combining with feedback fails exactly when no response succeeded. */
  lemma FeedbackCombineErrIff(responses: seq<ProviderResponse>, feedback: seq<string>,
                              promptFile: Result<string>, synthesize: string -> Result<string>)
    ensures CombineWithFeedback(responses, feedback, promptFile, synthesize).Err? <==> AllFailed(responses)
  {
    SuccessfulEmptyIff(responses);
  }

  /** With one successful response the feedback synthesis is skipped. */
  lemma FeedbackSingleSuccessVerbatim(responses: seq<ProviderResponse>, i: nat, feedback: seq<string>,
                                      promptFile: Result<string>, synthesize: string -> Result<string>)
    requires i < |responses| && responses[i].Succeeded()
    requires forall j :: 0 <= j < |responses| && j != i ==> !responses[j].Succeeded()
    ensures CombineWithFeedback(responses, feedback, promptFile, synthesize) == Ok(responses[i].content)
  {
    SuccessfulSingle(responses, i);
  }

  // ---------------------------------------------------------------- issues

  const FeedbackRequest := "\n\nIMPORTANT: Please address the following feedback and regenerate the persona:\n\n"
  const PreviousVersion := "\n\nPrevious persona version:\n"
  const ImproveRequest := "\n\nPlease create an improved version that addresses all the feedback points above."

  /** The providers' prompt when regenerating with feedback. */
  function EnhancedPrompt(issueContent: string, feedback: seq<string>, existingPersona: string): string
  {
    issueContent + FeedbackRequest + Feedback.FeedbackText(feedback) + PreviousVersion + existingPersona + ImproveRequest
  }

  /** Every feedback comment reaches the providers, on its own numbered line. */
  lemma FeedbackReachesProviders(issueContent: string, feedback: seq<string>, existingPersona: string, i: nat)
    requires i < |feedback|
    ensures Contains(EnhancedPrompt(issueContent, feedback, existingPersona),
                     NatToString(i + 1) + ". " + feedback[i] + "\n")
  {
    Feedback.EveryCommentNumbered(feedback, i);
    var head := issueContent + FeedbackRequest;
    var text := Feedback.FeedbackText(feedback);
    var tail := PreviousVersion + existingPersona + ImproveRequest;
    assert EnhancedPrompt(issueContent, feedback, existingPersona) == head + text + tail;
    ContainsInside(head, text, tail, NatToString(i + 1) + ". " + feedback[i] + "\n");
  }

  /** The previous version reaches the providers too. */
  lemma PreviousVersionReachesProviders(issueContent: string, feedback: seq<string>, existingPersona: string)
    ensures Contains(EnhancedPrompt(issueContent, feedback, existingPersona), existingPersona)
  {
    var head := issueContent + FeedbackRequest + Feedback.FeedbackText(feedback) + PreviousVersion;
    assert EnhancedPrompt(issueContent, feedback, existingPersona) == head + existingPersona + ImproveRequest;
    assert existingPersona[0..|existingPersona|] == existingPersona;
    ContainsAt(existingPersona, existingPersona, 0);
    ContainsInside(head, existingPersona, ImproveRequest, existingPersona);
  }

  /** The persona's name: the issue title, or a name taken from the text when the title is empty. */
  function NameFor(title: string, content: string, extractName: string -> string): string
  {
    if title != "" then title else extractName(content)
  }

  /**
   * `ProcessIssue`: generates from the four providers and combines their
   * answers. `issue.Number` and `issue.Title` are dereferenced, so both are
   * required.
   */
  method ProcessIssue(issue: Issue, templateFile: Result<string>, promptFile: Result<string>,
                      calls: ProviderCalls, arrived: seq<ProviderResponse>, extractName: string -> string)
    returns (r: Result<Pipelines.Persona>)
    requires issue.number.Some? && issue.title.Some?
    requires multiset(arrived) == multiset(FourResponses(IssueContent(issue), PromptText(templateFile, ""), calls))
    ensures r.Err? <==> AllFailed(FourResponses(IssueContent(issue), PromptText(templateFile, ""), calls))
    ensures r.Err? ==> r.error == "failed to generate personas from providers: " + AllFailedError
    ensures r.Ok? ==>
      var c := CombineWithUser(arrived, "", promptFile, calls.synthesize);
      c.Ok? && r.value == Pipelines.Persona(NameFor(issue.title.value, c.value, extractName), c.value, issue.number.value)
  {
    var template := PromptText(templateFile, "");
    var responses := GenerateFromAllProviders(IssueContent(issue), template, calls, arrived);
    if responses.Err? {
      return Err("failed to generate personas from providers: " + responses.error);
    }
    AllFailedPermutation(arrived, FourResponses(IssueContent(issue), template, calls));
    CombineErrIff(arrived, "", promptFile, calls.synthesize);
    var combined := CombinePersonasWithUser(responses.value, "", promptFile, calls.synthesize);
    match combined
    case Err(e) =>
      return Err("failed to combine personas: " + e);
    case Ok(finalPersona) =>
      var personaName := if issue.title.value != "" then issue.title.value else extractName(finalPersona);
      return Ok(Pipelines.Persona(personaName, finalPersona, issue.number.value));
  }

  /**
   * `RegeneratePersonaWithFeedback`: the providers see the feedback and the
   * previous version, and the answers are combined with the feedback prompt.
   */
  method RegeneratePersonaWithFeedback(issue: Issue, existingPersona: string, feedback: seq<string>,
                                       templateFile: Result<string>, promptFile: Result<string>,
                                       calls: ProviderCalls, arrived: seq<ProviderResponse>,
                                       extractName: string -> string)
    returns (r: Result<Pipelines.Persona>)
    requires issue.number.Some? && issue.title.Some?
    requires multiset(arrived) == multiset(FourResponses(
      EnhancedPrompt(IssueContent(issue), feedback, existingPersona), PromptText(templateFile, ""), calls))
    ensures r.Err? <==> AllFailed(FourResponses(
      EnhancedPrompt(IssueContent(issue), feedback, existingPersona), PromptText(templateFile, ""), calls))
    ensures r.Err? ==> r.error == "failed to regenerate personas from providers: " + AllFailedError
    ensures r.Ok? ==>
      var c := CombineWithFeedback(arrived, feedback, promptFile, calls.synthesize);
      c.Ok? && r.value == Pipelines.Persona(NameFor(issue.title.value, c.value, extractName), c.value, issue.number.value)
  {
    var template := PromptText(templateFile, "");
    var feedbackSection := Feedback.FormatFeedback(feedback);
    var enhanced := IssueContent(issue) + FeedbackRequest + feedbackSection + PreviousVersion + existingPersona + ImproveRequest;
    r := RegenerateFrom(enhanced, issue.title.value, issue.number.value, feedback, template, promptFile,
                        calls, arrived, extractName);
  }

  /** The rest of `RegeneratePersonaWithFeedback`, once the providers' prompt is built. */
  method RegenerateFrom(enhanced: string, title: string, issueNumber: int, feedback: seq<string>,
                        template: string, promptFile: Result<string>,
                        calls: ProviderCalls, arrived: seq<ProviderResponse>, extractName: string -> string)
    returns (r: Result<Pipelines.Persona>)
    requires multiset(arrived) == multiset(FourResponses(enhanced, template, calls))
    ensures r.Err? <==> AllFailed(FourResponses(enhanced, template, calls))
    ensures r.Err? ==> r.error == "failed to regenerate personas from providers: " + AllFailedError
    ensures r.Ok? ==>
      var c := CombineWithFeedback(arrived, feedback, promptFile, calls.synthesize);
      c.Ok? && r.value == Pipelines.Persona(NameFor(title, c.value, extractName), c.value, issueNumber)
  {
    var responses := GenerateFromAllProviders(enhanced, template, calls, arrived);
    if responses.Err? {
      return Err("failed to regenerate personas from providers: " + responses.error);
    }
    AllFailedPermutation(arrived, FourResponses(enhanced, template, calls));
    FeedbackCombineErrIff(arrived, feedback, promptFile, calls.synthesize);
    var combined := CombinePersonasWithFeedback(responses.value, feedback, promptFile, calls.synthesize);
    match combined
    case Err(e) =>
      return Err("failed to combine feedback personas: " + e);
    case Ok(finalPersona) =>
      var personaName := if title != "" then title else extractName(finalPersona);
      return Ok(Pipelines.Persona(personaName, finalPersona, issueNumber));
  }
}
