/**
 * The structured generator: a persona package (the providers' raw texts,
 * the user's persona and the synthesis) from the multi-provider answers,
 * the platform list and its adaptations, and the prompt that merges a
 * user-supplied update into an existing persona.
 *
 * The platform configuration file is the value `PlatformsFile` (read error,
 * parse error or the decoded list); prompt files are `Result` inputs.
 */
module EnhancedGenerator {
  import opened Wrappers
  import opened Str
  import opened IssueParser
  import opened MultiProvider
  import Pipelines
  import StructuredPr
  import StructuredPipeline

  // ------------------------------------------------------------ raw texts

  /**
   * The text the extraction loop leaves for a provider: the last successful
   * response of that provider, or nothing.
   */
  function RawOf(rs: seq<ProviderResponse>, provider: string): string
  {
    if rs == [] then ""
    else
      var last := rs[|rs| - 1];
      if last.Succeeded() && last.provider == provider then last.content else RawOf(rs[..|rs| - 1], provider)
  }

  /** The extraction loop of `ProcessIssueWithStructureAndUser`. */
  method ExtractRaw(responses: seq<ProviderResponse>)
    returns (claudeRaw: string, geminiRaw: string, grokRaw: string, gptRaw: string)
    ensures claudeRaw == RawOf(responses, "claude") && geminiRaw == RawOf(responses, "gemini")
    ensures grokRaw == RawOf(responses, "grok") && gptRaw == RawOf(responses, "gpt")
  {
    claudeRaw, geminiRaw, grokRaw, gptRaw := "", "", "", "";
    for i := 0 to |responses|
      invariant claudeRaw == RawOf(responses[..i], "claude") && geminiRaw == RawOf(responses[..i], "gemini")
      invariant grokRaw == RawOf(responses[..i], "grok") && gptRaw == RawOf(responses[..i], "gpt")
    {
      assert responses[..i + 1][..i] == responses[..i];
      var resp := responses[i];
      if resp.error.None? {
        if resp.provider == "claude" {
          claudeRaw := resp.content;
        } else if resp.provider == "gemini" {
          geminiRaw := resp.content;
        } else if resp.provider == "grok" {
          grokRaw := resp.content;
        } else if resp.provider == "gpt" {
          gptRaw := resp.content;
        }
      }
    }
    assert responses[..|responses|] == responses;
  }

  /** When every response of a provider is `e`, its text is `e`'s if `e` is there and succeeded. */
  lemma {:induction false} RawOfOnly(rs: seq<ProviderResponse>, provider: string, e: ProviderResponse)
    requires e.provider == provider
    requires forall x :: x in rs && x.provider == provider ==> x == e
    ensures RawOf(rs, provider) == if e in rs && e.Succeeded() then e.content else ""
    decreases |rs|
  {
    if rs != [] {
      var init := rs[..|rs| - 1];
      assert rs == init + [rs[|rs| - 1]];
      forall x | x in init && x.provider == provider ensures x == e {
        assert x in rs;
      }
      RawOfOnly(init, provider, e);
      var last := rs[|rs| - 1];
      assert last in rs;
      assert e in rs <==> e in init || e == last;
      if last.provider == provider {
        assert last == e;
      }
    }
  }

  /**
   * Whatever order the four answers arrive in, a provider's raw text is its
   * answer when it succeeded and empty when it failed.
   */
  lemma RawFieldOfProvider(issueContent: string, template: string, calls: ProviderCalls,
                           arrived: seq<ProviderResponse>, i: nat)
    requires i < 4
    requires multiset(arrived) == multiset(FourResponses(issueContent, template, calls))
    ensures var e := FourResponses(issueContent, template, calls)[i];
      RawOf(arrived, ProviderNames[i]) == if e.Succeeded() then e.content else ""
  {
    var four := FourResponses(issueContent, template, calls);
    var e := four[i];
    forall x | x in arrived && x.provider == ProviderNames[i] ensures x == e {
      assert x in multiset(arrived);
      assert x in four;
      var j :| 0 <= j < 4 && four[j] == x;
      assert ProviderNames[j] == ProviderNames[i];
    }
    assert e in multiset(four);
    assert e in arrived;
    RawOfOnly(arrived, ProviderNames[i], e);
  }

  /** The raw text of Claude, in terms of its call. */
  lemma ClaudeRawIsItsAnswer(issueContent: string, template: string, calls: ProviderCalls,
                             arrived: seq<ProviderResponse>)
    requires multiset(arrived) == multiset(FourResponses(issueContent, template, calls))
    ensures RawOf(arrived, "claude") == match calls.claude(issueContent, template)
      case Ok(text) => text
      case Err(_) => ""
  {
    RawFieldOfProvider(issueContent, template, calls, arrived, 0);
  }

  // -------------------------------------------------------------- packages

  /** The package files with the given raw texts, user persona and synthesis. */
  function PackageFiles(responses: seq<ProviderResponse>, userRaw: string, synthesis: string): StructuredPr.PersonaFiles
  {
    StructuredPr.PersonaFiles(RawOf(responses, "claude"), RawOf(responses, "gemini"), RawOf(responses, "grok"),
                              RawOf(responses, "gpt"), userRaw, synthesis, None)
  }

  /**
   * `ProcessIssueWithStructureAndUser`: the persona is named after the issue
   * title (even an empty one) and the package keeps the user's persona.
   */
  method ProcessIssueWithStructureAndUser(issue: Issue, userPersona: string, templateFile: Result<string>,
                                          promptFile: Result<string>, calls: ProviderCalls,
                                          arrived: seq<ProviderResponse>)
    returns (r: Result<StructuredPipeline.GeneratedPackage>)
    requires issue.number.Some? && issue.title.Some?
    requires multiset(arrived) == multiset(FourResponses(IssueContent(issue), PromptText(templateFile, ""), calls))
    ensures r.Err? <==> AllFailed(FourResponses(IssueContent(issue), PromptText(templateFile, ""), calls))
    ensures r.Err? ==> r.error == "failed to generate personas from providers: " + AllFailedError
    ensures r.Ok? ==>
      var c := CombineWithUser(arrived, userPersona, promptFile, calls.synthesize);
      c.Ok?
      && r.value.persona == Pipelines.Persona(issue.title.value, c.value, issue.number.value)
      && r.value.files == PackageFiles(arrived, userPersona, c.value)
  {
    var template := PromptText(templateFile, "");
    r := PackageFrom(IssueContent(issue), template, issue.title.value, issue.number.value, userPersona,
                     promptFile, calls, arrived, "failed to generate personas from providers: ",
                     "failed to combine personas: ");
  }

  /** `ProcessIssueWithStructure`: the same without a user persona. */
  method ProcessIssueWithStructure(issue: Issue, templateFile: Result<string>, promptFile: Result<string>,
                                   calls: ProviderCalls, arrived: seq<ProviderResponse>)
    returns (r: Result<StructuredPipeline.GeneratedPackage>)
    requires issue.number.Some? && issue.title.Some?
    requires multiset(arrived) == multiset(FourResponses(IssueContent(issue), PromptText(templateFile, ""), calls))
    ensures r.Err? <==> AllFailed(FourResponses(IssueContent(issue), PromptText(templateFile, ""), calls))
    ensures r.Ok? ==> r.value.files.userRaw == ""
    ensures r.Ok? ==> CombineWithUser(arrived, "", promptFile, calls.synthesize) == Ok(r.value.persona.content)
  {
    r := ProcessIssueWithStructureAndUser(issue, "", templateFile, promptFile, calls, arrived);
  }

  /**
   * `RegeneratePersonaWithStructuredFeedback`: the providers see the feedback
   * and the previous version, but the answers are combined with the plain
   * combination prompt (not the feedback one) and without a user persona.
   */
  method RegeneratePersonaWithStructuredFeedback(issue: Issue, existingPersona: string, feedback: seq<string>,
                                                 templateFile: Result<string>, promptFile: Result<string>,
                                                 calls: ProviderCalls, arrived: seq<ProviderResponse>)
    returns (r: Result<StructuredPipeline.GeneratedPackage>)
    requires issue.number.Some? && issue.title.Some?
    requires multiset(arrived) == multiset(FourResponses(
      EnhancedPrompt(IssueContent(issue), feedback, existingPersona), PromptText(templateFile, ""), calls))
    ensures r.Err? <==> AllFailed(FourResponses(
      EnhancedPrompt(IssueContent(issue), feedback, existingPersona), PromptText(templateFile, ""), calls))
    ensures r.Err? ==> r.error == "failed to regenerate personas from providers: " + AllFailedError
    ensures r.Ok? ==>
      var c := CombineWithUser(arrived, "", promptFile, calls.synthesize);
      c.Ok?
      && r.value.persona == Pipelines.Persona(issue.title.value, c.value, issue.number.value)
      && r.value.files == PackageFiles(arrived, "", c.value)
  {
    var template := PromptText(templateFile, "");
    var feedbackSection := Feedback.FormatFeedback(feedback);
    var enhanced := IssueContent(issue) + FeedbackRequest + feedbackSection + PreviousVersion + existingPersona + ImproveRequest;
    r := PackageFrom(enhanced, template, issue.title.value, issue.number.value, "", promptFile, calls, arrived,
                     "failed to regenerate personas from providers: ", "failed to combine feedback personas: ");
  }

  /** Generation, raw extraction and combination, once the providers' prompt is built. */
  method PackageFrom(prompt: string, template: string, title: string, issueNumber: int, userPersona: string,
                     promptFile: Result<string>, calls: ProviderCalls, arrived: seq<ProviderResponse>,
                     generateError: string, combineError: string)
    returns (r: Result<StructuredPipeline.GeneratedPackage>)
    requires multiset(arrived) == multiset(FourResponses(prompt, template, calls))
    ensures r.Err? <==> AllFailed(FourResponses(prompt, template, calls))
    ensures r.Err? ==> r.error == generateError + AllFailedError
    ensures r.Ok? ==>
      var c := CombineWithUser(arrived, userPersona, promptFile, calls.synthesize);
      c.Ok?
      && r.value.persona == Pipelines.Persona(title, c.value, issueNumber)
      && r.value.files == PackageFiles(arrived, userPersona, c.value)
  {
    var responses := GenerateFromAllProviders(prompt, template, calls, arrived);
    if responses.Err? {
      return Err(generateError + responses.error);
    }
    AllFailedPermutation(arrived, FourResponses(prompt, template, calls));
    CombineErrIff(arrived, userPersona, promptFile, calls.synthesize);
    var claudeRaw, geminiRaw, grokRaw, gptRaw := ExtractRaw(responses.value);
    var combined := CombinePersonasWithUser(responses.value, userPersona, promptFile, calls.synthesize);
    match combined
    case Err(e) =>
      return Err(combineError + e);
    case Ok(fullSynthesis) =>
      var files := StructuredPr.PersonaFiles(claudeRaw, geminiRaw, grokRaw, gptRaw, userPersona, fullSynthesis, None);
      return Ok(StructuredPipeline.GeneratedPackage(Pipelines.Persona(title, fullSynthesis, issueNumber), files));
  }

  // ------------------------------------------------------------- platforms

  /** One entry of `config/platforms.json`. */
  datatype Platform = Platform(name: string, description: string, enabled: bool)

  /** What reading and decoding `config/platforms.json` gave. */
  datatype PlatformsFile = Unreadable(readError: string) | Unparsable(parseError: string) | Parsed(platforms: seq<Platform>)

  const NoPlatformsEnabled := "no platforms enabled in configuration"

  /** The names of the enabled platforms, in configuration order. */
  function EnabledNames(ps: seq<Platform>): (names: seq<string>)
    ensures |names| <= |ps|
    ensures forall x :: x in names <==> exists i :: 0 <= i < |ps| && ps[i].enabled && ps[i].name == x
  {
    if ps == [] then []
    else
      var init := EnabledNames(ps[..|ps| - 1]);
      var last := ps[|ps| - 1];
      assert forall i :: 0 <= i < |ps| - 1 ==> ps[..|ps| - 1][i] == ps[i];
      if last.enabled then init + [last.name] else init
  }

  /** The positions of the enabled platforms, increasing. */
  function EnabledPositions(ps: seq<Platform>): (idx: seq<nat>)
    ensures forall k :: 0 <= k < |idx| ==> idx[k] < |ps| && ps[idx[k]].enabled
    ensures forall k, l :: 0 <= k < l < |idx| ==> idx[k] < idx[l]
    ensures forall i :: 0 <= i < |ps| && ps[i].enabled ==> i in idx
  {
    if ps == [] then []
    else
      var init := EnabledPositions(ps[..|ps| - 1]);
      if ps[|ps| - 1].enabled then init + [|ps| - 1] else init
  }

  /** The enabled names are the names at the enabled positions: the order is the configuration's. */
  lemma {:induction false} EnabledInOrder(ps: seq<Platform>)
    ensures |EnabledNames(ps)| == |EnabledPositions(ps)|
    ensures forall k :: 0 <= k < |EnabledPositions(ps)| ==> EnabledNames(ps)[k] == ps[EnabledPositions(ps)[k]].name
    decreases |ps|
  {
    if ps != [] {
      EnabledInOrder(ps[..|ps| - 1]);
    }
  }

  /** What `loadPlatforms` returns. */
  function PlatformsResult(file: PlatformsFile): (r: Result<seq<string>>)
    ensures file.Unreadable? ==> r == Err("failed to load platforms config: " + file.readError)
    ensures file.Unparsable? ==> r == Err("failed to parse platforms config: " + file.parseError)
    ensures file.Parsed? ==> (r.Err? <==> forall i :: 0 <= i < |file.platforms| ==> !file.platforms[i].enabled)
    ensures file.Parsed? && r.Err? ==> r.error == NoPlatformsEnabled
    ensures r.Ok? ==> r.value != [] && r.value == EnabledNames(file.platforms)
  {
    match file
    case Unreadable(e) => Err("failed to load platforms config: " + e)
    case Unparsable(e) => Err("failed to parse platforms config: " + e)
    case Parsed(ps) =>
      var names := EnabledNames(ps);
      if names == [] then
        assert forall i :: 0 <= i < |ps| && ps[i].enabled ==> ps[i].name in names;
        Err(NoPlatformsEnabled)
      else
        assert names[0] in names;
        Ok(names)
  }

  /** `loadPlatforms`, filtering the decoded list. */
  method LoadPlatforms(file: PlatformsFile) returns (r: Result<seq<string>>)
    ensures r == PlatformsResult(file)
  {
    match file
    case Unreadable(e) =>
      return Err("failed to load platforms config: " + e);
    case Unparsable(e) =>
      return Err("failed to parse platforms config: " + e);
    case Parsed(ps) =>
      var enabledPlatforms: seq<string> := [];
      for i := 0 to |ps|
        invariant enabledPlatforms == EnabledNames(ps[..i])
      {
        assert ps[..i + 1][..i] == ps[..i];
        if ps[i].enabled {
          enabledPlatforms := enabledPlatforms + [ps[i].name];
        }
      }
      assert ps[..|ps|] == ps;
      if |enabledPlatforms| == 0 {
        return Err(NoPlatformsEnabled);
      }
      return Ok(enabledPlatforms);
  }

  const DefaultPlatforms: seq<string> :=
    ["ChatGPT", "Claude", "Gemini", "Character.AI", "Discord Bot", "Twitter/X", "LinkedIn", "Email Assistant"]

  /** The platforms adaptations are generated for: the configured ones, or the defaults. */
  function AdaptationPlatforms(file: PlatformsFile): seq<string>
  {
    match PlatformsResult(file)
    case Ok(names) => names
    case Err(_) => DefaultPlatforms
  }

  /** Any configuration failure, including one with nothing enabled, falls back to the eight defaults. */
  lemma DefaultsOnConfigFailure(file: PlatformsFile)
    requires file.Unreadable? || file.Unparsable?
      || (file.Parsed? && forall i :: 0 <= i < |file.platforms| ==> !file.platforms[i].enabled)
    ensures AdaptationPlatforms(file) == DefaultPlatforms
    ensures |AdaptationPlatforms(file)| == 8
  {
  }

  const PlatformPlaceholder := "{{PLATFORM}}"
  const PersonaPlaceholder := "{{SYNTHESIZED_PERSONA}}"

  /** The built-in `platform_adaptation.txt`. */
  const AdaptationTemplate: string :=
    "Adapt the following synthesized persona specifically for use on {{PLATFORM}}. Consider:\n\n"
    + "1. Platform-specific constraints and features\n"
    + "2. Optimal formatting for the platform\n"
    + "3. Relevant use cases and interactions\n"
    + "4. Platform culture and expectations\n"
    + "5. Technical limitations or opportunities\n\n"
    + "Start your response immediately with the adapted persona. Do NOT include any preambles.\n\n"
    + "SYNTHESIZED PERSONA TO ADAPT:\n"
    + "{{SYNTHESIZED_PERSONA}}\n\n"
    + "Create the {{PLATFORM}} adaptation now:"

  /** One platform's prompt: every platform placeholder, then every persona placeholder, replaced. */
  function PlatformPrompt(template: string, platform: string, persona: string): string
  {
    ReplaceAll(ReplaceAll(template, PlatformPlaceholder, platform), PersonaPlaceholder, persona)
  }

  /** A character absent from the parts and the separator is absent from their join. */
  lemma {:induction false} CharNotInJoin(parts: seq<string>, sep: string, c: char)
    requires forall k :: 0 <= k < |parts| ==> c !in parts[k]
    requires c !in sep
    ensures c !in Join(parts, sep)
    decreases |parts|
  {
    if |parts| > 1 {
      CharNotInJoin(parts[1..], sep, c);
    }
  }

  /**
   * A template whose only placeholders are platform ones gets the platform
   * name at every one of them and is otherwise unchanged.
   */
  lemma PlatformEverywhere(pieces: seq<string>, platform: string, persona: string)
    requires forall k :: 0 <= k < |pieces| ==> '{' !in pieces[k]
    requires '{' !in platform
    ensures PlatformPrompt(Join(pieces, PlatformPlaceholder), platform, persona) == Join(pieces, platform)
  {
    ReplaceAllJoin(pieces, PlatformPlaceholder, platform);
    CharNotInJoin(pieces, platform, '{');
    assert '{' in PersonaPlaceholder;
    MissingCharNotContained(Join(pieces, platform), PersonaPlaceholder, '{');
    ReplaceAllAbsent(Join(pieces, platform), PersonaPlaceholder, persona);
  }

  /** For each platform, the adaptation its prompt produced, when the call succeeded. */
  function Adaptations(platforms: seq<string>, template: string, persona: string,
                       synthesize: string -> Result<string>): (m: map<string, string>)
    ensures forall p :: p in m <==> p in platforms && synthesize(PlatformPrompt(template, p, persona)).Ok?
    ensures forall p :: p in m ==> m[p] == synthesize(PlatformPrompt(template, p, persona)).value
  {
    if platforms == [] then map[]
    else
      var m := Adaptations(platforms[..|platforms| - 1], template, persona, synthesize);
      var p := platforms[|platforms| - 1];
      assert forall q :: q in platforms <==> q in platforms[..|platforms| - 1] || q == p;
      match synthesize(PlatformPrompt(template, p, persona))
      case Ok(adapted) => m[p := adapted]
      case Err(_) => m
  }

  /** The adaptation loop over a list of platforms. */
  method AdaptAll(platforms: seq<string>, template: string, persona: string, synthesize: string -> Result<string>)
    returns (adaptations: map<string, string>)
    ensures adaptations == Adaptations(platforms, template, persona, synthesize)
  {
    adaptations := map[];
    for i := 0 to |platforms|
      invariant adaptations == Adaptations(platforms[..i], template, persona, synthesize)
    {
      assert platforms[..i + 1][..i] == platforms[..i];
      var prompt := ReplaceAll(template, PlatformPlaceholder, platforms[i]);
      prompt := ReplaceAll(prompt, PersonaPlaceholder, persona);
      match synthesize(prompt)
      case Ok(adapted) =>
        adaptations := adaptations[platforms[i] := adapted];
      case Err(_) =>
    }
    assert platforms[..|platforms|] == platforms;
  }

  /**
   * `generatePlatformAdaptations`: one synthesis call per platform; a
   * platform whose call fails is left out of the map, and no error results.
   */
  method GeneratePlatformAdaptations(persona: string, platformsFile: PlatformsFile, templateFile: Result<string>,
                                     synthesize: string -> Result<string>)
    returns (adaptations: map<string, string>)
    ensures adaptations == Adaptations(AdaptationPlatforms(platformsFile),
                                       PromptText(templateFile, AdaptationTemplate), persona, synthesize)
  {
    var loaded := LoadPlatforms(platformsFile);
    var platforms := if loaded.Ok? then loaded.value else DefaultPlatforms;
    var template := PromptText(templateFile, AdaptationTemplate);
    adaptations := AdaptAll(platforms, template, persona, synthesize);
  }

  // ---------------------------------------------- single-persona prompts

  /** The built-in `prompt_ready_generation.txt`. */
  const PromptReadyTemplate: string :=
    "Create a prompt-ready condensed version of the following synthesized persona in 500-1000 words. This version should:\n\n"
    + "1. Capture the essential characteristics and behaviors\n"
    + "2. Be immediately usable in AI prompts\n"
    + "3. Focus on the most distinctive and important traits\n"
    + "4. Include key speaking patterns, values, and expertise\n"
    + "5. Be formatted for easy copy-paste into prompts\n\n"
    + "Start your response immediately with the condensed persona content. Do NOT include any preambles or meta-commentary.\n\n"
    + "SYNTHESIZED PERSONA:\n"
    + "{{SYNTHESIZED_PERSONA}}\n\n"
    + "Create the condensed version now:"

  /** The built-in `constrained_formats_generation.txt`. */
  const ConstrainedTemplate: string :=
    "Create multiple constrained format versions of the following synthesized persona. Generate each of these formats:\n\n"
    + "1. **One-Liner** (max 100 characters): A single sentence capturing the essence\n"
    + "2. **Tweet-Length** (max 280 characters): Core identity in tweet format\n"
    + "3. **Elevator Pitch** (30 seconds / ~75 words): Quick introduction\n"
    + "4. **Short Bio** (100-150 words): Brief professional biography\n"
    + "5. **Executive Summary** (200-300 words): Key points for quick reference\n"
    + "6. **Single Paragraph** (150-200 words): Flowing narrative description\n\n"
    + "Format your response as a Markdown document with clear headers for each version. Start immediately with the content.\n\n"
    + "SYNTHESIZED PERSONA:\n"
    + "{{SYNTHESIZED_PERSONA}}\n\n"
    + "Generate the constrained versions now:"

  /** One synthesis call on a template with every persona placeholder replaced. */
  function SynthesizeFrom(template: string, persona: string, synthesize: string -> Result<string>,
                          errorPrefix: string): (r: Result<string>)
    ensures r.Err? <==> synthesize(ReplaceAll(template, PersonaPlaceholder, persona)).Err?
    ensures r.Err? ==> r.error == errorPrefix + synthesize(ReplaceAll(template, PersonaPlaceholder, persona)).error
    ensures r.Ok? ==> r.value == synthesize(ReplaceAll(template, PersonaPlaceholder, persona)).value
  {
    match synthesize(ReplaceAll(template, PersonaPlaceholder, persona))
    case Ok(text) => Ok(text)
    case Err(e) => Err(errorPrefix + e)
  }

  /**
   * `generatePromptReadyVersion`; nothing in the program calls it (the
   * `prompt_ready` asset's generator writes a placeholder document instead).
   */
  function PromptReadyVersion(persona: string, templateFile: Result<string>, synthesize: string -> Result<string>)
    : (r: Result<string>)
    ensures var prompt := ReplaceAll(PromptText(templateFile, PromptReadyTemplate), PersonaPlaceholder, persona);
      (r.Ok? <==> synthesize(prompt).Ok?) && (r.Ok? ==> r.value == synthesize(prompt).value)
      && (r.Err? ==> r.error == "failed to generate prompt-ready version: " + synthesize(prompt).error)
  {
    SynthesizeFrom(PromptText(templateFile, PromptReadyTemplate), persona, synthesize,
                   "failed to generate prompt-ready version: ")
  }

  /**
   * `generateConstrainedFormats`; like `PromptReadyVersion`, nothing in the
   * program calls it.
   */
  function ConstrainedFormats(persona: string, templateFile: Result<string>, synthesize: string -> Result<string>)
    : (r: Result<string>)
    ensures var prompt := ReplaceAll(PromptText(templateFile, ConstrainedTemplate), PersonaPlaceholder, persona);
      (r.Ok? <==> synthesize(prompt).Ok?) && (r.Ok? ==> r.value == synthesize(prompt).value)
      && (r.Err? ==> r.error == "failed to generate constrained formats: " + synthesize(prompt).error)
  {
    SynthesizeFrom(PromptText(templateFile, ConstrainedTemplate), persona, synthesize,
                   "failed to generate constrained formats: ")
  }

  /** A persona-only template gets the persona at every placeholder and is otherwise unchanged. */
  lemma PersonaEverywhere(pieces: seq<string>, persona: string)
    requires forall k :: 0 <= k < |pieces| ==> '{' !in pieces[k]
    ensures ReplaceAll(Join(pieces, PersonaPlaceholder), PersonaPlaceholder, persona) == Join(pieces, persona)
  {
    ReplaceAllJoin(pieces, PersonaPlaceholder, persona);
  }

  // ------------------------------------------------- user-supplied update

  const UpdateIntro: string :=
    "You are tasked with creating an improved persona by synthesizing an existing persona with a user-provided update.\n\n"
    + "The user has provided their own version of the persona that should be intelligently merged with the existing "
    + "version to create a superior, comprehensive persona that incorporates the best elements of both.\n\n"
  const ExistingOpen := "EXISTING PERSONA:\n<<<\n"
  const UserOpen := "\n>>>\n\nUSER-PROVIDED UPDATE:\n<<<\n"
  const UpdateClose := "\n>>>"
  const UpdateInstructions: string :=
    "\n\nPlease create a synthesized version that:\n"
    + "1. Incorporates new information from the user's version\n"
    + "2. Preserves valuable details from the existing persona\n"
    + "3. Resolves any conflicts by preferring the user's interpretation\n"
    + "4. Maintains consistency and coherence throughout\n"
    + "5. Results in a richer, more complete persona\n\n"
    + "Start your response immediately with the synthesized persona content using proper Markdown formatting. "
    + "Do NOT include any preambles or meta-commentary."

  const UpdateHead: string := UpdateIntro + ExistingOpen
  const UpdateTail: string := UpdateClose + UpdateInstructions

  /** Two texts placed into a frame: `head`, the first, `mid`, the second, `tail`. */
  function Framed(head: string, x: string, mid: string, y: string, tail: string): string
  {
    head + x + mid + y + tail
  }

  /** Each framed text appears in the frame, the first followed by `mid`, the second preceded by it. */
  lemma FramedContains(head: string, x: string, mid: string, y: string, tail: string)
    ensures Contains(Framed(head, x, mid, y, tail), x + mid)
    ensures Contains(Framed(head, x, mid, y, tail), mid + y)
  {
    var f := Framed(head, x, mid, y, tail);
    assert f[|head|..|head| + |x + mid|] == x + mid;
    ContainsAt(f, x + mid, |head|);
    assert f[|head + x|..|head + x| + |mid + y|] == mid + y;
    ContainsAt(f, mid + y, |head + x|);
  }

  /** The merge prompt of `UpdatePersonaWithUserInput`. */
  function UpdatePrompt(existingPersona: string, userPersona: string): string
  {
    Framed(UpdateHead, existingPersona, UserOpen, userPersona, UpdateTail)
  }

  /**
   * Both personas appear in the prompt, each in its own delimited block: the
   * existing one closed before the user's update is opened.
   */
  lemma UpdatePromptHasBoth(existingPersona: string, userPersona: string)
    ensures Contains(UpdatePrompt(existingPersona, userPersona), existingPersona + UserOpen)
    ensures Contains(UpdatePrompt(existingPersona, userPersona), UserOpen + userPersona)
  {
    FramedContains(UpdateHead, existingPersona, UserOpen, userPersona, UpdateTail);
  }

  /** `UpdatePersonaWithUserInput`. */
  function UpdatePersonaWithUserInput(existingPersona: string, userPersona: string,
                                      synthesize: string -> Result<string>): (r: Result<string>)
    ensures r.Err? <==> synthesize(UpdatePrompt(existingPersona, userPersona)).Err?
    ensures r.Err? ==> r.error == "failed to synthesize personas: " + synthesize(UpdatePrompt(existingPersona, userPersona)).error
    ensures r.Ok? ==> r.value == synthesize(UpdatePrompt(existingPersona, userPersona)).value
  {
    match synthesize(UpdatePrompt(existingPersona, userPersona))
    case Ok(text) => Ok(text)
    case Err(e) => Err("failed to synthesize personas: " + e)
  }
}
