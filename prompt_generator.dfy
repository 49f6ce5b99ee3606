/**
 * The seven prompt types, the tables that map them to template files, output
 * files, display names and categories, the generation of one prompt from its
 * template, and the validation a generated prompt must pass before it is saved.
 *
 * Reading a template file and the Gemini call are the two functions of a
 * `PromptTools` record; times are readings of an integer clock.
 */
module PromptGenerator {
  import opened Wrappers
  import opened Str
  import Assets

  /** `PromptType`: the type is its own name. */
  type PromptType = string

  const ChatGpt: PromptType := "chatgpt"
  const Claude: PromptType := "claude"
  const Gemini: PromptType := "gemini"
  const Discord: PromptType := "discord"
  const CharacterAi: PromptType := "characterai"
  const Condensed: PromptType := "condensed"
  const Alternative: PromptType := "alternative"

  /** The platform-specific types, in the order they are generated. */
  const PlatformTypes: seq<PromptType> := [ChatGpt, Claude, Gemini, Discord, CharacterAi]

  /** The variation types, in the order they are generated. */
  const VariationTypes: seq<PromptType> := [Condensed, Alternative]

  /** `GetAllPromptTypes`, which is also the order `GenerateAllPrompts` works in. */
  const AllPromptTypes: seq<PromptType> := PlatformTypes + VariationTypes

  /** `PromptResult`: a failed generation carries its error and no content. */
  datatype PromptResult = PromptResult(
    promptType: PromptType, content: string, generatedAt: int, personaName: string, error: Option<string>)

  /** Reading a file under the base directory, and asking Gemini for a prompt. */
  datatype PromptTools = PromptTools(readFile: string -> Result<string>, generate: string -> Result<string>)

  /** The placeholder a template holds for the synthesized persona. */
  const PersonaPlaceholder := "{{SYNTHESIZED_PERSONA}}"

  /** The length below which a generated prompt is rejected, in bytes. */
  const MinLength: nat := 100

  const UnknownType := "unknown prompt type: "
  const ReadFailed := "failed to read template file "
  const LoadFailed := "failed to load prompt template for "
  const GeminiFailed := "failed to generate prompt with Gemini: "

  // ------------------------------------------------------------ categories

  /** `IsPlatformPrompt`. */
  predicate IsPlatformPrompt(t: PromptType)
  {
    t == ChatGpt || t == Claude || t == Gemini || t == Discord || t == CharacterAi
  }

  /** `IsVariationPrompt`. */
  predicate IsVariationPrompt(t: PromptType)
  {
    t == Condensed || t == Alternative
  }

  /**
   * The two categories never overlap, and between them they split the seven
   * types into the five platform types and the two variations.
   */
  lemma PromptCategories(t: PromptType)
    ensures !(IsPlatformPrompt(t) && IsVariationPrompt(t))
    ensures IsPlatformPrompt(t) <==> t in PlatformTypes
    ensures IsVariationPrompt(t) <==> t in VariationTypes
    ensures t in AllPromptTypes <==> IsPlatformPrompt(t) || IsVariationPrompt(t)
    ensures |PlatformTypes| == 5 && |VariationTypes| == 2 && |AllPromptTypes| == 7
  {
    assert t in AllPromptTypes <==> t in PlatformTypes || t in VariationTypes;
    if IsPlatformPrompt(t) {
      assert t[0] in "cgd";
    }
  }

  // ---------------------------------------------------------------- tables

  /**
   * `loadPromptTemplate`'s switch: the template file of a type, `None` for an
   * unknown one. The switch names `platform_<type>.txt` for the five platform
   * types and `variation_<type>.txt` for the two variations.
   */
  function TemplateFile(t: PromptType): (r: Option<string>)
    ensures r.Some? <==> t in AllPromptTypes
    ensures r.Some? ==> HasSuffix(r.value, ".txt")
  {
    PromptCategories(t);
    if IsPlatformPrompt(t) then Some("platform_" + t + ".txt")
    else if IsVariationPrompt(t) then Some("variation_" + t + ".txt")
    else None
  }

  /** No two prompt types share a template file. */
  lemma TemplateFilesDistinct(a: PromptType, b: PromptType)
    requires TemplateFile(a).Some? && TemplateFile(a) == TemplateFile(b)
    ensures a == b
  {
    PromptCategories(a);
    PromptCategories(b);
    var f := TemplateFile(a).value;
    if IsPlatformPrompt(a) {
      assert f[0] == 'p';
      assert f == "platform_" + a + ".txt" == "platform_" + b + ".txt";
      assert f[9..|f| - 4] == a && f[9..|f| - 4] == b;
    } else {
      assert f[0] == 'v';
      assert f == "variation_" + a + ".txt" == "variation_" + b + ".txt";
      assert f[10..|f| - 4] == a && f[10..|f| - 4] == b;
    }
  }

  /**
   * `GetPromptFilename`: the seven cases of its switch and its default all
   * give `prompts/<type>.md`.
   */
  function PromptFilename(t: PromptType): (r: string)
    ensures |r| == |t| + 11 && HasPrefix(r, "prompts/") && HasSuffix(r, ".md") && r[8..|r| - 3] == t
  {
    "prompts/" + t + ".md"
  }

  /** Different types are written to different files. */
  lemma PromptFilenameInjective(a: PromptType, b: PromptType)
    requires PromptFilename(a) == PromptFilename(b)
    ensures a == b
  {
  }

  /** The file name inside the prompts folder: `<type>.md`. */
  lemma PromptFileInFolder(t: PromptType)
    ensures TrimPrefix(PromptFilename(t), "prompts/") == t + ".md"
  {
    assert PromptFilename(t) == "prompts/" + (t + ".md");
    TrimPrependedPrefix("prompts/", t + ".md");
  }

  /** `GetPromptDisplayName`: an unknown type is shown as itself. */
  function DisplayName(t: PromptType): (r: string)
    ensures t !in AllPromptTypes ==> r == t
    ensures t in AllPromptTypes ==> r != t
  {
    if t == ChatGpt then "ChatGPT System Prompt"
    else if t == Claude then "Claude System Prompt"
    else if t == Gemini then "Gemini System Prompt"
    else if t == Discord then "Discord Bot Personality"
    else if t == CharacterAi then "Character.AI Character"
    else if t == Condensed then "Condensed Prompt-Ready Version"
    else if t == Alternative then "Alternative Variations"
    else t
  }

  /** The seven known types have seven different display names. */
  lemma DisplayNamesDistinct(a: PromptType, b: PromptType)
    requires a in AllPromptTypes && b in AllPromptTypes && a != b
    ensures DisplayName(a) != DisplayName(b)
  {
    PromptCategories(a);
    PromptCategories(b);
  }

  // ------------------------------------------------------------ generating

  /** The path of a template file, relative to the base directory. */
  function TemplatePath(file: string): string
  {
    "prompts/" + file
  }

  /** `loadPromptTemplate`: unknown types are refused before any file is read. */
  function LoadPromptTemplate(tools: PromptTools, t: PromptType): (r: Result<string>)
    ensures TemplateFile(t).None? ==> r == Err(UnknownType + t)
    ensures TemplateFile(t).Some? ==>
      var path := TemplatePath(TemplateFile(t).value);
      (tools.readFile(path).Ok? ==> r == tools.readFile(path))
      && (tools.readFile(path).Err? ==> r == Err(ReadFailed + path + ": " + tools.readFile(path).error))
  {
    match TemplateFile(t)
    case None => Err(UnknownType + t)
    case Some(file) =>
      var path := TemplatePath(file);
      match tools.readFile(path)
      case Err(e) => Err(ReadFailed + path + ": " + e)
      case Ok(data) => Ok(data)
  }

  /** The text sent to Gemini: the template with every placeholder replaced by the persona. */
  function PromptInput(template: string, synthesizedContent: string): string
  {
    ReplaceAll(template, PersonaPlaceholder, synthesizedContent)
  }

  /**
   * A template made of pieces joined by the placeholder becomes the same
   * pieces joined by the persona: every occurrence is filled in and nothing
   * else changes.
   */
  lemma PersonaFillsEveryPlaceholder(pieces: seq<string>, synthesizedContent: string)
    requires forall k :: 0 <= k < |pieces| ==> '{' !in pieces[k]
    ensures PromptInput(Join(pieces, PersonaPlaceholder), synthesizedContent) == Join(pieces, synthesizedContent)
  {
    ReplaceAllJoin(pieces, PersonaPlaceholder, synthesizedContent);
  }

  /** A template without the placeholder is sent as it is. */
  lemma TemplateWithoutPlaceholder(template: string, synthesizedContent: string)
    requires !Contains(template, PersonaPlaceholder)
    ensures PromptInput(template, synthesizedContent) == template
  {
    ReplaceAllAbsent(template, PersonaPlaceholder, synthesizedContent);
  }

  /**
   * `GeneratePrompt` at time `now`: the template's error or Gemini's error,
   * each under its own prefix, or the result holding Gemini's answer.
   */
  function GeneratePrompt(tools: PromptTools, personaName: string, synthesizedContent: string,
                          t: PromptType, now: int): (r: Result<PromptResult>)
    ensures LoadPromptTemplate(tools, t).Err? ==>
      r == Err(LoadFailed + t + ": " + LoadPromptTemplate(tools, t).error)
    ensures LoadPromptTemplate(tools, t).Ok? ==>
      var answer := tools.generate(PromptInput(LoadPromptTemplate(tools, t).value, synthesizedContent));
      (answer.Err? ==> r == Err(GeminiFailed + answer.error))
      && (answer.Ok? ==> r == Ok(PromptResult(t, answer.value, now, personaName, None)))
  {
    match LoadPromptTemplate(tools, t)
    case Err(e) => Err(LoadFailed + t + ": " + e)
    case Ok(template) =>
      match tools.generate(PromptInput(template, synthesizedContent))
      case Err(e) => Err(GeminiFailed + e)
      case Ok(content) => Ok(PromptResult(t, content, now, personaName, None))
  }

  /** An unknown type always fails, naming the type twice. */
  lemma UnknownTypeFails(tools: PromptTools, personaName: string, synthesizedContent: string,
                         t: PromptType, now: int)
    requires t !in AllPromptTypes
    ensures GeneratePrompt(tools, personaName, synthesizedContent, t, now) == Err(LoadFailed + t + ": " + UnknownType + t)
  {
  }

  /**
   * One attempt as the generation loops record it: the result on success,
   * otherwise a result with no content, stamped `failedAt`, holding the error.
   */
  function Attempt(tools: PromptTools, personaName: string, synthesizedContent: string,
                   t: PromptType, now: int, failedAt: int): (r: PromptResult)
    ensures r.promptType == t && r.personaName == personaName
    ensures r.error.None? <==> GeneratePrompt(tools, personaName, synthesizedContent, t, now).Ok?
    ensures r.error.None? ==> r == GeneratePrompt(tools, personaName, synthesizedContent, t, now).value
    ensures r.error.Some? ==>
      r.content == "" && r.generatedAt == failedAt
      && r.error.value == GeneratePrompt(tools, personaName, synthesizedContent, t, now).error
  {
    match GeneratePrompt(tools, personaName, synthesizedContent, t, now)
    case Ok(result) => result
    case Err(e) => PromptResult(t, "", failedAt, personaName, Some(e))
  }

  /**
   * One attempt per type, in order, the i-th at clock reading `clock(i)`;
   * failures are stamped with the zero time when `zeroFailures` holds.
   */
  function Attempts(tools: PromptTools, personaName: string, synthesizedContent: string,
                    types: seq<PromptType>, clock: nat -> int, zeroFailures: bool): (r: seq<PromptResult>)
    ensures |r| == |types|
  {
    seq(|types|, i requires 0 <= i < |types| =>
      Attempt(tools, personaName, synthesizedContent, types[i], clock(i),
              if zeroFailures then Assets.ZeroTime else clock(i)))
  }

  /** The loop shared by every generator of several types that keeps failed results. */
  method GenerateTypes(tools: PromptTools, personaName: string, synthesizedContent: string,
                       types: seq<PromptType>, clock: nat -> int, zeroFailures: bool)
    returns (results: seq<PromptResult>)
    ensures results == Attempts(tools, personaName, synthesizedContent, types, clock, zeroFailures)
  {
    results := [];
    for i := 0 to |types|
      invariant results == Attempts(tools, personaName, synthesizedContent, types[..i], clock, zeroFailures)
    {
      var failedAt := if zeroFailures then Assets.ZeroTime else clock(i);
      var result := GeneratePrompt(tools, personaName, synthesizedContent, types[i], clock(i));
      match result {
        case Err(e) =>
          results := results + [PromptResult(types[i], "", failedAt, personaName, Some(e))];
        case Ok(r) =>
          results := results + [r];
      }
      assert types[..i + 1][..i] == types[..i];
    }
    assert types[..|types|] == types;
  }

  /**
   * `GenerateAllPrompts`: seven results, one per type in the fixed order;
   * a failed type keeps its place with its error, and the whole never fails.
   */
  method GenerateAllPrompts(tools: PromptTools, personaName: string, synthesizedContent: string, clock: nat -> int)
    returns (results: seq<PromptResult>)
    ensures |results| == |AllPromptTypes| == 7
    ensures forall i :: 0 <= i < 7 ==>
      results[i].promptType == AllPromptTypes[i] && results[i].personaName == personaName
      && (results[i].error.None? <==> GeneratePrompt(tools, personaName, synthesizedContent, AllPromptTypes[i], clock(i)).Ok?)
      && (results[i].error.Some? ==> results[i].content == "" && results[i].generatedAt == clock(i))
    ensures results == Attempts(tools, personaName, synthesizedContent, AllPromptTypes, clock, false)
  {
    results := GenerateTypes(tools, personaName, synthesizedContent, AllPromptTypes, clock, false);
    PromptCategories(ChatGpt);
    forall i | 0 <= i < 7
      ensures results[i].promptType == AllPromptTypes[i] && results[i].personaName == personaName
      ensures results[i].error.None? <==> GeneratePrompt(tools, personaName, synthesizedContent, AllPromptTypes[i], clock(i)).Ok?
      ensures results[i].error.Some? ==> results[i].content == "" && results[i].generatedAt == clock(i)
    {
      assert results[i] == Attempt(tools, personaName, synthesizedContent, AllPromptTypes[i], clock(i), clock(i));
    }
  }

  // ------------------------------------------------------------- listings

  /** The error-free results, in order. */
  function Succeeded(results: seq<PromptResult>): (r: seq<PromptResult>)
    ensures |r| <= |results|
    ensures forall x :: x in r <==> x in results && x.error.None?
  {
    if results == [] then []
    else
      var last := results[|results| - 1];
      Succeeded(results[..|results| - 1]) + (if last.error.None? then [last] else [])
  }

  /**
   * What a listing loop collects: `show(t)` for each error-free result whose
   * type `t` is in the category, in order.
   */
  function Listed(results: seq<PromptResult>, inCategory: PromptType -> bool, show: PromptType -> string)
    : (r: seq<string>)
    ensures |r| <= |Succeeded(results)|
  {
    if results == [] then []
    else
      var last := results[|results| - 1];
      Listed(results[..|results| - 1], inCategory, show)
      + (if last.error.None? && inCategory(last.promptType) then [show(last.promptType)] else [])
  }

  /** A listing holds exactly the shown types of the error-free results in its category. */
  lemma {:induction false} ListedExactly(results: seq<PromptResult>, inCategory: PromptType -> bool,
                                         show: PromptType -> string, s: string)
    ensures s in Listed(results, inCategory, show) <==>
      exists i :: 0 <= i < |results| && results[i].error.None? && inCategory(results[i].promptType)
                  && s == show(results[i].promptType)
  {
    if results != [] {
      var init := results[..|results| - 1];
      ListedExactly(init, inCategory, show, s);
      if s in Listed(init, inCategory, show) {
        var i :| 0 <= i < |init| && init[i].error.None? && inCategory(init[i].promptType)
                 && s == show(init[i].promptType);
        assert results[i] == init[i];
      }
      if exists i :: 0 <= i < |results| && results[i].error.None? && inCategory(results[i].promptType)
                     && s == show(results[i].promptType) {
        var i :| 0 <= i < |results| && results[i].error.None? && inCategory(results[i].promptType)
                 && s == show(results[i].promptType);
        if i < |init| {
          assert init[i] == results[i];
        }
      }
    }
  }

  /** The error-free results whose type is not one of the seven. */
  function UnknownSucceeded(results: seq<PromptResult>): nat
  {
    if results == [] then 0
    else
      var last := results[|results| - 1];
      UnknownSucceeded(results[..|results| - 1]) + (if last.error.None? && last.promptType !in AllPromptTypes then 1 else 0)
  }

  /**
   * The platform listing and the variation listing split the error-free
   * results between them: together they hold every one whose type is known.
   */
  lemma {:induction false} ListingsSplit(results: seq<PromptResult>, show: PromptType -> string)
    ensures |Listed(results, IsPlatformPrompt, show)| + |Listed(results, IsVariationPrompt, show)|
            + UnknownSucceeded(results) == |Succeeded(results)|
  {
    if results != [] {
      ListingsSplit(results[..|results| - 1], show);
      PromptCategories(results[|results| - 1].promptType);
    }
  }

  // ------------------------------------------------------------ validating

  const EmptyContent := "generated prompt content is empty"
  const TooShort := "generated prompt is too short (minimum 100 characters)"
  const Unreplaced := "generated prompt contains unreplaced template placeholders"

  /** `ValidatePromptResult`: the reason a result is not saved, `None` when it is fine. */
  function ValidatePromptResult(result: PromptResult): (r: Option<string>)
    ensures r.None? <==>
      result.error.None? && TrimSpace(result.content) != []
      && ByteLength(result.content) >= MinLength
      && !Contains(result.content, "{{") && !Contains(result.content, "}}")
    ensures result.error.Some? ==> r == result.error
  {
    if result.error.Some? then result.error
    else if TrimSpace(result.content) == [] then Some(EmptyContent)
    else if ByteLength(result.content) < MinLength then Some(TooShort)
    else if Contains(result.content, "{{") || Contains(result.content, "}}") then Some(Unreplaced)
    else None
  }

  /** A valid prompt has a character that is not white space and at least 25 characters. */
  lemma ValidPromptHasText(result: PromptResult)
    requires ValidatePromptResult(result).None?
    ensures exists i :: 0 <= i < |result.content| && !IsSpace(result.content[i])
    ensures |result.content| >= 25
  {
    TrimSpaceEmptyIff(result.content);
  }
}
