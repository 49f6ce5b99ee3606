/**
 * The synthesizer (internal/synthesizer/synthesizer.go): regenerates a
 * persona's synthesized.md from the raw outputs stored in the personas
 * repository. The repository, the prompt file and the synthesis call are
 * parameters (`SynthServices`).
 */
module Synthesizer {
  import opened Wrappers
  import opened Str
  import StructuredPr

  /** The providers in the fixed order the prompt lists them. */
  const Providers: seq<string> := ["Claude", "Gemini", "Grok", "GPT-4"]
  const UserKey := "User"
  const PersonasPlaceholder := "{{PERSONAS}}"

  /** The block of the provider at position `i` (0-based) of `Providers`. */
  function ProviderBlock(i: nat, provider: string, content: string): string
  {
    (if i > 0 then "\n\n" else "") + "Persona " + IntToString(i + 1) + ": " + provider + "\n" + "<<<\n" + content + "\n>>>"
  }

  function UserBlock(content: string): string
  {
    "\n\nUser-Supplied Persona\n" + "<<<\n" + content + "\n>>>"
  }

  /** The blocks of the first `n` providers that have an output. */
  function ProviderSection(raw: map<string, string>, n: nat): string
    requires n <= |Providers|
  {
    if n == 0 then ""
    else
      ProviderSection(raw, n - 1)
      + (if Providers[n - 1] in raw then ProviderBlock(n - 1, Providers[n - 1], raw[Providers[n - 1]]) else "")
  }

  /** The text `formatPersonasForPrompt` builds. */
  function FormattedPersonas(raw: map<string, string>): string
  {
    ProviderSection(raw, |Providers|) + (if UserKey in raw then UserBlock(raw[UserKey]) else "")
  }

  /** `formatPersonasForPrompt`, writing the blocks one after another. */
  method FormatPersonasForPrompt(raw: map<string, string>) returns (output: string)
    ensures output == FormattedPersonas(raw)
  {
    output := "";
    for i := 0 to |Providers|
      invariant output == ProviderSection(raw, i)
    {
      var provider := Providers[i];
      ghost var before := output;
      if provider in raw {
        if i > 0 {
          output := output + "\n\n";
        }
        output := output + "Persona " + IntToString(i + 1) + ": " + provider + "\n";
        output := output + "<<<\n";
        output := output + raw[provider];
        output := output + "\n>>>";
        BlockAppended(before, i, provider, raw[provider], output);
      }
    }
    if UserKey in raw {
      output := output + "\n\nUser-Supplied Persona\n";
      output := output + "<<<\n";
      output := output + raw[UserKey];
      output := output + "\n>>>";
    }
  }

  /** Appending the pieces of a block one after another appends the block. */
  lemma BlockAppended(before: string, i: nat, provider: string, content: string, output: string)
    requires output == (if i > 0 then before + "\n\n" else before) + "Persona " + IntToString(i + 1) + ": " + provider + "\n"
                       + "<<<\n" + content + "\n>>>"
    ensures output == before + ProviderBlock(i, provider, content)
  {
  }

  /** Providers without an output add nothing to a section. */
  lemma {:induction false} SectionOfAbsent(raw: map<string, string>, n: nat)
    requires n <= |Providers|
    requires forall k :: 0 <= k < n ==> Providers[k] !in raw
    ensures ProviderSection(raw, n) == ""
  {
    if n > 0 {
      SectionOfAbsent(raw, n - 1);
    }
  }

  /**
   * With a single provider's output and no user persona, the text is that
   * provider's block alone, labelled by its fixed position: the labels of
   * absent providers leave a gap.
   */
  lemma OnlyProvider(raw: map<string, string>, j: nat)
    requires j < |Providers| && Providers[j] in raw && UserKey !in raw
    requires forall k :: 0 <= k < |Providers| && k != j ==> Providers[k] !in raw
    ensures FormattedPersonas(raw) == ProviderBlock(j, Providers[j], raw[Providers[j]])
  {
    SectionOfAbsent(raw, j);
    var n := j + 1;
    while n < |Providers|
      invariant j < n <= |Providers|
      invariant ProviderSection(raw, n) == ProviderBlock(j, Providers[j], raw[Providers[j]])
    {
      n := n + 1;
    }
  }

  /** A shorter section is a prefix of a longer one. */
  lemma {:induction false} SectionPrefix(raw: map<string, string>, m: nat, n: nat)
    requires m <= n <= |Providers|
    ensures HasPrefix(ProviderSection(raw, n), ProviderSection(raw, m))
  {
    if m < n {
      SectionPrefix(raw, m, n - 1);
      assert ProviderSection(raw, n)[..|ProviderSection(raw, n - 1)|] == ProviderSection(raw, n - 1);
    }
  }

  /** The section of all providers opens the text. */
  lemma SectionOpensText(raw: map<string, string>, m: nat)
    requires m <= |Providers|
    ensures HasPrefix(FormattedPersonas(raw), ProviderSection(raw, m))
  {
    SectionPrefix(raw, m, |Providers|);
    var all := ProviderSection(raw, |Providers|);
    assert FormattedPersonas(raw)[..|all|] == all;
  }

  /**
   * The separator goes before every block but the first provider's, so when
   * Claude has no output and another provider has one the text starts with
   * two line breaks.
   */
  lemma LeadingBreak(raw: map<string, string>)
    requires Providers[0] !in raw
    requires exists k :: 1 <= k < |Providers| && Providers[k] in raw
    ensures HasPrefix(FormattedPersonas(raw), "\n\n")
  {
    var k := FirstWithOutput(raw);
    SectionOfAbsent(raw, k);
    BlockOpensText(raw, k);
  }

  /** The first provider, after Claude, that has an output. */
  lemma FirstWithOutput(raw: map<string, string>) returns (k: nat)
    requires Providers[0] !in raw
    requires exists k :: 1 <= k < |Providers| && Providers[k] in raw
    ensures 1 <= k < |Providers| && Providers[k] in raw
    ensures forall j :: 0 <= j < k ==> Providers[j] !in raw
  {
    k := if Providers[1] in raw then 1 else if Providers[2] in raw then 2 else 3;
  }

  /** When nothing comes before a later provider's block, the text opens with its separator. */
  lemma BlockOpensText(raw: map<string, string>, k: nat)
    requires 1 <= k < |Providers| && Providers[k] in raw
    requires ProviderSection(raw, k) == ""
    ensures HasPrefix(FormattedPersonas(raw), "\n\n")
  {
    var block := ProviderBlock(k, Providers[k], raw[Providers[k]]);
    assert ProviderSection(raw, k + 1) == block;
    SectionOpensText(raw, k + 1);
    assert HasPrefix(block, "\n\n") by {
      assert block[..2] == "\n\n";
    }
    PrefixOfPrefix(FormattedPersonas(raw), block, "\n\n");
  }

  /** Each provider's output appears in the text, in its labelled block. */
  lemma BlockPresent(raw: map<string, string>, j: nat)
    requires j < |Providers| && Providers[j] in raw
    ensures Contains(FormattedPersonas(raw), ProviderBlock(j, Providers[j], raw[Providers[j]]))
  {
    var block := ProviderBlock(j, Providers[j], raw[Providers[j]]);
    var front := ProviderSection(raw, j);
    assert ProviderSection(raw, j + 1) == front + block;
    SectionOpensText(raw, j + 1);
    var text := FormattedPersonas(raw);
    assert text[|front|..|front| + |block|] == (front + block)[|front|..];
    ContainsAt(text, block, |front|);
  }

  /** `prepareCombinationPrompt`: the first `{{PERSONAS}}` becomes the formatted outputs. */
  function PrepareCombinationPrompt(template: string, raw: map<string, string>): (r: string)
    ensures !Contains(template, PersonasPlaceholder) ==> r == template
    ensures Contains(template, PersonasPlaceholder) ==> Contains(r, FormattedPersonas(raw))
  {
    var p := FormattedPersonas(raw);
    var r := ReplaceFirst(template, PersonasPlaceholder, p);
    assert Contains(template, PersonasPlaceholder) ==> Contains(r, p) by {
      if Contains(template, PersonasPlaceholder) {
        var i := Index(template, PersonasPlaceholder).value;
        assert At(p, p, 0) by {
          assert p[0..|p|] == p;
        }
        ContainsAt(p, p, 0);
        ContainsInside(template[..i], p, template[i + |PersonasPlaceholder|..], p);
      }
    }
    r
  }

  /** A template without the placeholder comes back as it is, whatever the outputs. */
  lemma PromptWithoutPlaceholder(template: string, raw: map<string, string>)
    requires !Contains(template, PersonasPlaceholder)
    ensures PrepareCombinationPrompt(template, raw) == template
  {
  }

  /**
   * The built-in template, used when prompts/persona_combination.txt cannot
   * be read, written in pieces so that each can be seen to hold no brace.
   */
  const DefaultCombinationPrompt: string :=
    DefaultPromptPart1 + DefaultPromptPart2 + DefaultPromptPart3 + DefaultPromptPart4 + DefaultPromptPart5
    + DefaultPromptPart6 + DefaultPromptPart7

  const DefaultPromptPart1: string := DefaultPromptPart1A + DefaultPromptPart1B
  const DefaultPromptPart2: string := DefaultPromptPart2A + DefaultPromptPart2B
  const DefaultPromptPart3: string := DefaultPromptPart3A + DefaultPromptPart3B
  const DefaultPromptPart4: string := DefaultPromptPart4A + DefaultPromptPart4B
  const DefaultPromptPart5: string := DefaultPromptPart5A + DefaultPromptPart5B
  const DefaultPromptPart6: string := DefaultPromptPart6A + DefaultPromptPart6B
  const DefaultPromptPart7: string := DefaultPromptPart7A + DefaultPromptPart7B

  const DefaultPromptPart1A: string :=
    "You are tasked with " + "synthesizing multiple " + "AI-generated personas " + "into a single, comprehen"
    + "sive persona. Each "
  const DefaultPromptPart1B: string :=
    "AI has created their " + "own interpretation " + "based on the same " + "initial requirements.\n"
  const DefaultPromptPart2A: string :=
    "\nYour goal is to:\n" + "\n1. **Identify Common " + "Themes**: Find the " + "core characteristics, "
    + "behaviors, and traits "
  const DefaultPromptPart2B: string :=
    "that appear across " + "multiple AI interpretati" + "ons\n2. **Capture " + "Unique Insights**: "
  const DefaultPromptPart3A: string :=
    "Preserve valuable " + "unique elements " + "that only one AI " + "might have identified\n"
    + "3. **Resolve Contradicti"
  const DefaultPromptPart3B: string :=
    "ons**: Where AIs " + "disagree, make thoughtfu" + "l decisions about " + "which interpretation "
  const DefaultPromptPart4A: string :=
    "best serves the " + "persona\n4. **Enhance " + "Depth**: Combine " + "complementary details "
    + "to create a richer, "
  const DefaultPromptPart4B: string :=
    "more nuanced character\n" + "5. **Ensure Coherence**:" + " Create a unified " + "persona that feels "
  const DefaultPromptPart5A: string :=
    "like a single, well-deve" + "loped character\n" + "\nGuidelines:\n- Maintain " + "the essential identity "
    + "and purpose of the "
  const DefaultPromptPart5B: string :=
    "persona\n- Prioritize " + "elements that appear " + "in multiple versions\n" + "- Include specific "
  const DefaultPromptPart6A: string :=
    "examples, quotes, " + "and behavioral patterns\n" + "- Ensure the voice " + "and communication "
    + "style is consistent\n"
  const DefaultPromptPart6B: string :=
    "- Create a persona " + "that is immediately " + "usable in applications\n" + "\nThe synthesized "
  const DefaultPromptPart7A: string :=
    "persona should be " + "comprehensive (3000-5000" + " words) and include " + "all necessary details "
  const DefaultPromptPart7B: string :=
    "for someone to effective" + "ly roleplay or implement" + " this character."

  lemma NoBraceInPart1A()
    ensures '{' !in DefaultPromptPart1A
  {
  }

  lemma NoBraceInPart1B()
    ensures '{' !in DefaultPromptPart1B
  {
  }

  lemma NoBraceInPart2A()
    ensures '{' !in DefaultPromptPart2A
  {
  }

  lemma NoBraceInPart2B()
    ensures '{' !in DefaultPromptPart2B
  {
  }

  lemma NoBraceInPart3A()
    ensures '{' !in DefaultPromptPart3A
  {
  }

  lemma NoBraceInPart3B()
    ensures '{' !in DefaultPromptPart3B
  {
  }

  lemma NoBraceInPart4A()
    ensures '{' !in DefaultPromptPart4A
  {
  }

  lemma NoBraceInPart4B()
    ensures '{' !in DefaultPromptPart4B
  {
  }

  lemma NoBraceInPart5A()
    ensures '{' !in DefaultPromptPart5A
  {
  }

  lemma NoBraceInPart5B()
    ensures '{' !in DefaultPromptPart5B
  {
  }

  lemma NoBraceInPart6A()
    ensures '{' !in DefaultPromptPart6A
  {
  }

  lemma NoBraceInPart6B()
    ensures '{' !in DefaultPromptPart6B
  {
  }

  lemma NoBraceInPart7A()
    ensures '{' !in DefaultPromptPart7A
  {
  }

  lemma NoBraceInPart7B()
    ensures '{' !in DefaultPromptPart7B
  {
  }

  lemma NoBraceInPart1()
    ensures '{' !in DefaultPromptPart1
  {
    NoBraceInPart1A();
    NoBraceInPart1B();
  }

  lemma NoBraceInPart2()
    ensures '{' !in DefaultPromptPart2
  {
    NoBraceInPart2A();
    NoBraceInPart2B();
  }

  lemma NoBraceInPart3()
    ensures '{' !in DefaultPromptPart3
  {
    NoBraceInPart3A();
    NoBraceInPart3B();
  }

  lemma NoBraceInPart4()
    ensures '{' !in DefaultPromptPart4
  {
    NoBraceInPart4A();
    NoBraceInPart4B();
  }

  lemma NoBraceInPart5()
    ensures '{' !in DefaultPromptPart5
  {
    NoBraceInPart5A();
    NoBraceInPart5B();
  }

  lemma NoBraceInPart6()
    ensures '{' !in DefaultPromptPart6
  {
    NoBraceInPart6A();
    NoBraceInPart6B();
  }

  lemma NoBraceInPart7()
    ensures '{' !in DefaultPromptPart7
  {
    NoBraceInPart7A();
    NoBraceInPart7B();
  }

  /** The built-in template has no placeholder, so with it the raw outputs never reach the synthesis call. */
  lemma NoBraceInDefault()
    ensures '{' !in DefaultCombinationPrompt
  {
    NoBraceInPart1();
    NoBraceInPart2();
    NoBraceInPart3();
    NoBraceInPart4();
    NoBraceInPart5();
    NoBraceInPart6();
    NoBraceInPart7();
  }

  lemma DefaultPromptIgnoresOutputs(raw: map<string, string>)
    ensures PrepareCombinationPrompt(DefaultCombinationPrompt, raw) == DefaultCombinationPrompt
  {
    NoBraceInDefault();
    MissingCharNotContained(DefaultCombinationPrompt, PersonasPlaceholder, '{');
  }

  /** `loadCombinationPrompt`: the prompt file's text, or the built-in template when it cannot be read. */
  function CombinationPrompt(promptFile: Option<string>): string
  {
    match promptFile
    case Some(text) => text
    case None => DefaultCombinationPrompt
  }

  /**
   * When the prompt file cannot be read, the prompt sent is the built-in
   * template itself, whatever raw outputs were found.
   */
  lemma MissingPromptFileDropsOutputs(personaName: string, svc: SynthServices)
    requires svc.combinationPrompt == CombinationPrompt(None)
    ensures SynthesisPrompt(personaName, svc) == DefaultCombinationPrompt
  {
    DefaultPromptIgnoresOutputs(RawOutputs(personaName, svc));
  }

  /** `personaToFolderName`. */
  function PersonaToFolderName(personaName: string): (r: string)
    ensures |r| == |personaName|
    ensures forall i :: 0 <= i < |r| ==> r[i] != ' ' && r[i] != '/' && !IsUpper(r[i])
  {
    MapChar(Lower(MapChar(personaName, ' ', '_')), '/', '_')
  }

  /** The synthesizer names folders the way the structured PR does. */
  lemma FolderNamesAgree(personaName: string)
    ensures "personas/" + PersonaToFolderName(personaName) == StructuredPr.FolderName(personaName)
  {
  }

  /** The first letter of a word in upper case. */
  function Capitalize(word: string): (r: string)
    ensures |r| == |word|
  {
    if |word| > 0 then [UpperChar(word[0])] + word[1..] else word
  }

  function Capitalized(words: seq<string>): (r: seq<string>)
    ensures |r| == |words|
    ensures forall k :: 0 <= k < |words| ==> r[k] == Capitalize(words[k])
  {
    seq(|words|, k requires 0 <= k < |words| => Capitalize(words[k]))
  }

  /** The display name `folderToPersonaName` gives a folder. */
  function TitleCased(folderName: string): string
  {
    Join(Capitalized(Split(folderName, '_')), " ")
  }

  /** `folderToPersonaName`: capitalises each `_`-separated word in place, then joins with spaces. */
  method FolderToPersonaName(folderName: string) returns (personaName: string)
    ensures personaName == TitleCased(folderName)
  {
    var words := Split(folderName, '_');
    ghost var parts := words;
    for i := 0 to |words|
      invariant |words| == |parts|
      invariant forall k :: 0 <= k < i ==> words[k] == Capitalize(parts[k])
      invariant forall k :: i <= k < |words| ==> words[k] == parts[k]
    {
      if |words[i]| > 0 {
        words := words[i := [UpperChar(words[i][0])] + words[i][1..]];
      }
    }
    assert words == Capitalized(parts);
    personaName := Join(words, " ");
  }

  /** Folding a name to a folder works character by character. */
  lemma FolderOfConcat(a: string, b: string)
    ensures PersonaToFolderName(a + b) == PersonaToFolderName(a) + PersonaToFolderName(b)
  {
    assert MapChar(a + b, ' ', '_') == MapChar(a, ' ', '_') + MapChar(b, ' ', '_');
    LowerConcat(MapChar(a, ' ', '_'), MapChar(b, ' ', '_'));
    var la := Lower(MapChar(a, ' ', '_'));
    var lb := Lower(MapChar(b, ' ', '_'));
    assert MapChar(la + lb, '/', '_') == MapChar(la, '/', '_') + MapChar(lb, '/', '_');
  }

  /** A word with no capital, space or slash folds back from its capitalised form. */
  lemma FolderOfCapitalized(word: string)
    requires forall i :: 0 <= i < |word| ==> word[i] != ' ' && word[i] != '/' && !IsUpper(word[i])
    ensures PersonaToFolderName(Capitalize(word)) == word
  {
  }

  lemma {:induction false} FolderOfJoined(words: seq<string>)
    requires |words| >= 1
    requires forall k, i :: 0 <= k < |words| && 0 <= i < |words[k]| ==>
      words[k][i] != ' ' && words[k][i] != '/' && !IsUpper(words[k][i])
    ensures PersonaToFolderName(Join(Capitalized(words), " ")) == Join(words, "_")
    decreases |words|
  {
    FolderOfCapitalized(words[0]);
    if |words| > 1 {
      assert Capitalized(words)[1..] == Capitalized(words[1..]);
      FolderOfJoined(words[1..]);
      var rest := Join(Capitalized(words[1..]), " ");
      FolderOfConcat(Capitalize(words[0]) + " ", rest);
      FolderOfConcat(Capitalize(words[0]), " ");
    }
  }

  /**
   * `personaToFolderName(folderToPersonaName(f)) == f` for every folder name
   * with no capital letter, space or slash.
   */
  lemma FolderRoundTrip(folderName: string)
    requires forall i :: 0 <= i < |folderName| ==>
      folderName[i] != ' ' && folderName[i] != '/' && !IsUpper(folderName[i])
    ensures PersonaToFolderName(TitleCased(folderName)) == folderName
  {
    var words := Split(folderName, '_');
    forall k, i | 0 <= k < |words| && 0 <= i < |words[k]|
      ensures words[k][i] != ' ' && words[k][i] != '/' && !IsUpper(words[k][i])
    {
      SplitChars(folderName, '_', k, words[k][i]);
    }
    FolderOfJoined(words);
    JoinSplit(folderName, '_');
  }

  // ------------------------------------------------------------- one persona

  /**
   * The repository, the template `loadCombinationPrompt` returned (see
   * `CombinationPrompt`) and the synthesis call.
   */
  datatype SynthServices = SynthServices(
    getFile: string -> Result<string>,
    combinationPrompt: string,
    generateSynthesis: string -> Result<string>,
    createUpdatePr: (string, string, string) -> Option<string>)

  datatype RawFile = RawFile(name: string, path: string)

  /** The raw files `fetchRawOutputs` asks for, user-supplied last. */
  function RawFiles(folderName: string): (r: seq<RawFile>)
    ensures forall i, j :: 0 <= i < j < |r| ==> r[i].name != r[j].name
  {
    [RawFile("Claude", "personas/" + folderName + "/raw/claude.md"),
     RawFile("Gemini", "personas/" + folderName + "/raw/gemini.md"),
     RawFile("Grok", "personas/" + folderName + "/raw/grok.md"),
     RawFile("GPT-4", "personas/" + folderName + "/raw/gpt.md"),
     RawFile(UserKey, "personas/" + folderName + "/raw/user_supplied.md")]
  }

  /** The outputs fetched from `files`: a file that cannot be read is left out. */
  function Fetched(files: seq<RawFile>, getFile: string -> Result<string>): map<string, string>
  {
    if files == [] then map[]
    else
      var outputs := Fetched(files[..|files| - 1], getFile);
      var file := files[|files| - 1];
      match getFile(file.path)
      case Ok(content) => outputs[file.name := content]
      case Err(_) => outputs
  }

  /** A provider has an output exactly when its file could be read, and the output is the file's text. */
  lemma {:induction false} FetchedExactly(files: seq<RawFile>, getFile: string -> Result<string>)
    requires forall i, j :: 0 <= i < j < |files| ==> files[i].name != files[j].name
    ensures forall i :: 0 <= i < |files| ==> (files[i].name in Fetched(files, getFile) <==> getFile(files[i].path).Ok?)
    ensures forall i :: 0 <= i < |files| && getFile(files[i].path).Ok? ==>
      Fetched(files, getFile)[files[i].name] == getFile(files[i].path).value
    ensures forall name :: name in Fetched(files, getFile) ==> exists i :: 0 <= i < |files| && files[i].name == name
  {
    if files != [] {
      var init, last := files[..|files| - 1], files[|files| - 1];
      var out := Fetched(files, getFile);
      FetchedExactly(init, getFile);
      assert out == if getFile(last.path).Ok? then Fetched(init, getFile)[last.name := getFile(last.path).value]
                    else Fetched(init, getFile);
      forall i | 0 <= i < |files|
        ensures files[i].name in out <==> getFile(files[i].path).Ok?
        ensures getFile(files[i].path).Ok? ==> out[files[i].name] == getFile(files[i].path).value
      {
        if i < |init| {
          assert init[i] == files[i] && files[i].name != last.name;
        }
      }
      forall name | name in out
        ensures exists i :: 0 <= i < |files| && files[i].name == name
      {
        if name != last.name {
          var i :| 0 <= i < |init| && init[i].name == name;
          assert files[i].name == name;
        }
      }
    }
  }

  /** `fetchRawOutputs`: never fails; files that cannot be read are skipped. */
  method FetchRawOutputs(folderName: string, getFile: string -> Result<string>) returns (outputs: map<string, string>)
    ensures outputs == Fetched(RawFiles(folderName), getFile)
  {
    var rawFiles := RawFiles(folderName);
    outputs := map[];
    for i := 0 to |rawFiles|
      invariant outputs == Fetched(rawFiles[..i], getFile)
    {
      assert rawFiles[..i + 1][..i] == rawFiles[..i];
      var file := rawFiles[i];
      var content := getFile(file.path);
      if content.Err? {
        continue;
      }
      outputs := outputs[file.name := content.value];
    }
    assert rawFiles[..|rawFiles|] == rawFiles;
  }

  /** The outputs found for a persona. */
  function RawOutputs(personaName: string, svc: SynthServices): map<string, string>
  {
    Fetched(RawFiles(PersonaToFolderName(personaName)), svc.getFile)
  }

  /** The prompt sent for a persona. */
  function SynthesisPrompt(personaName: string, svc: SynthServices): string
  {
    PrepareCombinationPrompt(svc.combinationPrompt, RawOutputs(personaName, svc))
  }

  /** The error `SynthesizeOne` ends with, if any. */
  function SynthesisOutcome(personaName: string, svc: SynthServices): Option<string>
  {
    var raw := RawOutputs(personaName, svc);
    if |raw| == 0 then Some("no raw AI outputs found for persona " + personaName)
    else
      match svc.generateSynthesis(SynthesisPrompt(personaName, svc))
      case Err(e) => Some("failed to generate synthesis: " + e)
      case Ok(synthesized) =>
        match svc.createUpdatePr(personaName, PersonaToFolderName(personaName), synthesized)
        case Some(e) => Some("failed to create update PR: failed to create synthesis update PR: " + e)
        case None => None
  }

  /** Some raw file of the persona can be read. */
  predicate AnyRawFile(personaName: string, svc: SynthServices)
  {
    exists file :: file in RawFiles(PersonaToFolderName(personaName)) && svc.getFile(file.path).Ok?
  }

  /**
   * A synthesis goes through exactly when at least one raw file (the
   * user-supplied one counts) can be read, the synthesis call answers and the
   * PR is opened; any other raw file may be missing.
   */
  lemma SynthesisSucceedsIff(personaName: string, svc: SynthServices)
    ensures SynthesisOutcome(personaName, svc).None? <==>
      AnyRawFile(personaName, svc)
      && svc.generateSynthesis(SynthesisPrompt(personaName, svc)).Ok?
      && svc.createUpdatePr(personaName, PersonaToFolderName(personaName),
                            svc.generateSynthesis(SynthesisPrompt(personaName, svc)).value).None?
  {
    NoRawOutputIff(personaName, svc);
  }

  /** No outputs at all exactly when none of the five files can be read. */
  lemma NoRawOutputIff(personaName: string, svc: SynthServices)
    ensures |RawOutputs(personaName, svc)| == 0 <==> !AnyRawFile(personaName, svc)
    ensures !AnyRawFile(personaName, svc) ==>
      SynthesisOutcome(personaName, svc) == Some("no raw AI outputs found for persona " + personaName)
  {
    var files := RawFiles(PersonaToFolderName(personaName));
    FetchedExactly(files, svc.getFile);
    if AnyRawFile(personaName, svc) {
      var file :| file in files && svc.getFile(file.path).Ok?;
      var i :| 0 <= i < |files| && files[i] == file;
      assert files[i].name in RawOutputs(personaName, svc);
    }
    if |RawOutputs(personaName, svc)| != 0 {
      var name :| name in RawOutputs(personaName, svc);
      var i :| 0 <= i < |files| && files[i].name == name;
      assert files[i] in files;
    }
  }

  /** `SynthesizeOne`. */
  method SynthesizeOne(personaName: string, svc: SynthServices) returns (err: Option<string>)
    ensures err == SynthesisOutcome(personaName, svc)
  {
    var folderName := PersonaToFolderName(personaName);
    var rawOutputs := FetchRawOutputs(folderName, svc.getFile);
    if |rawOutputs| == 0 {
      return Some("no raw AI outputs found for persona " + personaName);
    }
    var combinationPrompt := svc.combinationPrompt;
    var personasSection := FormatPersonasForPrompt(rawOutputs);
    var fullPrompt := ReplaceFirst(combinationPrompt, PersonasPlaceholder, personasSection);
    var synthesized := svc.generateSynthesis(fullPrompt);
    if synthesized.Err? {
      return Some("failed to generate synthesis: " + synthesized.error);
    }
    var prErr := svc.createUpdatePr(personaName, folderName, synthesized.value);
    if prErr.Some? {
      return Some("failed to create update PR: failed to create synthesis update PR: " + prErr.value);
    }
    return None;
  }

  // ------------------------------------------------------------ all personas

  /** What `SynthesizeOne` ends with for each folder's display name, in order. */
  function Outcomes(folders: seq<string>, svc: SynthServices): (r: seq<Option<string>>)
    ensures |r| == |folders|
  {
    if folders == [] then []
    else Outcomes(folders[..|folders| - 1], svc) + [SynthesisOutcome(TitleCased(folders[|folders| - 1]), svc)]
  }

  /** How many of `outcomes` are successes. */
  function CountOk(outcomes: seq<Option<string>>): (n: nat)
    ensures n <= |outcomes|
  {
    if outcomes == [] then 0
    else CountOk(outcomes[..|outcomes| - 1]) + (if outcomes[|outcomes| - 1].None? then 1 else 0)
  }

  /** Everything is counted exactly when nothing failed. */
  lemma {:induction false} AllOkIff(outcomes: seq<Option<string>>)
    ensures CountOk(outcomes) == |outcomes| <==> forall i :: 0 <= i < |outcomes| ==> outcomes[i].None?
  {
    if outcomes != [] {
      var init := outcomes[..|outcomes| - 1];
      AllOkIff(init);
      assert forall i :: 0 <= i < |init| ==> init[i] == outcomes[i];
    }
  }

  lemma OutcomesPrefix(folders: seq<string>, i: nat, svc: SynthServices)
    requires i < |folders|
    ensures Outcomes(folders[..i + 1], svc) == Outcomes(folders[..i], svc) + [SynthesisOutcome(TitleCased(folders[i]), svc)]
  {
    assert folders[..i + 1][..i] == folders[..i];
  }

  lemma CountOkAppend(outcomes: seq<Option<string>>, outcome: Option<string>)
    ensures CountOk(outcomes + [outcome]) == CountOk(outcomes) + (if outcome.None? then 1 else 0)
  {
    assert (outcomes + [outcome])[..|outcomes|] == outcomes;
  }

  /** One turn of `SynthesizeAll`: the folder's display name, then `SynthesizeOne`. */
  method SynthesizeFolder(folder: string, svc: SynthServices) returns (ok: bool)
    ensures ok == SynthesisOutcome(TitleCased(folder), svc).None?
  {
    var personaName := FolderToPersonaName(folder);
    var e := SynthesizeOne(personaName, svc);
    ok := e.None?;
  }

  /**
   * `SynthesizeAll`: fails only when the folders cannot be listed; otherwise a
   * failure for one persona does not stop the others, and only successes are
   * counted.
   */
  method SynthesizeAll(folders: Result<seq<string>>, svc: SynthServices) returns (err: Option<string>, successCount: nat)
    ensures folders.Err? ==> err == Some("failed to list personas: " + folders.error) && successCount == 0
    ensures folders.Ok? ==> err.None? && successCount == CountOk(Outcomes(folders.value, svc))
  {
    successCount := 0;
    if folders.Err? {
      return Some("failed to list personas: " + folders.error), 0;
    }
    var personas := folders.value;
    for i := 0 to |personas|
      invariant successCount == CountOk(Outcomes(personas[..i], svc))
    {
      OutcomesPrefix(personas, i, svc);
      CountOkAppend(Outcomes(personas[..i], svc), SynthesisOutcome(TitleCased(personas[i]), svc));
      var ok := SynthesizeFolder(personas[i], svc);
      if !ok {
        continue;
      }
      successCount := successCount + 1;
    }
    assert personas[..|personas|] == personas;
    err := None;
  }
}
