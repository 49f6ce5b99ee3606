/**
 * The GitHub-integrated prompt service: prompts are generated from the
 * synthesized persona held in the personas repository and delivered as a
 * pull request together with an updated README and asset status, instead of
 * being saved locally.
 *
 * The repository's file reads, the pull-request client, the JSON encoding of
 * an asset status and the local check whether a persona folder exists are
 * values of the service; the ledger of opened pull requests is the tracker
 * object.
 */
module PromptGitHubService {
  import opened Wrappers
  import opened Str
  import opened PromptGenerator
  import Assets
  import AssetMonitor
  import PrTracking
  import PromptRepository
  import PromptService
  import PromptPr
  import StructuredPr

  type TimeFormats = PromptRepository.TimeFormats

  const FetchFailed := "failed to fetch synthesized persona from GitHub: "
  const CreateFailed := "failed to create GitHub PR: "
  const ParseFailed := "failed to parse existing asset status: "

  /** The three values `generatePromptsWithPR` takes for the kind of prompts. */
  const AllKind := "all"
  const PlatformKind := "platform"
  const VariationKind := "variation"

  /** The error `fetchSynthesizedFromGitHub` wraps a failed read in. */
  function FetchError(path: string, e: string): string
  {
    "failed to fetch " + path + " from GitHub: " + e
  }

  // ---------------------------------------------------------- README text

  const GeneratedHeading := "## Generated Prompts"
  const PromptsHeading := "## Prompts"
  const SectionPrefix := "## "

  const SectionIntro := "\n\nThis persona includes optimized prompts for various AI platforms and use cases:\n\n"
  const PlatformTable := "### Platform-Specific Prompts\n\n| Platform | File | Description |\n|----------|------|-------------|\n"
  const ChatGptRow := "| **ChatGPT** | [`prompts/chatgpt.md`](prompts/chatgpt.md) | Optimized for ChatGPT's conversational interface |\n"
  const ClaudeRow := "| **Claude** | [`prompts/claude.md`](prompts/claude.md) | Tailored for Claude's analytical and helpful nature |\n"
  const GeminiRow := "| **Gemini** | [`prompts/gemini.md`](prompts/gemini.md) | Designed for Google's Gemini AI assistant |\n"
  const DiscordRow := "| **Discord Bot** | [`prompts/discord.md`](prompts/discord.md) | Formatted for Discord bot personality integration |\n"
  const CharacterAiRow := "| **Character.AI** | [`prompts/characterai.md`](prompts/characterai.md) | Structured for Character.AI's roleplay environment |\n\n"
  const VariationTable := "### Prompt Variations\n\n| Type | File | Description |\n|------|------|-------------|\n"
  const CondensedRow := "| **Condensed** | [`prompts/condensed.md`](prompts/condensed.md) | Shorter version for quick copy-paste use |\n"
  const AlternativeRow := "| **Alternative** | [`prompts/alternative.md`](prompts/alternative.md) | Alternative approaches and variations |\n\n"
  const HowToUseText := "### How to Use\n\n1. **Choose the appropriate prompt** for your AI platform\n"
    + "2. **Copy the entire content** from the corresponding file\n"
    + "3. **Paste into your AI interface** as a system prompt or initial message\n"
    + "4. **Start conversing** with the persona\n\n"
  const DetailsText := "### Generation Details\n\n- **Generated by:** [Studio Multi-AI Pipeline](https://github.com/twin2ai/studio)\n"
    + "- **Model:** Gemini 2.0 Flash\n- **Source:** synthesized.md (combined from 4 AI providers)\n"
    + "- **Optimization:** Platform-specific templates and requirements\n\n"

  /** `generatePromptsSection`: a fixed text, whatever prompts were generated. */
  const GitHubSection := GeneratedHeading + SectionIntro + PlatformTable
    + ChatGptRow + ClaudeRow + GeminiRow + DiscordRow + CharacterAiRow
    + VariationTable + CondensedRow + AlternativeRow + HowToUseText + DetailsText

  const PipelineCredit := "This persona was generated by the [Studio Multi-AI Persona Generation Pipeline](https://github.com/twin2ai/studio).\n\n"
  const DescriptionHeading := "## Description\n\n"

  // ------------------------------------------------------ README rewrite

  /** A line that starts a prompts section. */
  predicate IsPromptsHeader(line: string)
  {
    HasPrefix(line, GeneratedHeading) || HasPrefix(line, PromptsHeading)
  }

  /** A line that starts the section after a prompts section. */
  predicate IsNextSection(line: string)
  {
    HasPrefix(line, SectionPrefix) && !IsPromptsHeader(line)
  }

  /** A header of a prompts section is a section line. */
  lemma HeaderIsSection(line: string)
    ensures IsPromptsHeader(line) ==> HasPrefix(line, SectionPrefix)
  {
    if HasPrefix(line, GeneratedHeading) {
      assert line[..3] == line[..|GeneratedHeading|][..3] == GeneratedHeading[..3];
    } else if HasPrefix(line, PromptsHeading) {
      assert line[..3] == line[..|PromptsHeading|][..3] == PromptsHeading[..3];
    }
  }

  /**
   * The lines the rewrite of `updateReadmeWithPrompts` keeps of `lines`, when
   * it is `skipping` a prompts section on reaching them: each header line
   * becomes `section`, and the lines after it are dropped up to the next
   * other section.
   */
  function Rewrite(lines: seq<string>, skipping: bool, section: seq<string>): seq<string>
    decreases |lines|
  {
    if lines == [] then []
    else
      var line := lines[0];
      if IsPromptsHeader(line) then section + Rewrite(lines[1..], true, section)
      else
        var still := skipping && !IsNextSection(line);
        (if still then [] else [line]) + Rewrite(lines[1..], still, section)
  }

  /** Without a header line, nothing is rewritten. */
  lemma {:induction false} RewriteHeaderless(lines: seq<string>, section: seq<string>)
    requires forall i :: 0 <= i < |lines| ==> !IsPromptsHeader(lines[i])
    ensures Rewrite(lines, false, section) == lines
    decreases |lines|
  {
    if lines != [] {
      RewriteHeaderless(lines[1..], section);
    }
  }

  /** Lines before the first header are kept as they are. */
  lemma {:induction false} RewriteKeepsPrefix(pre: seq<string>, rest: seq<string>, section: seq<string>)
    requires forall i :: 0 <= i < |pre| ==> !IsPromptsHeader(pre[i])
    ensures Rewrite(pre + rest, false, section) == pre + Rewrite(rest, false, section)
    decreases |pre|
  {
    if pre != [] {
      assert (pre + rest)[0] == pre[0] && !IsPromptsHeader(pre[0]);
      assert (pre + rest)[1..] == pre[1..] + rest;
      RewriteKeepsPrefix(pre[1..], rest, section);
      assert Rewrite(pre + rest, false, section) == [pre[0]] + Rewrite(pre[1..] + rest, false, section);
      assert pre == [pre[0]] + pre[1..];
    } else {
      assert pre + rest == rest;
    }
  }

  /** While skipping, lines that start no section are dropped. */
  lemma {:induction false} RewriteSkipsBody(body: seq<string>, post: seq<string>, section: seq<string>)
    requires forall i :: 0 <= i < |body| ==> !HasPrefix(body[i], SectionPrefix)
    ensures Rewrite(body + post, true, section) == Rewrite(post, true, section)
    decreases |body|
  {
    if body != [] {
      HeaderIsSection(body[0]);
      assert (body + post)[0] == body[0] && !IsPromptsHeader(body[0]) && !IsNextSection(body[0]);
      assert (body + post)[1..] == body[1..] + post;
      assert Rewrite(body + post, true, section) == Rewrite(body[1..] + post, true, section);
      RewriteSkipsBody(body[1..], post, section);
    } else {
      assert body + post == post;
    }
  }

  /**
   * A prompts section — its header line and the lines up to the next other
   * `## ` section — is replaced by `section`; the lines before it are kept
   * and the rest is rewritten in the same way.
   */
  lemma RewriteReplacesSection(pre: seq<string>, header: string, body: seq<string>, post: seq<string>,
                               section: seq<string>)
    requires forall i :: 0 <= i < |pre| ==> !IsPromptsHeader(pre[i])
    requires IsPromptsHeader(header)
    requires forall i :: 0 <= i < |body| ==> !HasPrefix(body[i], SectionPrefix)
    requires post == [] || IsNextSection(post[0])
    ensures Rewrite(pre + [header] + body + post, false, section) == pre + section + Rewrite(post, false, section)
  {
    var tail := [header] + body + post;
    calc {
      Rewrite(pre + [header] + body + post, false, section);
      { assert pre + [header] + body + post == pre + tail; }
      Rewrite(pre + tail, false, section);
      { RewriteKeepsPrefix(pre, tail, section); }
      pre + Rewrite(tail, false, section);
      { RewriteFromHeader(header, body, post, section); }
      pre + (section + Rewrite(post, false, section));
      pre + section + Rewrite(post, false, section);
    }
  }

  /** The part of `RewriteReplacesSection` from the header on. */
  lemma RewriteFromHeader(header: string, body: seq<string>, post: seq<string>, section: seq<string>)
    requires IsPromptsHeader(header)
    requires forall i :: 0 <= i < |body| ==> !HasPrefix(body[i], SectionPrefix)
    requires post == [] || IsNextSection(post[0])
    ensures Rewrite([header] + body + post, false, section) == section + Rewrite(post, false, section)
  {
    var tail := [header] + body + post;
    assert tail[0] == header && tail[1..] == body + post;
    assert Rewrite(tail, false, section) == section + Rewrite(body + post, true, section);
    RewriteSkipsBody(body, post, section);
    if post != [] {
      assert Rewrite(post, true, section) == [post[0]] + Rewrite(post[1..], false, section);
    }
  }

  /** The loop of `updateReadmeWithPrompts` over the README's lines. */
  method RewriteLines(lines: seq<string>, section: seq<string>) returns (updated: seq<string>)
    ensures updated == Rewrite(lines, false, section)
  {
    updated := [];
    var skipSection := false;
    assert lines[0..] == lines;
    for i := 0 to |lines|
      invariant updated + Rewrite(lines[i..], skipSection, section) == Rewrite(lines, false, section)
    {
      var line := lines[i];
      assert lines[i..][1..] == lines[i + 1..];
      if IsPromptsHeader(line) {
        skipSection := true;
        updated := updated + section;
        continue;
      }
      if skipSection && IsNextSection(line) {
        skipSection := false;
      }
      if !skipSection {
        updated := updated + [line];
      }
    }
  }

  /** A trimmed line that `generateReadmeContent` takes as the description. */
  predicate Describes(line: string)
  {
    ByteLength(line) > 50 && !HasPrefix(line, "#")
  }

  /** Line `i` is the first of `lines` whose image under `f` satisfies `p`. */
  predicate FirstAt(lines: seq<string>, f: string -> string, p: string -> bool, i: int)
  {
    0 <= i < |lines| && p(f(lines[i])) && forall j :: 0 <= j < i ==> !p(f(lines[j]))
  }

  /** The image under `f` of the first line whose image satisfies `p`. */
  function FirstWith(lines: seq<string>, f: string -> string, p: string -> bool): Option<string>
    decreases |lines|
  {
    if lines == [] then None
    else if p(f(lines[0])) then Some(f(lines[0]))
    else FirstWith(lines[1..], f, p)
  }

  /** `FirstWith` finds the first matching line, and finds none only when there is none. */
  lemma {:induction false} FirstWithFinds(lines: seq<string>, f: string -> string, p: string -> bool)
    ensures FirstWith(lines, f, p).Some? ==>
      exists i :: FirstAt(lines, f, p, i) && FirstWith(lines, f, p).value == f(lines[i])
    ensures FirstWith(lines, f, p).None? ==> forall i :: 0 <= i < |lines| ==> !p(f(lines[i]))
    decreases |lines|
  {
    if lines != [] && !p(f(lines[0])) {
      var rest := lines[1..];
      FirstWithFinds(rest, f, p);
      if FirstWith(rest, f, p).Some? {
        var k :| FirstAt(rest, f, p, k) && FirstWith(rest, f, p).value == f(rest[k]);
        assert lines[k + 1] == rest[k];
        forall j | 0 <= j < k + 1 ensures !p(f(lines[j])) {
          if j > 0 {
            assert lines[j] == rest[j - 1];
          }
        }
        assert FirstAt(lines, f, p, k + 1);
      } else {
        forall i | 0 <= i < |lines| ensures !p(f(lines[i])) {
          if i > 0 {
            assert lines[i] == rest[i - 1];
          }
        }
      }
    } else if lines != [] {
      assert FirstAt(lines, f, p, 0);
    }
  }

  /** The first line of `lines` that, trimmed, describes the persona. */
  function FirstDescription(lines: seq<string>): Option<string>
  {
    FirstWith(lines, TrimSpace, Describes)
  }

  /** The description paragraph of a new README: only a synthesized text over 200 bytes is looked at. */
  function NewDescription(synthesized: Result<string>): string
  {
    if synthesized.Ok? && ByteLength(synthesized.value) > 200 then
      match FirstDescription(Split(synthesized.value, '\n'))
      case None => ""
      case Some(line) => DescriptionHeading + line + "\n\n"
    else ""
  }

  /**
   * `generateReadmeContent`: existing content is kept and the section
   * appended after a blank line; with none, a new README opens with the
   * persona's name, the pipeline credit and, if found, a description.
   */
  function ReadmeContent(personaName: string, existing: string, synthesized: Result<string>, section: string)
    : (r: string)
    ensures existing != "" ==> r == existing + "\n\n" + section
    ensures existing == "" ==> HasPrefix(r, "# " + personaName + "\n\n") && HasSuffix(r, section)
  {
    if existing != "" then existing + "\n\n" + section
    else
      var head := "# " + personaName + "\n\n";
      var r := head + PipelineCredit + NewDescription(synthesized) + section;
      assert r == head + (PipelineCredit + NewDescription(synthesized) + section);
      assert r[..|head|] == head;
      assert r == (head + PipelineCredit + NewDescription(synthesized)) + section;
      r
  }

  /** The loop of `generateReadmeContent`, looking for the description. */
  method GenerateReadmeContent(personaName: string, existing: string, synthesized: Result<string>, section: string)
    returns (r: string)
    ensures r == ReadmeContent(personaName, existing, synthesized, section)
  {
    if existing != "" {
      return existing + "\n\n" + section;
    }
    var description := "";
    if synthesized.Ok? && ByteLength(synthesized.value) > 200 {
      var lines := Split(synthesized.value, '\n');
      var i := 0;
      assert lines[0..] == lines;
      while i < |lines|
        invariant 0 <= i <= |lines| && description == ""
        invariant FirstWith(lines[i..], TrimSpace, Describes) == FirstDescription(lines)
      {
        var line := TrimSpace(lines[i]);
        if ByteLength(line) > 50 && !HasPrefix(line, "#") {
          description := DescriptionHeading + line + "\n\n";
          break;
        }
        assert lines[i..][1..] == lines[i + 1..];
        i := i + 1;
      }
    }
    return "# " + personaName + "\n\n" + PipelineCredit + description + section;
  }

  /**
   * `updateReadmeWithPrompts`: a README mentioning either prompts heading has
   * its prompts sections rewritten line by line; any other README gets the
   * section appended as `generateReadmeContent` does.
   */
  function UpdatedReadme(existing: string, personaName: string, synthesized: Result<string>, section: string)
    : (r: string)
    ensures existing != "" && !Contains(existing, GeneratedHeading) && !Contains(existing, PromptsHeading) ==>
      r == existing + "\n\n" + section
  {
    if Contains(existing, GeneratedHeading) || Contains(existing, PromptsHeading) then
      Join(Rewrite(Split(existing, '\n'), false, Split(section, '\n')), "\n")
    else ReadmeContent(personaName, existing, synthesized, section)
  }

  /** If the headings occur only inside lines, no section is found and the README comes back unchanged. */
  lemma MidLineHeadingUnchanged(existing: string, personaName: string, synthesized: Result<string>, section: string)
    requires Contains(existing, GeneratedHeading) || Contains(existing, PromptsHeading)
    requires forall i :: 0 <= i < |Split(existing, '\n')| ==> !IsPromptsHeader(Split(existing, '\n')[i])
    ensures UpdatedReadme(existing, personaName, synthesized, section) == existing
  {
    RewriteHeaderless(Split(existing, '\n'), Split(section, '\n'));
    JoinSplit(existing, '\n');
  }

  method UpdateReadmeWithPrompts(existing: string, personaName: string, synthesized: Result<string>, section: string)
    returns (r: string)
    ensures r == UpdatedReadme(existing, personaName, synthesized, section)
  {
    if Contains(existing, GeneratedHeading) || Contains(existing, PromptsHeading) {
      var lines := Split(existing, '\n');
      var updated := RewriteLines(lines, Split(section, '\n'));
      return Join(updated, "\n");
    }
    r := GenerateReadmeContent(personaName, existing, synthesized, section);
  }

  // ---------------------------------------------------------- asset status

  /** The asset a successful prompt of type `t` counts for, if any. */
  function CategoryOf(t: PromptType): Option<string>
  {
    if IsPlatformPrompt(t) then Some(Assets.PlatformPrompts)
    else if IsVariationPrompt(t) then Some(Assets.VariationPrompts)
    else None
  }

  /** Some error-free result counts for `category`. */
  predicate AnySucceeded(results: seq<PromptResult>, category: string)
  {
    exists i :: 0 <= i < |results| && results[i].error.None? && CategoryOf(results[i].promptType) == Some(category)
  }

  /** The categories of the error-free results, each once, in order of first success. */
  function Categories(results: seq<PromptResult>): (r: seq<string>)
    ensures PromptRepository.NoRepeats(r)
    ensures forall x :: x in r <==> AnySucceeded(results, x)
    ensures forall x :: x in r ==> x == Assets.PlatformPrompts || x == Assets.VariationPrompts
  {
    if results == [] then []
    else
      var init := results[..|results| - 1];
      var last := results[|results| - 1];
      var before := Categories(init);
      assert forall i :: 0 <= i < |init| ==> init[i] == results[i];
      assert forall x :: AnySucceeded(results, x) <==>
        AnySucceeded(init, x) || (last.error.None? && CategoryOf(last.promptType) == Some(x)) by {
        forall x | AnySucceeded(results, x) ensures
          AnySucceeded(init, x) || (last.error.None? && CategoryOf(last.promptType) == Some(x)) {
          var i :| 0 <= i < |results| && results[i].error.None? && CategoryOf(results[i].promptType) == Some(x);
          if i < |init| {
            assert init[i] == results[i];
          }
        }
      }
      if last.error.None? && CategoryOf(last.promptType).Some? && CategoryOf(last.promptType).value !in before then
        var c := CategoryOf(last.promptType).value;
        var r := before + [c];
        forall j, k | 0 <= j < k < |r| ensures r[j] != r[k] {
          assert r[j] == before[j] && before[j] in before;
          if k == |r| - 1 {
            assert r[k] == c;
          } else {
            assert r[k] == before[k];
          }
        }
        r
      else before
  }

  /** The metadata `generateAssetStatus` writes. */
  const NewStatusMeta: map<string, string> :=
    map["generator" := "studio-prompt-pipeline", "model" := "gemini-2.5-flash", "version" := "1.0"]

  /**
   * `generateAssetStatus` at time `now`: the categories that came through are
   * generated and flagged, followed by `prompts` when there is any; nothing
   * is pending.
   */
  function NewPromptStatus(personaName: string, results: seq<PromptResult>, now: int): (st: Assets.AssetStatus)
    ensures st.personaName == personaName && st.lastSynthesizedUpdate == now && st.lastAssetsGeneration == now
    ensures st.pendingAssets == [] && PromptRepository.NoRepeats(st.generatedAssets)
    ensures Assets.PlatformPrompts in st.generatedAssets <==> AnySucceeded(results, Assets.PlatformPrompts)
    ensures Assets.VariationPrompts in st.generatedAssets <==> AnySucceeded(results, Assets.VariationPrompts)
    ensures Assets.Prompts in st.generatedAssets <==>
      AnySucceeded(results, Assets.PlatformPrompts) || AnySucceeded(results, Assets.VariationPrompts)
    ensures st.generatedAssets != [] ==> st.generatedAssets[|st.generatedAssets| - 1] == Assets.Prompts
    ensures forall x :: x in st.generatedAssets ==>
      x == Assets.PlatformPrompts || x == Assets.VariationPrompts || x == Assets.Prompts
    ensures st.assetGenerationFlags == Some(map x | x in st.generatedAssets :: true)
    ensures st.metadata == Some(NewStatusMeta)
  {
    var categories := Categories(results);
    var generated := if categories == [] then [] else categories + [Assets.Prompts];
    assert Assets.Prompts != Assets.PlatformPrompts && Assets.Prompts != Assets.VariationPrompts;
    assert Assets.Prompts !in categories;
    assert categories != [] ==> categories[0] in categories;
    assert PromptRepository.NoRepeats(generated) by {
      if categories != [] {
        forall j, k | 0 <= j < k < |generated| ensures generated[j] != generated[k] {
          assert generated[j] == categories[j] && categories[j] in categories;
          if k < |categories| {
            assert generated[k] == categories[k];
          } else {
            assert generated[k] == Assets.Prompts;
          }
        }
      }
    }
    Assets.AssetStatus(personaName, now, now, [], generated, Some(map x | x in generated :: true), Some(NewStatusMeta))
  }

  /** Flagging one more listed asset keeps the flags those of the list. */
  lemma AddFlag(listed: seq<string>, flags: map<string, bool>, asset: string)
    requires flags == map x | x in listed :: true
    ensures flags[asset := true] == map x | x in listed + [asset] :: true
  {
  }

  /** The loop of `generateAssetStatus`. */
  method GenerateAssetStatus(personaName: string, results: seq<PromptResult>, now: int)
    returns (st: Assets.AssetStatus)
    ensures st == NewPromptStatus(personaName, results, now)
  {
    var generatedAssets: seq<string> := [];
    var assetFlags: map<string, bool> := map[];
    for i := 0 to |results|
      invariant generatedAssets == Categories(results[..i])
      invariant assetFlags == map x | x in generatedAssets :: true
    {
      assert results[..i + 1][..i] == results[..i];
      var result := results[i];
      assert results[..i + 1][i] == result;
      if result.error.None? {
        if IsPlatformPrompt(result.promptType) {
          if Assets.PlatformPrompts !in generatedAssets {
            AddFlag(generatedAssets, assetFlags, Assets.PlatformPrompts);
            generatedAssets := generatedAssets + [Assets.PlatformPrompts];
            assetFlags := assetFlags[Assets.PlatformPrompts := true];
          }
        } else if IsVariationPrompt(result.promptType) {
          if Assets.VariationPrompts !in generatedAssets {
            AddFlag(generatedAssets, assetFlags, Assets.VariationPrompts);
            generatedAssets := generatedAssets + [Assets.VariationPrompts];
            assetFlags := assetFlags[Assets.VariationPrompts := true];
          }
        }
      }
    }
    assert results[..|results|] == results;
    if |generatedAssets| > 0 {
      AddFlag(generatedAssets, assetFlags, Assets.Prompts);
      generatedAssets := generatedAssets + [Assets.Prompts];
      assetFlags := assetFlags[Assets.Prompts := true];
    }
    st := Assets.AssetStatus(personaName, now, now, [], generatedAssets, Some(assetFlags), Some(NewStatusMeta));
  }

  const PromptGeneratorKey := "prompt_generator"
  const PromptModelKey := "prompt_model"

  /** One step of `updateAssetStatus`: when `cond` holds, `asset` becomes generated at `time`. */
  function MarkIf(st: Assets.AssetStatus, cond: bool, asset: string, time: int): (r: Assets.AssetStatus)
    ensures !cond ==> r == st
    ensures cond ==> asset in r.generatedAssets && asset !in r.pendingAssets
                     && asset in Assets.Flags(r) && Assets.Flags(r)[asset] && r.assetGenerationFlags.Some?
    ensures forall x :: x != asset ==>
      (x in r.generatedAssets <==> x in st.generatedAssets) && (x in r.pendingAssets <==> x in st.pendingAssets)
      && (x in Assets.Flags(st) ==> x in Assets.Flags(r) && Assets.Flags(r)[x] == Assets.Flags(st)[x])
    ensures r.lastAssetsGeneration == (if cond then time else st.lastAssetsGeneration)
    ensures r.personaName == st.personaName && r.lastSynthesizedUpdate == st.lastSynthesizedUpdate
    ensures r.metadata == st.metadata
    ensures PromptRepository.NoRepeats(st.generatedAssets) ==> PromptRepository.NoRepeats(r.generatedAssets)
  {
    if cond then
      GeneratedKeepsNoRepeats(st, asset, time);
      Assets.WithGenerated(st, asset, time)
    else st
  }

  /** Adding an asset only when it is absent keeps a list without repeats. */
  lemma GeneratedKeepsNoRepeats(st: Assets.AssetStatus, asset: string, now: int)
    ensures PromptRepository.NoRepeats(st.generatedAssets) ==>
      PromptRepository.NoRepeats(Assets.WithGenerated(st, asset, now).generatedAssets)
  {
    var g := st.generatedAssets;
    if asset !in g && PromptRepository.NoRepeats(g) {
      var r := g + [asset];
      forall j, k | 0 <= j < k < |r| ensures r[j] != r[k] {
        assert r[j] == g[j] && g[j] in g;
        if k == |r| - 1 {
          assert r[k] == asset;
        } else {
          assert r[k] == g[k];
        }
      }
    }
  }

  /** The metadata an update records. */
  function UpdatedMeta(st: Assets.AssetStatus, nowText: string): (m: map<string, string>)
    ensures PromptRepository.LastPromptGeneration in m && m[PromptRepository.LastPromptGeneration] == nowText
  {
    var meta := if st.metadata.Some? then st.metadata.value else map[];
    meta[PromptRepository.LastPromptGeneration := nowText]
        [PromptGeneratorKey := "studio-prompt-pipeline"][PromptModelKey := "gemini-2.5-flash"]
  }

  /**
   * `updateAssetStatus` at time `now` (written `nowText`): each category that
   * came through is generated once, no longer pending and flagged, and so is
   * `prompts` when either did, which also moves the generation time; every
   * other asset keeps its place, and the metadata records the run.
   */
  function UpdatedPromptStatus(st: Assets.AssetStatus, results: seq<PromptResult>, now: int, nowText: string)
    : (r: Assets.AssetStatus)
    ensures var any := AnySucceeded(results, Assets.PlatformPrompts) || AnySucceeded(results, Assets.VariationPrompts);
      r.lastAssetsGeneration == (if any then now else st.lastAssetsGeneration)
      && (any ==> Assets.Prompts in r.generatedAssets && Assets.Prompts !in r.pendingAssets
                  && Assets.Prompts in Assets.Flags(r) && Assets.Flags(r)[Assets.Prompts])
    ensures AnySucceeded(results, Assets.PlatformPrompts) ==>
      Assets.PlatformPrompts in r.generatedAssets && Assets.PlatformPrompts !in r.pendingAssets
      && Assets.PlatformPrompts in Assets.Flags(r) && Assets.Flags(r)[Assets.PlatformPrompts]
    ensures AnySucceeded(results, Assets.VariationPrompts) ==>
      Assets.VariationPrompts in r.generatedAssets && Assets.VariationPrompts !in r.pendingAssets
      && Assets.VariationPrompts in Assets.Flags(r) && Assets.Flags(r)[Assets.VariationPrompts]
    ensures forall x :: x != Assets.PlatformPrompts && x != Assets.VariationPrompts && x != Assets.Prompts ==>
      (x in r.generatedAssets <==> x in st.generatedAssets) && (x in r.pendingAssets <==> x in st.pendingAssets)
    ensures PromptRepository.NoRepeats(st.generatedAssets) ==> PromptRepository.NoRepeats(r.generatedAssets)
    ensures r.personaName == st.personaName && r.lastSynthesizedUpdate == st.lastSynthesizedUpdate
    ensures r.assetGenerationFlags.Some? && r.metadata == Some(UpdatedMeta(st, nowText))
  {
    var platform := AnySucceeded(results, Assets.PlatformPrompts);
    var variation := AnySucceeded(results, Assets.VariationPrompts);
    var s0 := st.(assetGenerationFlags := Some(Assets.Flags(st)));
    var s1 := MarkIf(s0, platform, Assets.PlatformPrompts, s0.lastAssetsGeneration);
    var s2 := MarkIf(s1, variation, Assets.VariationPrompts, s1.lastAssetsGeneration);
    var s3 := MarkIf(s2, platform || variation, Assets.Prompts, now);
    assert Assets.Prompts != Assets.PlatformPrompts && Assets.Prompts != Assets.VariationPrompts
      && Assets.PlatformPrompts != Assets.VariationPrompts;
    s3.(metadata := Some(UpdatedMeta(st, nowText)))
  }

  /** Decoding and encoding an asset status as JSON. */
  datatype StatusCodec = StatusCodec(decode: string -> Result<Assets.AssetStatus>, encode: Assets.AssetStatus -> string)

  /** `updateAssetStatus`: an existing status that does not parse is an error. */
  method UpdateAssetStatus(codec: StatusCodec, existing: string, results: seq<PromptResult>, now: int, nowText: string)
    returns (r: Result<string>)
    ensures codec.decode(existing).Err? ==> r == Err(ParseFailed + codec.decode(existing).error)
    ensures codec.decode(existing).Ok? ==>
      r == Ok(codec.encode(UpdatedPromptStatus(codec.decode(existing).value, results, now, nowText)))
  {
    var status: Assets.AssetStatus;
    match codec.decode(existing) {
      case Err(e) =>
        return Err(ParseFailed + e);
      case Ok(s) =>
        status := s;
    }
    var platformGenerated := false;
    var variationGenerated := false;
    for i := 0 to |results|
      invariant platformGenerated == AnySucceeded(results[..i], Assets.PlatformPrompts)
      invariant variationGenerated == AnySucceeded(results[..i], Assets.VariationPrompts)
    {
      assert forall j :: 0 <= j < i ==> results[..i + 1][j] == results[..i][j];
      var result := results[i];
      assert results[..i + 1][i] == result;
      if result.error.None? {
        if IsPlatformPrompt(result.promptType) {
          platformGenerated := true;
        } else if IsVariationPrompt(result.promptType) {
          variationGenerated := true;
        }
      }
    }
    assert results[..|results|] == results;
    var s0 := status.(assetGenerationFlags := Some(Assets.Flags(status)));
    var s1 := MarkIf(s0, platformGenerated, Assets.PlatformPrompts, s0.lastAssetsGeneration);
    var s2 := MarkIf(s1, variationGenerated, Assets.VariationPrompts, s1.lastAssetsGeneration);
    var s3 := MarkIf(s2, platformGenerated || variationGenerated, Assets.Prompts, now);
    return Ok(codec.encode(s3.(metadata := Some(UpdatedMeta(status, nowText)))));
  }

  /**
   * The status text `loadUpdatedAssetStatus` puts in the pull request: the
   * fetched status updated, or a new one when there is none or it does not
   * parse.
   */
  function StatusText(codec: StatusCodec, fetched: Result<string>, personaName: string, results: seq<PromptResult>,
                      now: int, nowText: string): (r: string)
    ensures fetched.Err? ==> r == codec.encode(NewPromptStatus(personaName, results, now))
  {
    match fetched
    case Err(_) => codec.encode(NewPromptStatus(personaName, results, now))
    case Ok(existing) =>
      match codec.decode(existing)
      case Err(_) => codec.encode(NewPromptStatus(personaName, results, now))
      case Ok(st) => codec.encode(UpdatedPromptStatus(st, results, now, nowText))
  }

  // ------------------------------------------------------------ the service

  /** The types a kind of run generates and whether their failures get the zero time. */
  function KindTypes(kind: string): (r: Option<(seq<PromptType>, bool)>)
    ensures r.Some? <==> kind == AllKind || kind == PlatformKind || kind == VariationKind
    ensures kind == AllKind ==> r == Some((AllPromptTypes, false))
    ensures kind == PlatformKind ==> r == Some((PlatformTypes, true))
    ensures kind == VariationKind ==> r == Some((VariationTypes, true))
  {
    if kind == AllKind then Some((AllPromptTypes, false))
    else if kind == PlatformKind then Some((PlatformTypes, true))
    else if kind == VariationKind then Some((VariationTypes, true))
    else None
  }

  /** The tracker's answer: a pull request is wanted unless one is pending for the same content. */
  predicate Creates(records: map<string, PrTracking.PrRecord>, personaName: string, content: string,
                    client: PrTracking.StatusClient)
  {
    personaName !in records || PrTracking.Finished(records[personaName], client)
    || records[personaName].synthesizedHash != PrTracking.ContentHash(content)
  }

  /** How a run ends: its error, the ledger after it, and the pull request it opened. */
  datatype Run = Run(err: Option<string>, records: map<string, PrTracking.PrRecord>, pr: Option<StructuredPr.CreatedPr>)

  /** The three key prompt files, of which two mean prompts exist. */
  const KeyTypes: seq<PromptType> := [ChatGpt, Claude, Gemini]

  /** `GitHubService`. */
  class GitHubService {
    /** `GetFileContent` on the personas repository. */
    const files: string -> Result<string>
    /** `CreatePromptUpdatePR` of the GitHub client, given the pull request's data. */
    const createPr: PromptPr.PromptPrData -> Result<StructuredPr.CreatedPr>
    /** `checkIfPersonaExists`: whether the persona's local folder exists. */
    const personaExists: string -> bool
    const statusClient: PrTracking.StatusClient
    const codec: StatusCodec
    const tools: PromptTools
    const tracker: PrTracking.PrTracker
    const statusManager: Assets.StatusManager
    /** The text `generatePromptsSection` gives. */
    const section: string

    constructor(files: string -> Result<string>, createPr: PromptPr.PromptPrData -> Result<StructuredPr.CreatedPr>,
                personaExists: string -> bool, statusClient: PrTracking.StatusClient, codec: StatusCodec,
                tools: PromptTools, tracker: PrTracking.PrTracker, statusManager: Assets.StatusManager)
      ensures this.files == files && this.createPr == createPr && this.personaExists == personaExists
      ensures this.statusClient == statusClient && this.codec == codec && this.tools == tools
      ensures this.tracker == tracker && this.statusManager == statusManager
      ensures section == GitHubSection
    {
      this.files := files;
      this.createPr := createPr;
      this.personaExists := personaExists;
      this.statusClient := statusClient;
      this.codec := codec;
      this.tools := tools;
      this.tracker := tracker;
      this.statusManager := statusManager;
      this.section := GitHubSection;
    }

    /** Whether the key prompt file of type `t` is in the repository. */
    predicate KeyPresent(personaName: string, t: PromptType)
    {
      files(PromptRepository.PromptPath(PromptRepository.PersonaFolder(personaName), t)).Ok?
    }

    /** How many of `types` have their prompt file in the repository. */
    function CountPresent(personaName: string, types: seq<PromptType>): nat
      decreases |types|
    {
      if types == [] then 0
      else (if KeyPresent(personaName, types[0]) then 1 else 0) + CountPresent(personaName, types[1..])
    }

    /** Counting the key prompt files gives at least two exactly when two of them are there. */
    lemma KeyCount(personaName: string)
      ensures var a := KeyPresent(personaName, ChatGpt);
              var b := KeyPresent(personaName, Claude);
              var c := KeyPresent(personaName, Gemini);
              CountPresent(personaName, KeyTypes) >= 2 <==> (a && b) || (a && c) || (b && c)
    {
      assert KeyTypes[1..] == [Claude, Gemini] && KeyTypes[1..][1..] == [Gemini] && [Gemini][1..] == [];
      assert CountPresent(personaName, [Gemini]) == if KeyPresent(personaName, Gemini) then 1 else 0;
      assert CountPresent(personaName, [Claude, Gemini])
          == (if KeyPresent(personaName, Claude) then 1 else 0) + CountPresent(personaName, [Gemini]);
    }

    /** `promptsAlreadyExist`: at least two of the three key prompt files are there. */
    method PromptsAlreadyExist(personaName: string) returns (exist: bool)
      ensures var a := KeyPresent(personaName, ChatGpt);
              var b := KeyPresent(personaName, Claude);
              var c := KeyPresent(personaName, Gemini);
              exist <==> (a && b) || (a && c) || (b && c)
    {
      var folder := PromptRepository.PersonaFolder(personaName);
      var existingCount := 0;
      assert KeyTypes[0..] == KeyTypes;
      for i := 0 to |KeyTypes|
        invariant existingCount + CountPresent(personaName, KeyTypes[i..]) == CountPresent(personaName, KeyTypes)
      {
        assert KeyTypes[i..][1..] == KeyTypes[i + 1..];
        var filePath := PromptRepository.PromptPath(folder, KeyTypes[i]);
        if files(filePath).Ok? {
          existingCount := existingCount + 1;
        }
      }
      KeyCount(personaName);
      return existingCount >= 2;
    }

    /** `promptsAlreadyExist`, as a value. */
    predicate KeyPromptsPresent(personaName: string)
    {
      var a := KeyPresent(personaName, ChatGpt);
      var b := KeyPresent(personaName, Claude);
      var c := KeyPresent(personaName, Gemini);
      (a && b) || (a && c) || (b && c)
    }

    /** The README `loadUpdatedReadme` puts in the pull request. */
    function ReadmeFor(personaName: string): string
    {
      var synthesized := files(PromptService.SynthesizedPath(personaName));
      match files(PromptRepository.PersonaFolder(personaName) + "/README.md")
      case Err(_) => ReadmeContent(personaName, "", synthesized, section)
      case Ok(existing) => UpdatedReadme(existing, personaName, synthesized, section)
    }

    /** `loadUpdatedReadme`: a README the repository does not have is written anew. */
    method LoadUpdatedReadme(personaName: string) returns (readme: string)
      ensures readme == ReadmeFor(personaName)
    {
      var synthesized := files(PromptService.SynthesizedPath(personaName));
      match files(PromptRepository.PersonaFolder(personaName) + "/README.md") {
        case Err(_) =>
          readme := GenerateReadmeContent(personaName, "", synthesized, section);
        case Ok(existing) =>
          readme := UpdateReadmeWithPrompts(existing, personaName, synthesized, section);
      }
    }

    /** `loadUpdatedAssetStatus`. */
    method LoadUpdatedAssetStatus(personaName: string, results: seq<PromptResult>, now: int, nowText: string)
      returns (status: string)
      ensures status == StatusText(codec, files(PromptRepository.PersonaFolder(personaName) + StructuredPr.StatusFileName),
                                   personaName, results, now, nowText)
    {
      match files(PromptRepository.PersonaFolder(personaName) + StructuredPr.StatusFileName) {
        case Err(_) =>
          var st := GenerateAssetStatus(personaName, results, now);
          return codec.encode(st);
        case Ok(existing) =>
          var updated := UpdateAssetStatus(codec, existing, results, now, nowText);
          if updated.Err? {
            var st := GenerateAssetStatus(personaName, results, now);
            return codec.encode(st);
          }
          return updated.value;
      }
    }

    /** The data `preparePRData` gives: never tied to an issue. */
    function PrDataFor(personaName: string, results: seq<PromptResult>, now: int, tf: TimeFormats)
      : (data: PromptPr.PromptPrData)
      ensures data.issueNumber.None? && data.personaName == personaName && data.promptResults == results
    {
      PromptPr.PromptPrData(personaName, results, ReadmeFor(personaName),
        StatusText(codec, files(PromptRepository.PersonaFolder(personaName) + StructuredPr.StatusFileName),
                   personaName, results, now, tf.rfc3339(now)),
        None, personaExists(personaName))
    }

    method PreparePrData(personaName: string, results: seq<PromptResult>, now: int, tf: TimeFormats)
      returns (data: PromptPr.PromptPrData)
      ensures data == PrDataFor(personaName, results, now, tf)
    {
      var readmeContent := LoadUpdatedReadme(personaName);
      var statusContent := LoadUpdatedAssetStatus(personaName, results, now, tf.rfc3339(now));
      data := PromptPr.PromptPrData(personaName, results, readmeContent, statusContent, None, personaExists(personaName));
    }

    /**
     * The second half of `generatePromptsWithPR`, once the tracker has
     * cleared the ledger `checked`: generate the `kind` of prompts, open the
     * pull request and only then record it.
     */
    function Opening(checked: map<string, PrTracking.PrRecord>, personaName: string, content: string, kind: string,
                     clock: nat -> int, now: int, tf: TimeFormats): (r: Run)
      ensures KindTypes(kind).None? ==> r == Run(Some(UnknownType + kind), checked, None)
      ensures r.pr.None? ==> r.records == checked
      ensures r.pr.Some? ==>
                r.err.None? && KindTypes(kind).Some?
                && r.records == checked[personaName := PrTracking.PrRecord(personaName, r.pr.value.number,
                                                                           r.pr.value.url, now,
                                                                           PrTracking.ContentHash(content))]
      ensures KindTypes(kind).Some? && r.pr.None? ==> r.err.Some? && HasPrefix(r.err.value, CreateFailed)
    {
      match KindTypes(kind)
      case None => Run(Some(UnknownType + kind), checked, None)
      case Some((types, zeroFailures)) =>
        var results := Attempts(tools, personaName, content, types, clock, zeroFailures);
        match createPr(PrDataFor(personaName, results, now, tf))
        case Err(e) =>
          assert (CreateFailed + e)[..|CreateFailed|] == CreateFailed;
          Run(Some(CreateFailed + e), checked, None)
        case Ok(pr) =>
          Run(None, checked[personaName := PrTracking.PrRecord(personaName, pr.number, pr.url, now,
                                                               PrTracking.ContentHash(content))], Some(pr))
    }

    /**
     * `generatePromptsWithPR` from the ledger `records`: fetch the
     * synthesized persona, skip when prompts exist (unless forced) or the
     * tracker wants no pull request, then open one as `Opening` does.
     */
    function Plan(records: map<string, PrTracking.PrRecord>, personaName: string, kind: string, force: bool,
                  clock: nat -> int, now: int, tf: TimeFormats): (r: Run)
      ensures var synthesized := files(PromptService.SynthesizedPath(personaName));
        (synthesized.Err? ==> r.err.Some? && HasPrefix(r.err.value, FetchFailed) && r.records == records)
        && (synthesized.Ok? && !force && KeyPromptsPresent(personaName) ==> r == Run(None, records, None))
        && ((synthesized.Ok? && (force || !KeyPromptsPresent(personaName))
             && !Creates(records, personaName, synthesized.value, statusClient)) ==> r == Run(None, records, None))
        && ((synthesized.Ok? && (force || !KeyPromptsPresent(personaName))
             && Creates(records, personaName, synthesized.value, statusClient) && KindTypes(kind).None?) ==>
            r == Run(Some(UnknownType + kind), records - {personaName}, None))
        && (r.pr.Some? ==>
              (synthesized.Ok? && personaName in r.records
               && r.records[personaName] == PrTracking.PrRecord(personaName, r.pr.value.number, r.pr.value.url,
                                                                now, PrTracking.ContentHash(synthesized.value))))
      ensures r.pr.None? ==> r.records == records || r.records == records - {personaName}
      ensures r.pr.Some? ==> r.err.None?
    {
      var path := PromptService.SynthesizedPath(personaName);
      match files(path)
      case Err(e) =>
        var err := FetchFailed + FetchError(path, e);
        assert err[..|FetchFailed|] == FetchFailed;
        Run(Some(err), records, None)
      case Ok(content) =>
        if !force && KeyPromptsPresent(personaName) then Run(None, records, None)
        else if !Creates(records, personaName, content, statusClient) then Run(None, records, None)
        else Opening(records - {personaName}, personaName, content, kind, clock, now, tf)
    }

    /** The prompts of `kind` are generated, the pull request opened and tracked. */
    method OpenTracked(personaName: string, content: string, kind: string, clock: nat -> int, now: int,
                       tf: TimeFormats)
      returns (err: Option<string>)
      requires tracker.Valid()
      modifies tracker
      ensures tracker.Valid()
      ensures var run := Opening(old(tracker.Records()), personaName, content, kind, clock, now, tf);
        err == run.err
        && (run.pr.None? || PrTracking.StorableRecord(run.records[personaName]) ==> tracker.Records() == run.records)
    {
      var results: seq<PromptResult>;
      if kind == AllKind {
        results := PromptGenerator.GenerateAllPrompts(tools, personaName, content, clock);
      } else if kind == PlatformKind {
        results := GenerateTypes(tools, personaName, content, PlatformTypes, clock, true);
      } else if kind == VariationKind {
        results := GenerateTypes(tools, personaName, content, VariationTypes, clock, true);
      } else {
        return Some(UnknownType + kind);
      }
      var prData := PreparePrData(personaName, results, now, tf);
      match createPr(prData) {
        case Err(e) =>
          return Some(CreateFailed + e);
        case Ok(pr) =>
          tracker.TrackPR(personaName, pr.number, pr.url, PrTracking.ContentHash(content), now);
          return None;
      }
    }

    /** `generatePromptsWithPR`. */
    method GeneratePromptsWithPR(personaName: string, kind: string, force: bool, clock: nat -> int, now: int,
                                 tf: TimeFormats)
      returns (err: Option<string>)
      requires tracker.Valid()
      modifies tracker
      ensures tracker.Valid()
      ensures var run := Plan(old(tracker.Records()), personaName, kind, force, clock, now, tf);
        err == run.err
        && (run.pr.None? || PrTracking.StorableRecord(run.records[personaName]) ==> tracker.Records() == run.records)
    {
      ghost var records := tracker.Records();
      ghost var run := Plan(records, personaName, kind, force, clock, now, tf);
      var path := PromptService.SynthesizedPath(personaName);
      var content: string;
      match files(path) {
        case Err(e) =>
          assert run.err == Some(FetchFailed + FetchError(path, e)) && run.pr.None?;
          return Some(FetchFailed + FetchError(path, e));
        case Ok(c) =>
          content := c;
      }
      if !force {
        var exist := PromptsAlreadyExist(personaName);
        if exist {
          assert run == Run(None, records, None);
          return None;
        }
      }
      var shouldCreate, _ := tracker.ShouldCreatePR(personaName, content, statusClient);
      if !shouldCreate {
        assert run == Run(None, records, None);
        return None;
      }
      assert personaName !in records ==> records - {personaName} == records;
      assert tracker.Records() == records - {personaName};
      err := OpenTracked(personaName, content, kind, clock, now, tf);
    }

    /**
     * `RegisterCallbacks`: three generators go under the three prompt
     * assets. A monitor callback is a pure function here, so `all`,
     * `platform` and `variation` are whatever the caller passes: the pull
     * requests and ledger records that `GeneratePromptsWithPR` produces are
     * not part of what a callback does.
     */
    method RegisterCallbacks(monitor: AssetMonitor.Monitor, all: AssetMonitor.Callback,
                             platform: AssetMonitor.Callback, variation: AssetMonitor.Callback)
      modifies monitor
      ensures monitor.callbacks
              == old(monitor.callbacks)[Assets.Prompts := all][Assets.PlatformPrompts := platform]
                                       [Assets.VariationPrompts := variation]
    {
      monitor.RegisterCallback(Assets.Prompts, all);
      monitor.RegisterCallback(Assets.PlatformPrompts, platform);
      monitor.RegisterCallback(Assets.VariationPrompts, variation);
    }

    /**
     * `triggerPromptGenerationWithPR`: mark the three prompt assets pending
     * in the local status, going on when marking fails, then run all prompts
     * with a pull request. The issue number is not passed on.
     */
    method TriggerPromptGenerationWithPR(personaName: string, issueNumber: Option<int>, force: bool,
                                         clock: nat -> int, now: int, tf: TimeFormats)
      returns (err: Option<string>)
      requires tracker.Valid()
      modifies tracker, statusManager
      ensures tracker.Valid()
      ensures statusManager.files == PromptService.MarkedPending(old(statusManager.files), personaName, now)
      ensures var run := Plan(old(tracker.Records()), personaName, AllKind, force, clock, now, tf);
        err == run.err
        && (run.pr.None? || PrTracking.StorableRecord(run.records[personaName]) ==> tracker.Records() == run.records)
    {
      var _ := statusManager.MarkAssetPending(personaName, Assets.Prompts, now);
      var _ := statusManager.MarkAssetPending(personaName, Assets.PlatformPrompts, now);
      var _ := statusManager.MarkAssetPending(personaName, Assets.VariationPrompts, now);
      err := GeneratePromptsWithPR(personaName, AllKind, force, clock, now, tf);
    }
  }
}
