/**
 * Saving generated prompts into the local persona repository: one file per
 * good prompt, the "Generated Prompts" section of the persona's README, and
 * the prompt assets in its status file.
 *
 * The repository's files are a map from paths under the base directory to
 * contents; the status files are those of an `Assets.StatusManager`. Times
 * are integers, written out by the two functions of a `TimeFormats` record.
 */
module PromptRepository {
  import opened Wrappers
  import opened Str
  import opened PromptGenerator
  import Assets
  import StructuredPr
  import Synthesizer

  /** How a time is written: in RFC 3339, and as `2006-01-02 15:04:05 UTC`. */
  datatype TimeFormats = TimeFormats(rfc3339: int -> string, readable: int -> string)

  // --------------------------------------------------------------- folders

  /** The folder-name normalization of `getPersonaFolder` leaves an already normalized name as it is. */
  lemma NormalizeIdempotent(name: string)
    ensures Synthesizer.PersonaToFolderName(Synthesizer.PersonaToFolderName(name))
            == Synthesizer.PersonaToFolderName(name)
  {
  }

  /** `getPersonaFolder`, relative to the base directory: the folder the package PR writes. */
  function PersonaFolder(personaName: string): (r: string)
    ensures r == StructuredPr.FolderName(personaName)
    ensures HasPrefix(r, "personas/") && ' ' !in r[9..] && '/' !in r[9..]
  {
    Synthesizer.FolderNamesAgree(personaName);
    var r := "personas/" + Synthesizer.PersonaToFolderName(personaName);
    assert forall i :: 0 <= i < |r| - 9 ==> r[9..][i] == r[9 + i];
    r
  }

  /** Where `savePromptFile` writes a prompt of type `t`. */
  function PromptPath(folder: string, t: PromptType): (r: string)
    ensures r == folder + "/prompts/" + t + ".md"
  {
    PromptFileInFolder(t);
    folder + "/prompts/" + TrimPrefix(PromptFilename(t), "prompts/")
  }

  /** Prompts of different types go to different files of a folder. */
  lemma PromptPathsDistinct(folder: string, a: PromptType, b: PromptType)
    requires PromptPath(folder, a) == PromptPath(folder, b)
    ensures a == b
  {
    var p := PromptPath(folder, a);
    var n := |folder| + 9;
    assert p[n..|p| - 3] == a;
    assert PromptPath(folder, b)[n..|p| - 3] == b;
  }

  // ------------------------------------------------------- prompt files

  const SourceLine := "  \n> **Source:** synthesized.md  \n"
  const RuleLine := "\n---\n\n"
  const FooterOpen := "\n\n---\n\n*Generated automatically by [Studio](https://github.com/twin2ai/studio) using Gemini 2.0 Flash*  \n*Last updated: "

  /** The title and metadata lines of a prompt document, up to the source line. */
  function MetaLines(result: PromptResult, tf: TimeFormats): string
  {
    "# " + DisplayName(result.promptType) + "\n\n> **Generated:** " + tf.rfc3339(result.generatedAt)
    + "  \n> **Persona:** " + result.personaName + "  \n> **Type:** " + result.promptType + SourceLine
  }

  /** The block above a prompt; `extra` is what a PR copy adds after the source line. */
  function PromptHeader(result: PromptResult, tf: TimeFormats, extra: string): string
  {
    MetaLines(result, tf) + extra + RuleLine
  }

  /** The line below a prompt. */
  function PromptFooter(result: PromptResult, tf: TimeFormats): string
  {
    FooterOpen + tf.readable(result.generatedAt) + "*\n"
  }

  /** A prompt document: header, the prompt itself, footer. */
  function PromptDocument(result: PromptResult, tf: TimeFormats, extra: string): (r: string)
    ensures HasPrefix(r, PromptHeader(result, tf, extra)) && HasSuffix(r, PromptFooter(result, tf))
    ensures |r| == |PromptHeader(result, tf, extra)| + |result.content| + |PromptFooter(result, tf)|
    ensures r[|PromptHeader(result, tf, extra)|..|r| - |PromptFooter(result, tf)|] == result.content
  {
    var h := PromptHeader(result, tf, extra);
    var f := PromptFooter(result, tf);
    var r := h + result.content + f;
    assert r[..|h|] == h;
    assert r[|r| - |f|..] == f;
    assert r[|h|..|r| - |f|] == result.content;
    r
  }

  /** `formatPromptContent`: the document with nothing between the source line and the rule. */
  function FormatPromptContent(result: PromptResult, tf: TimeFormats): (r: string)
    ensures HasPrefix(r, PromptHeader(result, tf, "")) && HasSuffix(r, PromptFooter(result, tf))
    ensures |r| == |PromptHeader(result, tf, "")| + |result.content| + |PromptFooter(result, tf)|
    ensures r[|PromptHeader(result, tf, "")|..|r| - |PromptFooter(result, tf)|] == result.content
  {
    PromptDocument(result, tf, "")
  }

  // -------------------------------------------------------- README section

  const SectionStart := "## Generated Prompts"
  const SourceHeading := "## Source"
  const FinalSeparator := "\n---\n"
  const NextHeading := "\n## "
  const PlatformHeading := "### " + StructuredPr.MainIcon + " Platform-Specific Prompts\n"
  const VariationHeading := "### " + StructuredPr.RawIcon + " Prompt Variations\n"
  const HowToUse1 := "### How to Use\n1. **Copy the prompt** from the appropriate file\n"
  const HowToUse2 := "2. **Paste into your AI platform** (ChatGPT, Claude, etc.)\n"
  const HowToUse3 := "3. **Start your conversation** - the AI will embody this persona\n"
  const HowToUse4 := "4. **Regenerate prompts** by updating the synthesized.md file\n\n"
  const HowToUse: string := HowToUse1 + HowToUse2 + HowToUse3 + HowToUse4
  const CustomDescription := "Custom prompt variation"

  /** `getPromptDescription`. */
  function Description(t: PromptType): (r: string)
    ensures t !in AllPromptTypes ==> r == CustomDescription
    ensures t in AllPromptTypes ==> r != CustomDescription
  {
    PromptCategories(t);
    if t == ChatGpt then "Optimized for ChatGPT's interface and capabilities"
    else if t == Claude then "Tailored for Claude's analytical and helpful nature"
    else if t == Gemini then "Designed for Gemini's multimodal and practical approach"
    else if t == Discord then "Casual bot personality for Discord communities"
    else if t == CharacterAi then "Immersive character for roleplay conversations"
    else if t == Condensed then "Compact version for quick use and copy-paste"
    else if t == Alternative then "Different facets and variations of the persona"
    else CustomDescription
  }

  /** One line of the section: a link to the prompt's file, with its description. */
  function Entry(t: PromptType): string
  {
    "- **[" + DisplayName(t) + "](prompts/" + TrimPrefix(PromptFilename(t), "prompts/") + ")** - " + Description(t)
  }

  /** The lines of a list, each ended by a newline. */
  function Lines(entries: seq<string>): string
  {
    if entries == [] then ""
    else Lines(entries[..|entries| - 1]) + entries[|entries| - 1] + "\n"
  }

  /** A heading with its list and a blank line, or nothing for an empty list. */
  function Block(heading: string, entries: seq<string>): string
  {
    if entries == [] then "" else heading + Lines(entries) + "\n"
  }

  /** The line under the section's heading, stamped `updated`. */
  function SectionHead(updated: string): string
  {
    "\n\n*Last updated: " + updated + "*\n\n"
  }

  /** The section below its heading. */
  function SectionBody(results: seq<PromptResult>, updated: string): string
  {
    SectionHead(updated) + Block(PlatformHeading, Listed(results, IsPlatformPrompt, Entry))
    + Block(VariationHeading, Listed(results, IsVariationPrompt, Entry)) + HowToUse
  }

  /**
   * `generatePromptsSection`: the error-free results only, platform entries
   * under the platform heading and variation entries under the variation
   * heading, each list in input order.
   */
  function PromptsSection(results: seq<PromptResult>, updated: string): (r: string)
    ensures HasPrefix(r, SectionStart)
  {
    var body := SectionBody(results, updated);
    assert (SectionStart + body)[..|SectionStart|] == SectionStart;
    SectionStart + body
  }

  /** The loops of `generatePromptsSection`. */
  method GeneratePromptsSection(results: seq<PromptResult>, updated: string) returns (section: string)
    ensures section == PromptsSection(results, updated)
  {
    var platformPrompts: seq<string> := [];
    var variationPrompts: seq<string> := [];
    for i := 0 to |results|
      invariant platformPrompts == Listed(results[..i], IsPlatformPrompt, Entry)
      invariant variationPrompts == Listed(results[..i], IsVariationPrompt, Entry)
    {
      assert results[..i + 1][..i] == results[..i];
      var result := results[i];
      PromptCategories(result.promptType);
      if result.error.Some? {
        continue;
      }
      var entry := Entry(result.promptType);
      if IsPlatformPrompt(result.promptType) {
        platformPrompts := platformPrompts + [entry];
      } else if IsVariationPrompt(result.promptType) {
        variationPrompts := variationPrompts + [entry];
      }
    }
    assert results[..|results|] == results;
    var platformBlock := ListBlock(PlatformHeading, platformPrompts);
    var variationBlock := ListBlock(VariationHeading, variationPrompts);
    var body := SectionHead(updated) + platformBlock + variationBlock + HowToUse;
    section := SectionStart + body;
  }

  /** Writing one heading and its list, as `generatePromptsSection` does for each category. */
  method ListBlock(heading: string, entries: seq<string>) returns (block: string)
    ensures block == Block(heading, entries)
  {
    block := "";
    if |entries| > 0 {
      block := heading;
      for j := 0 to |entries|
        invariant block == heading + Lines(entries[..j])
      {
        assert entries[..j + 1][..j] == entries[..j];
        block := block + entries[j] + "\n";
      }
      assert entries[..|entries|] == entries;
      block := block + "\n";
    }
  }

  // ------------------------------------------------------- README updates

  /**
   * `addPromptsSection`: the section goes in front of the first `## Source`,
   * else in front of the first `\n---\n` after a newline of its own, else at
   * the end after a newline; the README is otherwise kept as it was.
   */
  function AddPromptsSection(readme: string, section: string): (r: string)
    ensures Index(readme, SourceHeading).Some? ==>
      var i := Index(readme, SourceHeading).value;
      r == readme[..i] + section + "\n" + readme[i..]
    ensures Index(readme, SourceHeading).None? && Index(readme, FinalSeparator).Some? ==>
      var i := Index(readme, FinalSeparator).value;
      r == readme[..i] + "\n" + section + readme[i..]
    ensures Index(readme, SourceHeading).None? && Index(readme, FinalSeparator).None? ==>
      r == readme + "\n" + section
  {
    if Contains(readme, SourceHeading) then
      ReplaceFirst(readme, SourceHeading, section + "\n" + SourceHeading)
    else if Contains(readme, FinalSeparator) then
      ReplaceFirst(readme, FinalSeparator, "\n" + section + FinalSeparator)
    else readme + "\n" + section
  }

  /** Replacing the first occurrence of `pat` by something ending in `pat` inserts in front of it. */
  lemma InsertBefore(s: string, pat: string, front: string)
    requires Index(s, pat).Some?
    ensures var i := Index(s, pat).value;
      ReplaceFirst(s, pat, front + pat) == s[..i] + front + s[i..]
  {
    var i := Index(s, pat).value;
    assert s[i..] == s[i..i + |pat|] + s[i + |pat|..];
  }

  /**
   * `replacePromptsSection`: everything before the first marker is kept, and
   * everything from the next `\n## ` after it, behind the new section and a
   * newline; with no later heading the rest of the README is dropped.
   */
  function ReplacePromptsSection(readme: string, section: string): (r: string)
    ensures Index(readme, SectionStart).None? ==> r == AddPromptsSection(readme, section)
    ensures Index(readme, SectionStart).Some? ==>
      var start := Index(readme, SectionStart).value;
      var after := readme[start + |SectionStart|..];
      (Index(after, NextHeading).None? ==> r == readme[..start] + section)
      && (Index(after, NextHeading).Some? ==>
            r == readme[..start] + section + "\n" + after[Index(after, NextHeading).value..])
  {
    match Index(readme, SectionStart)
    case None => AddPromptsSection(readme, section)
    case Some(start) => Splice(readme, start, |SectionStart|, section, NextHeading)
  }

  /**
   * The text before `start`, then `section`, then what follows the first
   * `next` after the `m` characters at `start`, behind a newline.
   */
  function Splice(readme: string, start: nat, m: nat, section: string, next: string): (r: string)
    requires start + m <= |readme|
    ensures var after := readme[start + m..];
      (Index(after, next).None? ==> r == readme[..start] + section)
      && (Index(after, next).Some? ==> r == readme[..start] + section + "\n" + after[Index(after, next).value..])
  {
    var after := readme[start + m..];
    match Index(after, next)
    case None => readme[..start] + section
    case Some(k) => readme[..start] + section + "\n" + after[k..]
  }

  /**
   * `updatePersonaReadme`: `None` when there is no README to read, which is
   * not an error; otherwise the README with its section replaced when it has
   * one and added when it has none.
   */
  function UpdatePersonaReadme(readme: Option<string>, section: string): (r: Option<string>)
    ensures readme.None? <==> r.None?
    ensures readme.Some? && Contains(readme.value, SectionStart) ==>
      r == Some(ReplacePromptsSection(readme.value, section))
    ensures readme.Some? && !Contains(readme.value, SectionStart) ==>
      r == Some(AddPromptsSection(readme.value, section))
  {
    match readme
    case None => None
    case Some(content) =>
      if Contains(content, SectionStart) then Some(ReplacePromptsSection(content, section))
      else Some(AddPromptsSection(content, section))
  }

  /**
   * Replacing the section a second time with the same section changes
   * nothing, for a section that starts with the marker, holds no `\n## ` and
   * ends with a newline.
   */
  lemma ReplaceTwice(readme: string, section: string)
    requires Index(readme, SectionStart).Some?
    requires HasPrefix(section, SectionStart) && !Contains(section, NextHeading)
    requires section[|section| - 1] == '\n'
    ensures ReplacePromptsSection(ReplacePromptsSection(readme, section), section)
            == ReplacePromptsSection(readme, section)
  {
    var m := |SectionStart|;
    assert SectionStart[m - 1] != '\n';
    assert |section| > m;
    assert NextHeading[1..] == "## ";
    SpliceTwice(readme, SectionStart, section, NextHeading);
  }

  /** Splicing the same section in again, at the marker it starts with, changes nothing. */
  lemma SpliceTwice(readme: string, marker: string, section: string, next: string)
    requires Index(readme, marker).Some?
    requires HasPrefix(section, marker) && |section| > |marker| && section[|section| - 1] == '\n'
    requires !Contains(section, next)
    requires |next| >= 2 && next[0] == '\n' && '\n' !in next[1..]
    ensures var start := Index(readme, marker).value;
      var once := Splice(readme, start, |marker|, section, next);
      Index(once, marker) == Some(start) && start + |marker| <= |once|
      && Splice(once, start, |marker|, section, next) == once
  {
    var start := Index(readme, marker).value;
    var m := |marker|;
    var after := readme[start + m..];
    var rest := if Index(after, next).None? then "" else "\n" + after[Index(after, next).value..];
    var once := readme[..start] + section + rest;
    assert Splice(readme, start, m, section, next) == once;
    FirstKept(readme, marker, section, rest);
    Pieces(readme[..start], section, rest, m);
    var tail := section[m..];
    NoneInside(section, m, next);
    assert tail[|tail| - 1] == section[|section| - 1];
    if rest != [] {
      var k := Index(after, next).value;
      assert rest[1..] == after[k..];
      assert after[k..][..|next|] == after[k..k + |next|];
    }
    RestKept(tail, rest, next);
    var again := once[start + m..];
    assert again == tail + rest;
    if rest == [] {
      assert Splice(once, start, m, section, next) == once[..start] + section;
    } else {
      var k := Index(again, next).value;
      assert Splice(once, start, m, section, next) == once[..start] + section + ("\n" + again[k..]);
    }
  }

  /** After a section free of `next`, the splice finds the same rest again. */
  lemma RestKept(tail: string, rest: string, next: string)
    requires !Contains(tail, next) && tail != [] && tail[|tail| - 1] == '\n'
    requires |next| >= 2 && next[0] == '\n' && '\n' !in next[1..]
    requires rest == [] || (|rest| >= 1 + |next| && rest[0] == '\n' && rest[1..1 + |next|] == next)
    ensures var after := tail + rest;
      (Index(after, next).None? <==> rest == [])
      && (Index(after, next).Some? ==> "\n" + after[Index(after, next).value..] == rest)
  {
    if rest == [] {
      assert tail + rest == tail;
    } else {
      NextAfter(tail, rest, next);
      assert (tail + rest)[|tail| + 1..] == rest[1..];
      assert "\n" + rest[1..] == rest;
    }
  }

  /** The parts of a README whose section was replaced. */
  lemma Pieces(pre: string, section: string, rest: string, m: nat)
    requires m <= |section|
    ensures (pre + section + rest)[..|pre|] == pre
    ensures (pre + section + rest)[|pre| + m..] == section[m..] + rest
  {
  }

  /** A first occurrence of the marker before which nothing changed is found again. */
  lemma FirstKept(readme: string, marker: string, section: string, rest: string)
    requires Index(readme, marker).Some?
    requires HasPrefix(section, marker)
    ensures var start := Index(readme, marker).value;
      Index(readme[..start] + section + rest, marker) == Some(start)
  {
    var start := Index(readme, marker).value;
    var once := readme[..start] + section + rest;
    var m := |marker|;
    assert At(readme, marker, start);
    assert once[..start] == readme[..start];
    assert once[start..start + m] == section[..m] == marker == readme[start..start + m];
    assert once[..start + m] == once[..start] + once[start..start + m];
    assert readme[..start + m] == readme[..start] + readme[start..start + m];
    assert once[..start + m] == readme[..start + m];
    forall i | 0 <= i < start ensures !At(once, marker, i) {
      assert !At(readme, marker, i);
      SameSlice(once, readme, start + m, i, i + m);
    }
    IndexIsFirst(once, marker, start);
  }

  /** Two texts that share a prefix share every slice inside it. */
  lemma SameSlice(a: string, b: string, k: nat, i: nat, j: nat)
    requires i <= j <= k <= |a| && k <= |b| && a[..k] == b[..k]
    ensures a[i..j] == b[i..j]
  {
    forall x | 0 <= x < j - i ensures a[i..j][x] == b[i..j][x] {
      assert a[i + x] == a[..k][i + x] == b[..k][i + x] == b[i + x];
    }
  }

  /** A piece of a text free of `next` is free of it too. */
  lemma NoneInside(section: string, from: nat, next: string)
    requires from <= |section| && !Contains(section, next)
    ensures !Contains(section[from..], next)
  {
    if Contains(section[from..], next) {
      var i := Index(section[from..], next).value;
      assert section[from..][i..i + |next|] == section[from + i..from + i + |next|];
      assert At(section, next, from + i);
    }
  }

  /**
   * The first `next` of `tail + rest` is the one `rest` starts with after its
   * newline, when `tail` ends with a newline and `next` is a newline followed
   * by no other.
   */
  lemma NextAfter(tail: string, rest: string, next: string)
    requires !Contains(tail, next) && tail != [] && tail[|tail| - 1] == '\n'
    requires |next| >= 2 && next[0] == '\n' && '\n' !in next[1..]
    requires |rest| >= 1 + |next| && rest[0] == '\n' && rest[1..1 + |next|] == next
    ensures Index(tail + rest, next) == Some(|tail| + 1)
  {
    var s := tail + rest;
    var n := |next|;
    assert s[|tail| + 1..|tail| + 1 + n] == next;
    forall i | 0 <= i <= |tail| ensures !At(s, next, i) {
      if i + n <= |tail| {
        assert !At(tail, next, i);
        assert s[i..i + n] == tail[i..i + n];
      } else if i == |tail| {
        assert s[i + 1] == '\n';
        assert next[1] != '\n' by { assert next[1] == next[1..][0]; }
        assert i + n <= |s| ==> s[i..i + n][1] == s[i + 1];
      } else {
        var d := |tail| - i;
        assert s[i + d] == '\n';
        assert next[d] != '\n' by { assert next[d] == next[1..][d - 1]; }
        assert i + n <= |s| ==> s[i..i + n][d] == s[i + d];
      }
    }
    IndexIsFirst(s, next, |tail| + 1);
  }

  /** An occurrence with none before it is the one `Index` finds. */
  lemma IndexIsFirst(s: string, sub: string, k: nat)
    requires At(s, sub, k)
    requires forall i :: 0 <= i < k ==> !At(s, sub, i)
    ensures Index(s, sub) == Some(k)
  {
    ContainsAt(s, sub, k);
  }

  // ---------------------------------------------------------- asset status

  /** The asset that records one prompt type. */
  function PromptAsset(t: PromptType): string
  {
    "prompt_" + t
  }

  /** The loop of `updateAssetStatus`: each error-free type leaves pending and is generated, flag set. */
  function MarkPrompts(st: Assets.AssetStatus, results: seq<PromptResult>): (r: Assets.AssetStatus)
    ensures r.personaName == st.personaName && r.metadata == st.metadata
    ensures r.lastSynthesizedUpdate == st.lastSynthesizedUpdate
    ensures r.lastAssetsGeneration == st.lastAssetsGeneration
  {
    if results == [] then st
    else
      var before := MarkPrompts(st, results[..|results| - 1]);
      var last := results[|results| - 1];
      if last.error.None? then
        Assets.WithGenerated(before, PromptAsset(last.promptType), before.lastAssetsGeneration)
      else before
  }

  /** Every error-free result's asset ends up generated, not pending, and flagged. */
  lemma {:induction false} PromptsMarked(st: Assets.AssetStatus, results: seq<PromptResult>, i: nat)
    requires i < |results| && results[i].error.None?
    ensures var r := MarkPrompts(st, results);
      var a := PromptAsset(results[i].promptType);
      a in r.generatedAssets && a !in r.pendingAssets && a in Assets.Flags(r) && Assets.Flags(r)[a]
  {
    var init := results[..|results| - 1];
    var before := MarkPrompts(st, init);
    var last := results[|results| - 1];
    var a := PromptAsset(results[i].promptType);
    if i < |init| {
      assert init[i] == results[i];
      PromptsMarked(st, init, i);
    }
  }

  /**
   * An asset that is not the asset of any error-free result keeps its place
   * in the pending and the generated lists and its flag: failed results
   * change nothing.
   */
  lemma {:induction false} OthersUnmarked(st: Assets.AssetStatus, results: seq<PromptResult>, a: string)
    requires forall i :: 0 <= i < |results| && results[i].error.None? ==> PromptAsset(results[i].promptType) != a
    ensures var r := MarkPrompts(st, results);
      (a in r.pendingAssets <==> a in st.pendingAssets)
      && (a in r.generatedAssets <==> a in st.generatedAssets)
      && (a in Assets.Flags(r) <==> a in Assets.Flags(st))
      && (a in Assets.Flags(st) ==> Assets.Flags(r)[a] == Assets.Flags(st)[a])
  {
    if results != [] {
      var init := results[..|results| - 1];
      forall i | 0 <= i < |init| && init[i].error.None? ensures PromptAsset(init[i].promptType) != a {
        assert init[i] == results[i];
      }
      OthersUnmarked(st, init, a);
    }
  }

  /** A list without repeats. */
  predicate NoRepeats(s: seq<string>)
  {
    forall j, k :: 0 <= j < k < |s| ==> s[j] != s[k]
  }

  /** No duplicates are added: a generated list without repeats stays without. */
  lemma {:induction false} NoRepeatsAdded(st: Assets.AssetStatus, results: seq<PromptResult>)
    requires NoRepeats(st.generatedAssets)
    ensures NoRepeats(MarkPrompts(st, results).generatedAssets)
  {
    if results != [] {
      var before := MarkPrompts(st, results[..|results| - 1]);
      NoRepeatsAdded(st, results[..|results| - 1]);
      var last := results[|results| - 1];
      if last.error.None? {
        var a := PromptAsset(last.promptType);
        var b := before.generatedAssets;
        if a !in b {
          var g := b + [a];
          forall j, k | 0 <= j < k < |g| ensures g[j] != g[k] {
            assert g[j] == b[j] && b[j] in b;
            if k == |g| - 1 {
              assert g[k] == a;
            } else {
              assert g[k] == b[k];
            }
          }
          assert NoRepeats(g);
        }
      }
    }
  }

  const LastPromptGeneration := "last_prompt_generation"
  const PromptsGenerated := "prompts_generated"

  /**
   * The status `updateAssetStatus` saves at time `now` (written `nowText`):
   * the marks, the generation time, and metadata counting every result,
   * failed ones included.
   */
  function PromptStatus(st: Assets.AssetStatus, results: seq<PromptResult>, now: int, nowText: string)
    : (r: Assets.AssetStatus)
    ensures r.lastAssetsGeneration == now && r.metadata.Some?
    ensures PromptsGenerated in r.metadata.value && LastPromptGeneration in r.metadata.value
    ensures r.metadata.value[PromptsGenerated] == NatToString(|results|)
    ensures r.metadata.value[LastPromptGeneration] == nowText
    ensures r.personaName == st.personaName
  {
    var marked := MarkPrompts(st, results);
    var meta := if marked.metadata.Some? then marked.metadata.value else map[];
    marked.(lastAssetsGeneration := now,
            metadata := Some(meta[LastPromptGeneration := nowText][PromptsGenerated := NatToString(|results|)]))
  }

  // --------------------------------------------------------------- saving

  /** The results `SavePromptResults` writes: the error-free ones that pass validation, in order. */
  function Savable(results: seq<PromptResult>): seq<PromptResult>
  {
    if results == [] then []
    else
      var last := results[|results| - 1];
      Savable(results[..|results| - 1]) + (if ValidatePromptResult(last).None? then [last] else [])
  }

  /** The results written are those that pass validation; none of them failed. */
  lemma {:induction false} SavableMembers(results: seq<PromptResult>, x: PromptResult)
    ensures x in Savable(results) <==> x in results && ValidatePromptResult(x).None?
    ensures x in Savable(results) ==> x.error.None?
  {
    if results != [] {
      SavableMembers(results[..|results| - 1], x);
      assert x in results <==> x in results[..|results| - 1] || x == results[|results| - 1];
    }
  }

  /** Where each result is written in a persona folder. */
  function PromptFileOf(folder: string): PromptResult -> string
  {
    (x: PromptResult) => PromptPath(folder, x.promptType)
  }

  /** What is written for each result. */
  function DocumentOf(tf: TimeFormats): PromptResult -> string
  {
    (x: PromptResult) => FormatPromptContent(x, tf)
  }

  /** The files after writing `doc(x)` to `path(x)` for each `x` of `saved`, in order. */
  function Written(files: map<string, string>, saved: seq<PromptResult>,
                   path: PromptResult -> string, doc: PromptResult -> string): map<string, string>
  {
    if saved == [] then files
    else
      var last := saved[|saved| - 1];
      Written(files, saved[..|saved| - 1], path, doc)[path(last) := doc(last)]
  }

  /** Writing one more result updates its own file. */
  lemma WriteOne(files: map<string, string>, saved: seq<PromptResult>, x: PromptResult,
                 path: PromptResult -> string, doc: PromptResult -> string)
    ensures Written(files, saved + [x], path, doc) == Written(files, saved, path, doc)[path(x) := doc(x)]
  {
    assert (saved + [x])[..|saved|] == saved;
  }

  /**
   * A path is there after the writes exactly when it was there before or is
   * the file of a written result; the other files keep their contents, and
   * the file of the last written result holds that result's document.
   */
  lemma {:induction false} PromptFileWritten(files: map<string, string>, saved: seq<PromptResult>,
                                             path: PromptResult -> string, doc: PromptResult -> string, p: string)
    ensures var after := Written(files, saved, path, doc);
      (p in after <==> p in files || exists x :: x in saved && p == path(x))
      && ((forall x :: x in saved ==> p != path(x)) && p in files ==> after[p] == files[p])
      && (saved != [] && p == path(saved[|saved| - 1]) ==> after[p] == doc(saved[|saved| - 1]))
  {
    if saved != [] {
      var init := saved[..|saved| - 1];
      PromptFileWritten(files, init, path, doc, p);
      assert forall x :: x in saved <==> x in init || x == saved[|saved| - 1];
    }
  }

  /**
   * The repository's files after `SavePromptResults` at time `now`: the
   * prompt files of the results that pass validation, then the README with
   * its section brought up to date when the folder has one.
   */
  function SavedFiles(files: map<string, string>, personaName: string, results: seq<PromptResult>,
                      tf: TimeFormats, now: int): map<string, string>
  {
    var folder := PersonaFolder(personaName);
    ReadmeUpdated(Written(files, Savable(results), PromptFileOf(folder), DocumentOf(tf)), personaName, results, tf, now)
  }

  /** The files after the README step: a missing README is left missing. */
  function ReadmeUpdated(files: map<string, string>, personaName: string, results: seq<PromptResult>,
                         tf: TimeFormats, now: int): map<string, string>
  {
    var readme := PersonaFolder(personaName) + "/README.md";
    if readme in files then
      files[readme := UpdatePersonaReadme(Some(files[readme]), PromptsSection(results, tf.readable(now))).value]
    else files
  }

  /** The status files after `SavePromptResults`: unchanged when the status cannot be loaded. */
  function SavedStatuses(statusFiles: map<string, Assets.StatusFile>, personaName: string,
                         results: seq<PromptResult>, tf: TimeFormats, now: int): map<string, Assets.StatusFile>
  {
    var loaded := Assets.LoadFrom(statusFiles, personaName, now);
    if loaded.Err? then statusFiles
    else Assets.SaveTo(statusFiles, PromptStatus(loaded.value, results, now, tf.rfc3339(now)))
  }

  /** `RepositoryManager`, holding the repository's files and its status manager. */
  class RepositoryManager {
    var files: map<string, string>
    const statusManager: Assets.StatusManager

    constructor(files: map<string, string>, statusManager: Assets.StatusManager)
      ensures this.files == files && this.statusManager == statusManager
    {
      this.files := files;
      this.statusManager := statusManager;
    }

    /**
     * `SavePromptResults` at time `now`: the prompt files of the valid
     * results, the README (when there is one), then the status. Neither a
     * README nor a status failure makes it fail.
     */
    method SavePromptResults(personaName: string, results: seq<PromptResult>, tf: TimeFormats, now: int)
      modifies this, statusManager
      ensures files == SavedFiles(old(files), personaName, results, tf, now)
      ensures statusManager.files == SavedStatuses(old(statusManager.files), personaName, results, tf, now)
      ensures statusManager.synthesized == old(statusManager.synthesized)
    {
      WritePromptFiles(PersonaFolder(personaName), results, tf);
      UpdateReadme(personaName, results, tf, now);
      assert statusManager.LoadStatus(personaName, now) == Assets.LoadFrom(statusManager.files, personaName, now);
      var _ := UpdateAssetStatus(personaName, results, now, tf.rfc3339(now));
    }

    /** `updatePersonaReadme`: a README that cannot be read is left alone. */
    method UpdateReadme(personaName: string, results: seq<PromptResult>, tf: TimeFormats, now: int)
      modifies this
      ensures files == ReadmeUpdated(old(files), personaName, results, tf, now)
    {
      var readmePath := PersonaFolder(personaName) + "/README.md";
      var section := GeneratePromptsSection(results, tf.readable(now));
      var readme := if readmePath in files then Some(files[readmePath]) else None;
      var updated := UpdatePersonaReadme(readme, section);
      if updated.Some? {
        files := files[readmePath := updated.value];
      }
    }

    /** The prompt loop of `SavePromptResults`: failed and invalid results are skipped. */
    method WritePromptFiles(folder: string, results: seq<PromptResult>, tf: TimeFormats)
      modifies this
      ensures files == Written(old(files), Savable(results), PromptFileOf(folder), DocumentOf(tf))
    {
      for i := 0 to |results|
        invariant files == Written(old(files), Savable(results[..i]), PromptFileOf(folder), DocumentOf(tf))
      {
        assert results[..i + 1][..i] == results[..i];
        var result := results[i];
        ghost var kept := Savable(results[..i]);
        if result.error.Some? {
          assert ValidatePromptResult(result).Some?;
          assert Savable(results[..i + 1]) == kept + [];
          assert kept + [] == kept;
          continue;
        }
        if ValidatePromptResult(result).Some? {
          assert Savable(results[..i + 1]) == kept + [];
          assert kept + [] == kept;
          continue;
        }
        assert Savable(results[..i + 1]) == kept + [result];
        WriteOne(old(files), kept, result, PromptFileOf(folder), DocumentOf(tf));
        files := files[PromptFileOf(folder)(result) := DocumentOf(tf)(result)];
      }
      assert results[..|results|] == results;
    }

    /** `updateAssetStatus`: the load error when the status cannot be read, nothing saved then. */
    method UpdateAssetStatus(personaName: string, results: seq<PromptResult>, now: int, nowText: string)
      returns (err: Option<string>)
      modifies statusManager
      ensures old(statusManager.LoadStatus(personaName, now)).Err? ==>
        err == Some(old(statusManager.LoadStatus(personaName, now)).error)
        && statusManager.files == old(statusManager.files)
      ensures old(statusManager.LoadStatus(personaName, now)).Ok? ==>
        err.None?
        && statusManager.files == Assets.SaveTo(old(statusManager.files),
                                                PromptStatus(old(statusManager.LoadStatus(personaName, now)).value,
                                                             results, now, nowText))
      ensures statusManager.synthesized == old(statusManager.synthesized)
    {
      var loaded := statusManager.LoadStatus(personaName, now);
      if loaded.Err? {
        return Some(loaded.error);
      }
      var status := loaded.value;
      for i := 0 to |results|
        invariant status == MarkPrompts(loaded.value, results[..i])
      {
        assert results[..i + 1][..i] == results[..i];
        var result := results[i];
        if result.error.None? {
          var assetName := PromptAsset(result.promptType);
          status := Assets.WithGenerated(status, assetName, status.lastAssetsGeneration);
        }
      }
      assert results[..|results|] == results;
      var meta := if status.metadata.Some? then status.metadata.value else map[];
      status := status.(lastAssetsGeneration := now,
                        metadata := Some(meta[LastPromptGeneration := nowText][PromptsGenerated := NatToString(|results|)]));
      statusManager.SaveStatus(status);
      return None;
    }
  }
}
