/**
 * Opening the pull request for a new persona package: its branch and folder
 * names, the files it writes, the PR text and the comment back on the issue.
 *
 * The GitHub API is a record of answers (`GitHubOps`). Some headings of the
 * PR body and the README carry the characters the repository's text has
 * there (`StructureIcon` and the like), copied as they are.
 */
module StructuredPr {
  import opened Wrappers
  import opened Str
  import opened Assets
  import Pipelines
  import AssetMonitor

  /** `PersonaFiles`. */
  datatype PersonaFiles = PersonaFiles(
    claudeRaw: string, geminiRaw: string, grokRaw: string, gptRaw: string,
    userRaw: string, fullSynthesis: string, assetStatus: Option<AssetStatus>)

  /** One file to write: where, what, and the commit message's subject. */
  datatype FileOp = FileOp(path: string, content: string, message: string)

  /** A pull request GitHub created. */
  datatype CreatedPr = CreatedPr(number: int, url: string)

  /** What GitHub answers. `putFile(path, content, message, branch, update)` gives the error, if any. */
  datatype GitHubOps = GitHubOps(
    defaultBranch: Result<string>,
    getRef: string -> Result<string>,
    createRef: (string, string) -> Option<string>,
    fileExists: (string, string) -> bool,
    putFile: (string, string, string, string, bool) -> Option<string>,
    createPr: NewPullRequest -> Result<CreatedPr>)

  /** The pull request to open: title, body, head branch and base branch. */
  datatype NewPullRequest = NewPullRequest(title: string, body: string, head: string, base: string)

  /** What `CreateStructuredPersonaPR` did, when it got as far as opening the PR. */
  datatype PrOutcome = PrOutcome(pr: CreatedPr, written: seq<string>, labels: seq<string>, comment: Option<string>)

  const RawIcon := "\U{F8FF}\U{FC}\U{EC}\U{F9}"
  const MainIcon := "\U{F8FF}\U{FC}\U{E9}\U{D8}"

  /** How the commit messages of a package PR begin. */
  const AddVerb := "Add "

  /** The labels every package PR gets. */
  const Labels: seq<string> := ["persona", "automated", "studio", "structured"]

  // ---------------------------------------------------------- naming

  /** The branch: `persona/<name, lower case, spaces and slashes as dashes>-<issue>`. */
  function BranchName(personaName: string, issueNumber: int): string
  {
    var sanitizedName := MapChar(Lower(MapChar(personaName, ' ', '-')), '/', '-');
    "persona/" + sanitizedName + "-" + IntToString(issueNumber)
  }

  /** A branch name starts with `persona/`, then the name with no space, slash or capital left in it. */
  lemma BranchNameShape(personaName: string, issueNumber: int)
    ensures var r := BranchName(personaName, issueNumber);
      HasPrefix(r, "persona/") && |r| > 9 + |personaName|
      && (forall i :: 8 <= i < 8 + |personaName| ==> r[i] != ' ' && r[i] != '/' && !IsUpper(r[i]))
  {
  }

  /** The package folder: `personas/<name, lower case, spaces and slashes as underscores>`. */
  function FolderName(personaName: string): (r: string)
    ensures HasPrefix(r, "personas/") && |r| == 9 + |personaName|
    ensures forall i :: 9 <= i < |r| ==> r[i] != ' ' && r[i] != '/' && !IsUpper(r[i])
  {
    "personas/" + MapChar(Lower(MapChar(personaName, ' ', '_')), '/', '_')
  }

  /** The package folder is the single-file path of the older pipeline without `.md`, and the folder the monitor checks. */
  lemma FolderAgrees(personaName: string)
    ensures FolderName(personaName) + ".md" == Pipelines.GetPersonaFilePath(personaName)
    ensures FolderName(personaName) == "personas/" + AssetMonitor.GitHubFolder(personaName)
  {
  }

  /** Branch and folder carry the same name characters, with `-` against `_`. */
  lemma BranchMatchesFolder(personaName: string, issueNumber: int, i: nat)
    requires i < |personaName|
    ensures var b := BranchName(personaName, issueNumber)[8 + i];
      var f := FolderName(personaName)[9 + i];
      (b == '-' && f == '_' && personaName[i] in " /") || (personaName[i] !in " /" && b == f && f == LowerChar(personaName[i]))
  {
  }

  // ------------------------------------------------------- asset status

  /**
   * `generateAssetStatusJSON` before serialising: a zero synthesis time becomes
   * `now`, nil maps become empty, and the metadata records Studio and the
   * creation time `nowText`.
   */
  function StampStatus(st: AssetStatus, now: int, nowText: string): (r: AssetStatus)
    ensures r.lastSynthesizedUpdate == if st.lastSynthesizedUpdate == ZeroTime then now else st.lastSynthesizedUpdate
    ensures r.assetGenerationFlags == Some(Flags(st)) && r.metadata.Some?
    ensures "created_by" in r.metadata.value && "created_at" in r.metadata.value
    ensures r.metadata.value["created_by"] == "studio" && r.metadata.value["created_at"] == nowText
    ensures forall k :: k != "created_by" && k != "created_at" ==>
      (k in r.metadata.value <==> st.metadata.Some? && k in st.metadata.value)
      && (k in r.metadata.value ==> r.metadata.value[k] == st.metadata.value[k])
    ensures r.personaName == st.personaName && r.lastAssetsGeneration == st.lastAssetsGeneration
    ensures r.pendingAssets == st.pendingAssets && r.generatedAssets == st.generatedAssets
  {
    var synthesized := if st.lastSynthesizedUpdate == ZeroTime then now else st.lastSynthesizedUpdate;
    var meta := if st.metadata.Some? then st.metadata.value else map[];
    st.(lastSynthesizedUpdate := synthesized,
        assetGenerationFlags := Some(Flags(st)),
        metadata := Some(meta["created_by" := "studio"]["created_at" := nowText]))
  }

  /** Stamping twice at the same time is stamping once. */
  lemma StampIdempotent(st: AssetStatus, now: int, nowText: string)
    ensures StampStatus(StampStatus(st, now, nowText), now, nowText) == StampStatus(st, now, nowText)
  {
    var once := StampStatus(st, now, nowText);
    assert once.metadata.value["created_by" := "studio"]["created_at" := nowText] == once.metadata.value;
  }

  /** `generateAssetStatusJSON`: `serialize` stands for `SerializeAssetStatus`. */
  function GenerateAssetStatusJson(st: AssetStatus, now: int, nowText: string,
                                   serialize: AssetStatus -> Result<string>): (r: Result<string>)
    ensures exists s: AssetStatus ::
              && r == serialize(s)
              && s.personaName == st.personaName && s.pendingAssets == st.pendingAssets
              && s.generatedAssets == st.generatedAssets && s.lastAssetsGeneration == st.lastAssetsGeneration
              && s.metadata.Some? && "created_by" in s.metadata.value && s.metadata.value["created_by"] == "studio"
              && "created_at" in s.metadata.value && s.metadata.value["created_at"] == nowText
  {
    var s := StampStatus(st, now, nowText);
    serialize(s)
  }

  // ------------------------------------------------------------- texts

  /** `generateAssetTriggerExamples`: one live marker per asset type. */
  function TriggerExamples(): (r: string)
    ensures forall t :: t in AssetMonitor.MarkedAssets ==> Contains(r, AssetMonitor.Marker(t))
  {
    var r := Concat(ExampleParts());
    assert forall t :: t in AssetMonitor.MarkedAssets ==> Contains(r, AssetMonitor.Marker(t)) by {
      forall t | t in AssetMonitor.MarkedAssets ensures Contains(r, AssetMonitor.Marker(t)) {
        ExamplesHaveMarker(t);
      }
    }
    r
  }

  const ReadmeIntro :=
    " Persona\n\nThis folder contains a comprehensive persona package generated by Studio.\n\n## Contents\n\n### "
    + RawIcon + " Raw Outputs (/raw)\n"
    + "- **claude.md** - Claude Opus 4's interpretation\n"
    + "- **gemini.md** - Gemini 2.5 Pro's interpretation\n"
    + "- **grok.md** - Grok 2's interpretation\n"
    + "- **gpt.md** - GPT-4 Turbo's interpretation\n"
    + "- **user_supplied.md** - User-provided persona (if supplied)\n\n### "
    + MainIcon + " Main Files\n"
    + "- **synthesized.md** - Full synthesized persona combining best elements from all AI providers\n\n"
    + "## Asset Generation\n\n### Available Asset Types\n"
    + "The following assets can be automatically generated based on the synthesized persona:\n\n"
    + "- **Prompt-Ready Version** - Condensed version optimized for AI prompts\n"
    + "- **Platform Adaptations** - Platform-specific versions (Discord, Telegram, etc.)\n"
    + "- **Voice Clone Config** - Voice synthesis parameters\n"
    + "- **Image Avatar Config** - Avatar generation settings\n"
    + "- **Chatbot Config** - Deployment configuration\n"
    + "- **API Endpoint Config** - API integration settings\n\n"
    + "### Triggering Asset Generation\nTo generate additional assets, add trigger markers to this README:\n\n"

  const ReadmeUsage :=
    "\n\n### Asset Status\nCheck **.assets_status.json** for current generation status and timestamps.\n\n"
    + "## Usage\n\n1. **For immediate use**: Use synthesized.md for the complete persona\n"
    + "2. **For analysis**: Compare /raw outputs from different AI providers\n"
    + "3. **For assets**: Add generation triggers above to create additional formats\n\n"
    + "## Source\nGenerated from issue #"

  const ReadmeFooter :=
    " in the twin2ai/personas repository.\n\n---\n"
    + "*Created by [Studio](https://github.com/twin2ai/studio) - Multi-AI Persona Generation Pipeline*"

  /** `generatePersonaReadme`. */
  function PersonaReadme(personaName: string, issueNumber: int): string
  {
    ReadmeHead(personaName) + TriggerExamples() + ReadmeTail(issueNumber)
  }

  /**
   * The README opens with its head, the persona's name as its heading, and
   * carries every live marker.
   */
  lemma PersonaReadmeLayout(personaName: string, issueNumber: int)
    ensures var r := PersonaReadme(personaName, issueNumber);
      && HasPrefix(r, ReadmeHead(personaName))
      && forall t :: t in AssetMonitor.MarkedAssets ==> Contains(r, AssetMonitor.Marker(t))
  {
    ThreeParts(ReadmeHead(personaName), TriggerExamples(), ReadmeTail(issueNumber));
  }

  function ReadmeHead(personaName: string): string
  {
    "# " + personaName + ReadmeIntro
  }

  function ReadmeTail(issueNumber: int): string
  {
    ReadmeUsage + IntToString(issueNumber) + ReadmeFooter
  }

  /**
   * The README written into every package carries all nine markers live, so a
   * monitor that reads it asks for every asset type.
   */
  lemma ReadmeAsksForEverything(personaName: string, issueNumber: int)
    ensures AssetMonitor.ReadmeAssets(PersonaReadme(personaName, issueNumber)) == AssetMonitor.MarkedAssets
  {
    FramedExamplesAskForEverything(ReadmeHead(personaName), ReadmeTail(issueNumber));
  }

  /** Whatever surrounds the marker examples, a text holding them asks for every asset type. */
  lemma FramedExamplesAskForEverything(head: string, tail: string)
    ensures AssetMonitor.ReadmeAssets(head + TriggerExamples() + tail) == AssetMonitor.MarkedAssets
  {
    var content := head + TriggerExamples() + tail;
    forall t | t in AssetMonitor.MarkedAssets ensures Contains(content, AssetMonitor.Marker(t)) {
      ContainsInside(head, TriggerExamples(), tail, AssetMonitor.Marker(t));
    }
    AllMarked(content, |AssetMonitor.MarkedAssets|);
  }

  lemma ExamplesHaveMarker(t: string)
    requires t in AssetMonitor.MarkedAssets
    ensures Contains(Concat(ExampleParts()), AssetMonitor.Marker(t))
  {
    var m := AssetMonitor.Marker(t);
    var parts := ExampleParts();
    var k :| 0 <= k < |AssetMonitor.MarkedAssets| && AssetMonitor.MarkedAssets[k] == t;
    var slot := MarkerSlot(k);
    assert parts[slot] == m;
    ConcatPiece(parts, slot);
    ContainsAt(Concat(parts), m, PrefixLength(parts, slot));
  }

  /** The examples as a list of pieces; the markers are at the slots `MarkerSlot` names. */
  function ExampleParts(): seq<string>
  {
    [AllPromptsNote, AssetMonitor.Marker(Prompts),
     PlatformPromptsNote, AssetMonitor.Marker(PlatformPrompts),
     VariationPromptsNote, AssetMonitor.Marker(VariationPrompts),
     OtherAssetsNote,
     AssetMonitor.Marker(PromptReady), "\n",
     AssetMonitor.Marker(PlatformAdaptations), "\n",
     AssetMonitor.Marker(VoiceClone), "\n",
     AssetMonitor.Marker(ImageAvatar), "\n",
     AssetMonitor.Marker(ChatbotConfig), "\n",
     AssetMonitor.Marker(ApiEndpoint)]
  }

  const AllPromptsNote := "\n<!-- To generate all platform and variation prompts, add this marker: -->\n"
  const PlatformPromptsNote :=
    "\n\n<!-- To generate only platform-specific prompts (ChatGPT, Claude, etc.), add this marker: -->\n"
  const VariationPromptsNote :=
    "\n\n<!-- To generate only variation prompts (condensed, alternative), add this marker: -->\n"
  const OtherAssetsNote := "\n\n<!-- To generate other assets, add these markers: -->\n"

  /** The slot of the k-th marked asset's marker in `ExampleParts`. */
  function MarkerSlot(k: nat): (slot: nat)
    requires k < |AssetMonitor.MarkedAssets|
    ensures slot < |ExampleParts()|
  {
    [7, 9, 11, 13, 15, 17, 1, 3, 5][k]
  }

  /** The pieces joined end to end. */
  function Concat(parts: seq<string>): string
  {
    if parts == [] then [] else Concat(parts[..|parts| - 1]) + parts[|parts| - 1]
  }

  function PrefixLength(parts: seq<string>, n: nat): nat
    requires n <= |parts|
  {
    |Concat(parts[..n])|
  }

  /** A piece of a concatenation sits at the summed length of the pieces before it. */
  lemma {:induction false} ConcatPiece(parts: seq<string>, n: nat)
    requires n < |parts|
    ensures PrefixLength(parts, n) + |parts[n]| <= |Concat(parts)|
    ensures Concat(parts)[PrefixLength(parts, n)..PrefixLength(parts, n) + |parts[n]|] == parts[n]
  {
    var init := parts[..|parts| - 1];
    assert Concat(parts) == Concat(init) + parts[|parts| - 1];
    if n == |parts| - 1 {
      assert parts[..n] == init;
    } else {
      ConcatPiece(init, n);
      assert init[..n] == parts[..n];
      assert init[n] == parts[n];
      assert Concat(parts)[..|Concat(init)|] == Concat(init);
    }
  }

  /** With every marker present, the README list is the whole marked-asset list. */
  lemma {:induction false} AllMarked(content: string, n: nat)
    requires n <= |AssetMonitor.MarkedAssets|
    requires forall t :: t in AssetMonitor.MarkedAssets ==> Contains(content, AssetMonitor.Marker(t))
    ensures AssetMonitor.MarkedUpTo(content, n) == AssetMonitor.MarkedAssets[..n]
  {
    if n > 0 {
      AllMarked(content, n - 1);
      assert AssetMonitor.MarkedAssets[n - 1] in AssetMonitor.MarkedAssets;
      assert AssetMonitor.MarkedAssets[..n] == AssetMonitor.MarkedAssets[..n - 1] + [AssetMonitor.MarkedAssets[n - 1]];
    }
  }

  /** The source line of the PR body. */
  function SourceRef(issuesOwner: string, issuesRepo: string, issueNumber: int): string
  {
    if issueNumber > 0 then Pipelines.IssueRefLead + issuesOwner + "/" + issuesRepo + "#" + IntToString(issueNumber)
    else "Created via batch processing"
  }

  /** The PR body up to its source line. */
  function PrBodyHead(personaName: string, userRaw: string, baseFolder: string): string
  {
    var includesUserPersona := if userRaw != [] then PrUserLine else "";
    PrOpening + personaName + PrStructure + includesUserPersona + PrFiles
    + baseFolder + PrRawLine + baseFolder + PrSynthesizedLine + baseFolder + PrReadmeLine
  }

  const PrOpening := "This PR adds a comprehensive persona package for: **"
  const PrStructure :=
    "**\n\n## \U{F8FF}\U{FC}\U{EC}\U{C5} Structure\nThis persona includes:\n"
    + "- **Raw outputs** from all 4 AI providers (Claude, Gemini, Grok, GPT-4)"
  const PrUserLine := "\n- **User-supplied persona** included in synthesis"
  const PrFiles :=
    "\n- **Synthesized version** combining the best of all outputs\n\n"
    + "## \U{F8FF}\U{FC}\U{EC}\U{E7} Files\n- "
  const PrRawLine := "/raw/ - Individual AI provider outputs\n- "
  const PrSynthesizedLine := "/synthesized.md - Full synthesized persona\n- "
  const PrReadmeLine := "/README.md - Documentation and overview\n\n## \U{F8FF}\U{FC}\U{EE}\U{F3} Source\n"

  /** The closing lines of the PR body; it opens with a line break, so no digit follows the issue number. */
  const PrBodyTail := "\n" + "\n---\n*This is an automated PR created by [Studio](https://github.com/twin2ai/studio)*"

  /** The PR body. */
  function PrBody(personaName: string, userRaw: string, baseFolder: string, sourceRef: string): string
  {
    PrBodyHead(personaName, userRaw, baseFolder) + sourceRef + PrBodyTail
  }

  /** The comment posted on the issue: the link to the PR between two fixed texts. */
  function IssueComment(prUrl: string): string
  {
    CommentHead + prUrl + CommentTail
  }

  const CommentHead :=
    "\U{201A}\U{FA}\U{D6} Persona package generated successfully!\n\n\U{F8FF}\U{FC}\U{EC}\U{B6} **Complete persona package created with:**\n- Raw outputs from all 4 AI providers (Claude, Gemini, Grok, GPT-4)\n- Synthesized full persona combining the best elements\n- Documentation and metadata\n\nView the generated persona package: "

  const CommentTail :=
    "\n\nThe persona has been created in the [twin2ai/personas](https://github.com/twin2ai/personas) repository."

  /**
   * The package PR of an issue names that issue in the form the comment
   * pipeline reads back (`findOriginalIssue`), as long as no earlier part of
   * the body already reads as an issue reference.
   */
  lemma PrBodyNamesIssue(personaName: string, userRaw: string, baseFolder: string,
                         issuesOwner: string, issuesRepo: string, issueNumber: int)
    requires issueNumber > 0
    requires '#' !in issuesOwner && '#' !in issuesRepo
    requires forall k :: 0 <= k < |PrBodyHead(personaName, userRaw, baseFolder)| ==>
      !At(PrBodyHead(personaName, userRaw, baseFolder) + Pipelines.IssueRefLead, Pipelines.IssueRefLead, k)
    ensures Pipelines.FindIssueNumber(Some(PrBody(personaName, userRaw, baseFolder,
              SourceRef(issuesOwner, issuesRepo, issueNumber)))) == Ok(issueNumber)
  {
    BodyWithRef(PrBodyHead(personaName, userRaw, baseFolder), issuesOwner, issuesRepo, issueNumber, PrBodyTail);
  }

  lemma BodyWithRef(head: string, issuesOwner: string, issuesRepo: string, issueNumber: int, tail: string)
    requires issueNumber > 0
    requires '#' !in issuesOwner && '#' !in issuesRepo
    requires forall k :: 0 <= k < |head| ==> !At(head + Pipelines.IssueRefLead, Pipelines.IssueRefLead, k)
    requires tail == [] || !IsDigit(tail[0])
    ensures Pipelines.FindIssueNumber(Some(head + SourceRef(issuesOwner, issuesRepo, issueNumber) + tail)) == Ok(issueNumber)
  {
    var repo := issuesOwner + "/" + issuesRepo;
    var digits := NatToString(issueNumber);
    var lead := Pipelines.IssueRefLead;
    assert SourceRef(issuesOwner, issuesRepo, issueNumber) == lead + issuesOwner + "/" + issuesRepo + "#" + digits;
    assert lead + issuesOwner + "/" + issuesRepo + "#" + digits == lead + repo + "#" + digits;
    assert head + (lead + repo + "#" + digits) + tail == head + lead + repo + "#" + digits + tail;
    Pipelines.IssueRefAfter(head, repo, issueNumber, tail);
  }

  /** Batch packages (issue 0 or below) carry no issue reference. */
  lemma BatchBodyNamesNoIssue(issuesOwner: string, issuesRepo: string, issueNumber: int)
    requires issueNumber <= 0
    ensures SourceRef(issuesOwner, issuesRepo, issueNumber) == "Created via batch processing"
    ensures !Contains(SourceRef(issuesOwner, issuesRepo, issueNumber), "#")
  {
    ContainsChar("Created via batch processing", '#');
  }

  // --------------------------------------------------------- the file plan

  /** The six files every package has, in order, inside the folder `base`. */
  function MainFiles(base: string, files: PersonaFiles, readme: string): seq<FileOp>
  {
    [FileOp(base + "/raw/claude.md", files.claudeRaw, "Claude's raw output"),
     FileOp(base + "/raw/gemini.md", files.geminiRaw, "Gemini's raw output"),
     FileOp(base + "/raw/grok.md", files.grokRaw, "Grok's raw output"),
     FileOp(base + "/raw/gpt.md", files.gptRaw, "GPT-4's raw output"),
     FileOp(base + "/synthesized.md", files.fullSynthesis, "Full synthesized persona"),
     FileOp(base + "/README.md", readme, "Persona overview")]
  }

  const UserFile := "/raw/user_supplied.md"
  const StatusFileName := "/.assets_status.json"

  /** The names, inside the package folder, of the files the plan writes. */
  function PlanNames(userRaw: string, hasStatus: bool): seq<string>
  {
    ["/raw/claude.md", "/raw/gemini.md", "/raw/grok.md", "/raw/gpt.md", "/synthesized.md", "/README.md"]
    + (if userRaw != [] then [UserFile] else []) + (if hasStatus then [StatusFileName] else [])
  }

  /**
   * The files written into the folder `base`, in order: the six main files, the
   * user-supplied persona when there is one, and the serialised status
   * `statusJson` when there is one.
   */
  function PlanFor(base: string, files: PersonaFiles, readme: string, statusJson: Option<string>): (ops: seq<FileOp>)
    ensures |ops| == |PlanNames(files.userRaw, statusJson.Some?)|
    ensures forall i :: 0 <= i < |ops| ==> ops[i].path == base + PlanNames(files.userRaw, statusJson.Some?)[i]
    ensures ops[..6] == MainFiles(base, files, readme)
    ensures files.userRaw != [] ==> ops[6] == FileOp(base + UserFile, files.userRaw, "User-supplied persona")
    ensures statusJson.Some? ==> ops[|ops| - 1] == FileOp(base + StatusFileName, statusJson.value, "Asset generation status")
  {
    var user := if files.userRaw != [] then [FileOp(base + UserFile, files.userRaw, "User-supplied persona")] else [];
    var status := if statusJson.Some? then [FileOp(base + StatusFileName, statusJson.value, "Asset generation status")] else [];
    MainFiles(base, files, readme) + user + status
  }

  /** The files of a package: the plan for its folder, with its README. */
  function FilePlan(personaName: string, issueNumber: int, files: PersonaFiles, statusJson: Option<string>): seq<FileOp>
  {
    PlanFor(FolderName(personaName), files, PersonaReadme(personaName, issueNumber), statusJson)
  }

  /** `base + x` determines `x`. */
  lemma PrefixCancel(base: string, x: string, y: string)
    requires base + x == base + y
    ensures x == y
  {
    assert x == (base + x)[|base|..];
    assert y == (base + y)[|base|..];
  }

  /** A plan writes `base + name` exactly when `name` is one of its names. */
  lemma PlanHasFile(base: string, files: PersonaFiles, readme: string, statusJson: Option<string>, name: string)
    ensures var ops := PlanFor(base, files, readme, statusJson);
      (exists i :: 0 <= i < |ops| && ops[i].path == base + name)
      <==> name in PlanNames(files.userRaw, statusJson.Some?)
  {
    var ops := PlanFor(base, files, readme, statusJson);
    var names := PlanNames(files.userRaw, statusJson.Some?);
    forall i | 0 <= i < |ops| && ops[i].path == base + name ensures names[i] == name {
      PrefixCancel(base, names[i], name);
    }
    if name in names {
      var i :| 0 <= i < |names| && names[i] == name;
      assert ops[i].path == base + name;
    }
  }

  /** The user-supplied file is written exactly when the user supplied a persona, the status file exactly when there is one. */
  lemma PlanOptionalFiles(base: string, files: PersonaFiles, readme: string, statusJson: Option<string>)
    ensures var ops := PlanFor(base, files, readme, statusJson);
      ((exists i :: 0 <= i < |ops| && ops[i].path == base + UserFile) <==> files.userRaw != [])
      && ((exists i :: 0 <= i < |ops| && ops[i].path == base + StatusFileName) <==> statusJson.Some?)
  {
    PlanHasFile(base, files, readme, statusJson, UserFile);
    PlanHasFile(base, files, readme, statusJson, StatusFileName);
    var names := PlanNames(files.userRaw, statusJson.Some?);
    assert UserFile in names <==> files.userRaw != [] by {
      forall i | 0 <= i < |names| && names[i] == UserFile ensures files.userRaw != [] {
        assert |names[i]| == 21;
      }
    }
    assert StatusFileName in names <==> statusJson.Some? by {
      forall i | 0 <= i < |names| && names[i] == StatusFileName ensures statusJson.Some? {
        assert |names[i]| == 20;
      }
    }
  }

  /**
   * The paths of the operations in `ops` whose write succeeds on `branch`;
   * each commit message is `verb`, the file's subject and the persona.
   */
  function Written(ops: seq<FileOp>, verb: string, personaName: string, branch: string, gh: GitHubOps): (r: seq<string>)
    ensures |r| <= |ops|
  {
    if ops == [] then []
    else
      var op := ops[|ops| - 1];
      Written(ops[..|ops| - 1], verb, personaName, branch, gh) + (if WriteOk(op, verb, personaName, branch, gh) then [op.path] else [])
  }

  /** Writing one file: update it when it exists on the branch, else create it. */
  predicate WriteOk(op: FileOp, verb: string, personaName: string, branch: string, gh: GitHubOps)
  {
    gh.putFile(op.path, op.content, verb + op.message + " for persona: " + personaName, branch,
               gh.fileExists(op.path, branch)).None?
  }

  /** A write that fails drops only that file: the rest are written all the same. */
  lemma {:induction false} WrittenExactly(ops: seq<FileOp>, verb: string, personaName: string, branch: string, gh: GitHubOps)
    ensures forall p :: p in Written(ops, verb, personaName, branch, gh) <==>
      exists op :: op in ops && op.path == p && WriteOk(op, verb, personaName, branch, gh)
  {
    if ops != [] {
      var init := ops[..|ops| - 1];
      WrittenExactly(init, verb, personaName, branch, gh);
      assert ops == init + [ops[|ops| - 1]];
    }
  }

  /** The loop over the file plan. */
  method CommitFiles(ops: seq<FileOp>, verb: string, personaName: string, branch: string, gh: GitHubOps)
    returns (written: seq<string>)
    ensures written == Written(ops, verb, personaName, branch, gh)
  {
    written := [];
    for i := 0 to |ops|
      invariant written == Written(ops[..i], verb, personaName, branch, gh)
    {
      assert ops[..i + 1][..i] == ops[..i];
      var op := ops[i];
      var message := verb + op.message + " for persona: " + personaName;
      var exists_ := gh.fileExists(op.path, branch);
      var err := gh.putFile(op.path, op.content, message, branch, exists_);
      if err.Some? {
        continue;
      }
      written := written + [op.path];
    }
    assert ops[..|ops|] == ops;
  }

  /** The serialised status the plan carries: none without a status or when serialising fails. */
  function StatusJson(files: PersonaFiles, now: int, nowText: string, serialize: AssetStatus -> Result<string>)
    : Option<string>
  {
    if files.assetStatus.None? then None
    else
      var json := GenerateAssetStatusJson(files.assetStatus.value, now, nowText, serialize);
      if json.Ok? then Some(json.value) else None
  }

  /** The package PR for `personaName`, from `branch` into `defaultBranch`. */
  function PackagePr(issueNumber: int, personaName: string, userRaw: string, issuesOwner: string, issuesRepo: string,
                     branch: string, defaultBranch: string): NewPullRequest
  {
    NewPullRequest("Add persona package: " + personaName,
                   PrBody(personaName, userRaw, FolderName(personaName), SourceRef(issuesOwner, issuesRepo, issueNumber)),
                   branch, defaultBranch)
  }

  /** The full name of a branch's ref. */
  function BranchRef(branch: string): string
  {
    "refs/heads/" + branch
  }

  /** Creating the branch went well enough: it was created, or it was there already. */
  predicate BranchReady(refErr: Option<string>)
  {
    match refErr
    case None => true
    case Some(e) => Contains(e, "Reference already exists")
  }

  /**
   * `CreateStructuredPersonaPR`: the PR is opened, with the files written so
   * far, exactly when the repository, the base ref, the branch and the PR
   * itself all come through; file writes that fail are skipped.
   */
  method CreateStructuredPersonaPR(issueNumber: int, personaName: string, files: PersonaFiles,
                                   issuesOwner: string, issuesRepo: string, gh: GitHubOps,
                                   now: int, nowText: string, serialize: AssetStatus -> Result<string>)
    returns (r: Result<PrOutcome>)
    ensures gh.defaultBranch.Err? ==> r == Err("failed to get personas repo: " + gh.defaultBranch.error)
    ensures gh.defaultBranch.Ok? && gh.getRef(BranchRef(gh.defaultBranch.value)).Err? ==>
      r == Err("failed to get base ref: " + gh.getRef(BranchRef(gh.defaultBranch.value)).error)
    ensures gh.defaultBranch.Ok? && gh.getRef(BranchRef(gh.defaultBranch.value)).Ok? ==>
      var created := gh.createRef(BranchRef(BranchName(personaName, issueNumber)),
                                  gh.getRef(BranchRef(gh.defaultBranch.value)).value);
      var pr := gh.createPr(PackagePr(issueNumber, personaName, files.userRaw, issuesOwner, issuesRepo,
                                      BranchName(personaName, issueNumber), gh.defaultBranch.value));
      (!BranchReady(created) ==> created.Some? && r == Err("failed to create branch: " + created.value))
      && (BranchReady(created) && pr.Err? ==> r == Err("failed to create PR: " + pr.error))
      && (BranchReady(created) && pr.Ok? ==> r.Ok? && r.value.pr == pr.value)
    ensures r.Ok? ==> r.value.labels == Labels
    ensures r.Ok? ==> r.value.comment == (if issueNumber > 0 then Some(IssueComment(r.value.pr.url)) else None)
    ensures r.Ok? ==> r.value.written == Written(FilePlan(personaName, issueNumber, files, StatusJson(files, now, nowText, serialize)), AddVerb,
                                                 personaName, BranchName(personaName, issueNumber), gh)
  {
    var branchName := BranchName(personaName, issueNumber);
    match gh.defaultBranch {
      case Err(e) =>
        return Err("failed to get personas repo: " + e);
      case Ok(defaultBranch) =>
        match gh.getRef(BranchRef(defaultBranch)) {
          case Err(e) =>
            return Err("failed to get base ref: " + e);
          case Ok(baseRef) =>
            var refErr := gh.createRef(BranchRef(branchName), baseRef);
            if !BranchReady(refErr) {
              return Err("failed to create branch: " + refErr.value);
            }
            r := OpenPackagePr(issueNumber, gh, branchName,
                               FilePlan(personaName, issueNumber, files, StatusJson(files, now, nowText, serialize)),
                               PackagePr(issueNumber, personaName, files.userRaw, issuesOwner, issuesRepo, branchName, defaultBranch),
                               personaName);
        }
    }
  }

  /**
   * The second half of `CreateStructuredPersonaPR`, once the branch is there:
   * write the files, open the PR, and decide on the comment for the issue.
   */
  method OpenPackagePr(issueNumber: int, gh: GitHubOps, branchName: string, plan: seq<FileOp>,
                       request: NewPullRequest, personaName: string)
    returns (r: Result<PrOutcome>)
    ensures gh.createPr(request).Err? ==> r == Err("failed to create PR: " + gh.createPr(request).error)
    ensures gh.createPr(request).Ok? ==> r.Ok? && r.value.pr == gh.createPr(request).value
    ensures r.Ok? ==> r.value.labels == Labels
    ensures r.Ok? ==> r.value.comment == (if issueNumber > 0 then Some(IssueComment(r.value.pr.url)) else None)
    ensures r.Ok? ==> r.value.written == Written(plan, AddVerb, personaName, branchName, gh)
  {
    var written := CommitFiles(plan, AddVerb, personaName, branchName, gh);
    match gh.createPr(request) {
      case Err(e) =>
        return Err("failed to create PR: " + e);
      case Ok(pullRequest) =>
        var comment: Option<string> := None;
        if issueNumber > 0 {
          comment := Some(IssueComment(pullRequest.url));
        }
        return Ok(PrOutcome(pullRequest, written, Labels, comment));
    }
  }
}
