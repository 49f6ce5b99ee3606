/**
 * The pull request that carries generated prompts into the personas
 * repository: its branch, the files it writes (the prompt documents, then
 * an updated README and status when given), its title, body and labels, and
 * the comment on the issue it came from.
 *
 * The prompt-type helpers of the GitHub client (file names, display names,
 * the two categories) are the generator's; `PromptGenerator` defines them
 * once.
 */
module PromptPr {
  import opened Wrappers
  import opened Str
  import opened PromptGenerator
  import PromptRepository
  import StructuredPr

  /** `PromptPRData`. */
  datatype PromptPrData = PromptPrData(
    personaName: string,
    promptResults: seq<PromptResult>,
    updatedReadme: string,
    updatedStatus: string,
    issueNumber: Option<int>,
    isUpdate: bool)

  type TimeFormats = PromptRepository.TimeFormats
  type FileOp = StructuredPr.FileOp

  /** How the commit messages of a prompt PR begin. */
  const UpdateVerb := "Update "

  // ---------------------------------------------------------------- branch

  /** The branch: `prompts/<name, lower case, spaces and slashes as dashes>-<stamp>`. */
  function PrBranchName(personaName: string, stamp: string): (r: string)
    ensures HasPrefix(r, "prompts/") && HasSuffix(r, "-" + stamp)
    ensures |r| == 9 + |personaName| + |stamp|
    ensures forall i :: 8 <= i < 8 + |personaName| ==> r[i] != ' ' && r[i] != '/' && !IsUpper(r[i])
  {
    var sanitizedName := MapChar(Lower(MapChar(personaName, ' ', '-')), '/', '-');
    var r := "prompts/" + sanitizedName + "-" + stamp;
    assert r[..8] == "prompts/";
    assert r[|r| - |stamp| - 1..] == "-" + stamp;
    r
  }

  /** The branch of a prompt PR and that of a package PR carry the same name characters. */
  lemma SameSanitizedName(personaName: string, stamp: string, issueNumber: int, i: nat)
    requires i < |personaName|
    ensures PrBranchName(personaName, stamp)[8 + i] == StructuredPr.BranchName(personaName, issueNumber)[8 + i]
  {
  }

  // ----------------------------------------------------------- the file plan

  const ModelLine := "> **Model:** Gemini 2.0 Flash\n"
  const ReadmeMessage := "Updated README with prompt information"
  const StatusMessage := "Updated asset generation status"

  /** `formatPromptForPR`: the saved document with a line naming the model. */
  function FormatPromptForPr(result: PromptResult, tf: TimeFormats): (r: string)
    ensures HasPrefix(r, PromptRepository.PromptHeader(result, tf, ModelLine))
    ensures HasSuffix(r, PromptRepository.PromptFooter(result, tf))
    ensures |r| == |PromptRepository.PromptHeader(result, tf, ModelLine)| + |result.content|
                   + |PromptRepository.PromptFooter(result, tf)|
    ensures r[|PromptRepository.PromptHeader(result, tf, ModelLine)|..|r| - |PromptRepository.PromptFooter(result, tf)|]
            == result.content
  {
    PromptRepository.PromptDocument(result, tf, ModelLine)
  }

  /** What every prompt document has below its metadata lines. */
  function Below(result: PromptResult, tf: TimeFormats): string
  {
    PromptRepository.RuleLine + result.content + PromptRepository.PromptFooter(result, tf)
  }

  /** The copy in the PR is the copy saved locally with the model line added after the metadata. */
  lemma PrCopyAddsModelLine(result: PromptResult, tf: TimeFormats)
    ensures PromptRepository.FormatPromptContent(result, tf)
            == PromptRepository.MetaLines(result, tf) + Below(result, tf)
    ensures FormatPromptForPr(result, tf)
            == PromptRepository.MetaLines(result, tf) + ModelLine + Below(result, tf)
  {
    var m := PromptRepository.MetaLines(result, tf);
    Regroup(m, "", PromptRepository.RuleLine, result.content, PromptRepository.PromptFooter(result, tf));
    Regroup(m, ModelLine, PromptRepository.RuleLine, result.content, PromptRepository.PromptFooter(result, tf));
    assert m + "" == m;
  }

  lemma Regroup(a: string, b: string, c: string, d: string, e: string)
    ensures a + b + c + d + e == a + b + (c + d + e)
  {
  }

  /** The file one error-free result is written to in the folder `base`. */
  function PromptOp(base: string, tf: TimeFormats): PromptResult -> FileOp
  {
    (x: PromptResult) => StructuredPr.FileOp(PromptRepository.PromptPath(base, x.promptType),
                                             FormatPromptForPr(x, tf), DisplayName(x.promptType) + " prompt")
  }

  /** The operations `toOp(x)` of the error-free results `x`, in order. */
  function PromptOps(results: seq<PromptResult>, toOp: PromptResult -> FileOp): (ops: seq<FileOp>)
    ensures |ops| == |Succeeded(results)|
  {
    if results == [] then []
    else
      var last := results[|results| - 1];
      PromptOps(results[..|results| - 1], toOp) + (if last.error.None? then [toOp(last)] else [])
  }

  /** An operation is planned exactly when it is the one of an error-free result. */
  lemma {:induction false} PromptOpsExactly(results: seq<PromptResult>, toOp: PromptResult -> FileOp, op: FileOp)
    ensures op in PromptOps(results, toOp) <==> exists x :: x in results && x.error.None? && op == toOp(x)
  {
    if results != [] {
      var init := results[..|results| - 1];
      PromptOpsExactly(init, toOp, op);
      assert forall x :: x in results <==> x in init || x == results[|results| - 1];
    }
  }

  /** The optional files of the plan, README first. */
  function ExtraOps(base: string, data: PromptPrData): seq<FileOp>
  {
    (if data.updatedReadme != "" then [StructuredPr.FileOp(base + "/README.md", data.updatedReadme, ReadmeMessage)] else [])
    + (if data.updatedStatus != "" then [StructuredPr.FileOp(base + StructuredPr.StatusFileName, data.updatedStatus, StatusMessage)] else [])
  }

  /**
   * The files `CreatePromptUpdatePR` writes, in order: one prompt document per
   * error-free result, then the README when one was given, then the status
   * when one was given.
   */
  function PromptPlan(data: PromptPrData, tf: TimeFormats): (ops: seq<FileOp>)
    ensures |ops| == |Succeeded(data.promptResults)| + (if data.updatedReadme != "" then 1 else 0)
                                                      + (if data.updatedStatus != "" then 1 else 0)
    ensures data.updatedStatus != "" ==>
      ops[|ops| - 1] == StructuredPr.FileOp(StructuredPr.FolderName(data.personaName) + StructuredPr.StatusFileName,
                                            data.updatedStatus, StatusMessage)
    ensures data.updatedReadme != "" ==>
      ops[|Succeeded(data.promptResults)|]
      == StructuredPr.FileOp(StructuredPr.FolderName(data.personaName) + "/README.md", data.updatedReadme, ReadmeMessage)
    ensures ops[..|Succeeded(data.promptResults)|]
            == PromptOps(data.promptResults, PromptOp(StructuredPr.FolderName(data.personaName), tf))
  {
    var base := StructuredPr.FolderName(data.personaName);
    var ops := PromptOps(data.promptResults, PromptOp(base, tf)) + ExtraOps(base, data);
    assert ops[..|Succeeded(data.promptResults)|] == PromptOps(data.promptResults, PromptOp(base, tf));
    ops
  }

  /** The loops of `CreatePromptUpdatePR` that gather the file operations. */
  method BuildPromptPlan(data: PromptPrData, tf: TimeFormats) returns (ops: seq<FileOp>)
    ensures ops == PromptPlan(data, tf)
  {
    var baseFolder := StructuredPr.FolderName(data.personaName);
    var toOp := PromptOp(baseFolder, tf);
    var results := data.promptResults;
    ops := [];
    for i := 0 to |results|
      invariant ops == PromptOps(results[..i], toOp)
    {
      assert results[..i + 1][..i] == results[..i];
      if results[i].error.Some? {
        continue;
      }
      ops := ops + [toOp(results[i])];
    }
    assert results[..|results|] == results;
    var extra := ExtraOps(baseFolder, data);
    ops := ops + extra;
  }

  /** The prompt document of every error-free result is in the plan, at its own path. */
  lemma PlanHasPrompt(data: PromptPrData, tf: TimeFormats, x: PromptResult)
    requires x in data.promptResults && x.error.None?
    ensures StructuredPr.FileOp(PromptRepository.PromptPath(StructuredPr.FolderName(data.personaName), x.promptType),
                                FormatPromptForPr(x, tf), DisplayName(x.promptType) + " prompt")
            in PromptPlan(data, tf)
  {
    var toOp := PromptOp(StructuredPr.FolderName(data.personaName), tf);
    var ops := PromptPlan(data, tf);
    PromptOpsExactly(data.promptResults, toOp, toOp(x));
    var n := |Succeeded(data.promptResults)|;
    var k :| 0 <= k < n && ops[..n][k] == toOp(x);
    assert ops[k] == toOp(x);
  }

  // ------------------------------------------------------------- the PR

  /** The labels of a prompt PR. */
  function PromptLabels(isUpdate: bool): (r: seq<string>)
    ensures |r| == 4 && r[..3] == ["prompts", "automated", "studio"]
    ensures "update" in r <==> isUpdate
    ensures "new-prompts" in r <==> !isUpdate
  {
    ["prompts", "automated", "studio"] + [if isUpdate then "update" else "new-prompts"]
  }

  const UpdateTitle := "Update prompts for persona: "
  const AddTitle := "Add generated prompts for persona: "

  /** The title: an update or an addition, for the persona. */
  function PrTitle(data: PromptPrData): (r: string)
    ensures HasSuffix(r, data.personaName)
    ensures HasPrefix(r, "Update ") <==> data.isUpdate
  {
    var head := if data.isUpdate then UpdateTitle else AddTitle;
    var r := head + data.personaName;
    assert r[..|head|] == head;
    assert r[|head|..] == data.personaName;
    assert r[0] == head[0];
    assert data.isUpdate ==> r[..7] == head[..7];
    r
  }

  const UpdateOpen := "This PR updates the generated prompts for **"
  const UpdateOpenEnd := "** with the latest content from the synthesized persona.\n\n"
  const AddOpen := "This PR adds comprehensive generated prompts for **"
  const AddOpenEnd := "** based on the synthesized persona content.\n\n"
  const CountOpen := "## \U{1F3AF} Generated Prompts\n\nSuccessfully generated **"
  const CountEnd := " prompts** optimized for different platforms and use cases:\n\n"
  const PlatformTitle := "### Platform-Specific Prompts\n"
  const VariationTitle := "### Prompt Variations\n"
  const FilesHead := "## \U{1F4C1} Files Updated\n\n- `prompts/` - All generated prompt files\n"
  const ReadmeLine := "- `README.md` - Updated with prompt links and usage instructions\n"
  const StatusLine := "- `.assets_status.json` - Updated asset generation tracking\n"
  const HowTo1 := "## \U{1F680} How to Use\n\n1. **Browse the prompts** in the `prompts/` directory\n"
  const HowTo2 := "2. **Copy the appropriate prompt** for your AI platform\n"
  const HowTo3 := "3. **Paste into your AI interface** (ChatGPT, Claude, etc.)\n"
  const HowTo4 := "4. **Start conversing** with the persona\n\n"
  const DetailsOpen := "## \U{2699}\U{FE0F} Generation Details\n\n- **Model:** Gemini 2.0 Flash\n- **Generated:** "
  const DetailsEnd := "\n- **Source:** synthesized.md\n- **Templates:** Platform-specific optimization\n\n"
  const IssueOpen := "## \U{1F517} Related Issue\n\n"
  const CloseWord := "Closes #"
  const BodyEnd1 := "---\n*This PR was created automatically by [Studio](https://github.com/twin2ai/studio)"
  const BodyEnd2 := " - Multi-AI Persona Generation Pipeline*"

  /** The closing attribution line. */
  function BodyEnd(): string
  {
    BodyEnd1 + BodyEnd2
  }

  /** One line of the body's lists, without its newline: a check mark and the display name. */
  function Bullet(t: PromptType): string
  {
    "- \U{2705} **" + DisplayName(t) + "**"
  }

  /** The body's first paragraph. */
  function Opening(data: PromptPrData): string
  {
    if data.isUpdate then UpdateOpen + data.personaName + UpdateOpenEnd
    else AddOpen + data.personaName + AddOpenEnd
  }

  /** The count of error-free results and the two lists of their display names. */
  function Summary(results: seq<PromptResult>): string
  {
    CountOpen + NatToString(|Succeeded(results)|) + CountEnd
    + PromptRepository.Block(PlatformTitle, Listed(results, IsPlatformPrompt, Bullet))
    + PromptRepository.Block(VariationTitle, Listed(results, IsVariationPrompt, Bullet))
  }

  /** The files section: the README and status lines only for files the PR carries. */
  function FilesUpdated(data: PromptPrData): string
  {
    FilesHead + (if data.updatedReadme != "" then ReadmeLine else "")
    + (if data.updatedStatus != "" then StatusLine else "") + "\n"
  }

  /** The part of the body before the related issue, stamped `nowText`. */
  function BodyFront(data: PromptPrData, nowText: string): string
  {
    Opening(data) + Summary(data.promptResults) + FilesUpdated(data)
    + HowTo1 + HowTo2 + HowTo3 + HowTo4 + DetailsOpen + nowText + DetailsEnd
  }

  /** The related issue, which the PR closes. */
  function RelatedIssue(issueNumber: Option<int>): string
  {
    match issueNumber
    case None => ""
    case Some(n) => IssueOpen + (CloseWord + IntToString(n)) + "\n\n"
  }

  /** `generatePromptPRContent`'s body. */
  function PrBody(data: PromptPrData, nowText: string): string
  {
    BodyFront(data, nowText) + RelatedIssue(data.issueNumber) + BodyEnd()
  }

  /**
   * The body opens with the summary, files, usage and details sections, ends with
   * the attribution line, and carries the related-issue section in between.
   */
  lemma PrBodyLayout(data: PromptPrData, nowText: string)
    ensures var r := PrBody(data, nowText);
      && HasPrefix(r, BodyFront(data, nowText)) && HasSuffix(r, BodyEnd())
      && forall sub :: Contains(RelatedIssue(data.issueNumber), sub) ==> Contains(r, sub)
  {
    ThreeParts(BodyFront(data, nowText), RelatedIssue(data.issueNumber), BodyEnd());
  }

  /** A PR for an issue says that it closes that issue. */
  lemma BodyClosesIssue(data: PromptPrData, nowText: string)
    requires data.issueNumber.Some?
    ensures Contains(PrBody(data, nowText), CloseWord + IntToString(data.issueNumber.value))
  {
    var x := CloseWord + IntToString(data.issueNumber.value);
    ContainsAt(x, x, 0);
    ContainsInside(IssueOpen, x, "\n\n", x);
    ContainsInside(BodyFront(data, nowText), RelatedIssue(data.issueNumber), BodyEnd(), x);
  }

  /** The body lists one name per error-free result of a known type, so never more than it counts. */
  lemma BodyListsCounted(results: seq<PromptResult>)
    ensures |Listed(results, IsPlatformPrompt, Bullet)| + |Listed(results, IsVariationPrompt, Bullet)|
            <= |Succeeded(results)|
  {
    ListingsSplit(results, Bullet);
  }

  const CommentOpen := "\U{1F3AF} **Prompt Generation Complete!**\n\nGenerated **"
  const CommentCounted := " optimized prompts** for **"
  const CommentNamed := "** and created a pull request with all the files.\n\n"
  const Includes1 := "## Generated Prompts Include:\n- Platform-specific prompts (ChatGPT, Claude, Gemini, Discord, Character.AI)\n"
  const Includes2 := "- Condensed prompt-ready version for quick use\n- Alternative variations and facets\n\n"
  const ReviewLine := "**\U{1F4CB} Review and merge the pull request:** "
  const CommentEnd1 := "\n\nOnce merged, all prompts will be available in the persona's `prompts/` directory"
  const CommentEnd2 := " for immediate use!"

  /** The comment's text before the PR's address. */
  function CommentFront(data: PromptPrData): string
  {
    CommentOpen + NatToString(|Succeeded(data.promptResults)|) + CommentCounted + data.personaName + CommentNamed
    + Includes1 + Includes2 + ReviewLine
  }

  /** `generateIssueComment`. */
  function IssueComment(data: PromptPrData, prUrl: string): string
  {
    CommentFront(data) + prUrl + (CommentEnd1 + CommentEnd2)
  }

  /** The comment opens with the announcement, ends with the attribution, and holds the PR's URL between. */
  lemma IssueCommentLayout(data: PromptPrData, prUrl: string)
    ensures var r := IssueComment(data, prUrl);
      && HasPrefix(r, CommentFront(data)) && HasSuffix(r, CommentEnd1 + CommentEnd2)
      && |r| == |CommentFront(data)| + |prUrl| + |CommentEnd1 + CommentEnd2|
      && r[|CommentFront(data)|..|CommentFront(data)| + |prUrl|] == prUrl
  {
    ThreeParts(CommentFront(data), prUrl, CommentEnd1 + CommentEnd2);
  }

  /** The comment links the PR. */
  lemma CommentLinksPr(data: PromptPrData, prUrl: string)
    ensures Contains(IssueComment(data, prUrl), prUrl)
  {
    ContainsAt(prUrl, prUrl, 0);
    ContainsInside(CommentFront(data), prUrl, CommentEnd1 + CommentEnd2, prUrl);
  }

  /** The PR to open from `branch` into `defaultBranch`. */
  function PromptPrRequest(data: PromptPrData, nowText: string, branch: string, defaultBranch: string)
    : StructuredPr.NewPullRequest
  {
    StructuredPr.NewPullRequest(PrTitle(data), PrBody(data, nowText), branch, defaultBranch)
  }

  /**
   * `CreatePromptUpdatePR` with the branch stamped `stamp` and the body
   * stamped `nowText`: the PR is opened, with the files written so far,
   * exactly when the repository, the base ref, the branch and the PR itself
   * come through; file writes that fail are skipped.
   */
  method CreatePromptUpdatePR(data: PromptPrData, gh: StructuredPr.GitHubOps, stamp: string, nowText: string,
                              tf: TimeFormats)
    returns (r: Result<StructuredPr.PrOutcome>)
    ensures gh.defaultBranch.Err? ==> r == Err("failed to get personas repo: " + gh.defaultBranch.error)
    ensures gh.defaultBranch.Ok? && gh.getRef(StructuredPr.BranchRef(gh.defaultBranch.value)).Err? ==>
      r == Err("failed to get base ref: " + gh.getRef(StructuredPr.BranchRef(gh.defaultBranch.value)).error)
    ensures gh.defaultBranch.Ok? && gh.getRef(StructuredPr.BranchRef(gh.defaultBranch.value)).Ok? ==>
      var branch := PrBranchName(data.personaName, stamp);
      var created := gh.createRef(StructuredPr.BranchRef(branch),
                                  gh.getRef(StructuredPr.BranchRef(gh.defaultBranch.value)).value);
      var pr := gh.createPr(PromptPrRequest(data, nowText, branch, gh.defaultBranch.value));
      (!StructuredPr.BranchReady(created) ==> created.Some? && r == Err("failed to create branch: " + created.value))
      && (StructuredPr.BranchReady(created) && pr.Err? ==> r == Err("failed to create PR: " + pr.error))
      && (StructuredPr.BranchReady(created) && pr.Ok? ==> r.Ok? && r.value.pr == pr.value)
    ensures r.Ok? ==> r.value.labels == PromptLabels(data.isUpdate)
    ensures r.Ok? ==> r.value.comment == (if data.issueNumber.Some? then Some(IssueComment(data, r.value.pr.url)) else None)
    ensures r.Ok? ==> r.value.written == StructuredPr.Written(PromptPlan(data, tf), UpdateVerb, data.personaName,
                                                             PrBranchName(data.personaName, stamp), gh)
  {
    var branchName := PrBranchName(data.personaName, stamp);
    match gh.defaultBranch {
      case Err(e) =>
        return Err("failed to get personas repo: " + e);
      case Ok(defaultBranch) =>
        match gh.getRef(StructuredPr.BranchRef(defaultBranch)) {
          case Err(e) =>
            return Err("failed to get base ref: " + e);
          case Ok(baseRef) =>
            var refErr := gh.createRef(StructuredPr.BranchRef(branchName), baseRef);
            if !StructuredPr.BranchReady(refErr) {
              return Err("failed to create branch: " + refErr.value);
            }
            var plan := BuildPromptPlan(data, tf);
            r := OpenPromptPr(data, gh, branchName, plan, PromptPrRequest(data, nowText, branchName, defaultBranch));
        }
    }
  }

  /**
   * The second half of `CreatePromptUpdatePR`, once the branch is there:
   * write the files, open the PR, label it, and decide on the comment.
   */
  method OpenPromptPr(data: PromptPrData, gh: StructuredPr.GitHubOps, branchName: string, plan: seq<FileOp>,
                      request: StructuredPr.NewPullRequest)
    returns (r: Result<StructuredPr.PrOutcome>)
    ensures gh.createPr(request).Err? ==> r == Err("failed to create PR: " + gh.createPr(request).error)
    ensures gh.createPr(request).Ok? ==> r.Ok? && r.value.pr == gh.createPr(request).value
    ensures r.Ok? ==> r.value.labels == PromptLabels(data.isUpdate)
    ensures r.Ok? ==> r.value.comment == (if data.issueNumber.Some? then Some(IssueComment(data, r.value.pr.url)) else None)
    ensures r.Ok? ==> r.value.written == StructuredPr.Written(plan, UpdateVerb, data.personaName, branchName, gh)
  {
    var written := StructuredPr.CommitFiles(plan, UpdateVerb, data.personaName, branchName, gh);
    match gh.createPr(request) {
      case Err(e) =>
        return Err("failed to create PR: " + e);
      case Ok(pullRequest) =>
        var labels := PromptLabels(data.isUpdate);
        var comment: Option<string> := None;
        if data.issueNumber.Some? {
          comment := Some(IssueComment(data, pullRequest.url));
        }
        return Ok(StructuredPr.PrOutcome(pullRequest, written, labels, comment));
    }
  }
}
