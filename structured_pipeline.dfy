/**
 * The structured pipeline: new issues become persona packages, and feedback
 * rewrites the files of an open package PR. A package PR's head branch
 * `persona/<name>-<issue>` names the folder the package lives in.
 *
 * Generation and the PR call are parameters (`StructuredServices`); the
 * GitHub answers about files are the same record `StructuredPr.GitHubOps`
 * the package PR is opened with.
 */
module StructuredPipeline {
  import opened Wrappers
  import opened Str
  import opened IssueParser
  import Pipelines
  import StructuredPr

  // ------------------------------------------------------ branch -> folder

  /**
   * The package folder's name read off a PR's head branch: the second
   * `/`-separated part, up to its last `-`, with every `-` as `_`.
   */
  function BranchFolder(head: Option<string>): (r: Result<string>)
    ensures head.None? ==> r == Err("PR head branch information is missing")
    ensures head.Some? && |Split(head.value, '/')| < 2 ==> r == Err("invalid branch name format: " + head.value)
    ensures head.Some? && |Split(head.value, '/')| >= 2 && '-' !in Split(head.value, '/')[1] ==>
      r == Err("invalid persona branch name: " + Split(head.value, '/')[1])
    ensures r.Ok? <==> head.Some? && |Split(head.value, '/')| >= 2 && '-' in Split(head.value, '/')[1]
    ensures r.Ok? ==> '-' !in r.value && '/' !in r.value && |r.value| < |Split(head.value, '/')[1]|
  {
    match head
    case None => Err("PR head branch information is missing")
    case Some(branchName) =>
      var parts := Split(branchName, '/');
      if |parts| < 2 then Err("invalid branch name format: " + branchName)
      else
        var nameWithIssue := parts[1];
        match LastIndex(nameWithIssue, "-")
        case None =>
          assert '-' !in nameWithIssue by {
            forall j | 0 <= j < |nameWithIssue| ensures nameWithIssue[j] != '-' {
              assert !At(nameWithIssue, "-", j);
              assert nameWithIssue[j..j + 1] == [nameWithIssue[j]];
            }
          }
          Err("invalid persona branch name: " + nameWithIssue)
        case Some(lastDash) =>
          assert '-' in nameWithIssue by {
            assert nameWithIssue[lastDash] == nameWithIssue[lastDash..lastDash + 1][0];
          }
          // `strings.ReplaceAll(x, "-", "_")` with a one-character pattern maps each character.
          Ok(MapChar(nameWithIssue[..lastDash], '-', '_'))
  }

  /** The digits of a non-negative issue number hold neither a `/` nor a `-`. */
  lemma IssueDigits(issueNumber: int)
    requires issueNumber >= 0
    ensures '/' !in IntToString(issueNumber) && '-' !in IntToString(issueNumber)
  {
    var d := IntToString(issueNumber);
    forall i | 0 <= i < |d| ensures d[i] != '/' && d[i] != '-' {
      assert IsDigit(d[i]);
    }
  }

  /** The name part of a persona branch: lower case, spaces and slashes as `-`. */
  function BranchPart(personaName: string): string
  {
    MapChar(Lower(MapChar(personaName, ' ', '-')), '/', '-')
  }

  /** A persona branch splits at its one `/` into `persona` and the name with its issue. */
  lemma BranchSplit(personaName: string, issueNumber: int)
    requires issueNumber >= 0
    ensures Split(StructuredPr.BranchName(personaName, issueNumber), '/')
            == ["persona", BranchPart(personaName) + "-" + IntToString(issueNumber)]
  {
    var sanitized := BranchPart(personaName);
    var digits := IntToString(issueNumber);
    var rest := sanitized + "-" + digits;
    assert StructuredPr.BranchName(personaName, issueNumber) == "persona" + ['/'] + rest;
    IssueDigits(issueNumber);
    NoSlashJoined(sanitized, digits);
    SplitConcat("persona", '/', rest);
  }

  lemma NoSlashJoined(a: string, b: string)
    requires '/' !in a && '/' !in b
    ensures '/' !in a + "-" + b
  {
    var t := a + "-" + b;
    forall i | 0 <= i < |t| ensures t[i] != '/' {
      if i < |a| {
        assert t[i] == a[i];
      } else if i > |a| {
        assert t[i] == b[i - |a| - 1];
      }
    }
  }

  /** The last `-` of `s + "-" + d` is the one between them when `d` has none. */
  lemma LastDashBefore(s: string, d: string)
    requires '-' !in d
    ensures LastIndex(s + "-" + d, "-") == Some(|s|)
  {
    var t := s + "-" + d;
    assert t[|s|..|s| + 1] == "-";
    forall j | |s| < j ensures !At(t, "-", j) {
      if j < |t| {
        assert t[j..j + 1] == [t[j]];
        assert t[j] == d[j - |s| - 1];
      }
    }
    LastDashUnique(t, |s|);
  }

  /** `LastIndex` finds the one occurrence no later occurrence follows. */
  lemma LastDashUnique(s: string, k: nat)
    requires At(s, "-", k)
    requires forall j :: k < j ==> !At(s, "-", j)
    ensures LastIndex(s, "-") == Some(k)
  {
  }

  /**
   * The folder read off the branch `CreateStructuredPersonaPR` pushes, for a
   * non-negative issue number: the branch's name part with every `-` as `_`.
   */
  lemma BranchFolderOfName(personaName: string, issueNumber: int)
    requires issueNumber >= 0
    ensures BranchFolder(Some(StructuredPr.BranchName(personaName, issueNumber)))
            == Ok(MapChar(BranchPart(personaName), '-', '_'))
  {
    var sanitized := BranchPart(personaName);
    var rest := sanitized + "-" + IntToString(issueNumber);
    BranchSplit(personaName, issueNumber);
    IssueDigits(issueNumber);
    LastDashBefore(sanitized, IntToString(issueNumber));
    assert rest[..|sanitized|] == sanitized;
  }

  /**
   * For a name without `-` and a non-negative issue number, the folder read
   * off the branch is the folder the package was written into.
   */
  lemma BranchFolderRoundTrip(personaName: string, issueNumber: int)
    requires '-' !in personaName && issueNumber >= 0
    ensures BranchFolder(Some(StructuredPr.BranchName(personaName, issueNumber))).Ok?
    ensures "personas/" + BranchFolder(Some(StructuredPr.BranchName(personaName, issueNumber))).value
            == StructuredPr.FolderName(personaName)
  {
    BranchFolderOfName(personaName, issueNumber);
    var folder := MapChar(BranchPart(personaName), '-', '_');
    var expected := MapChar(Lower(MapChar(personaName, ' ', '_')), '/', '_');
    assert folder == expected by {
      forall i | 0 <= i < |personaName| ensures folder[i] == expected[i] {
        assert personaName[i] != '-';
      }
    }
  }

  /**
   * A name with a `-` in it does not survive: the folder read off its branch
   * has `_` where the package folder has `-`, so a feedback round finds none
   * of the package's files.
   */
  lemma HyphenatedNameMissesFolder(personaName: string, issueNumber: int, i: nat)
    requires i < |personaName| && personaName[i] == '-' && issueNumber >= 0
    ensures BranchFolder(Some(StructuredPr.BranchName(personaName, issueNumber))).Ok?
    ensures "personas/" + BranchFolder(Some(StructuredPr.BranchName(personaName, issueNumber))).value
            != StructuredPr.FolderName(personaName)
  {
    BranchFolderOfName(personaName, issueNumber);
    var read := "personas/" + MapChar(BranchPart(personaName), '-', '_');
    assert read[9 + i] == '_';
    assert StructuredPr.FolderName(personaName)[9 + i] == '-';
  }

  // ------------------------------------------- getExistingStructuredPersonaContent

  /** What fetching a file gives: an error, no file, or its encoded content, which may not decode. */
  datatype FileReply = FetchError(error: string) | NoFile | Encoded(decoded: Result<string>)

  /** The synthesized persona's path inside the package folder `folder`. */
  function SynthesizedPath(folder: string): string
  {
    "personas/" + folder + "/synthesized.md"
  }

  /**
   * `getExistingStructuredPersonaContent`: the synthesized persona of the PR's
   * package, read on the PR's own branch. `getContents(path, ref)` answers.
   */
  function ExistingPersonaContent(head: Option<string>, getContents: (string, string) -> FileReply): (r: Result<string>)
    ensures BranchFolder(head).Err? ==> r == Err(BranchFolder(head).error)
    ensures r.Ok? <==> BranchFolder(head).Ok?
                       && getContents(SynthesizedPath(BranchFolder(head).value), head.value).Encoded?
                       && getContents(SynthesizedPath(BranchFolder(head).value), head.value).decoded.Ok?
    ensures r.Ok? ==> getContents(SynthesizedPath(BranchFolder(head).value), head.value) == Encoded(Ok(r.value))
  {
    match BranchFolder(head)
    case Err(e) => Err(e)
    case Ok(personaName) =>
      var synthesizedPath := SynthesizedPath(personaName);
      match getContents(synthesizedPath, head.value)
      case FetchError(e) => Err("failed to get synthesized persona content: " + e)
      case NoFile => Err("synthesized persona file not found at " + synthesizedPath)
      case Encoded(Err(e)) => Err("failed to decode file content: " + e)
      case Encoded(Ok(content)) => Ok(content)
  }

  // ------------------------------------------------------ updateStructuredPR

  /** The five files a feedback round rewrites, in order, with their commit subjects. */
  function UpdatePlan(baseFolder: string, files: StructuredPr.PersonaFiles): (ops: seq<StructuredPr.FileOp>)
    ensures |ops| == 5
  {
    [StructuredPr.FileOp(baseFolder + "/raw/claude.md", files.claudeRaw, "Update Claude's raw output"),
     StructuredPr.FileOp(baseFolder + "/raw/gemini.md", files.geminiRaw, "Update Gemini's raw output"),
     StructuredPr.FileOp(baseFolder + "/raw/grok.md", files.grokRaw, "Update Grok's raw output"),
     StructuredPr.FileOp(baseFolder + "/raw/gpt.md", files.gptRaw, "Update GPT-4's raw output"),
     StructuredPr.FileOp(baseFolder + "/synthesized.md", files.fullSynthesis, "Update synthesized persona")]
  }

  /**
   * A feedback round rewrites the four raw outputs and the synthesized persona
   * at the paths the package was first written to, from the same fields; the
   * README, the user-supplied persona and the status file are left alone.
   */
  lemma UpdateRewritesMainFiles(base: string, files: StructuredPr.PersonaFiles, readme: string)
    ensures forall i :: 0 <= i < 5 ==>
      UpdatePlan(base, files)[i].path == StructuredPr.MainFiles(base, files, readme)[i].path
      && UpdatePlan(base, files)[i].content == StructuredPr.MainFiles(base, files, readme)[i].content
    ensures forall op :: op in UpdatePlan(base, files) ==>
      op.path != base + "/README.md" && op.path != base + StructuredPr.UserFile && op.path != base + StructuredPr.StatusFileName
  {
    var plan := UpdatePlan(base, files);
    forall op | op in plan
      ensures op.path != base + "/README.md" && op.path != base + StructuredPr.UserFile
      ensures op.path != base + StructuredPr.StatusFileName
    {
      var i :| 0 <= i < 5 && plan[i] == op;
      NamesDiffer(base, plan[i].path[|base|..], "/README.md");
      NamesDiffer(base, plan[i].path[|base|..], StructuredPr.UserFile);
      NamesDiffer(base, plan[i].path[|base|..], StructuredPr.StatusFileName);
    }
  }

  /** Two paths in one folder differ when the names after the folder do. */
  lemma NamesDiffer(base: string, x: string, y: string)
    requires x != y
    ensures base + x != base + y
  {
    assert (base + x)[|base|..] == x;
    assert (base + y)[|base|..] == y;
  }

  /** Rewriting one file: only a file that is already on the branch, and the write went through. */
  predicate UpdateOk(op: StructuredPr.FileOp, branch: string, gh: StructuredPr.GitHubOps)
  {
    gh.fileExists(op.path, branch)
    && gh.putFile(op.path, op.content, op.message + " (addressing feedback)", branch, true).None?
  }

  /** The paths of the operations in `ops` rewritten on `branch`. */
  function Updated(ops: seq<StructuredPr.FileOp>, branch: string, gh: StructuredPr.GitHubOps): (r: seq<string>)
    ensures |r| <= |ops|
  {
    if ops == [] then []
    else
      var op := ops[|ops| - 1];
      Updated(ops[..|ops| - 1], branch, gh) + (if UpdateOk(op, branch, gh) then [op.path] else [])
  }

  /**
   * Exactly the planned files that exist on the branch and take the write are
   * rewritten; a file that is not there is never created.
   */
  lemma {:induction false} UpdatedExactly(ops: seq<StructuredPr.FileOp>, branch: string, gh: StructuredPr.GitHubOps)
    ensures forall p :: p in Updated(ops, branch, gh) <==> exists op :: op in ops && op.path == p && UpdateOk(op, branch, gh)
    ensures forall p :: p in Updated(ops, branch, gh) ==> gh.fileExists(p, branch)
  {
    if ops != [] {
      var init := ops[..|ops| - 1];
      UpdatedExactly(init, branch, gh);
      assert ops == init + [ops[|ops| - 1]];
    }
  }

  /** What one feedback round left: the files rewritten, and the comment for the PR. */
  datatype UpdateOutcome = UpdateOutcome(updated: seq<string>, comment: string)

  const UpdateComment: string :=
    "\U{F0}\U{178}\U{201D}\U{201E} **Persona Package Updated**\n\n"
    + "All files in the persona package have been regenerated to address the feedback provided:\n"
    + "- Raw outputs from all 4 AI providers\n- Synthesized persona\n\n"
    + "The complete package has been updated to incorporate your suggestions.\n\n---\n"
    + "*Updated automatically by [Studio](https://github.com/twin2ai/studio)*"

  /**
   * `updateStructuredPR`: only a branch it cannot read a folder from is an
   * error; failed or skipped files, and a failed comment, are not.
   */
  method UpdateStructuredPr(head: Option<string>, files: StructuredPr.PersonaFiles, gh: StructuredPr.GitHubOps)
    returns (r: Result<UpdateOutcome>)
    ensures BranchFolder(head).Err? ==> r == Err(BranchFolder(head).error)
    ensures BranchFolder(head).Ok? ==>
      r == Ok(UpdateOutcome(Updated(UpdatePlan("personas/" + BranchFolder(head).value, files), head.value, gh), UpdateComment))
  {
    var folder := BranchFolder(head);
    if folder.Err? {
      return Err(folder.error);
    }
    var branchName := head.value;
    var fileUpdates := UpdatePlan("personas/" + folder.value, files);
    var updated: seq<string> := [];
    for i := 0 to |fileUpdates|
      invariant updated == Updated(fileUpdates[..i], branchName, gh)
    {
      assert fileUpdates[..i + 1][..i] == fileUpdates[..i];
      var update := fileUpdates[i];
      var message := update.message + " (addressing feedback)";
      if gh.fileExists(update.path, branchName) {
        var err := gh.putFile(update.path, update.content, message, branchName, true);
        if err.Some? {
          continue;
        }
      } else {
        continue;
      }
      updated := updated + [update.path];
    }
    assert fileUpdates[..|fileUpdates|] == fileUpdates;
    return Ok(UpdateOutcome(updated, UpdateComment));
  }

  // ------------------------------------------- processNewIssuesWithStructure

  /** A generated package: the persona and its files. */
  datatype GeneratedPackage = GeneratedPackage(persona: Pipelines.Persona, files: StructuredPr.PersonaFiles)

  /**
   * `ProcessIssueWithStructureAndUser(issue, userPersona)` and
   * `CreateStructuredPersonaPR(issueNumber, name, files)`.
   */
  datatype StructuredServices = StructuredServices(
    generate: (Issue, string) -> Result<GeneratedPackage>,
    createPr: (int, string, StructuredPr.PersonaFiles) -> Result<StructuredPr.CreatedPr>)

  /** A parse error the issue is told about, with `GetParsingErrorComment` of the error. */
  datatype ErrorReply = ErrorReply(issueNumber: int, error: string)

  datatype RunState = RunState(issues: Pipelines.IssueState, replies: seq<ErrorReply>)

  /** The issue handed to generation: the same number, the parsed name as its title, the prompt text as its body. */
  function GenerationInput(number: Option<int>, parsed: ParsedIssue): (r: Issue)
    ensures r.number == number && r.title == Some(parsed.fullName)
    ensures r.body.Some? && Contains(r.body.value, parsed.fullName)
    ensures parsed.detailedContent != [] ==> Contains(r.body.value, parsed.detailedContent)
  {
    Issue(number, Some(parsed.fullName), Some(FormatForPrompt(parsed)))
  }

  /** Only parse errors about the title are answered on the issue. */
  predicate AboutTitle(e: string)
  {
    Contains(e, "title")
  }

  /** One pass of the `processNewIssuesWithStructure` loop. */
  function StructuredStep(st: RunState, issue: Issue, svc: StructuredServices): RunState
  {
    if issue.number.None? || issue.number.value in st.issues.processed then st
    else ParsedStep(st, issue.number.value, ParsePersonaIssue(issue), svc)
  }

  /** The rest of the pass for issue `n`, once it has been parsed. */
  function ParsedStep(st: RunState, n: int, parsed: Result<ParsedIssue>, svc: StructuredServices): RunState
  {
    match parsed
    case Err(e) =>
      var replies := if AboutTitle(e) then st.replies + [ErrorReply(n, e)] else st.replies;
      RunState(Pipelines.MarkIssue(st.issues, n), replies)
    case Ok(parsedIssue) =>
      match svc.generate(GenerationInput(Some(n), parsedIssue), parsedIssue.userPersona)
      case Err(_) => st
      case Ok(package) => PrStep(st, n, svc.createPr(package.persona.issueNumber, package.persona.name, package.files))
  }

  /** The package PR was opened, or already there: the issue is done. */
  function PrStep(st: RunState, n: int, pr: Result<StructuredPr.CreatedPr>): RunState
  {
    if pr.Ok? || Pipelines.PrAlreadyExists(pr.error) then RunState(Pipelines.MarkIssue(st.issues, n), st.replies) else st
  }

  function StructuredRun(st: RunState, issues: seq<Issue>, svc: StructuredServices): RunState
  {
    if issues == [] then st
    else StructuredStep(StructuredRun(st, issues[..|issues| - 1], svc), issues[|issues| - 1], svc)
  }

  lemma StructuredRunPrefix(st: RunState, issues: seq<Issue>, svc: StructuredServices, i: nat)
    requires i < |issues|
    ensures StructuredRun(st, issues[..i + 1], svc) == StructuredStep(StructuredRun(st, issues[..i], svc), issues[i], svc)
  {
    assert issues[..i + 1][..i] == issues[..i];
  }

  /**
   * An issue that does not parse is marked, so it is not retried, and it gets
   * one reply exactly when the error is about the title.
   */
  lemma ParseFailureMarked(st: RunState, issue: Issue, svc: StructuredServices)
    requires issue.number.Some? && issue.number.value !in st.issues.processed
    requires ParsePersonaIssue(issue).Err?
    ensures issue.number.value in StructuredStep(st, issue, svc).issues.processed
    ensures var e := ParsePersonaIssue(issue).error;
      StructuredStep(st, issue, svc).replies == st.replies + (if AboutTitle(e) then [ErrorReply(issue.number.value, e)] else [])
  {
  }

  /**
   * A new, unprocessed issue ends marked exactly when it does not parse, or
   * its package was generated and the PR was opened or already existed.
   */
  lemma StructuredMarkedIff(st: RunState, issue: Issue, svc: StructuredServices)
    requires issue.number.Some? && issue.number.value !in st.issues.processed
    ensures issue.number.value in StructuredStep(st, issue, svc).issues.processed <==>
      (ParsePersonaIssue(issue).Err?
       || var parsed := ParsePersonaIssue(issue).value;
          var g := svc.generate(GenerationInput(issue.number, parsed), parsed.userPersona);
          g.Ok?
          && var pr := svc.createPr(g.value.persona.issueNumber, g.value.persona.name, g.value.files);
             pr.Ok? || Pipelines.PrAlreadyExists(pr.error))
  {
  }

  /** An issue without a number, or already processed, is left as it is. */
  lemma ProcessedIssueSkipped(st: RunState, issue: Issue, svc: StructuredServices)
    requires issue.number.None? || issue.number.value in st.issues.processed
    ensures StructuredStep(st, issue, svc) == st
  {
  }

  /** Every reply of a run goes to an issue that was new to it and is now processed, each at most once. */
  predicate RepliesFresh(r: RunState, start: set<int>)
  {
    start <= r.issues.processed
    && (forall j :: 0 <= j < |r.replies| ==> r.replies[j].issueNumber in r.issues.processed && r.replies[j].issueNumber !in start)
    && (forall j, k :: 0 <= j < k < |r.replies| ==> r.replies[j].issueNumber != r.replies[k].issueNumber)
  }

  /** A step leaves the state alone, or marks the issue and adds at most a reply to it. */
  lemma StepShape(st: RunState, issue: Issue, svc: StructuredServices)
    ensures var s := StructuredStep(st, issue, svc);
      s == st
      || (issue.number.Some? && issue.number.value !in st.issues.processed
          && s.issues == Pipelines.MarkIssue(st.issues, issue.number.value)
          && (s.replies == st.replies || s.replies == st.replies + [ErrorReply(issue.number.value, ParsePersonaIssue(issue).error)]))
  {
  }

  lemma StructuredStepFresh(r: RunState, start: set<int>, issue: Issue, svc: StructuredServices)
    requires RepliesFresh(r, start)
    ensures RepliesFresh(StructuredStep(r, issue, svc), start)
  {
    StepShape(r, issue, svc);
    var s := StructuredStep(r, issue, svc);
    if s != r && s.replies != r.replies {
      var n := issue.number.value;
      assert s.replies == r.replies + [ErrorReply(n, ParsePersonaIssue(issue).error)];
      assert n in s.issues.processed;
      forall j | 0 <= j < |r.replies| ensures r.replies[j].issueNumber != n {
        assert r.replies[j].issueNumber in r.issues.processed;
      }
    }
  }

  lemma StepAgrees(st: RunState, issue: Issue, svc: StructuredServices)
    requires Pipelines.IssuesAgree(st.issues)
    ensures Pipelines.IssuesAgree(StructuredStep(st, issue, svc).issues)
  {
    StepShape(st, issue, svc);
    if issue.number.Some? {
      Pipelines.MarkIssueAgrees(st.issues, issue.number.value);
    }
  }

  /** The run only adds to the processed set, keeps the file in step, and answers each issue at most once. */
  lemma {:induction false} StructuredRunAgrees(st: Pipelines.IssueState, issues: seq<Issue>, svc: StructuredServices)
    requires Pipelines.IssuesAgree(st)
    ensures Pipelines.IssuesAgree(StructuredRun(RunState(st, []), issues, svc).issues)
    ensures RepliesFresh(StructuredRun(RunState(st, []), issues, svc), st.processed)
  {
    if issues != [] {
      var init := issues[..|issues| - 1];
      StructuredRunAgrees(st, init, svc);
      var mid := StructuredRun(RunState(st, []), init, svc);
      var last := issues[|issues| - 1];
      StepAgrees(mid, last, svc);
      StructuredStepFresh(mid, st.processed, last, svc);
    }
  }

  /**
   * `processNewIssuesWithStructure` over the issue list GitHub gave, on
   * pipeline `p`; the replies are returned in order.
   */
  method ProcessNewIssuesWithStructure(p: Pipelines.Pipeline, issues: Result<seq<Issue>>, svc: StructuredServices)
    returns (r: Result<seq<ErrorReply>>)
    modifies p
    ensures issues.Err? ==> r == Err("failed to get issues: " + issues.error) && p.Issues() == old(p.Issues())
    ensures issues.Ok? ==> r.Ok? && RunState(p.Issues(), r.value) == StructuredRun(RunState(old(p.Issues()), []), issues.value, svc)
    ensures p.Comments() == old(p.Comments())
  {
    if issues.Err? {
      return Err("failed to get issues: " + issues.error);
    }
    var list := issues.value;
    var replies: seq<ErrorReply> := [];
    var start := RunState(p.Issues(), []);
    for i := 0 to |list|
      invariant RunState(p.Issues(), replies) == StructuredRun(start, list[..i], svc)
      invariant p.Comments() == old(p.Comments())
    {
      StructuredRunPrefix(start, list, svc, i);
      replies := HandleIssue(p, list[i], svc, replies);
    }
    assert list[..|list|] == list;
    return Ok(replies);
  }

  /** One pass of the loop: `replies` are the replies so far. */
  method HandleIssue(p: Pipelines.Pipeline, issue: Issue, svc: StructuredServices, replies: seq<ErrorReply>)
    returns (out: seq<ErrorReply>)
    modifies p
    ensures RunState(p.Issues(), out) == StructuredStep(RunState(old(p.Issues()), replies), issue, svc)
    ensures p.Comments() == old(p.Comments())
  {
    out := replies;
    if issue.number.None? || issue.number.value in p.processed {
      return;
    }
    var parsedIssue := ParsePersonaIssue(issue);
    out := HandleParsed(p, issue.number.value, parsedIssue, svc, replies);
  }

  /** The pass for issue `n` after parsing. */
  method HandleParsed(p: Pipelines.Pipeline, n: int, parsedIssue: Result<ParsedIssue>, svc: StructuredServices,
                      replies: seq<ErrorReply>)
    returns (out: seq<ErrorReply>)
    modifies p
    ensures RunState(p.Issues(), out) == ParsedStep(RunState(old(p.Issues()), replies), n, parsedIssue, svc)
    ensures p.Comments() == old(p.Comments())
  {
    out := replies;
    match parsedIssue {
      case Err(parseErr) =>
        if AboutTitle(parseErr) {
          out := out + [ErrorReply(n, parseErr)];
        }
        p.MarkProcessed(n);
      case Ok(parsed) =>
        var enhancedIssue := GenerationInput(Some(n), parsed);
        match svc.generate(enhancedIssue, parsed.userPersona) {
          case Err(_) =>
          case Ok(package) =>
            var pr := svc.createPr(package.persona.issueNumber, package.persona.name, package.files);
            if pr.Ok? || Pipelines.PrAlreadyExists(pr.error) {
              p.MarkProcessed(n);
            }
        }
    }
  }
}
