/**
 * The issue pipeline's bookkeeping: which issues and feedback comments have
 * been handled, kept in memory and in two append-only text files, and the
 * rules that decide when an issue or a comment counts as handled.
 */
module Pipelines {
  import opened Wrappers
  import opened Str
  import opened IssueParser
  import opened UpdatePersona
  import opened Feedback

  // ------------------------------------------------- processed_issues.txt

  /** The line holds the number `n`, blanks around it allowed. */
  predicate NumberLine(line: string, n: int)
  {
    Atoi(TrimSpace(line)) == Some(n)
  }

  /** One line of the processed-issues file: a trimmed integer is added, anything else ignored. */
  function IssueLine(done: set<int>, line: string): (r: set<int>)
    ensures forall n :: n in r <==> n in done || NumberLine(line, n)
  {
    var t := TrimSpace(line);
    if t == [] then done
    else match Atoi(t)
      case None => done
      case Some(n) => done + {n}
  }

  /** The issue numbers a processed-issues file holds. */
  function LoadIssues(text: string): set<int>
  {
    FoldLines(IssueLine, {}, Split(text, '\n'))
  }

  /** Some line holds the number `n`. */
  predicate HasNumberLine(lines: seq<string>, n: int)
  {
    exists i :: 0 <= i < |lines| && NumberLine(lines[i], n)
  }

  /**
   * Loading keeps exactly the numbers written on a line of their own, blanks
   * around them allowed.
   */
  lemma {:induction false} IssueLinesExactly(done: set<int>, lines: seq<string>, n: int)
    ensures n in FoldLines(IssueLine, done, lines) <==> n in done || HasNumberLine(lines, n)
  {
    if lines != [] {
      var init := lines[..|lines| - 1];
      IssueLinesExactly(done, init, n);
      LinesWitness(lines, n);
    }
  }

  lemma LinesWitness(lines: seq<string>, n: int)
    requires lines != []
    ensures HasNumberLine(lines, n) <==> HasNumberLine(lines[..|lines| - 1], n) || NumberLine(lines[|lines| - 1], n)
  {
    var init := lines[..|lines| - 1];
    assert lines == init + [lines[|lines| - 1]];
    HasNumberLineSnoc(init, lines[|lines| - 1], n);
  }

  lemma HasNumberLineSnoc(init: seq<string>, last: string, n: int)
    ensures HasNumberLine(init + [last], n) <==> HasNumberLine(init, n) || NumberLine(last, n)
  {
    var lines := init + [last];
    if HasNumberLine(lines, n) {
      var i :| 0 <= i < |lines| && NumberLine(lines[i], n);
      if i < |init| {
        assert NumberLine(init[i], n);
      }
    }
    if HasNumberLine(init, n) {
      var i :| 0 <= i < |init| && NumberLine(init[i], n);
      assert NumberLine(lines[i], n);
    }
    if NumberLine(last, n) {
      assert NumberLine(lines[|init|], n);
    }
  }

  /** A number is written by `saveProcessedIssue` as its decimal text and a newline. */
  function IssueRecord(n: int): string
  {
    IntToString(n) + "\n"
  }

  /** The text of a number never has blanks at its edges. */
  lemma IntToStringTrimmed(n: int)
    ensures TrimSpace(IntToString(n)) == IntToString(n)
    ensures '\n' !in IntToString(n)
  {
    var s := IntToString(n);
    if n >= 0 {
      DigitsClean(s);
    } else {
      var d := s[1..];
      DigitsClean(d);
      assert s == "-" + d;
      assert s[|s| - 1] == d[|d| - 1];
    }
    TrimSpaceNoEdges(s);
  }

  lemma DigitsClean(d: string)
    requires d != [] && AllDigits(d)
    ensures !IsSpace(d[0]) && !IsSpace(d[|d| - 1]) && '\n' !in d
  {
    assert IsDigit(d[0]) && IsDigit(d[|d| - 1]);
  }

  /** Appending a saved number to a well-terminated file adds that number on reload. */
  lemma SaveIssueReload(text: string, n: int)
    requires text == [] || text[|text| - 1] == '\n'
    ensures LoadIssues(text + IssueRecord(n)) == LoadIssues(text) + {n}
  {
    var line := IntToString(n);
    IntToStringTrimmed(n);
    AtoiIntToString(n);
    TrimSpaceEmptyIff([]);
    assert text + IssueRecord(n) == text + line + "\n";
    FoldAppendLine(IssueLine, {}, text, line);
  }

  // ----------------------------------------------- processed_comments.txt

  /** `"<prNumber>-<commentID>"`, the key of a comment in memory and on disk. */
  function CommentKey(prNumber: int, commentId: int): string
  {
    IntToString(prNumber) + "-" + IntToString(commentId)
  }

  /** Two comments share a key only when they are the same comment of the same PR. */
  lemma CommentKeyInjective(p1: int, c1: int, p2: int, c2: int)
    requires CommentKey(p1, c1) == CommentKey(p2, c2)
    ensures p1 == p2 && c1 == c2
  {
    var a := IntToString(p1);
    var b := IntToString(p2);
    var key := CommentKey(p1, c1);
    KeySplit(a, IntToString(c1));
    KeySplit(b, IntToString(c2));
    assert |a| == |b|;
    assert a == key[..|a|] && b == CommentKey(p2, c2)[..|b|];
    IntToStringInjective(p1, p2);
    assert IntToString(c1) == key[|a| + 1..];
    assert IntToString(c2) == CommentKey(p2, c2)[|b| + 1..];
    IntToStringInjective(c1, c2);
  }

  /** In a key, the first `-` after the first character ends the PR number. */
  lemma KeySplit(a: string, c: string)
    requires a != [] && AllDigits(a[1..])
    ensures '-' in (a + "-" + c)[1..] && IndexOfChar((a + "-" + c)[1..], '-') == |a| - 1
  {
    var k := a + "-" + c;
    assert k[1..] == a[1..] + ['-'] + c;
    assert '-' !in a[1..] by {
      forall i | 0 <= i < |a[1..]| ensures a[1..][i] != '-' {
        assert IsDigit(a[1..][i]);
      }
    }
    IndexOfCharAfter(a[1..], '-', c);
  }

  /** One line of the processed-comments file: any trimmed, non-empty line is a key. */
  function CommentLine(done: set<string>, line: string): set<string>
  {
    var t := TrimSpace(line);
    if t == [] then done else done + {t}
  }

  function LoadComments(text: string): set<string>
  {
    FoldLines(CommentLine, {}, Split(text, '\n'))
  }

  /** A key never has blanks at its edges or a newline inside. */
  lemma CommentKeyTrimmed(prNumber: int, commentId: int)
    ensures TrimSpace(CommentKey(prNumber, commentId)) == CommentKey(prNumber, commentId)
    ensures '\n' !in CommentKey(prNumber, commentId)
  {
    var a := IntToString(prNumber);
    var c := IntToString(commentId);
    IntToStringTrimmed(prNumber);
    IntToStringTrimmed(commentId);
    var k := CommentKey(prNumber, commentId);
    assert k[0] == a[0] && k[|k| - 1] == c[|c| - 1];
    assert a == [] || !IsSpace(a[0]);
    assert !IsSpace(c[|c| - 1]);
    TrimSpaceNoEdges(k);
  }

  /** Appending a saved key to a well-terminated file adds that key on reload. */
  lemma SaveCommentReload(text: string, key: string)
    requires text == [] || text[|text| - 1] == '\n'
    requires TrimSpace(key) == key && key != [] && '\n' !in key
    ensures LoadComments(text + key + "\n") == LoadComments(text) + {key}
  {
    TrimSpaceEmptyIff([]);
    FoldAppendLine(CommentLine, {}, text, key);
  }

  // ------------------------------------------------------ comment filters

  /** A comment `filterUnprocessedComments` keeps. */
  predicate IsUnprocessed(done: set<string>, prNumber: int, c: Comment)
  {
    c.body.Some? && c.id.Some?
    && !Contains(c.body.value, "Studio") && !Contains(c.body.value, "Updated automatically")
    && CommentKey(prNumber, c.id.value) !in done
    && HasFeedbackKeyword(c.body.value)
  }

  /** The bodies of the comments on a PR that still need handling, in order. */
  function Unprocessed(done: set<string>, prNumber: int, cs: seq<Comment>): seq<string>
  {
    if cs == [] then []
    else
      var last := cs[|cs| - 1];
      Unprocessed(done, prNumber, cs[..|cs| - 1]) + (if IsUnprocessed(done, prNumber, last) then [last.body.value] else [])
  }

  /** Every comment still to handle is feedback in the sense of `AnalyzeComments`. */
  lemma {:induction false} UnprocessedIsFeedback(done: set<string>, prNumber: int, cs: seq<Comment>)
    ensures forall x :: x in Unprocessed(done, prNumber, cs) ==> x in FeedbackOf(cs)
  {
    if cs != [] {
      UnprocessedIsFeedback(done, prNumber, cs[..|cs| - 1]);
    }
  }

  /** A comment with an ID and a feedback keyword: the marking loop records its key. */
  predicate IsMarkable(c: Comment)
  {
    c.body.Some? && c.id.Some? && HasFeedbackKeyword(c.body.value)
  }

  /** The processed-comment keys and file, as the marking loop leaves them. */
  datatype CommentState = CommentState(done: set<string>, file: string)

  function MarkComment(st: CommentState, prNumber: int, c: Comment): CommentState
  {
    if IsMarkable(c) && CommentKey(prNumber, c.id.value) !in st.done then
      var key := CommentKey(prNumber, c.id.value);
      CommentState(st.done + {key}, st.file + key + "\n")
    else st
  }

  function MarkComments(st: CommentState, prNumber: int, cs: seq<Comment>): CommentState
  {
    if cs == [] then st
    else MarkComment(MarkComments(st, prNumber, cs[..|cs| - 1]), prNumber, cs[|cs| - 1])
  }

  lemma MarkCommentsPrefix(st: CommentState, prNumber: int, cs: seq<Comment>, i: nat)
    requires i < |cs|
    ensures MarkComments(st, prNumber, cs[..i + 1]) == MarkComment(MarkComments(st, prNumber, cs[..i]), prNumber, cs[i])
  {
    assert cs[..i + 1][..i] == cs[..i];
  }

  /** After marking, every markable comment's key is recorded, and none is lost. */
  lemma {:induction false} MarkCommentsCovers(st: CommentState, prNumber: int, cs: seq<Comment>)
    ensures st.done <= MarkComments(st, prNumber, cs).done
    ensures forall i :: 0 <= i < |cs| && IsMarkable(cs[i]) ==> CommentKey(prNumber, cs[i].id.value) in MarkComments(st, prNumber, cs).done
  {
    if cs != [] {
      var init := cs[..|cs| - 1];
      var mid := MarkComments(st, prNumber, init);
      var out := MarkComments(st, prNumber, cs);
      assert out == MarkComment(mid, prNumber, cs[|cs| - 1]);
      MarkCommentsCovers(st, prNumber, init);
      MarkCommentGrows(mid, prNumber, cs[|cs| - 1]);
      var marked := (c: Comment) => IsMarkable(c);
      var key := (c: Comment) => if c.id.Some? then CommentKey(prNumber, c.id.value) else "";
      assert forall i :: 0 <= i < |cs| - 1 && marked(cs[i]) ==> key(cs[i]) in mid.done by {
        forall i | 0 <= i < |cs| - 1 && marked(cs[i]) ensures key(cs[i]) in mid.done {
          assert init[i] == cs[i];
        }
      }
      CoverStep(mid.done, out.done, cs, marked, key);
    }
  }

  /** Keys recorded for the earlier items stay recorded, and the last item's key joins them. */
  lemma CoverStep<T>(before: set<string>, after: set<string>, xs: seq<T>, marked: T -> bool, key: T -> string)
    requires xs != [] && before <= after
    requires forall i :: 0 <= i < |xs| - 1 && marked(xs[i]) ==> key(xs[i]) in before
    requires marked(xs[|xs| - 1]) ==> key(xs[|xs| - 1]) in after
    ensures forall i :: 0 <= i < |xs| && marked(xs[i]) ==> key(xs[i]) in after
  {
    forall i | 0 <= i < |xs| && marked(xs[i]) ensures key(xs[i]) in after {
      if i < |xs| - 1 {
        assert key(xs[i]) in before;
      }
    }
  }

  lemma MarkCommentGrows(st: CommentState, prNumber: int, c: Comment)
    ensures st.done <= MarkComment(st, prNumber, c).done
    ensures IsMarkable(c) ==> CommentKey(prNumber, c.id.value) in MarkComment(st, prNumber, c).done
  {
  }

  /** With every markable key recorded, no comment is left to handle. */
  lemma {:induction false} NothingLeftWhenMarked(done: set<string>, prNumber: int, cs: seq<Comment>)
    requires forall i :: 0 <= i < |cs| && IsMarkable(cs[i]) ==> CommentKey(prNumber, cs[i].id.value) in done
    ensures Unprocessed(done, prNumber, cs) == []
  {
    if cs != [] {
      var init := cs[..|cs| - 1];
      forall i | 0 <= i < |init| ensures init[i] == cs[i] { }
      NothingLeftWhenMarked(done, prNumber, init);
    }
  }

  /** Filtering a PR again right after its comments were marked yields nothing. */
  lemma RefilterAfterMarking(st: CommentState, prNumber: int, cs: seq<Comment>)
    ensures Unprocessed(MarkComments(st, prNumber, cs).done, prNumber, cs) == []
  {
    MarkCommentsCovers(st, prNumber, cs);
    NothingLeftWhenMarked(MarkComments(st, prNumber, cs).done, prNumber, cs);
  }

  /** The comments file and the keys in memory agree. */
  predicate CommentsAgree(st: CommentState)
  {
    (st.file == [] || st.file[|st.file| - 1] == '\n') && LoadComments(st.file) == st.done
  }

  /** Marking keeps the file in step with memory. */
  lemma {:induction false} MarkCommentsAgree(st: CommentState, prNumber: int, cs: seq<Comment>)
    requires CommentsAgree(st)
    ensures CommentsAgree(MarkComments(st, prNumber, cs))
  {
    if cs != [] {
      var mid := MarkComments(st, prNumber, cs[..|cs| - 1]);
      MarkCommentsAgree(st, prNumber, cs[..|cs| - 1]);
      var c := cs[|cs| - 1];
      if IsMarkable(c) && CommentKey(prNumber, c.id.value) !in mid.done {
        var key := CommentKey(prNumber, c.id.value);
        CommentKeyTrimmed(prNumber, c.id.value);
        SaveCommentReload(mid.file, key);
        assert (mid.file + key + "\n")[|mid.file + key + "\n"| - 1] == '\n';
      }
    }
  }

  // ------------------------------------------------------ issue handling

  /** What one `processed[n] = true` plus `saveProcessedIssue(n)` leaves behind. */
  datatype IssueState = IssueState(processed: set<int>, file: string)

  function MarkIssue(st: IssueState, n: int): IssueState
  {
    IssueState(st.processed + {n}, st.file + IssueRecord(n))
  }

  predicate IssuesAgree(st: IssueState)
  {
    (st.file == [] || st.file[|st.file| - 1] == '\n') && LoadIssues(st.file) == st.processed
  }

  /** Marking an issue keeps the file in step with memory. */
  lemma MarkIssueAgrees(st: IssueState, n: int)
    requires IssuesAgree(st)
    ensures IssuesAgree(MarkIssue(st, n))
  {
    SaveIssueReload(st.file, n);
  }

  /** A comment posted on an update issue. */
  datatype UpdateReply = ParseFailedReply(error: string) | UpdateFailedReply(error: string) | UpdateSubmittedReply(personaName: string)

  datatype Post = Post(issueNumber: int, reply: UpdateReply)

  datatype UpdateRunState = UpdateRunState(issues: IssueState, posts: seq<Post>)

  /** One pass of the `processUpdateRequests` loop. */
  function UpdateIssueStep(st: UpdateRunState, issue: Issue, svc: UpdateServices): UpdateRunState
  {
    if issue.number.None? || issue.number.value in st.issues.processed then st
    else
      var n := issue.number.value;
      var reply := match ParseUpdateRequest(issue)
        case Err(e) => ParseFailedReply(e)
        case Ok(req) =>
          var o := ProcessPersonaUpdate(req, svc);
          if o.error.Some? then UpdateFailedReply(o.error.value) else UpdateSubmittedReply(req.personaName);
      UpdateRunState(MarkIssue(st.issues, n), st.posts + [Post(n, reply)])
  }

  function UpdateRun(st: UpdateRunState, issues: seq<Issue>, svc: UpdateServices): UpdateRunState
  {
    if issues == [] then st
    else UpdateIssueStep(UpdateRun(st, issues[..|issues| - 1], svc), issues[|issues| - 1], svc)
  }

  lemma UpdateRunPrefix(st: UpdateRunState, issues: seq<Issue>, svc: UpdateServices, i: nat)
    requires i < |issues|
    ensures UpdateRun(st, issues[..i + 1], svc) == UpdateIssueStep(UpdateRun(st, issues[..i], svc), issues[i], svc)
  {
    assert issues[..i + 1][..i] == issues[..i];
  }

  /**
   * Every numbered update issue ends processed, whatever happened to it, and
   * nothing else is marked.
   */
  lemma {:induction false} UpdateRunMarksAll(st: UpdateRunState, issues: seq<Issue>, svc: UpdateServices)
    ensures UpdateRun(st, issues, svc).issues.processed ==
      st.issues.processed + set i | 0 <= i < |issues| && issues[i].number.Some? :: issues[i].number.value
  {
    if issues != [] {
      var init := issues[..|issues| - 1];
      UpdateRunMarksAll(st, init, svc);
      var last := issues[|issues| - 1];
      var before := set i | 0 <= i < |init| && init[i].number.Some? :: init[i].number.value;
      var after := set i | 0 <= i < |issues| && issues[i].number.Some? :: issues[i].number.value;
      if last.number.Some? {
        assert after == before + {last.number.value} by {
          forall x | x in after ensures x in before + {last.number.value} {
            var i :| 0 <= i < |issues| && issues[i].number.Some? && issues[i].number.value == x;
            if i < |init| { assert init[i] == issues[i]; }
          }
          forall x | x in before ensures x in after {
            var i :| 0 <= i < |init| && init[i].number.Some? && init[i].number.value == x;
            assert issues[i] == init[i];
          }
          assert issues[|issues| - 1] == last;
        }
      } else {
        assert after == before by {
          forall x | x in after ensures x in before {
            var i :| 0 <= i < |issues| && issues[i].number.Some? && issues[i].number.value == x;
            assert i < |init|;
            assert init[i] == issues[i];
          }
          forall x | x in before ensures x in after {
            var i :| 0 <= i < |init| && init[i].number.Some? && init[i].number.value == x;
            assert issues[i] == init[i];
          }
        }
      }
    }
  }

  /**
   * Since a run started at `start`: every reply went to an issue that is now
   * processed and was not before, and no issue was answered twice.
   */
  predicate RepliesFresh(r: UpdateRunState, start: set<int>)
  {
    start <= r.issues.processed
    && (forall j :: 0 <= j < |r.posts| ==> r.posts[j].issueNumber in r.issues.processed && r.posts[j].issueNumber !in start)
    && (forall j, k :: 0 <= j < k < |r.posts| ==> r.posts[j].issueNumber != r.posts[k].issueNumber)
  }

  lemma UpdateStepFresh(r: UpdateRunState, start: set<int>, issue: Issue, svc: UpdateServices)
    requires RepliesFresh(r, start)
    ensures RepliesFresh(UpdateIssueStep(r, issue, svc), start)
  {
  }

  /** An issue processed before a run gets no reply in it, and no issue is answered twice. */
  lemma {:induction false} UpdateRunRepliesOnce(start: IssueState, issues: seq<Issue>, svc: UpdateServices)
    ensures RepliesFresh(UpdateRun(UpdateRunState(start, []), issues, svc), start.processed)
  {
    if issues != [] {
      UpdateRunRepliesOnce(start, issues[..|issues| - 1], svc);
      UpdateStepFresh(UpdateRun(UpdateRunState(start, []), issues[..|issues| - 1], svc), start.processed, issues[|issues| - 1], svc);
    }
  }

  /** The persona that generation hands over for a new issue. */
  datatype Persona = Persona(name: string, content: string, issueNumber: int)

  /** The generator and the PR call that `processNewIssues` uses. */
  datatype CreateServices = CreateServices(
    processIssue: Issue -> Result<Persona>,
    createPr: (int, string, string) -> Result<int>)

  /** The PR error text that counts as "already done". */
  predicate PrAlreadyExists(e: string)
  {
    Contains(e, "A pull request already exists")
  }

  /** One pass of the `processNewIssues` loop. */
  function NewIssueStep(st: IssueState, issue: Issue, svc: CreateServices): IssueState
  {
    if issue.number.None? || issue.number.value in st.processed then st
    else match svc.processIssue(issue)
      case Err(_) => st
      case Ok(persona) =>
        match svc.createPr(persona.issueNumber, persona.name, persona.content)
        case Ok(_) => MarkIssue(st, issue.number.value)
        case Err(e) => if PrAlreadyExists(e) then MarkIssue(st, issue.number.value) else st
  }

  function NewIssueRun(st: IssueState, issues: seq<Issue>, svc: CreateServices): IssueState
  {
    if issues == [] then st
    else NewIssueStep(NewIssueRun(st, issues[..|issues| - 1], svc), issues[|issues| - 1], svc)
  }

  lemma NewIssueRunPrefix(st: IssueState, issues: seq<Issue>, svc: CreateServices, i: nat)
    requires i < |issues|
    ensures NewIssueRun(st, issues[..i + 1], svc) == NewIssueStep(NewIssueRun(st, issues[..i], svc), issues[i], svc)
  {
    assert issues[..i + 1][..i] == issues[..i];
  }

  /**
   * A new, unprocessed issue ends marked exactly when generation succeeded and
   * the PR was opened or already existed.
   */
  lemma NewIssueMarkedIff(st: IssueState, issue: Issue, svc: CreateServices)
    requires issue.number.Some? && issue.number.value !in st.processed
    ensures issue.number.value in NewIssueStep(st, issue, svc).processed <==>
      (svc.processIssue(issue).Ok?
       && var p := svc.processIssue(issue).value;
          svc.createPr(p.issueNumber, p.name, p.content).Ok?
          || PrAlreadyExists(svc.createPr(p.issueNumber, p.name, p.content).error))
  {
  }

  /** Both loops only ever add to what is processed, and keep the file in step. */
  lemma {:induction false} NewIssueRunAgrees(st: IssueState, issues: seq<Issue>, svc: CreateServices)
    requires IssuesAgree(st)
    ensures IssuesAgree(NewIssueRun(st, issues, svc))
    ensures st.processed <= NewIssueRun(st, issues, svc).processed
  {
    if issues != [] {
      NewIssueRunAgrees(st, issues[..|issues| - 1], svc);
      var mid := NewIssueRun(st, issues[..|issues| - 1], svc);
      var last := issues[|issues| - 1];
      if last.number.Some? {
        MarkIssueAgrees(mid, last.number.value);
      }
    }
  }

  lemma {:induction false} UpdateRunAgrees(st: UpdateRunState, issues: seq<Issue>, svc: UpdateServices)
    requires IssuesAgree(st.issues)
    ensures IssuesAgree(UpdateRun(st, issues, svc).issues)
  {
    if issues != [] {
      UpdateRunAgrees(st, issues[..|issues| - 1], svc);
      var mid := UpdateRun(st, issues[..|issues| - 1], svc);
      var last := issues[|issues| - 1];
      if last.number.Some? {
        MarkIssueAgrees(mid.issues, last.number.value);
      }
    }
  }

  // ---------------------------------------------------- findOriginalIssue

  const IssueRefLead: string := "Created from issue: "

  /** The first `#` at or after `i`. */
  function HashFrom(s: string, i: nat): (h: Option<nat>)
    requires i <= |s|
    ensures h.Some? ==> i <= h.value < |s| && s[h.value] == '#' && '#' !in s[i..h.value]
    ensures h.None? ==> '#' !in s[i..]
    decreases |s| - i
  {
    if i == |s| then None
    else if s[i] == '#' then Some(i)
    else
      var h := HashFrom(s, i + 1);
      assert s[i..] == [s[i]] + s[i + 1..];
      if h.Some? then
        assert s[i..h.value] == [s[i]] + s[i + 1..h.value];
        h
      else h
  }

  /** The end of the run of ASCII digits that starts at `i`. */
  function DigitEnd(s: string, i: nat): (j: nat)
    requires i <= |s|
    ensures i <= j <= |s| && AllDigits(s[i..j]) && (j == |s| || !IsDigit(s[j]))
    decreases |s| - i
  {
    if i < |s| && IsDigit(s[i]) then
      var j := DigitEnd(s, i + 1);
      assert s[i..j] == [s[i]] + s[i + 1..j];
      j
    else i
  }

  /**
   * `Created from issue: [^#]+#(\d+)` tried at `i`. The class `[^#]` cannot
   * pass a `#`, so the digits follow the first `#` after the lead text, which
   * must not come straight after it.
   */
  function IssueRefAt(s: string, i: nat): (g: Option<string>)
    requires i <= |s|
    ensures g.Some? ==> g.value != [] && AllDigits(g.value)
  {
    if !At(s, IssueRefLead, i) then None
    else match HashFrom(s, i + 20)
      case None => None
      case Some(h) =>
        if h == i + 20 then None
        else
          var d := DigitEnd(s, h + 1);
          if d == h + 1 then None else Some(s[h + 1..d])
  }

  /** The leftmost match. */
  function IssueRefSearch(s: string, i: nat): (g: Option<string>)
    requires i <= |s|
    ensures g.Some? ==> g.value != [] && AllDigits(g.value)
    ensures g.None? ==> forall k :: i <= k <= |s| ==> IssueRefAt(s, k).None?
    decreases |s| - i
  {
    if IssueRefAt(s, i).Some? then IssueRefAt(s, i)
    else if i == |s| then None
    else IssueRefSearch(s, i + 1)
  }

  /** The issue number `findOriginalIssue` reads from a PR body. */
  function FindIssueNumber(body: Option<string>): (r: Result<int>)
    ensures body.None? ==> r.Err?
    ensures r.Ok? ==> r.value >= 0
    ensures body.Some? ==> (r.Ok? <==> IssueRefSearch(body.value, 0).Some?)
  {
    if body.None? then Err("PR body is empty")
    else match IssueRefSearch(body.value, 0)
      case None => Err("could not find issue number in PR body")
      case Some(digits) =>
        DigitsAtoi(digits);
        match Atoi(digits)
        case None => Err("invalid issue number")
        case Some(n) => Ok(n)
  }

  lemma DigitsAtoi(digits: string)
    requires digits != [] && AllDigits(digits)
    ensures Atoi(digits) == Some(DigitsValue(digits))
  {
    assert digits[0] != '+' && digits[0] != '-' by { assert IsDigit(digits[0]); }
  }

  /** `findOriginalIssue`: the number, then the issue it names. */
  function FindOriginalIssue(body: Option<string>, getIssue: int -> Result<Issue>): (r: Result<Issue>)
    ensures FindIssueNumber(body).Err? ==> r.Err?
    ensures FindIssueNumber(body).Ok? ==> (r.Ok? <==> getIssue(FindIssueNumber(body).value).Ok?)
    ensures r.Ok? ==> r.value == getIssue(FindIssueNumber(body).value).value
  {
    match FindIssueNumber(body)
    case Err(e) => Err(e)
    case Ok(n) =>
      match getIssue(n)
      case Err(e) => Err("failed to get issue: " + e)
      case Ok(issue) => Ok(issue)
  }

  /** The body a persona PR carries gives back the issue number it was written with. */
  lemma IssueRefRoundTrip(pre: string, repo: string, n: nat, post: string)
    requires 'C' !in pre && repo != [] && '#' !in repo
    requires post == [] || !IsDigit(post[0])
    ensures FindIssueNumber(Some(pre + IssueRefLead + repo + "#" + NatToString(n) + post)) == Ok(n)
  {
    forall k | 0 <= k < |pre| ensures !At(pre + IssueRefLead, IssueRefLead, k) {
      assert (pre + IssueRefLead)[k] == pre[k];
    }
    IssueRefAfter(pre, repo, n, post);
  }

  /**
   * The reference is read back from any body in which nothing before it
   * starts like one.
   */
  lemma IssueRefAfter(pre: string, repo: string, n: nat, post: string)
    requires forall k :: 0 <= k < |pre| ==> !At(pre + IssueRefLead, IssueRefLead, k)
    requires repo != [] && '#' !in repo
    requires post == [] || !IsDigit(post[0])
    ensures FindIssueNumber(Some(pre + IssueRefLead + repo + "#" + NatToString(n) + post)) == Ok(n)
  {
    var body := pre + IssueRefLead + repo + "#" + NatToString(n) + post;
    var front := pre + IssueRefLead;
    assert body == front + (repo + "#" + NatToString(n) + post);
    forall k | 0 <= k < |pre| ensures IssueRefAt(body, k).None? {
      assert |IssueRefLead| == 20;
      assert !At(front, IssueRefLead, k);
      assert body[k..k + 20] == front[k..k + 20];
    }
    IssueRefAtLead(body, pre, repo, NatToString(n), post);
    SearchSkips(body, 0, |pre|);
    DigitsValueOfNat(n);
    DigitsAtoi(NatToString(n));
  }


  lemma IssueRefAtLead(body: string, pre: string, repo: string, digits: string, post: string)
    requires body == pre + IssueRefLead + repo + "#" + digits + post
    requires repo != [] && '#' !in repo && digits != [] && AllDigits(digits)
    requires post == [] || !IsDigit(post[0])
    ensures IssueRefAt(body, |pre|) == Some(digits)
  {
    var q := |pre| + 20;
    var h := q + |repo|;
    assert body[|pre|..q] == IssueRefLead;
    assert body[q..h] == repo;
    assert body[h] == '#';
    assert HashFrom(body, q) == Some(h) by {
      HashFromFirst(body, q, h);
    }
    var d := h + 1 + |digits|;
    assert body[h + 1..d] == digits;
    assert DigitEnd(body, h + 1) == d by {
      DigitEndRun(body, h + 1, d);
      if d < |body| {
        assert body[d] == post[0];
      }
    }
  }

  lemma {:induction false} HashFromFirst(s: string, i: nat, h: nat)
    requires i <= h < |s| && s[h] == '#' && '#' !in s[i..h]
    ensures HashFrom(s, i) == Some(h)
    decreases h - i
  {
    if i < h {
      assert s[i] == s[i..h][0];
      assert s[i + 1..h] == s[i..h][1..];
      HashFromFirst(s, i + 1, h);
    }
  }

  lemma {:induction false} DigitEndRun(s: string, i: nat, d: nat)
    requires i <= d <= |s| && AllDigits(s[i..d]) && (d == |s| || !IsDigit(s[d]))
    ensures DigitEnd(s, i) == d
    decreases d - i
  {
    if i < d {
      assert IsDigit(s[i..d][0]);
      assert s[i + 1..d] == s[i..d][1..];
      DigitEndRun(s, i + 1, d);
    }
  }

  lemma {:induction false} SearchSkips(s: string, i: nat, k: nat)
    requires i <= k <= |s| && IssueRefAt(s, k).Some?
    requires forall t :: i <= t < k ==> IssueRefAt(s, t).None?
    ensures IssueRefSearch(s, i) == IssueRefAt(s, k)
    decreases k - i
  {
    if i < k {
      SearchSkips(s, i + 1, k);
    }
  }

  // ---------------------------------------------------------- file paths

  /** `getPersonaFilePath`: `personas/<name>.md`, lower case, spaces and slashes as `_`. */
  function GetPersonaFilePath(personaName: string): (r: string)
    ensures |r| == |personaName| + 12
    ensures HasPrefix(r, "personas/") && r[|r| - 3..] == ".md"
    ensures forall i :: 9 <= i < |r| - 3 ==> r[i] != ' ' && r[i] != '/' && !IsUpper(r[i])
    ensures forall i :: 0 <= i < |personaName| ==>
      (personaName[i] in " /" ==> r[9 + i] == '_')
  {
    var fileName := MapChar(Lower(MapChar(personaName, ' ', '_')), '/', '_');
    "personas/" + fileName + ".md"
  }

  /** Names that differ only in letter case, or in space against slash, share a file. */
  lemma FilePathCollides(a: string, b: string)
    requires |a| == |b|
    requires forall i :: 0 <= i < |a| ==> LowerChar(a[i]) == LowerChar(b[i]) || (a[i] in " /" && b[i] in " /")
    ensures GetPersonaFilePath(a) == GetPersonaFilePath(b)
  {
  }

  // ------------------------------------------------------------ the class

  class Pipeline {
    /** Issue numbers handled, and their file. */
    var processed: set<int>
    var issuesFile: string
    /** Keys of feedback comments handled, and their file. */
    var processedComments: set<string>
    var commentsFile: string

    function Issues(): IssueState
      reads this
    {
      IssueState(processed, issuesFile)
    }

    function Comments(): CommentState
      reads this
    {
      CommentState(processedComments, commentsFile)
    }

    /** `New`: both files are loaded; a missing file is empty. */
    constructor(issuesText: Option<string>, commentsText: Option<string>)
      ensures processed == LoadIssues(issuesText.GetOr([])) && issuesFile == issuesText.GetOr([])
      ensures processedComments == LoadComments(commentsText.GetOr([])) && commentsFile == commentsText.GetOr([])
    {
      processed := {};
      issuesFile := issuesText.GetOr([]);
      processedComments := {};
      commentsFile := commentsText.GetOr([]);
      new;
      LoadProcessedIssues(issuesFile);
      LoadProcessedComments(commentsFile);
    }

    /** `loadProcessedIssues`: adds every integer line of the file. */
    method LoadProcessedIssues(text: string)
      modifies this
      ensures processed == FoldLines(IssueLine, old(processed), Split(text, '\n'))
      ensures issuesFile == old(issuesFile) && processedComments == old(processedComments)
      ensures commentsFile == old(commentsFile)
    {
      var lines := Split(text, '\n');
      var start := processed;
      for i := 0 to |lines|
        invariant processed == FoldLines(IssueLine, start, lines[..i])
        invariant issuesFile == old(issuesFile) && processedComments == old(processedComments)
        invariant commentsFile == old(commentsFile)
      {
        FoldLinesPrefix(IssueLine, start, lines, i);
        var line := TrimSpace(lines[i]);
        if line == [] {
          continue;
        }
        var issueNum := Atoi(line);
        if issueNum.None? {
          continue;
        }
        processed := processed + {issueNum.value};
      }
      assert lines[..|lines|] == lines;
    }

    /** `loadProcessedComments`: adds every non-blank line of the file. */
    method LoadProcessedComments(text: string)
      modifies this
      ensures processedComments == FoldLines(CommentLine, old(processedComments), Split(text, '\n'))
      ensures processed == old(processed) && issuesFile == old(issuesFile) && commentsFile == old(commentsFile)
    {
      var lines := Split(text, '\n');
      var start := processedComments;
      for i := 0 to |lines|
        invariant processedComments == FoldLines(CommentLine, start, lines[..i])
        invariant processed == old(processed) && issuesFile == old(issuesFile) && commentsFile == old(commentsFile)
      {
        FoldLinesPrefix(CommentLine, start, lines, i);
        var line := TrimSpace(lines[i]);
        if line == [] {
          continue;
        }
        processedComments := processedComments + {line};
      }
      assert lines[..|lines|] == lines;
    }

    /** `processed[n] = true` followed by `saveProcessedIssue(n)`. */
    method MarkProcessed(n: int)
      modifies this
      ensures Issues() == MarkIssue(old(Issues()), n)
      ensures Comments() == old(Comments())
      ensures old(IssuesAgree(Issues())) ==> IssuesAgree(Issues())
    {
      if IssuesAgree(Issues()) {
        MarkIssueAgrees(Issues(), n);
      }
      processed := processed + {n};
      issuesFile := issuesFile + IntToString(n) + "\n";
    }

    /** `markCommentAsProcessed` followed by `saveProcessedComment`. */
    method MarkCommentProcessed(prNumber: int, commentId: int)
      modifies this
      ensures processedComments == old(processedComments) + {CommentKey(prNumber, commentId)}
      ensures commentsFile == old(commentsFile) + CommentKey(prNumber, commentId) + "\n"
      ensures Issues() == old(Issues())
    {
      var commentKey := CommentKey(prNumber, commentId);
      processedComments := processedComments + {commentKey};
      commentsFile := commentsFile + commentKey + "\n";
    }

    /** `filterUnprocessedComments`; the feedback list it is given is not consulted. */
    method FilterUnprocessedComments(feedback: seq<string>, prNumber: int, comments: seq<Comment>)
      returns (unprocessed: seq<string>)
      ensures unprocessed == Unprocessed(processedComments, prNumber, comments)
    {
      unprocessed := [];
      for i := 0 to |comments|
        invariant unprocessed == Unprocessed(processedComments, prNumber, comments[..i])
      {
        assert comments[..i + 1][..i] == comments[..i];
        var comment := comments[i];
        if comment.body.None? || comment.id.None? {
          continue;
        }
        var body := comment.body.value;
        if Contains(body, "Studio") || Contains(body, "Updated automatically") {
          continue;
        }
        var commentKey := CommentKey(prNumber, comment.id.value);
        var isFeedback := ContainsFeedbackKeywords(body);
        if commentKey !in processedComments && isFeedback {
          unprocessed := unprocessed + [body];
        }
      }
      assert comments[..|comments|] == comments;
    }

    /** The marking loop of `processPRComments`. */
    method MarkFeedbackComments(prNumber: int, comments: seq<Comment>)
      modifies this
      ensures Comments() == MarkComments(old(Comments()), prNumber, comments)
      ensures Issues() == old(Issues())
      ensures Unprocessed(processedComments, prNumber, comments) == []
      ensures old(CommentsAgree(Comments())) ==> CommentsAgree(Comments())
    {
      var start := Comments();
      for i := 0 to |comments|
        invariant Comments() == MarkComments(start, prNumber, comments[..i])
        invariant Issues() == old(Issues())
      {
        MarkCommentsPrefix(start, prNumber, comments, i);
        var comment := comments[i];
        if comment.body.Some? && comment.id.Some? {
          var isFeedback := ContainsFeedbackKeywords(comment.body.value);
          if isFeedback {
            var commentKey := CommentKey(prNumber, comment.id.value);
            if commentKey !in processedComments {
              MarkCommentProcessed(prNumber, comment.id.value);
            }
          }
        }
      }
      assert comments[..|comments|] == comments;
      RefilterAfterMarking(start, prNumber, comments);
      if CommentsAgree(start) {
        MarkCommentsAgree(start, prNumber, comments);
      }
    }

    /** The issue loop of `processUpdateRequests`; the replies are returned in order. */
    method ProcessUpdateRequests(issues: seq<Issue>, svc: UpdateServices) returns (posts: seq<Post>)
      modifies this
      ensures UpdateRunState(Issues(), posts) == UpdateRun(UpdateRunState(old(Issues()), []), issues, svc)
      ensures Comments() == old(Comments())
    {
      posts := [];
      var start := UpdateRunState(Issues(), []);
      for i := 0 to |issues|
        invariant UpdateRunState(Issues(), posts) == UpdateRun(start, issues[..i], svc)
        invariant Comments() == old(Comments())
      {
        UpdateRunPrefix(start, issues, svc, i);
        var issue := issues[i];
        if issue.number.None? {
          continue;
        }
        var n := issue.number.value;
        if n in processed {
          continue;
        }
        var request := ParseUpdateRequest(issue);
        if request.Err? {
          posts := posts + [Post(n, ParseFailedReply(request.error))];
          MarkProcessed(n);
          continue;
        }
        var outcome := ProcessPersonaUpdate(request.value, svc);
        if outcome.error.Some? {
          posts := posts + [Post(n, UpdateFailedReply(outcome.error.value))];
        } else {
          posts := posts + [Post(n, UpdateSubmittedReply(request.value.personaName))];
        }
        MarkProcessed(n);
      }
      assert issues[..|issues|] == issues;
    }

    /** The issue loop of `processNewIssues`. */
    method ProcessNewIssues(issues: seq<Issue>, svc: CreateServices)
      modifies this
      ensures Issues() == NewIssueRun(old(Issues()), issues, svc)
      ensures Comments() == old(Comments())
    {
      var start := Issues();
      for i := 0 to |issues|
        invariant Issues() == NewIssueRun(start, issues[..i], svc)
        invariant Comments() == old(Comments())
      {
        NewIssueRunPrefix(start, issues, svc, i);
        var issue := issues[i];
        if issue.number.None? || issue.number.value in processed {
          continue;
        }
        var persona := svc.processIssue(issue);
        if persona.Err? {
          continue;
        }
        var pr := svc.createPr(persona.value.issueNumber, persona.value.name, persona.value.content);
        if pr.Err? {
          if PrAlreadyExists(pr.error) {
            MarkProcessed(issue.number.value);
          }
          continue;
        }
        MarkProcessed(issue.number.value);
      }
      assert issues[..|issues|] == issues;
    }
  }
}
