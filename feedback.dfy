/**
 * Picking regeneration feedback out of pull-request comments and numbering it
 * for the regeneration prompt.
 */
module Feedback {
  import opened Wrappers
  import opened Str

  /** A pull-request comment; the body may be missing. */
  datatype Comment = Comment(id: Option<int>, body: Option<string>)

  /** The words that ask for a persona to be regenerated, in lower case. */
  const FeedbackKeywords: seq<string> := [
    "truncated", "incomplete", "missing", "too short", "needs more", "expand",
    "add more", "please include", "could you add", "lacking", "insufficient",
    "update", "change", "improve", "regenerate", "redo", "revise"]

  /** The lower-cased comment contains one of the keywords. */
  predicate HasFeedbackKeyword(comment: string)
  {
    exists k :: k in FeedbackKeywords && Contains(Lower(comment), k)
  }

  /** `ContainsFeedbackKeywords`: tries the keywords in order and stops at the first hit. */
  method ContainsFeedbackKeywords(comment: string) returns (found: bool)
    ensures found <==> HasFeedbackKeyword(comment)
  {
    var lowerComment := Lower(comment);
    for i := 0 to |FeedbackKeywords|
      invariant forall j :: 0 <= j < i ==> !Contains(lowerComment, FeedbackKeywords[j])
    {
      if Contains(lowerComment, FeedbackKeywords[i]) {
        return true;
      }
    }
    return false;
  }

  /** Letter case does not matter to the keyword test. */
  lemma KeywordsIgnoreCase(comment: string)
    ensures HasFeedbackKeyword(Lower(comment)) <==> HasFeedbackKeyword(comment)
  {
    LowerIdempotent(comment);
  }

  /** Any comment that mentions one of the keywords, in any case, is feedback. */
  lemma KeywordInside(a: string, k: string, b: string)
    requires k in FeedbackKeywords
    ensures HasFeedbackKeyword(a + k + b)
  {
    LowerConcat(a + k, b);
    LowerConcat(a, k);
    KeywordLower(k);
    assert At(k, k, 0);
    ContainsInside(Lower(a), k, Lower(b), k);
  }

  /** The keywords are written in lower case already. */
  lemma KeywordLower(k: string)
    requires k in FeedbackKeywords
    ensures Lower(k) == k
  {
    var i :| 0 <= i < |FeedbackKeywords| && FeedbackKeywords[i] == k;
    if i < 8 {
      EarlyKeywordsLower(i);
    } else {
      LateKeywordsLower(i);
    }
    forall j | 0 <= j < |k| ensures Lower(k)[j] == k[j] {
      assert !('A' <= k[j] <= 'Z');
    }
  }

  lemma EarlyKeywordsLower(i: nat)
    requires i < 8
    ensures NoCapitals(FeedbackKeywords[i])
  {
  }

  lemma LateKeywordsLower(i: nat)
    requires 8 <= i < |FeedbackKeywords|
    ensures NoCapitals(FeedbackKeywords[i])
  {
  }

  /** No capital letter in `k`. */
  predicate NoCapitals(k: string)
  {
    forall j :: 0 <= j < |k| ==> !('A' <= k[j] <= 'Z')
  }

  /** A comment `AnalyzeComments` keeps: present, not Studio's own, and asking for changes. */
  predicate IsFeedback(c: Comment)
  {
    c.body.Some? && !Contains(c.body.value, "Studio") && HasFeedbackKeyword(c.body.value)
  }

  /** The bodies of the feedback comments, in order. */
  function FeedbackOf(cs: seq<Comment>): (r: seq<string>)
    ensures |r| <= |cs|
  {
    if cs == [] then []
    else
      var last := cs[|cs| - 1];
      FeedbackOf(cs[..|cs| - 1]) + (if IsFeedback(last) then [last.body.value] else [])
  }

  /** `AnalyzeComments`. */
  method AnalyzeComments(comments: seq<Comment>) returns (feedback: seq<string>)
    ensures feedback == FeedbackOf(comments)
  {
    feedback := [];
    for i := 0 to |comments|
      invariant feedback == FeedbackOf(comments[..i])
    {
      assert comments[..i + 1][..i] == comments[..i];
      var comment := comments[i];
      if comment.body.None? {
        continue;
      }
      var body := comment.body.value;
      if Contains(body, "Studio") {
        continue;
      }
      var keep := ContainsFeedbackKeywords(body);
      if keep {
        feedback := feedback + [body];
      }
    }
    assert comments[..|comments|] == comments;
  }

  /** The positions of the feedback comments, in increasing order. */
  function FeedbackIndices(cs: seq<Comment>): (idx: seq<nat>)
    ensures forall j :: 0 <= j < |idx| ==> idx[j] < |cs|
  {
    if cs == [] then []
    else FeedbackIndices(cs[..|cs| - 1]) + (if IsFeedback(cs[|cs| - 1]) then [|cs| - 1] else [])
  }

  /**
   * The feedback is a subsequence of the comment bodies: it holds the bodies at
   * strictly increasing positions, those are exactly the feedback comments, and
   * no other comment is kept.
   */
  lemma {:induction false} FeedbackIsSubsequence(cs: seq<Comment>)
    ensures |FeedbackIndices(cs)| == |FeedbackOf(cs)|
    ensures forall j :: 0 <= j < |FeedbackOf(cs)| ==>
      IsFeedback(cs[FeedbackIndices(cs)[j]]) && FeedbackOf(cs)[j] == cs[FeedbackIndices(cs)[j]].body.value
    ensures forall j, k :: 0 <= j < k < |FeedbackIndices(cs)| ==> FeedbackIndices(cs)[j] < FeedbackIndices(cs)[k]
    ensures forall t :: 0 <= t < |cs| && IsFeedback(cs[t]) ==> t in FeedbackIndices(cs)
  {
    if cs != [] {
      var init := cs[..|cs| - 1];
      FeedbackIsSubsequence(init);
      forall t | 0 <= t < |init| ensures init[t] == cs[t] { }
    }
  }

  /** Numbered feedback lines `"<i>. <comment>\n"`, counting from 1. */
  function NumberedLines(fs: seq<string>): (r: string)
  {
    if fs == [] then []
    else NumberedLines(fs[..|fs| - 1]) + NatToString(|fs|) + ". " + fs[|fs| - 1] + "\n"
  }

  /** What `formatFeedback` produces. */
  function FeedbackText(fs: seq<string>): string
  {
    if fs == [] then "No specific feedback provided." else NumberedLines(fs)
  }

  /** `formatFeedback`: writes one numbered line per comment. */
  method FormatFeedback(feedback: seq<string>) returns (text: string)
    ensures text == FeedbackText(feedback)
    ensures feedback == [] ==> text == "No specific feedback provided."
  {
    if |feedback| == 0 {
      return "No specific feedback provided.";
    }
    var formatted := "";
    for i := 0 to |feedback|
      invariant formatted == NumberedLines(feedback[..i])
    {
      assert feedback[..i + 1][..i] == feedback[..i];
      formatted := formatted + NatToString(i + 1) + ". " + feedback[i] + "\n";
    }
    assert feedback[..|feedback|] == feedback;
    return formatted;
  }

  /** Every comment appears in the text on its own numbered line. */
  lemma {:induction false} EveryCommentNumbered(fs: seq<string>, i: nat)
    requires i < |fs|
    ensures Contains(FeedbackText(fs), NatToString(i + 1) + ". " + fs[i] + "\n")
  {
    var init := fs[..|fs| - 1];
    var line := NatToString(|fs|) + ". " + fs[|fs| - 1] + "\n";
    assert NumberedLines(fs) == NumberedLines(init) + line;
    if i == |fs| - 1 {
      assert At(line, line, 0);
      ContainsInside(NumberedLines(init), line, [], line);
      assert NumberedLines(init) + line + [] == NumberedLines(fs);
    } else {
      EveryCommentNumbered(init, i);
      assert init[i] == fs[i];
      ContainsInside([], NumberedLines(init), line, NatToString(i + 1) + ". " + fs[i] + "\n");
      assert [] + NumberedLines(init) + line == NumberedLines(fs);
    }
  }
}
