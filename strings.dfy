/**
 * The parts of Go's `strings` and `strconv` packages the core relies on,
 * written over `seq<char>`. Case mapping is ASCII only.
 */
module Str {
  import opened Wrappers

  // ---------------------------------------------------------------- spaces

  /** `unicode.IsSpace`, the test behind `strings.TrimSpace`. */
  predicate IsSpace(c: char)
  {
    c == ' ' || c == '\t' || c == '\n' || c == '\U{B}' || c == '\U{C}' || c == '\r'
    || c == '\U{85}' || c == '\U{A0}' || c == '\U{1680}'
    || ('\U{2000}' <= c <= '\U{200A}')
    || c == '\U{2028}' || c == '\U{2029}' || c == '\U{202F}' || c == '\U{205F}' || c == '\U{3000}'
  }

  /** The regular-expression class `\s` of Go's RE2 syntax: `[\t\n\f\r ]`. */
  predicate IsRegexSpace(c: char)
  {
    c == ' ' || c == '\t' || c == '\n' || c == '\U{C}' || c == '\r'
  }

  /** The end of the run of `\s` characters that starts at `i`. */
  function SpaceEnd(s: string, i: nat): (j: nat)
    requires i <= |s|
    ensures i <= j <= |s|
    ensures forall k :: i <= k < j ==> IsRegexSpace(s[k])
    ensures j == |s| || !IsRegexSpace(s[j])
    decreases |s| - i
  {
    if i < |s| && IsRegexSpace(s[i]) then SpaceEnd(s, i + 1) else i
  }

  lemma RegexSpaceIsSpace(c: char)
    requires IsRegexSpace(c)
    ensures IsSpace(c)
  {
  }

  predicate AllSpace(s: string)
  {
    forall i :: 0 <= i < |s| ==> IsSpace(s[i])
  }

  function TrimLeft(s: string): (r: string)
    ensures |r| <= |s| && r == s[|s| - |r|..]
    ensures r == [] || !IsSpace(r[0])
    ensures AllSpace(s[..|s| - |r|])
  {
    if s != [] && IsSpace(s[0]) then TrimLeft(s[1..]) else s
  }

  function TrimRight(s: string): (r: string)
    ensures |r| <= |s| && r == s[..|r|]
    ensures r == [] || !IsSpace(r[|r| - 1])
    ensures AllSpace(s[|r|..])
  {
    if s != [] && IsSpace(s[|s| - 1]) then TrimRight(s[..|s| - 1]) else s
  }

  /** `strings.TrimSpace`. */
  function TrimSpace(s: string): (r: string)
    ensures |r| <= |s|
    ensures r == [] || (!IsSpace(r[0]) && !IsSpace(r[|r| - 1]))
    ensures forall x :: x in r ==> x in s
  {
    var l := TrimLeft(s);
    assert forall x :: x in l ==> x in s;
    TrimRight(l)
  }

  /** A string that has no white space at either end is its own trim. */
  lemma TrimSpaceNoEdges(s: string)
    requires s == [] || (!IsSpace(s[0]) && !IsSpace(s[|s| - 1]))
    ensures TrimSpace(s) == s
  {
  }

  lemma TrimSpaceIdempotent(s: string)
    ensures TrimSpace(TrimSpace(s)) == TrimSpace(s)
  {
    TrimSpaceNoEdges(TrimSpace(s));
  }

  /** A string made only of white space trims to the empty string. */
  lemma {:induction false} TrimLeftAllSpace(s: string)
    requires AllSpace(s)
    ensures TrimLeft(s) == []
  {
    if s != [] {
      TrimLeftAllSpace(s[1..]);
    }
  }

  lemma TrimSpaceEmptyIff(s: string)
    ensures TrimSpace(s) == [] <==> AllSpace(s)
  {
    if AllSpace(s) {
      TrimLeftAllSpace(s);
    }
    if TrimSpace(s) == [] {
      var l := TrimLeft(s);
      assert AllSpace(l[0..]);
      assert l == [];
      forall i | 0 <= i < |s| ensures IsSpace(s[i]) {
        assert s[i] == s[..|s|][i];
      }
    }
  }

  // ------------------------------------------------------------ case maps

  function LowerChar(c: char): char
  {
    if 'A' <= c <= 'Z' then (c as int + 32) as char else c
  }

  function UpperChar(c: char): char
  {
    if 'a' <= c <= 'z' then (c as int - 32) as char else c
  }

  predicate IsUpper(c: char) { 'A' <= c <= 'Z' }

  /** `strings.ToLower`, ASCII letters only. */
  function Lower(s: string): (r: string)
    ensures |r| == |s|
    ensures forall i :: 0 <= i < |s| ==> r[i] == LowerChar(s[i])
  {
    seq(|s|, i requires 0 <= i < |s| => LowerChar(s[i]))
  }

  lemma LowerConcat(a: string, b: string)
    ensures Lower(a + b) == Lower(a) + Lower(b)
  {
  }

  lemma LowerIdempotent(s: string)
    ensures Lower(Lower(s)) == Lower(s)
  {
  }

  // ------------------------------------------------------------- searching

  /** `sub` occurs in `s` starting at index `i`. */
  predicate At(s: string, sub: string, i: int)
  {
    0 <= i && i + |sub| <= |s| && s[i..i + |sub|] == sub
  }

  function IndexFrom(s: string, sub: string, i: nat): (r: Option<nat>)
    requires i <= |s|
    ensures r.Some? ==> i <= r.value && At(s, sub, r.value)
    ensures r.Some? ==> forall j :: i <= j < r.value ==> !At(s, sub, j)
    ensures r.None? ==> forall j :: i <= j ==> !At(s, sub, j)
    decreases |s| - i
  {
    if i + |sub| > |s| then None
    else if s[i..i + |sub|] == sub then Some(i)
    else if i == |s| then None
    else IndexFrom(s, sub, i + 1)
  }

  /** `strings.Index`: the first occurrence of `sub`, if any. */
  function Index(s: string, sub: string): (r: Option<nat>)
    ensures r.Some? ==> At(s, sub, r.value) && forall j :: 0 <= j < r.value ==> !At(s, sub, j)
    ensures r.None? ==> forall j :: !At(s, sub, j)
  {
    IndexFrom(s, sub, 0)
  }

  function LastIndexFrom(s: string, sub: string, i: int): (r: Option<nat>)
    requires i < |s| + 1
    ensures r.Some? ==> r.value <= i && At(s, sub, r.value)
    ensures r.Some? ==> forall j :: r.value < j <= i ==> !At(s, sub, j)
    ensures r.None? ==> forall j :: j <= i ==> !At(s, sub, j)
    decreases i + 1
  {
    if i < 0 then None
    else if At(s, sub, i) then Some(i)
    else LastIndexFrom(s, sub, i - 1)
  }

  /** `strings.LastIndex`: the last occurrence of `sub`, if any. */
  function LastIndex(s: string, sub: string): (r: Option<nat>)
    ensures r.Some? ==> At(s, sub, r.value) && forall j :: r.value < j ==> !At(s, sub, j)
    ensures r.None? ==> forall j :: !At(s, sub, j)
  {
    LastIndexFrom(s, sub, |s|)
  }

  /** `strings.Contains`. */
  predicate Contains(s: string, sub: string)
  {
    Index(s, sub).Some?
  }

  lemma ContainsAt(s: string, sub: string, i: int)
    requires At(s, sub, i)
    ensures Contains(s, sub)
  {
  }

  lemma ContainsChar(s: string, c: char)
    ensures Contains(s, [c]) <==> c in s
  {
    if c in s {
      var i :| 0 <= i < |s| && s[i] == c;
      assert At(s, [c], i);
    }
    if Contains(s, [c]) {
      var i := Index(s, [c]).value;
      assert s[i..i + 1] == [c];
      assert s[i] == c;
    }
  }

  /** A text lacking one of the characters of `sub` does not contain `sub`. */
  lemma MissingCharNotContained(s: string, sub: string, c: char)
    requires c in sub && c !in s
    ensures !Contains(s, sub)
  {
    forall i | 0 <= i && i + |sub| <= |s| ensures !At(s, sub, i) {
      assert forall x :: x in s[i..i + |sub|] ==> x in s;
    }
  }

  /** An occurrence inside `b` is an occurrence inside `a + b + c`. */
  lemma ContainsInside(a: string, b: string, c: string, sub: string)
    requires Contains(b, sub)
    ensures Contains(a + b + c, sub)
  {
    var i := Index(b, sub).value;
    var x := a + b + c;
    assert x[|a| + i..|a| + i + |sub|] == sub by {
      forall k | |a| + i <= k < |a| + i + |sub| ensures x[k] == sub[k - |a| - i] {
        assert x[k] == b[k - |a|];
        assert b[i..i + |sub|][k - |a| - i] == b[k - |a|];
      }
    }
    ContainsAt(x, sub, |a| + i);
  }

  /** `strings.HasPrefix`. */
  predicate HasPrefix(s: string, p: string)
  {
    |p| <= |s| && s[..|p|] == p
  }

  predicate HasSuffix(s: string, p: string)
  {
    |p| <= |s| && s[|s| - |p|..] == p
  }

  /** A prefix of a prefix is a prefix. */
  lemma PrefixOfPrefix(s: string, p: string, q: string)
    requires HasPrefix(s, p) && HasPrefix(p, q)
    ensures HasPrefix(s, q)
  {
    assert s[..|q|] == s[..|p|][..|q|];
  }

  /** Three texts end to end: the first opens it, the last closes it, the middle one sits between. */
  lemma {:induction false} ThreeParts(a: string, b: string, c: string)
    ensures var r := a + b + c;
      && |r| == |a| + |b| + |c|
      && HasPrefix(r, a) && HasSuffix(r, c) && r[|a|..|a| + |b|] == b
      && forall sub :: Contains(b, sub) ==> Contains(r, sub)
  {
    var r := a + b + c;
    assert r[..|a|] == a && r[|r| - |c|..] == c && r[|a|..|a| + |b|] == b;
    forall sub | Contains(b, sub) ensures Contains(r, sub) {
      ContainsInside(a, b, c, sub);
    }
  }

  /** `strings.TrimSuffix`: drops `suffix` once when `s` ends with it. */
  function TrimSuffix(s: string, suffix: string): (r: string)
    ensures HasSuffix(s, suffix) ==> r + suffix == s
    ensures !HasSuffix(s, suffix) ==> r == s
  {
    if HasSuffix(s, suffix) then s[..|s| - |suffix|] else s
  }

  /** `strings.TrimPrefix`: drops `prefix` once when `s` starts with it. */
  function TrimPrefix(s: string, prefix: string): (r: string)
    ensures HasPrefix(s, prefix) ==> prefix + r == s
    ensures !HasPrefix(s, prefix) ==> r == s
  {
    if HasPrefix(s, prefix) then s[|prefix|..] else s
  }

  /** Trimming a prefix that was prepended gives back the original. */
  lemma TrimPrependedPrefix(prefix: string, s: string)
    ensures TrimPrefix(prefix + s, prefix) == s
  {
    assert (prefix + s)[..|prefix|] == prefix;
    assert (prefix + s)[|prefix|..] == s;
  }

  /** The number of bytes `c` takes in UTF-8. */
  function Utf8Width(c: char): (n: nat)
    ensures 1 <= n <= 4
    ensures n == 1 <==> c < 128 as char
  {
    if c < 128 as char then 1
    else if c < 0x800 as char then 2
    else if c < 0x1_0000 as char then 3
    else 4
  }

  /** The first byte of `c`'s UTF-8 encoding: Go's `s[0]` when `s` starts with `c`. */
  function Utf8FirstByte(c: char): (b: nat)
    ensures b < 256
    ensures c < 128 as char ==> b == c as int
    ensures c >= 128 as char ==> b >= 0xC0
  {
    var n := c as int;
    if n < 0x80 then n
    else if n < 0x800 then 0xC0 + n / 0x40
    else if n < 0x1_0000 then 0xE0 + n / 0x1000
    else 0xF0 + n / 0x4_0000
  }

  /** The last byte of `c`'s UTF-8 encoding: Go's `s[len(s)-1]` when `s` ends with `c`. */
  function Utf8LastByte(c: char): (b: nat)
    ensures b < 256
    ensures c < 128 as char ==> b == c as int
    ensures c >= 128 as char ==> 0x80 <= b < 0xC0
  {
    var n := c as int;
    if n < 0x80 then n else 0x80 + n % 0x40
  }

  /** Go's `len` of a string: its length in UTF-8 bytes. */
  function ByteLength(s: string): (n: nat)
    ensures |s| <= n <= 4 * |s|
  {
    if s == [] then 0 else Utf8Width(s[0]) + ByteLength(s[1..])
  }

  /** Text made of ASCII characters only is as long in bytes as in characters. */
  lemma {:induction false} AsciiByteLength(s: string)
    requires forall i :: 0 <= i < |s| ==> s[i] < 128 as char
    ensures ByteLength(s) == |s|
  {
    if s != [] {
      assert s[0] < 128 as char;
      AsciiByteLength(s[1..]);
    }
  }

  /** Trimming a suffix that was appended gives back the original. */
  lemma TrimAppendedSuffix(s: string, suffix: string)
    ensures TrimSuffix(s + suffix, suffix) == s
  {
    assert (s + suffix)[|s + suffix| - |suffix|..] == suffix;
    assert (s + suffix)[..|s|] == s;
  }

  // ------------------------------------------------------------- replacing

  /** `strings.ReplaceAll` for a non-empty pattern: leftmost, non-overlapping. */
  function ReplaceAll(s: string, pat: string, rep: string): string
    requires pat != []
    decreases |s|
  {
    if |s| < |pat| then s
    else if s[..|pat|] == pat then rep + ReplaceAll(s[|pat|..], pat, rep)
    else [s[0]] + ReplaceAll(s[1..], pat, rep)
  }

  /** `strings.Replace(s, pat, rep, 1)`: only the first occurrence. */
  function ReplaceFirst(s: string, pat: string, rep: string): (r: string)
    ensures Index(s, pat).None? ==> r == s
    ensures Index(s, pat).Some? ==>
      var i := Index(s, pat).value;
      r == s[..i] + rep + s[i + |pat|..]
  {
    match Index(s, pat)
    case None => s
    case Some(i) => s[..i] + rep + s[i + |pat|..]
  }

  /** Replacing a one-character pattern by one character maps each character. */
  function MapChar(s: string, c: char, d: char): (r: string)
    ensures |r| == |s|
    ensures forall i :: 0 <= i < |s| ==> r[i] == (if s[i] == c then d else s[i])
  {
    seq(|s|, i requires 0 <= i < |s| => if s[i] == c then d else s[i])
  }

  lemma {:induction false} ReplaceAllChar(s: string, c: char, d: char)
    ensures ReplaceAll(s, [c], [d]) == MapChar(s, c, d)
    decreases |s|
  {
    if |s| >= 1 {
      ReplaceAllChar(s[1..], c, d);
      assert MapChar(s, c, d) == [if s[0] == c then d else s[0]] + MapChar(s[1..], c, d);
    }
  }

  /** Replacing a one-character pattern by nothing deletes that character. */
  function DropChar(s: string, c: char): (r: string)
    ensures c !in r
    ensures |r| <= |s|
    ensures forall x :: x in r ==> x in s
  {
    if s == [] then [] else if s[0] == c then DropChar(s[1..], c) else [s[0]] + DropChar(s[1..], c)
  }

  lemma {:induction false} ReplaceAllDrop(s: string, c: char)
    ensures ReplaceAll(s, [c], []) == DropChar(s, c)
    decreases |s|
  {
    if |s| >= 1 {
      ReplaceAllDrop(s[1..], c);
    }
  }

  /** Replacing a pattern that does not occur changes nothing. */
  lemma {:induction false} ReplaceAllAbsent(s: string, pat: string, rep: string)
    requires pat != []
    requires !Contains(s, pat)
    ensures ReplaceAll(s, pat, rep) == s
    decreases |s|
  {
    if |s| >= |pat| {
      assert !At(s, pat, 0);
      assert s[..|pat|] == s[0..0 + |pat|];
      forall j ensures !At(s[1..], pat, j) {
        if At(s[1..], pat, j) {
          assert s[1..][j..j + |pat|] == s[j + 1..j + 1 + |pat|];
          assert At(s, pat, j + 1);
        }
      }
      ReplaceAllAbsent(s[1..], pat, rep);
    }
  }

  /** A prefix that lacks the pattern's first character is copied through unchanged. */
  lemma {:induction false} ReplaceAllNoStart(a: string, b: string, pat: string, rep: string)
    requires pat != [] && pat[0] !in a
    ensures ReplaceAll(a + b, pat, rep) == a + ReplaceAll(b, pat, rep)
    decreases |a|
  {
    if a != [] {
      assert (a + b)[1..] == a[1..] + b;
      if |a + b| < |pat| {
        assert ReplaceAll(b, pat, rep) == b;
      } else {
        assert a[0] in a;
        assert (a + b)[..|pat|][0] == a[0];
        assert ReplaceAll(a + b, pat, rep) == [a[0]] + ReplaceAll(a[1..] + b, pat, rep);
        ReplaceAllNoStart(a[1..], b, pat, rep);
        assert [a[0]] + (a[1..] + ReplaceAll(b, pat, rep)) == a + ReplaceAll(b, pat, rep);
      }
    } else {
      assert a + b == b;
    }
  }

  /**
   * Every placeholder between pieces free of its first character is
   * replaced, and nothing else changes.
   */
  lemma {:induction false} ReplaceAllJoin(pieces: seq<string>, pat: string, rep: string)
    requires pat != []
    requires forall k :: 0 <= k < |pieces| ==> pat[0] !in pieces[k]
    ensures ReplaceAll(Join(pieces, pat), pat, rep) == Join(pieces, rep)
    decreases |pieces|
  {
    if |pieces| == 1 {
      ReplaceAllNoStart(pieces[0], [], pat, rep);
      assert pieces[0] + [] == pieces[0];
    } else if |pieces| > 1 {
      var rest := Join(pieces[1..], pat);
      assert Join(pieces, pat) == pieces[0] + (pat + rest);
      ReplaceAllNoStart(pieces[0], pat + rest, pat, rep);
      assert (pat + rest)[..|pat|] == pat;
      assert (pat + rest)[|pat|..] == rest;
      ReplaceAllJoin(pieces[1..], pat, rep);
    }
  }

  /** `strings.Replace(…, 1)` replaces the first placeholder and leaves any later one. */
  lemma ReplaceFirstAfter(a: string, b: string, pat: string, rep: string)
    requires pat != [] && pat[0] !in a
    ensures ReplaceFirst(a + pat + b, pat, rep) == a + rep + b
  {
    var s := a + pat + b;
    assert s[|a|..|a| + |pat|] == pat;
    assert At(s, pat, |a|);
    assert forall k :: 0 <= k < |a| ==> s[k] == a[k];
    assert s[..|a|] == a;
    assert s[|a| + |pat|..] == b;
  }

  // ------------------------------------------------------ splitting, joins

  /** `strings.Split` on a one-character separator (never an empty list). */
  function Split(s: string, c: char): (r: seq<string>)
    ensures |r| >= 1
    ensures forall k :: 0 <= k < |r| ==> c !in r[k]
    decreases |s|
  {
    if c in s then
      var i := IndexOfChar(s, c);
      [s[..i]] + Split(s[i + 1..], c)
    else [s]
  }

  /** Every part of a split is made of characters of the input. */
  lemma {:induction false} SplitChars(s: string, c: char, k: nat, x: char)
    requires k < |Split(s, c)| && x in Split(s, c)[k]
    ensures x in s
    decreases |s|
  {
    if c in s {
      var i := IndexOfChar(s, c);
      if k > 0 {
        SplitChars(s[i + 1..], c, k - 1, x);
      }
    }
  }

  lemma SplitCharsAll(s: string, c: char, k: nat)
    requires k < |Split(s, c)|
    ensures forall x :: x in Split(s, c)[k] ==> x in s
  {
    forall x | x in Split(s, c)[k] {
      SplitChars(s, c, k, x);
    }
  }

  /** The first part is a prefix of the input, ended by the separator when there are more parts. */
  lemma SplitFirstPart(s: string, c: char)
    ensures var r := Split(s, c);
      |r[0]| <= |s| && r[0] == s[..|r[0]|] && (|r| > 1 ==> |r[0]| < |s| && s[|r[0]|] == c)
  {
  }

  /** The last part of a split, found the way `Split` finds it. */
  function LastPart(s: string, c: char): string
    decreases |s|
  {
    if c in s then LastPart(s[IndexOfChar(s, c) + 1..], c) else s
  }

  /** The last part is a suffix, preceded by the separator when the input holds one. */
  lemma {:induction false} LastPartSuffix(s: string, c: char)
    ensures |LastPart(s, c)| <= |s| && LastPart(s, c) == s[|s| - |LastPart(s, c)|..]
    ensures c in s ==> |LastPart(s, c)| < |s| && s[|s| - |LastPart(s, c)| - 1] == c
    decreases |s|
  {
    if c in s {
      var i := IndexOfChar(s, c);
      var t := s[i + 1..];
      LastPartSuffix(t, c);
      var r := LastPart(t, c);
      assert LastPart(s, c) == r;
      TailSuffix(s, i, t, r);
      if c in t {
        assert t[|t| - |r| - 1] == c;
      } else {
        assert r == t;
      }
    }
  }

  /** A suffix of the part after position `i` is a suffix of the whole, preceded by what preceded it there. */
  lemma TailSuffix(s: string, i: nat, t: string, r: string)
    requires i < |s| && t == s[i + 1..] && |r| <= |t| && r == t[|t| - |r|..]
    ensures r == s[|s| - |r|..]
    ensures |r| < |t| ==> s[|s| - |r| - 1] == t[|t| - |r| - 1]
    ensures |r| == |t| ==> s[|s| - |r| - 1] == s[i]
  {
  }

  lemma {:induction false} SplitLastPart(s: string, c: char)
    ensures Split(s, c)[|Split(s, c)| - 1] == LastPart(s, c)
    ensures |Split(s, c)| > 1 <==> c in s
    decreases |s|
  {
    if c in s {
      var i := IndexOfChar(s, c);
      var rest := Split(s[i + 1..], c);
      assert Split(s, c) == [s[..i]] + rest;
      SplitLastPart(s[i + 1..], c);
    }
  }

  function IndexOfChar(s: string, c: char): (i: nat)
    requires c in s
    ensures i < |s| && s[i] == c && c !in s[..i]
  {
    if s[0] == c then 0 else 1 + IndexOfChar(s[1..], c)
  }

  /** `strings.Join`. */
  function Join(parts: seq<string>, sep: string): string
  {
    if parts == [] then []
    else if |parts| == 1 then parts[0]
    else parts[0] + sep + Join(parts[1..], sep)
  }

  /** Joining one more part adds the separator and that part. */
  lemma {:induction false} JoinAppend(parts: seq<string>, sep: string, x: string)
    requires |parts| >= 1
    ensures Join(parts + [x], sep) == Join(parts, sep) + sep + x
    decreases |parts|
  {
    if |parts| > 1 {
      assert (parts + [x])[1..] == parts[1..] + [x];
      JoinAppend(parts[1..], sep, x);
    }
  }

  /** Splitting undoes joining when no part contains the separator. */
  lemma {:induction false} SplitJoin(parts: seq<string>, c: char)
    requires |parts| >= 1
    requires forall k :: 0 <= k < |parts| ==> c !in parts[k]
    ensures Split(Join(parts, [c]), c) == parts
    decreases |parts|
  {
    if |parts| > 1 {
      var s := Join(parts, [c]);
      assert s == parts[0] + [c] + Join(parts[1..], [c]);
      assert IndexOfChar(s, c) == |parts[0]| by {
        IndexOfCharAfter(parts[0], c, Join(parts[1..], [c]));
      }
      assert s[..|parts[0]|] == parts[0];
      assert s[|parts[0]| + 1..] == Join(parts[1..], [c]);
      SplitJoin(parts[1..], c);
    }
  }

  /** Joining the parts of a split with the separator gives back the input. */
  lemma {:induction false} JoinSplit(s: string, c: char)
    ensures Join(Split(s, c), [c]) == s
    decreases |s|
  {
    if c in s {
      var i := IndexOfChar(s, c);
      JoinSplit(s[i + 1..], c);
      var rest := Split(s[i + 1..], c);
      assert Split(s, c) == [s[..i]] + rest;
      assert ([s[..i]] + rest)[1..] == rest;
      assert s == s[..i] + [c] + s[i + 1..];
    }
  }

  lemma IndexOfCharAfter(a: string, c: char, b: string)
    requires c !in a
    ensures c in a + [c] + b && IndexOfChar(a + [c] + b, c) == |a|
  {
    var s := a + [c] + b;
    assert s[|a|] == c;
    assert s[..|a|] == a;
    IndexOfCharIs(s, c, |a|);
  }

  /** The first position holding `c` is the one `IndexOfChar` finds. */
  lemma {:induction false} IndexOfCharIs(s: string, c: char, k: nat)
    requires k < |s| && s[k] == c && c !in s[..k]
    ensures IndexOfChar(s, c) == k
  {
    if k > 0 {
      assert s[0] == s[..k][0];
      assert s[1..][k - 1] == c;
      assert s[1..][..k - 1] == s[1..k];
      assert forall x :: x in s[1..k] ==> x in s[..k];
      IndexOfCharIs(s[1..], c, k - 1);
    }
  }

  /** `strings.SplitN(s, sep, 2)` on a one-character separator. */
  function SplitFirst(s: string, c: char): (r: seq<string>)
    ensures 1 <= |r| <= 2
    ensures c !in r[0]
    ensures |r| == 1 <==> c !in s
    ensures |r| == 1 ==> r[0] == s
    ensures |r| == 2 ==> s == r[0] + [c] + r[1]
  {
    if c in s then
      var i := IndexOfChar(s, c);
      assert s == s[..i] + [c] + s[i + 1..];
      [s[..i], s[i + 1..]]
    else [s]
  }

  lemma {:induction false} SplitConcat(a: string, c: char, b: string)
    ensures Split(a + [c] + b, c) == Split(a, c) + Split(b, c)
    decreases |a|
  {
    var s := a + [c] + b;
    if c in a {
      var i := IndexOfChar(a, c);
      assert c in s && IndexOfChar(s, c) == i by {
        assert s[..i] == a[..i];
        IndexOfCharIs(s, c, i);
      }
      assert s[..i] == a[..i];
      assert s[i + 1..] == a[i + 1..] + [c] + b;
      SplitConcat(a[i + 1..], c, b);
      SplitStep(s, c);
      SplitStep(a, c);
    } else {
      IndexOfCharAfter(a, c, b);
      assert s[..|a|] == a;
      assert s[|a| + 1..] == b;
    }
  }

  /** One step of `Split` at the first separator. */
  lemma SplitStep(s: string, c: char)
    requires c in s
    ensures Split(s, c) == [s[..IndexOfChar(s, c)]] + Split(s[IndexOfChar(s, c) + 1..], c)
  {
  }

  lemma SplitTrailingNewline(front: string)
    ensures Split(front + "\n", '\n') == Split(front, '\n') + [[]]
  {
    SplitConcat(front, '\n', []);
    assert front + ['\n'] + [] == front + "\n";
    assert Split([], '\n') == [[]];
  }

  lemma SplitAppendedLine(front: string, line: string)
    requires '\n' !in line
    ensures Split(front + "\n" + line + "\n", '\n') == (Split(front, '\n') + [line]) + [[]]
  {
    var fl := Split(front, '\n');
    var t := front + ['\n'] + (line + "\n");
    assert t == front + "\n" + line + "\n";
    SplitLine(line);
    SplitConcat(front, '\n', line + "\n");
    assert Split(t, '\n') == fl + [line, []];
    assert fl + [line, []] == (fl + [line]) + [[]];
  }

  lemma SplitLine(line: string)
    requires '\n' !in line
    ensures Split(line + "\n", '\n') == [line, []]
  {
    IndexOfCharAfter(line, '\n', []);
    assert line + ['\n'] + [] == line + "\n";
    assert (line + "\n")[..|line|] == line;
    assert (line + "\n")[|line| + 1..] == [];
  }

  /**
   * Appending a line and its newline to a text that is empty or ends in a
   * newline adds the line before the final empty piece of the split.
   */
  lemma SplitAppendLine(text: string, line: string)
    requires text == [] || text[|text| - 1] == '\n'
    requires '\n' !in line
    ensures Split(text, '\n')[|Split(text, '\n')| - 1] == []
    ensures Split(text + line + "\n", '\n') == Split(text, '\n')[..|Split(text, '\n')| - 1] + [line, []]
  {
    if text == [] {
      assert text + line + "\n" == line + "\n";
      SplitLine(line);
      assert Split([], '\n') == [[]];
    } else {
      var front := text[..|text| - 1];
      assert text == front + "\n" by {
        assert text == text[..|text| - 1] + [text[|text| - 1]];
      }
      SplitTrailingNewline(front);
      SplitAppendedLine(front, line);
      assert text + line + "\n" == front + "\n" + line + "\n";
      assert Split(text, '\n')[..|Split(text, '\n')| - 1] == Split(front, '\n');
    }
  }

  /** A left fold of `step` over the lines of a text, first line first. */
  function FoldLines<S>(step: (S, string) -> S, s0: S, lines: seq<string>): S
  {
    if lines == [] then s0 else step(FoldLines(step, s0, lines[..|lines| - 1]), lines[|lines| - 1])
  }

  lemma FoldLinesPrefix<S>(step: (S, string) -> S, s0: S, lines: seq<string>, i: nat)
    requires i < |lines|
    ensures FoldLines(step, s0, lines[..i + 1]) == step(FoldLines(step, s0, lines[..i]), lines[i])
  {
    assert lines[..i + 1][..i] == lines[..i];
  }

  /**
   * When blank lines change nothing, appending a line to a text that is empty
   * or newline-terminated applies one more step for that line.
   */
  lemma FoldAppendLine<S>(step: (S, string) -> S, s0: S, text: string, line: string)
    requires text == [] || text[|text| - 1] == '\n'
    requires '\n' !in line
    requires forall x :: step(x, []) == x
    ensures FoldLines(step, s0, Split(text + line + "\n", '\n')) == step(FoldLines(step, s0, Split(text, '\n')), line)
  {
    SplitAppendLine(text, line);
    var l := Split(text, '\n');
    var front := l[..|l| - 1];
    assert l == front + [[]];
    FoldBlankLine(step, s0, front, line);
  }

  /** With blank lines changing nothing, a line slipped in before a final blank one is one more step. */
  lemma FoldBlankLine<S>(step: (S, string) -> S, s0: S, front: seq<string>, line: string)
    requires forall x :: step(x, []) == x
    ensures FoldLines(step, s0, front + [line, []]) == step(FoldLines(step, s0, front + [[]]), line)
  {
    var withLine := front + [line];
    var after := withLine + [[]];
    assert front + [line, []] == after;
    FoldLast(step, s0, after);
    assert after[..|after| - 1] == withLine;
    FoldLast(step, s0, withLine);
    assert withLine[..|withLine| - 1] == front;
    FoldLast(step, s0, front + [[]]);
    assert (front + [[]])[..|front|] == front;
  }

  lemma FoldLast<S>(step: (S, string) -> S, s0: S, lines: seq<string>)
    requires lines != []
    ensures FoldLines(step, s0, lines) == step(FoldLines(step, s0, lines[..|lines| - 1]), lines[|lines| - 1])
  {
  }

  // --------------------------------------------------------------- numbers

  predicate IsDigit(c: char) { '0' <= c <= '9' }

  predicate AllDigits(s: string)
  {
    forall i :: 0 <= i < |s| ==> IsDigit(s[i])
  }

  /** Only a sign or digits occur in a decimal rendering. */
  lemma IntToStringChars(n: int, x: char)
    requires x in IntToString(n)
    ensures IsDigit(x) || x == '-'
  {
    var s := IntToString(n);
    var i :| 0 <= i < |s| && s[i] == x;
    if n < 0 && i > 0 {
      assert s[1..][i - 1] == x;
    }
  }

  function DigitChar(d: nat): (c: char)
    requires d < 10
    ensures IsDigit(c)
  {
    ('0' as int + d) as char
  }

  function DigitValue(c: char): (d: nat)
    requires IsDigit(c)
    ensures d < 10 && DigitChar(d) == c
  {
    (c as int - '0' as int)
  }

  /** Decimal rendering of a natural number, as `%d` prints it. */
  function NatToString(n: nat): (r: string)
    ensures r != [] && AllDigits(r)
    ensures |r| > 1 ==> r[0] != '0'
  {
    if n < 10 then [DigitChar(n)] else NatToString(n / 10) + [DigitChar(n % 10)]
  }

  /** `strconv.Itoa` / `fmt.Sprintf("%d", n)`. */
  function IntToString(n: int): (r: string)
    ensures r != []
    ensures n >= 0 ==> AllDigits(r)
    ensures n < 0 ==> r[0] == '-' && AllDigits(r[1..])
  {
    if n < 0 then "-" + NatToString(-n) else NatToString(n)
  }

  function DigitsValue(s: string): nat
    requires AllDigits(s)
  {
    if s == [] then 0 else 10 * DigitsValue(s[..|s| - 1]) + DigitValue(s[|s| - 1])
  }

  lemma {:induction false} DigitsValueOfNat(n: nat)
    ensures DigitsValue(NatToString(n)) == n
  {
    var s := NatToString(n);
    if n >= 10 {
      DigitsValueOfNat(n / 10);
      assert s[..|s| - 1] == NatToString(n / 10);
    }
  }

  /**
   * `strconv.Atoi`: an optional sign followed by at least one decimal digit.
   * Go also rejects values outside 64 bits; integers here are unbounded.
   */
  function Atoi(s: string): (r: Option<int>)
    ensures r.Some? ==> s != []
  {
    if s != [] && (s[0] == '+' || s[0] == '-') then
      if |s| > 1 && AllDigits(s[1..]) then
        var v: int := DigitsValue(s[1..]);
        Some(if s[0] == '-' then -v else v)
      else None
    else if s != [] && AllDigits(s) then Some(DigitsValue(s))
    else None
  }

  /** Parsing the decimal rendering of a number gives the number back. */
  lemma AtoiIntToString(n: int)
    ensures Atoi(IntToString(n)) == Some(n)
  {
    var s := IntToString(n);
    if n < 0 {
      assert s[1..] == NatToString(-n);
      DigitsValueOfNat(-n);
      assert |s| > 1 && s[0] == '-' && AllDigits(s[1..]);
    } else {
      DigitsValueOfNat(n);
      assert s[0] != '+' && s[0] != '-' by {
        assert IsDigit(s[0]);
      }
    }
  }

  lemma IntToStringInjective(m: int, n: int)
    requires IntToString(m) == IntToString(n)
    ensures m == n
  {
    AtoiIntToString(m);
    AtoiIntToString(n);
  }
}
