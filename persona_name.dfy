/**
 * Persona names with an optional alias: "Alias (Real Name)", "Real Name aka
 * Alias" or a bare name, and the keys, descriptions and directory names derived
 * from them.
 */
module PersonaNames {
  import opened Wrappers
  import opened Str

  datatype PersonaName = PersonaName(primaryName: string, realName: string, fullName: string)
  {
    predicate HasAlias() { primaryName != realName }
  }

  // ------------------------------------------------ the two name patterns

  /**
   * The regular expression `^([^(]+)\s*\(([^)]+)\)\s*$`: the first group runs up
   * to the first `(`, the second up to the first `)` after it, and only `\s` may
   * follow. Character classes match newlines.
   */
  function AliasMatch(s: string): (r: Option<(string, string)>)
    ensures r.Some? ==> '(' !in r.value.0 && ')' !in r.value.1 && r.value.0 != [] && r.value.1 != []
  {
    if '(' !in s then None
    else
      var p := IndexOfChar(s, '(');
      var after := s[p + 1..];
      if p == 0 || ')' !in after then None
      else
        var q := IndexOfChar(after, ')');
        if q == 0 then None
        else if forall k :: q + 1 <= k < |after| ==> IsRegexSpace(after[k]) then Some((s[..p], after[..q]))
        else None
  }

  /**
   * The part of `^(.+?)\s+aka\s+(.+)$` after a first group `s[..i]`: the groups
   * of spaces are greedy and `.` does not match a newline. Gives the start of
   * the second group.
   */
  function AkaAt(s: string, i: nat): (r: Option<nat>)
    requires i <= |s|
    ensures r.Some? ==> i < r.value < |s|
  {
    var j := SpaceEnd(s, i);
    if j == i || !At(s, "aka", j) || j + 3 == |s| || !IsRegexSpace(s[j + 3]) then None
    else
      var k := SpaceEnd(s, j + 3);
      if k < |s| then
        if '\n' in s[k..] then None else Some(k)
      else if |s| - (j + 3) >= 2 && s[|s| - 1] != '\n' then Some(|s| - 1)
      else None
  }

  /** The lazy first group: the shortest newline-free prefix, from length `i` on, that lets the rest match. */
  function AkaSearch(s: string, i: nat): (r: Option<(nat, nat)>)
    requires 1 <= i <= |s|
    ensures r.Some? ==> i <= r.value.0 < r.value.1 < |s| && AkaAt(s, r.value.0) == Some(r.value.1)
    ensures r.Some? ==> forall t :: i <= t < r.value.0 ==> AkaAt(s, t).None?
    decreases |s| - i
  {
    if s[i - 1] == '\n' then None
    else if AkaAt(s, i).Some? then Some((i, AkaAt(s, i).value))
    else if i == |s| then None
    else AkaSearch(s, i + 1)
  }

  function AkaMatch(s: string): (r: Option<(string, string)>)
  {
    if s == [] then None
    else match AkaSearch(s, 1)
      case None => None
      case Some((i, k)) => Some((s[..i], s[k..]))
  }

  /** `ParsePersonaName`: the alias pattern first, then the "aka" pattern, else a bare name. */
  function ParsePersonaName(input: string): (r: Result<PersonaName>)
    ensures r.Err? <==> AllSpace(input)
    ensures r.Err? ==> r.error == "empty name"
  {
    var s := TrimSpace(input);
    TrimSpaceEmptyIff(input);
    if s == [] then Err("empty name")
    else match AliasMatch(s)
      case Some((a, b)) => Ok(PersonaName(TrimSpace(a), TrimSpace(b), s))
      case None =>
        match AkaMatch(s)
        case Some((rn, alias)) =>
          Ok(PersonaName(TrimSpace(alias), TrimSpace(rn), TrimSpace(alias) + " (" + TrimSpace(rn) + ")"))
        case None => Ok(PersonaName(s, s, s))
  }

  /** A name that is its own trim, with no `(`, is not an alias form. */
  predicate Plain(x: string)
  {
    x != [] && TrimSpace(x) == x && '(' !in x && ')' !in x && '\n' !in x
  }

  /** "A (B)" parses to primary A and real B, the full name being the input. */
  lemma AliasForm(a: string, b: string)
    requires a != [] && '(' !in a && b != [] && ')' !in b
    requires TrimSpace(a + "(" + b + ")") == a + "(" + b + ")"
    ensures ParsePersonaName(a + "(" + b + ")") == Ok(PersonaName(TrimSpace(a), TrimSpace(b), a + "(" + b + ")"))
  {
    var s := a + "(" + b + ")";
    TrimSpaceIdempotent(s);
    IndexOfCharAfter(a, '(', b + ")");
    assert s == a + ['('] + (b + ")");
    var after := s[|a| + 1..];
    assert after == b + ")";
    IndexOfCharAfter(b, ')', []);
    assert b + [')'] + [] == after;
    assert s[..|a|] == a;
    assert after[..|b|] == b;
    assert AliasMatch(s) == Some((a, b));
  }

  /** No `(` means the alias pattern does not apply. */
  lemma NoAliasWithoutParen(s: string)
    requires '(' !in s
    ensures AliasMatch(s) == None
  {
  }

  /** In `r + " aka " + al`, no first group shorter than `r` lets the rest match. */
  lemma AkaShorter(r: string, al: string, t: nat)
    requires Plain(r) && !Contains(r, "aka") && 1 <= t < |r|
    ensures AkaAt(r + " aka " + al, t).None?
  {
    var s := r + " aka " + al;
    var j := SpaceEnd(s, t);
    TrimSpaceNoEdgesOnly(r);
    NotSpaceNotRegexSpace(r[|r| - 1]);
    assert s[|r| - 1] == r[|r| - 1];
    assert j < |r|;
    assert s[|r|] == ' ';
    assert j + 3 > |r| ==> s[j..j + 3][|r| - j] == ' ';
    if At(s, "aka", j) {
      assert j + 3 <= |r|;
      assert r[j..j + 3] == s[j..j + 3];
      ContainsAt(r, "aka", j);
    }
  }

  lemma NotSpaceNotRegexSpace(c: char)
    requires !IsSpace(c)
    ensures !IsRegexSpace(c)
  {
  }

  /** A non-empty string that is its own trim has non-space ends. */
  lemma TrimSpaceNoEdgesOnly(x: string)
    requires x != [] && TrimSpace(x) == x
    ensures !IsSpace(x[0]) && !IsSpace(x[|x| - 1])
  {
  }

  /** At the length of `r`, the aka pattern matches with `al` as the second group. */
  lemma AkaAtEnd(r: string, al: string)
    requires Plain(r) && Plain(al)
    ensures AkaAt(r + " aka " + al, |r|) == Some(|r| + 5)
  {
    var s := r + " aka " + al;
    assert s[|r|] == ' ' && s[|r| + 1..|r| + 4] == "aka" && s[|r| + 4] == ' ';
    TrimSpaceNoEdgesOnly(al);
    assert s[|r| + 5] == al[0];
    NotSpaceNotRegexSpace(al[0]);
    assert SpaceEnd(s, |r| + 1) == |r| + 1;
    assert SpaceEnd(s, |r|) == |r| + 1;
    assert SpaceEnd(s, |r| + 5) == |r| + 5;
    assert SpaceEnd(s, |r| + 4) == |r| + 5;
    assert s[|r| + 5..] == al;
  }

  /** The lazy search settles on the whole of `r`. */
  lemma AkaSearchFinds(r: string, al: string, i: nat)
    requires Plain(r) && Plain(al) && !Contains(r, "aka") && 1 <= i <= |r|
    ensures AkaSearch(r + " aka " + al, i) == Some((|r|, |r| + 5))
    decreases |r| - i
  {
    var s := r + " aka " + al;
    assert s[i - 1] == r[i - 1];
    assert s[i - 1] != '\n';
    if i < |r| {
      AkaShorter(r, al, i);
      assert AkaSearch(s, i) == AkaSearch(s, i + 1);
      AkaSearchFinds(r, al, i + 1);
    } else {
      AkaAtEnd(r, al);
    }
  }

  /** A trimmed name followed by one space trims back to the name. */
  lemma TrimTrailingSpace(x: string)
    requires x != [] && TrimSpace(x) == x
    ensures TrimSpace(x + " ") == x
  {
    TrimSpaceNoEdgesOnly(x);
    var y := x + " ";
    assert TrimLeft(y) == y;
    assert TrimRight(y) == TrimRight(x);
  }

  /**
   * "R aka A" gives primary A, real R and full name "A (R)", the same fields as
   * "A (R)" itself: "Jimmy Donaldson aka MrBeast" and "MrBeast (Jimmy Donaldson)"
   * are one persona.
   */
  lemma AkaSameAsAlias(r: string, al: string)
    requires Plain(r) && Plain(al) && !Contains(r, "aka")
    ensures ParsePersonaName(r + " aka " + al) == Ok(PersonaName(al, r, al + " (" + r + ")"))
    ensures ParsePersonaName(al + " (" + r + ")") == Ok(PersonaName(al, r, al + " (" + r + ")"))
  {
    AkaForm(r, al);
    AliasOfAka(r, al);
  }

  lemma AkaForm(r: string, al: string)
    requires Plain(r) && Plain(al) && !Contains(r, "aka")
    ensures ParsePersonaName(r + " aka " + al) == Ok(PersonaName(al, r, al + " (" + r + ")"))
  {
    var s := r + " aka " + al;
    TrimSpaceNoEdgesOnly(r);
    TrimSpaceNoEdgesOnly(al);
    assert s[0] == r[0] && s[|s| - 1] == al[|al| - 1];
    TrimSpaceNoEdges(s);
    assert s != [];
    assert '(' !in s;
    NoAliasWithoutParen(s);
    AkaSearchFinds(r, al, 1);
    assert s[..|r|] == r && s[|r| + 5..] == al;
    assert AkaMatch(s) == Some((r, al));
  }

  lemma AliasOfAka(r: string, al: string)
    requires Plain(r) && Plain(al)
    ensures ParsePersonaName(al + " (" + r + ")") == Ok(PersonaName(al, r, al + " (" + r + ")"))
  {
    var t := al + " (" + r + ")";
    var a := al + " ";
    assert t == a + "(" + r + ")";
    assert '(' !in a;
    TrimSpaceNoEdgesOnly(al);
    assert t[0] == al[0] && t[|t| - 1] == ')';
    TrimSpaceNoEdges(t);
    AliasForm(a, r);
    TrimTrailingSpace(al);
  }

  /** The example of the two spellings of one persona. */
  lemma MrBeast(r: string, al: string)
    requires r == "Jimmy Donaldson" && al == "MrBeast"
    ensures ParsePersonaName(r + " aka " + al) == ParsePersonaName(al + " (" + r + ")")
    ensures ParsePersonaName(al + " (" + r + ")").Ok?
    ensures GetTrackingKey(ParsePersonaName(al + " (" + r + ")").value) == al + "|" + r
  {
    ExampleNames(r, al);
    AkaSameAsAlias(r, al);
  }

  lemma ExampleNames(r: string, al: string)
    requires r == "Jimmy Donaldson" && al == "MrBeast"
    ensures Plain(r) && Plain(al) && !Contains(r, "aka")
  {
    ExampleReal(r);
    ExampleAlias(al);
  }

  lemma ExampleReal(r: string)
    requires r == "Jimmy Donaldson"
    ensures Plain(r) && !Contains(r, "aka")
  {
    ExampleRealPlain(r);
    ExampleRealNoAka(r);
  }

  lemma ExampleRealPlain(r: string)
    requires r == "Jimmy Donaldson"
    ensures Plain(r)
  {
    assert Lettered(r);
    LetteredPlain(r);
  }

  lemma ExampleRealNoAka(r: string)
    requires r == "Jimmy Donaldson"
    ensures !Contains(r, "aka")
  {
    forall j ensures !At(r, "aka", j) {
      if 0 <= j <= |r| - 3 {
        assert r[j..j + 3][0] == r[j] && r[j..j + 3][1] == r[j + 1];
      }
    }
  }

  lemma ExampleAlias(al: string)
    requires al == "MrBeast"
    ensures Plain(al)
  {
    assert Lettered(al);
    LetteredPlain(al);
  }

  /** Letters and inner spaces only, with a letter at each end. */
  predicate Lettered(x: string)
  {
    && x != []
    && (forall i :: 0 <= i < |x| ==> 'A' <= x[i] <= 'Z' || 'a' <= x[i] <= 'z' || x[i] == ' ')
    && x[0] != ' ' && x[|x| - 1] != ' '
  }

  lemma LetteredPlain(x: string)
    requires Lettered(x)
    ensures Plain(x)
  {
    TrimSpaceNoEdges(x);
  }

  /** A bare name: no `(` and no "aka" separator. */
  lemma BareName(s: string)
    requires s != [] && TrimSpace(s) == s && '(' !in s && AkaMatch(s).None?
    ensures ParsePersonaName(s) == Ok(PersonaName(s, s, s))
    ensures !ParsePersonaName(s).value.HasAlias() && GetTrackingKey(ParsePersonaName(s).value) == s
  {
    NoAliasWithoutParen(s);
    TrimSpaceEmptyIff(s);
  }

  // ----------------------------------------------------- derived strings

  /** `GetTrackingKey`. */
  function GetTrackingKey(pn: PersonaName): (key: string)
    ensures pn.HasAlias() ==> key == pn.primaryName + "|" + pn.realName
    ensures !pn.HasAlias() ==> key == pn.primaryName
  {
    if pn.HasAlias() then pn.primaryName + "|" + pn.realName else pn.primaryName
  }

  /** Reading the key back up to its first `|` recovers the primary name. */
  lemma TrackingKeyPrimary(pn: PersonaName)
    requires '|' !in pn.primaryName
    ensures SplitFirst(GetTrackingKey(pn), '|')[0] == pn.primaryName
    ensures |SplitFirst(GetTrackingKey(pn), '|')| == 2 <==> pn.HasAlias()
  {
    if pn.HasAlias() {
      var key := GetTrackingKey(pn);
      assert key == pn.primaryName + ['|'] + pn.realName;
      IndexOfCharAfter(pn.primaryName, '|', pn.realName);
    }
  }

  /** `GetPromptDescription`: the primary name, with the real name added for an alias. */
  function GetPromptDescription(pn: PersonaName): (r: string)
    ensures r == pn.primaryName <==> !pn.HasAlias()
    ensures HasPrefix(r, pn.primaryName)
  {
    if pn.HasAlias() then pn.primaryName + " (also known as " + pn.realName + ")" else pn.primaryName
  }

  /** The characters the directory replacer turns into `_`. */
  predicate DirUnderscored(c: char)
  {
    c in {' ', '/', '\\', ':', '*', '?', '"', '<', '>', '|', '.', ','}
  }

  /** The characters the directory replacer deletes. */
  predicate DirDropped(c: char)
  {
    c in {'\'', '`', '(', ')'}
  }

  function DirChar(c: char): (r: string)
  {
    if DirUnderscored(c) then "_" else if DirDropped(c) then [] else [c]
  }

  /** The replacer of `GetDirectoryName`, applied character by character. */
  function ReplaceDirChars(s: string): string
  {
    if s == [] then [] else DirChar(s[0]) + ReplaceDirChars(s[1..])
  }

  lemma {:induction false} ReplaceDirCharsClean(s: string, x: char)
    requires x in ReplaceDirChars(s)
    ensures !DirUnderscored(x) && !DirDropped(x)
    ensures x == '_' || x in s
  {
    if s != [] {
      if x !in DirChar(s[0]) {
        ReplaceDirCharsClean(s[1..], x);
      }
    }
  }

  lemma {:induction false} ReplaceDirCharsLength(s: string)
    ensures |ReplaceDirChars(s)| <= |s|
  {
    if s != [] {
      ReplaceDirCharsLength(s[1..]);
    }
  }

  /** `GetDirectoryName`: the lowercased primary name with the path-unsafe characters replaced or removed. */
  function GetDirectoryName(pn: PersonaName): (r: string)
    ensures |r| <= |pn.primaryName|
    ensures forall x :: x in r ==> !DirUnderscored(x) && !DirDropped(x) && !IsUpper(x)
  {
    var lower := Lower(pn.primaryName);
    var r := ReplaceDirChars(lower);
    ReplaceDirCharsLength(lower);
    forall x | x in r ensures !DirUnderscored(x) && !DirDropped(x) && !IsUpper(x) {
      ReplaceDirCharsClean(lower, x);
    }
    r
  }

  /** The replacer turns a string with none of its characters into itself. */
  lemma {:induction false} ReplaceDirCharsIdentity(s: string)
    requires forall x :: x in s ==> !DirUnderscored(x) && !DirDropped(x)
    ensures ReplaceDirChars(s) == s
  {
    if s != [] {
      assert s[0] in s;
      assert forall x :: x in s[1..] ==> x in s;
      ReplaceDirCharsIdentity(s[1..]);
    }
  }

  /** The search variations before lowercasing. */
  function BaseVariations(pn: PersonaName): (r: seq<string>)
    ensures |r| == if pn.HasAlias() then 4 else 1
    ensures r[0] == pn.primaryName
  {
    if pn.HasAlias() then
      [pn.primaryName, pn.realName, pn.primaryName + " (" + pn.realName + ")", pn.realName + " aka " + pn.primaryName]
    else [pn.primaryName]
  }

  function LowerAll(vs: seq<string>): (r: seq<string>)
    ensures |r| == |vs| && forall i :: 0 <= i < |vs| ==> r[i] == Lower(vs[i])
  {
    seq(|vs|, i requires 0 <= i < |vs| => Lower(vs[i]))
  }

  /** The names a duplicate check tries: the base variations, then their lowercase forms. */
  function SearchVariations(pn: PersonaName): (r: seq<string>)
    ensures |r| == if pn.HasAlias() then 8 else 2
    ensures r[0] == pn.primaryName
    ensures r[..|r| / 2] == BaseVariations(pn)
    ensures forall i :: 0 <= i < |r| / 2 ==> r[|r| / 2 + i] == Lower(r[i])
  {
    BaseVariations(pn) + LowerAll(BaseVariations(pn))
  }

  /** `GetSearchVariations`, which appends the lowercase forms in a loop. */
  method GetSearchVariations(pn: PersonaName) returns (variations: seq<string>)
    ensures variations == SearchVariations(pn)
  {
    variations := [pn.primaryName];
    if pn.HasAlias() {
      variations := variations + [pn.realName];
      variations := variations + [pn.primaryName + " (" + pn.realName + ")"];
      variations := variations + [pn.realName + " aka " + pn.primaryName];
    }
    var lowercaseVars: seq<string> := [];
    for i := 0 to |variations|
      invariant |lowercaseVars| == i
      invariant forall k :: 0 <= k < i ==> lowercaseVars[k] == Lower(variations[k])
    {
      lowercaseVars := lowercaseVars + [Lower(variations[i])];
    }
    variations := variations + lowercaseVars;
  }
}
