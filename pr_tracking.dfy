/**
 * The ledger of prompt-generation pull requests: one record per persona,
 * kept in a tab-separated text file that every operation reads back and
 * rewrites. It stops the prompt pipeline from opening a second pull request
 * while one for the same content is still open.
 */
module PrTracking {
  import opened Wrappers
  import opened Str

  datatype PrRecord = PrRecord(
    personaName: string,
    prNumber: int,
    prUrl: string,
    createdAt: int,
    synthesizedHash: string)

  /** The optional `GetPRStatus` capability of the GitHub client. A query yields `None` when it fails. */
  datatype StatusClient = WithoutStatus | WithStatus(status: int -> Option<string>)

  /** The GitHub client reports the pull request as closed or merged. */
  /** A record created at or after `cutoff`, which `CleanupOldRecords` keeps. */
  predicate Recent(r: PrRecord, cutoff: int)
  {
    r.createdAt >= cutoff
  }

  predicate Finished(r: PrRecord, client: StatusClient)
  {
    client.WithStatus? && (client.status(r.prNumber) == Some("closed") || client.status(r.prNumber) == Some("merged"))
  }

  // ------------------------------------------------------------- content hash

  /**
   * `GetContentHash` as written: the decimal length in bytes, then the first
   * and the last byte, each printed by `%c` as the character of that code.
   */
  function GetContentHash(content: string): (h: string)
    ensures h == "empty" <==> content == []
  {
    if content == [] then "empty"
    else
      var h := IntToString(ByteLength(content)) + "-" + EdgeBytes(content);
      assert h[0] == IntToString(ByteLength(content))[0];
      h
  }

  /** The first and the last byte as characters, joined by `-`. */
  function EdgeBytes(content: string): string
    requires content != []
  {
    [Utf8FirstByte(content[0]) as char] + "-" + [Utf8LastByte(content[|content| - 1]) as char]
  }

  /** Two contents of different lengths in bytes never share a hash. */
  lemma GetContentHashLengths(a: string, b: string)
    requires ByteLength(a) != ByteLength(b)
    ensures GetContentHash(a) != GetContentHash(b)
  {
    if a != [] && b != [] && GetContentHash(a) == GetContentHash(b) {
      HashPrefix(ByteLength(a), EdgeBytes(a), ByteLength(b), EdgeBytes(b));
    }
  }

  /** A decimal length followed by `-` determines the length. */
  lemma HashPrefix(m: nat, x: string, n: nat, y: string)
    requires IntToString(m) + "-" + x == IntToString(n) + "-" + y
    ensures m == n && x == y
  {
    var p, q := IntToString(m), IntToString(n);
    var s := p + "-" + x;
    assert s[|p|] == '-';
    assert (q + "-" + y)[|q|] == '-';
    assert forall i :: 0 <= i < |p| ==> s[i] == p[i];
    assert forall i :: 0 <= i < |q| ==> s[i] == q[i];
    assert |p| == |q|;
    assert p == s[..|p|] == q;
    IntToStringInjective(m, n);
    assert s[|p| + 1..] == x;
    assert (q + "-" + y)[|q| + 1..] == y;
  }

  /**
   * The content hash with the two edge bytes written as decimal codes, so that
   * it holds no tab, newline or trailing white space and survives the records
   * file (see `HashLostOnReload` for the hash as written).
   */
  function ContentHash(content: string): (h: string)
    ensures h == "empty" <==> content == []
    ensures PlainField(h) && h != [] && !IsSpace(h[|h| - 1])
  {
    if content == [] then "empty"
    else
      var h := IntToString(ByteLength(content)) + "-" + ByteCodes(content);
      NumericParts(IntToString(ByteLength(content)), IntToString(Utf8FirstByte(content[0])),
                   IntToString(Utf8LastByte(content[|content| - 1])));
      assert h[0] == IntToString(ByteLength(content))[0];
      h
  }

  /** The codes of the first and the last byte, joined by `-`. */
  function ByteCodes(content: string): string
    requires content != []
  {
    IntToString(Utf8FirstByte(content[0])) + "-" + IntToString(Utf8LastByte(content[|content| - 1]))
  }

  lemma NumericParts(a: string, b: string, c: string)
    requires a != [] && AllDigits(a) && b != [] && AllDigits(b) && c != [] && AllDigits(c)
    ensures PlainField(a + "-" + (b + "-" + c))
    ensures IsDigit((a + "-" + (b + "-" + c))[|a + "-" + (b + "-" + c)| - 1])
  {
    var h := a + "-" + (b + "-" + c);
    forall i | 0 <= i < |h| ensures h[i] != '\t' && h[i] != '\n' {
      if i < |a| {
        assert h[i] == a[i];
      } else if i == |a| || i == |a| + 1 + |b| {
        assert h[i] == '-';
      } else if i < |a| + 1 + |b| {
        assert h[i] == b[i - |a| - 1];
      } else {
        assert h[i] == c[i - |a| - |b| - 2];
      }
    }
    assert h[|h| - 1] == c[|c| - 1];
  }

  lemma ContentHashLengths(a: string, b: string)
    requires ByteLength(a) != ByteLength(b)
    ensures ContentHash(a) != ContentHash(b)
  {
    if a != [] && b != [] && ContentHash(a) == ContentHash(b) {
      HashPrefix(ByteLength(a), ByteCodes(a), ByteLength(b), ByteCodes(b));
    }
  }

  /** Both hashes are `"empty"` or tell the byte length and the two edge bytes. */
  predicate SameEdges(a: string, b: string)
  {
    (a == [] && b == [])
    || (a != [] && b != [] && ByteLength(a) == ByteLength(b)
        && Utf8FirstByte(a[0]) == Utf8FirstByte(b[0]) && Utf8LastByte(a[|a| - 1]) == Utf8LastByte(b[|b| - 1]))
  }

  lemma {:induction false} GetContentHashEdges(a: string, b: string)
    ensures GetContentHash(a) == GetContentHash(b) <==> SameEdges(a, b)
  {
    if a != [] && b != [] && GetContentHash(a) == GetContentHash(b) {
      HashPrefix(ByteLength(a), EdgeBytes(a), ByteLength(b), EdgeBytes(b));
      assert EdgeBytes(a)[0] == EdgeBytes(b)[0] && EdgeBytes(a)[2] == EdgeBytes(b)[2];
    }
  }

  lemma {:induction false} ContentHashEdges(a: string, b: string)
    ensures ContentHash(a) == ContentHash(b) <==> SameEdges(a, b)
  {
    if a != [] && b != [] && ContentHash(a) == ContentHash(b) {
      HashPrefix(ByteLength(a), ByteCodes(a), ByteLength(b), ByteCodes(b));
      HashPrefix(Utf8FirstByte(a[0]), IntToString(Utf8LastByte(a[|a| - 1])),
                 Utf8FirstByte(b[0]), IntToString(Utf8LastByte(b[|b| - 1])));
      IntToStringInjective(Utf8LastByte(a[|a| - 1]), Utf8LastByte(b[|b| - 1]));
    }
  }

  /**
   * The corrected hash tells two contents apart exactly when the hash as
   * written does: it changes how the hash is spelt, not what it compares.
   */
  lemma SameHashDecisions(a: string, b: string)
    ensures ContentHash(a) == ContentHash(b) <==> GetContentHash(a) == GetContentHash(b)
  {
    GetContentHashEdges(a, b);
    ContentHashEdges(a, b);
  }

  // ------------------------------------------------------------ records file

  /** A field that fits between two tabs of one line. */
  predicate PlainField(s: string)
  {
    '\t' !in s && '\n' !in s
  }

  /** A record whose line reads back as the same record. */
  predicate StorableRecord(r: PrRecord)
  {
    PlainField(r.personaName) && PlainField(r.prUrl) && PlainField(r.synthesizedHash)
    && r.personaName != [] && !IsSpace(r.personaName[0])
    && r.synthesizedHash != [] && !IsSpace(r.synthesizedHash[|r.synthesizedHash| - 1])
  }

  /** `fmt` and `parse` behave as RFC 3339 formatting and parsing of whole-second times. */
  ghost predicate TimeCodec(fmt: int -> string, parse: string -> Option<int>)
  {
    forall t :: parse(fmt(t)) == Some(t) && PlainField(fmt(t))
  }

  function RecordFields(r: PrRecord, fmt: int -> string): seq<string>
  {
    [r.personaName, IntToString(r.prNumber), r.prUrl, fmt(r.createdAt), r.synthesizedHash]
  }

  /** One line of `savePRRecords`: the five fields joined by tabs. */
  function RecordLine(r: PrRecord, fmt: int -> string): string
  {
    Join(RecordFields(r, fmt), "\t")
  }

  function RecordLines(rs: seq<PrRecord>, fmt: int -> string): (ls: seq<string>)
    ensures |ls| == |rs|
  {
    seq(|rs|, i requires 0 <= i < |rs| => RecordLine(rs[i], fmt))
  }

  /** The text `savePRRecords` writes for the records in the order `rs`. */
  function SaveText(rs: seq<PrRecord>, fmt: int -> string): string
  {
    if rs == [] then "" else Join(RecordLines(rs, fmt), "\n") + "\n"
  }

  /** One line of `loadPRRecords`: trimmed, five tab-separated fields, an integer and a time. */
  function ParseLine(line: string, parse: string -> Option<int>): Option<PrRecord>
  {
    var l := TrimSpace(line);
    if l == [] then None
    else
      var parts := Split(l, '\t');
      if |parts| != 5 then None
      else
        match (Atoi(parts[1]), parse(parts[3]))
        case (Some(n), Some(t)) => Some(PrRecord(parts[0], n, parts[2], t, parts[4]))
        case _ => None
  }

  /** The records read from `lines` in order; a later line for a name replaces an earlier one. */
  function LoadLines(lines: seq<string>, parse: string -> Option<int>): map<string, PrRecord>
  {
    if lines == [] then map[]
    else
      var m := LoadLines(lines[..|lines| - 1], parse);
      match ParseLine(lines[|lines| - 1], parse)
      case None => m
      case Some(r) => m[r.personaName := r]
  }

  /** `loadPRRecords` on the contents of the records file. */
  function LoadText(text: string, parse: string -> Option<int>): map<string, PrRecord>
  {
    LoadLines(Split(text, '\n'), parse)
  }

  /** Every record is filed under its own persona name. */
  predicate WellKeyed(m: map<string, PrRecord>)
  {
    forall k :: k in m ==> m[k].personaName == k
  }

  predicate AllStorable(m: map<string, PrRecord>)
  {
    forall k :: k in m ==> StorableRecord(m[k])
  }

  /** `rs` lists the records of `m` in some order, as ranging over a Go map does. */
  predicate Listing(rs: seq<PrRecord>, m: map<string, PrRecord>)
  {
    (forall i :: 0 <= i < |rs| ==> rs[i].personaName in m && m[rs[i].personaName] == rs[i])
    && (forall k :: k in m ==> exists i :: 0 <= i < |rs| && rs[i].personaName == k)
  }

  /** The map built by inserting the records of `rs` in order. */
  function ToMap(rs: seq<PrRecord>): map<string, PrRecord>
  {
    if rs == [] then map[] else ToMap(rs[..|rs| - 1])[rs[|rs| - 1].personaName := rs[|rs| - 1]]
  }

  /** Ranging over a map in some order, one record at a time. */
  method Enumerate(m: map<string, PrRecord>) returns (rs: seq<PrRecord>)
    requires WellKeyed(m)
    ensures Listing(rs, m)
  {
    rs := [];
    var left := m.Keys;
    while left != {}
      invariant left <= m.Keys
      invariant forall i :: 0 <= i < |rs| ==> rs[i].personaName in m && m[rs[i].personaName] == rs[i]
      invariant forall k :: k in m && k !in left ==> exists i :: 0 <= i < |rs| && rs[i].personaName == k
      decreases left
    {
      var k :| k in left;
      ghost var before := rs;
      rs := rs + [m[k]];
      assert rs[|rs| - 1].personaName == k;
      assert forall i :: 0 <= i < |before| ==> rs[i] == before[i];
      left := left - {k};
    }
  }

  lemma IntToStringPlain(n: int)
    ensures PlainField(IntToString(n))
  {
    if '\t' in IntToString(n) {
      IntToStringChars(n, '\t');
    }
    if '\n' in IntToString(n) {
      IntToStringChars(n, '\n');
    }
  }

  /** A storable record's line is a single line that parses back to the record. */
  lemma RecordLineParses(r: PrRecord, fmt: int -> string, parse: string -> Option<int>)
    requires TimeCodec(fmt, parse)
    requires StorableRecord(r)
    ensures '\n' !in RecordLine(r, fmt)
    ensures ParseLine(RecordLine(r, fmt), parse) == Some(r)
  {
    var f := RecordFields(r, fmt);
    var line := RecordLine(r, fmt);
    assert parse(fmt(r.createdAt)) == Some(r.createdAt) && PlainField(fmt(r.createdAt));
    RecordLineText(r, fmt);
    assert Split(line, '\t') == f by {
      RecordFieldsPlain(r, fmt);
      SplitJoin(f, '\t');
    }
    AtoiIntToString(r.prNumber);
  }

  /** The fields of a storable record hold no tab. */
  lemma RecordFieldsPlain(r: PrRecord, fmt: int -> string)
    requires StorableRecord(r) && PlainField(fmt(r.createdAt))
    ensures forall k :: 0 <= k < |RecordFields(r, fmt)| ==> '\t' !in RecordFields(r, fmt)[k]
  {
    IntToStringPlain(r.prNumber);
  }

  /** A storable record's line holds no newline and has no blank at either end. */
  lemma RecordLineText(r: PrRecord, fmt: int -> string)
    requires StorableRecord(r) && PlainField(fmt(r.createdAt))
    ensures '\n' !in RecordLine(r, fmt) && TrimSpace(RecordLine(r, fmt)) == RecordLine(r, fmt)
  {
    var a, b, c, d, e := r.personaName, IntToString(r.prNumber), r.prUrl, fmt(r.createdAt), r.synthesizedHash;
    IntToStringPlain(r.prNumber);
    assert RecordLine(r, fmt) == a + "\t" + b + "\t" + c + "\t" + d + "\t" + e by {
      assert RecordFields(r, fmt) == [a, b, c, d, e];
      JoinFive(a, b, c, d, e);
    }
    FiveFieldLine(a, b, c, d, e);
  }

  lemma JoinFive(a: string, b: string, c: string, d: string, e: string)
    ensures Join([a, b, c, d, e], "\t") == a + "\t" + b + "\t" + c + "\t" + d + "\t" + e
  {
    var f := [a, b, c, d, e];
    assert Join(f[3..], "\t") == d + "\t" + e;
    assert Join(f[2..], "\t") == c + "\t" + d + "\t" + e;
    assert Join(f[1..], "\t") == b + "\t" + c + "\t" + d + "\t" + e;
  }

  /** Five plain fields joined by tabs, the first starting and the last ending with a non-blank. */
  lemma FiveFieldLine(a: string, b: string, c: string, d: string, e: string)
    requires PlainField(a) && PlainField(b) && PlainField(c) && PlainField(d) && PlainField(e)
    requires a != [] && !IsSpace(a[0]) && e != [] && !IsSpace(e[|e| - 1])
    ensures var l := a + "\t" + b + "\t" + c + "\t" + d + "\t" + e;
      '\n' !in l && TrimSpace(l) == l
  {
    var l := a + "\t" + b + "\t" + c + "\t" + d + "\t" + e;
    assert '\n' !in l by {
      assert forall x :: x in l ==> x == '\t' || x in a || x in b || x in c || x in d || x in e;
    }
    assert l[0] == a[0] && l[|l| - 1] == e[|e| - 1];
    TrimSpaceNoEdges(l);
  }

  lemma {:induction false} LoadRecordLines(rs: seq<PrRecord>, fmt: int -> string, parse: string -> Option<int>)
    requires TimeCodec(fmt, parse)
    requires forall i :: 0 <= i < |rs| ==> StorableRecord(rs[i])
    ensures LoadLines(RecordLines(rs, fmt), parse) == ToMap(rs)
    decreases |rs|
  {
    if rs != [] {
      var ls := RecordLines(rs, fmt);
      var init, last := rs[..|rs| - 1], rs[|rs| - 1];
      assert ls[..|ls| - 1] == RecordLines(init, fmt);
      LoadRecordLines(init, fmt, parse);
      assert ParseLine(ls[|ls| - 1], parse) == Some(last) by {
        RecordLineParses(last, fmt, parse);
      }
      LoadLinesLast(ls, parse, last);
    }
  }

  /** A last line that parses files its record over what the earlier lines built. */
  lemma LoadLinesLast(ls: seq<string>, parse: string -> Option<int>, r: PrRecord)
    requires ls != [] && ParseLine(ls[|ls| - 1], parse) == Some(r)
    ensures LoadLines(ls, parse) == LoadLines(ls[..|ls| - 1], parse)[r.personaName := r]
  {
  }

  /** Every key of `ToMap(rs)` comes from `rs`, and its record is one of the listed ones. */
  lemma {:induction false} ToMapEntries(rs: seq<PrRecord>, k: string)
    ensures k in ToMap(rs) <==> exists i :: 0 <= i < |rs| && rs[i].personaName == k
    ensures k in ToMap(rs) ==> exists i :: 0 <= i < |rs| && rs[i].personaName == k && ToMap(rs)[k] == rs[i]
    decreases |rs|
  {
    if rs != [] {
      var init := rs[..|rs| - 1];
      ToMapEntries(init, k);
      if k != rs[|rs| - 1].personaName && k in ToMap(rs) {
        var i :| 0 <= i < |init| && init[i].personaName == k && ToMap(init)[k] == init[i];
        assert rs[i] == init[i];
      }
      if exists i :: 0 <= i < |rs| && rs[i].personaName == k {
        var i :| 0 <= i < |rs| && rs[i].personaName == k;
        if i < |init| {
          assert init[i].personaName == k;
        }
      }
    }
  }

  lemma ToMapListing(rs: seq<PrRecord>, m: map<string, PrRecord>)
    requires WellKeyed(m) && Listing(rs, m)
    ensures ToMap(rs) == m
  {
    forall k ensures k in ToMap(rs) <==> k in m {
      ToMapEntries(rs, k);
    }
    forall k | k in m ensures ToMap(rs)[k] == m[k] {
      ToMapEntries(rs, k);
    }
  }

  /** Writing a map's storable records in any order and reading the file back gives the map. */
  lemma SaveLoad(rs: seq<PrRecord>, m: map<string, PrRecord>, fmt: int -> string, parse: string -> Option<int>)
    requires TimeCodec(fmt, parse)
    requires WellKeyed(m) && AllStorable(m) && Listing(rs, m)
    ensures LoadText(SaveText(rs, fmt), parse) == m
  {
    if rs == [] {
      assert m.Keys == {};
      assert Split("", '\n') == [""];
      assert LoadLines([""], parse) == LoadLines([], parse);
    } else {
      SavedLines(rs, fmt, parse);
      LoadTrailingBlank(RecordLines(rs, fmt), parse);
      LoadRecordLines(rs, fmt, parse);
      ToMapListing(rs, m);
    }
  }

  /** The saved text splits into the record lines and one empty string after the final newline. */
  lemma SavedLines(rs: seq<PrRecord>, fmt: int -> string, parse: string -> Option<int>)
    requires TimeCodec(fmt, parse)
    requires rs != [] && forall i :: 0 <= i < |rs| ==> StorableRecord(rs[i])
    ensures Split(SaveText(rs, fmt), '\n') == RecordLines(rs, fmt) + [""]
  {
    var ls := RecordLines(rs, fmt);
    var lsb := ls + [""];
    RecordLinesSingle(rs, fmt, parse);
    assert forall k :: 0 <= k < |lsb| ==> '\n' !in lsb[k] by {
      assert forall k :: 0 <= k < |ls| ==> lsb[k] == ls[k];
    }
    JoinAppend(ls, "\n", "");
    assert SaveText(rs, fmt) == Join(lsb, "\n");
    SplitJoin(lsb, '\n');
  }

  lemma RecordLinesSingle(rs: seq<PrRecord>, fmt: int -> string, parse: string -> Option<int>)
    requires TimeCodec(fmt, parse)
    requires forall i :: 0 <= i < |rs| ==> StorableRecord(rs[i])
    ensures forall i :: 0 <= i < |rs| ==> '\n' !in RecordLines(rs, fmt)[i]
  {
    forall i | 0 <= i < |rs| ensures '\n' !in RecordLines(rs, fmt)[i] {
      RecordLineParses(rs[i], fmt, parse);
    }
  }

  /** An empty last line adds no record. */
  lemma LoadTrailingBlank(ls: seq<string>, parse: string -> Option<int>)
    ensures LoadLines(ls + [""], parse) == LoadLines(ls, parse)
  {
    var lb := ls + [""];
    assert lb[..|ls|] == ls;
    assert ParseLine(lb[|lb| - 1], parse) == None by {
      assert lb[|lb| - 1] == "";
      BlankLineSkipped(parse);
    }
    LoadLinesSkip(lb, parse);
  }

  lemma BlankLineSkipped(parse: string -> Option<int>)
    ensures ParseLine("", parse) == None
  {
  }

  /** A last line that does not parse adds nothing to what the earlier lines built. */
  lemma LoadLinesSkip(ls: seq<string>, parse: string -> Option<int>)
    requires ls != [] && ParseLine(ls[|ls| - 1], parse) == None
    ensures LoadLines(ls, parse) == LoadLines(ls[..|ls| - 1], parse)
  {
  }

  /** A parsed line is a storable record. */
  lemma ParsedStorable(line: string, parse: string -> Option<int>)
    requires '\n' !in line
    requires ParseLine(line, parse).Some?
    ensures StorableRecord(ParseLine(line, parse).value)
  {
    var l := TrimSpace(line);
    var parts := Split(l, '\t');
    assert |parts| == 5;
    var r := ParseLine(line, parse).value;
    assert r.personaName == parts[0] && r.prUrl == parts[2] && r.synthesizedHash == parts[4];
    assert '\n' !in l;
    SplitCharsAll(l, '\t', 0);
    SplitCharsAll(l, '\t', 2);
    SplitCharsAll(l, '\t', 4);
    ParsedEdges(l);
  }

  /** The first and the last field of a trimmed line keep its non-blank edges. */
  lemma ParsedEdges(l: string)
    requires l != [] && !IsSpace(l[0]) && !IsSpace(l[|l| - 1])
    requires |Split(l, '\t')| == 5
    ensures var parts := Split(l, '\t');
      parts[0] != [] && !IsSpace(parts[0][0]) && parts[4] != [] && !IsSpace(parts[4][|parts[4]| - 1])
  {
    var parts := Split(l, '\t');
    SplitFirstPart(l, '\t');
    assert parts[0] != [] by {
      assert l[|parts[0]|] == '\t';
    }
    assert parts[0][0] == l[0];
    SplitLastPart(l, '\t');
    LastPartSuffix(l, '\t');
    var last := parts[4];
    assert last == LastPart(l, '\t');
    assert last != [] by {
      assert l[|l| - |last| - 1] == '\t';
    }
    assert last[|last| - 1] == l[|l| - 1];
  }

  /** Whatever the file holds, what `loadPRRecords` builds is well keyed and storable. */
  lemma {:induction false} LoadedWellFormed(lines: seq<string>, parse: string -> Option<int>)
    requires forall i :: 0 <= i < |lines| ==> '\n' !in lines[i]
    ensures WellKeyed(LoadLines(lines, parse)) && AllStorable(LoadLines(lines, parse))
    decreases |lines|
  {
    if lines != [] {
      LoadedWellFormed(lines[..|lines| - 1], parse);
      if ParseLine(lines[|lines| - 1], parse).Some? {
        ParsedStorable(lines[|lines| - 1], parse);
      }
    }
  }

  lemma LoadTextWellFormed(text: string, parse: string -> Option<int>)
    ensures WellKeyed(LoadText(text, parse)) && AllStorable(LoadText(text, parse))
  {
    LoadedWellFormed(Split(text, '\n'), parse);
  }

  // ------------------------------------------------------------- the finding

  /**
   * As written, the hash of a content ending in a newline ends in a newline
   * itself; written to the records file it comes back without it, so the
   * reloaded record never matches the content it was made from.
   */
  lemma HashLostOnReload(r: PrRecord, content: string, fmt: int -> string, parse: string -> Option<int>)
    requires TimeCodec(fmt, parse)
    requires |content| >= 2 && content[|content| - 1] == '\n' && content[0] != '\t' && content[0] != '\n'
    requires StorableRecord(r.(synthesizedHash := "-"))
    ensures var tracked := r.(synthesizedHash := GetContentHash(content));
      var reloaded := LoadText(SaveText([tracked], fmt), parse);
      r.personaName in reloaded && reloaded[r.personaName].synthesizedHash != GetContentHash(content)
  {
    var stem := LostHashStem(content);
    var short := r.(synthesizedHash := stem);
    var tracked := r.(synthesizedHash := stem + "\n");
    assert StorableRecord(short);
    var line := RecordLine(short, fmt);
    HashedLine(short, fmt);
    assert SaveText([tracked], fmt) == line + "\n" + "\n" by {
      assert RecordLines([tracked], fmt) == [line + "\n"];
    }
    RecordLineParses(short, fmt, parse);
    LoadDoubleBlank(line, parse);
    assert LoadLines([line], parse) == map[r.personaName := short] by {
      assert [line][..0] == [];
    }
  }

  /** A newline at the end of the hash is a newline at the end of the record line. */
  lemma HashedLine(r: PrRecord, fmt: int -> string)
    ensures RecordLine(r.(synthesizedHash := r.synthesizedHash + "\n"), fmt) == RecordLine(r, fmt) + "\n"
  {
    var f := RecordFields(r, fmt);
    var g := RecordFields(r.(synthesizedHash := r.synthesizedHash + "\n"), fmt);
    assert g == f[..4] + [r.synthesizedHash + "\n"];
    assert f == f[..4] + [r.synthesizedHash];
    JoinAppend(f[..4], "\t", r.synthesizedHash + "\n");
    JoinAppend(f[..4], "\t", r.synthesizedHash);
  }

  /**
   * The hash of content ending in a line break is a plain field, ending in a
   * dash, followed by that line break.
   */
  lemma LostHashStem(content: string) returns (stem: string)
    requires |content| >= 2 && content[|content| - 1] == '\n' && content[0] != '\t' && content[0] != '\n'
    ensures GetContentHash(content) == stem + "\n"
    ensures PlainField(stem) && |stem| > 0 && stem[|stem| - 1] == '-'
  {
    var first := Utf8FirstByte(content[0]) as char;
    assert first != '\t' && first != '\n';
    stem := IntToString(ByteLength(content)) + "-" + [first] + "-";
    assert GetContentHash(content) == stem + "\n";
    IntToStringPlain(ByteLength(content));
    assert PlainField(stem) by {
      assert forall x :: x in stem ==> x in IntToString(ByteLength(content)) || x == '-' || x == first;
    }
  }

  /** Two newlines after a line read as that line and two empty ones. */
  lemma LoadDoubleBlank(line: string, parse: string -> Option<int>)
    requires '\n' !in line
    ensures LoadText(line + "\n" + "\n", parse) == LoadLines([line], parse)
  {
    var once, twice := [line] + [""], [line] + [""] + [""];
    assert LoadText(line + "\n" + "\n", parse) == LoadLines(twice, parse) by {
      DoubleBlankSplit(line);
      assert twice == [line, "", ""];
    }
    assert LoadLines(twice, parse) == LoadLines(once, parse) by {
      LoadTrailingBlank(once, parse);
    }
    LoadTrailingBlank([line], parse);
  }

  lemma DoubleBlankSplit(line: string)
    requires '\n' !in line
    ensures Split(line + "\n" + "\n", '\n') == [line, "", ""]
  {
    var ls := [line, "", ""];
    assert Join(ls, "\n") == line + "\n" + "\n" by {
      assert Join(ls[1..], "\n") == "\n";
    }
    SplitJoin(ls, '\n');
  }

  /** With the corrected hash, a tracked record reads back unchanged. */
  lemma ContentHashSurvivesReload(r: PrRecord, content: string, fmt: int -> string, parse: string -> Option<int>)
    requires TimeCodec(fmt, parse)
    requires StorableRecord(r.(synthesizedHash := "-"))
    ensures var tracked := r.(synthesizedHash := ContentHash(content));
      LoadText(SaveText([tracked], fmt), parse) == map[r.personaName := tracked]
  {
    var tracked := r.(synthesizedHash := ContentHash(content));
    var m := map[r.personaName := tracked];
    assert [tracked][0].personaName == r.personaName;
    assert Listing([tracked], m);
    SaveLoad([tracked], m, fmt, parse);
  }

  // ------------------------------------------------------------------ tracker

  class PrTracker {
    /** Contents of the records file; `None` while it does not exist. */
    var file: Option<string>
    const fmt: int -> string
    const parse: string -> Option<int>

    ghost predicate Valid()
      reads this
    {
      TimeCodec(fmt, parse)
    }

    /** The records `loadPRRecords` reads; a missing file holds none. */
    function Records(): map<string, PrRecord>
      reads this
    {
      if file.None? then map[] else LoadText(file.value, parse)
    }

    /** The file holds the records of `m`, written in some order. */
    ghost predicate Holds(m: map<string, PrRecord>)
      reads this
    {
      file.Some? && exists rs :: Listing(rs, m) && file.value == SaveText(rs, fmt)
    }

    constructor (fmt: int -> string, parse: string -> Option<int>, file: Option<string>)
      requires TimeCodec(fmt, parse)
      ensures Valid() && this.fmt == fmt && this.parse == parse && this.file == file
    {
      this.fmt := fmt;
      this.parse := parse;
      this.file := file;
    }

    lemma RecordsWellFormed()
      ensures WellKeyed(Records()) && AllStorable(Records())
    {
      if file.Some? {
        LoadTextWellFormed(file.value, parse);
      }
    }

    /** `savePRRecords`. */
    method Save(m: map<string, PrRecord>)
      requires Valid() && WellKeyed(m)
      modifies this`file
      ensures Valid() && Holds(m)
      ensures AllStorable(m) ==> Records() == m
    {
      var rs := Enumerate(m);
      file := Some(SaveText(rs, fmt));
      if AllStorable(m) {
        SaveLoad(rs, m, fmt, parse);
      }
    }

    /** `TrackPR`: insert or overwrite the record of one persona, stamped `now`. */
    method TrackPR(personaName: string, prNumber: int, prUrl: string, synthesizedHash: string, now: int)
      requires Valid()
      modifies this`file
      ensures Valid()
      ensures Holds(old(Records())[personaName := PrRecord(personaName, prNumber, prUrl, now, synthesizedHash)])
      ensures StorableRecord(PrRecord(personaName, prNumber, prUrl, now, synthesizedHash)) ==>
        Records() == old(Records())[personaName := PrRecord(personaName, prNumber, prUrl, now, synthesizedHash)]
    {
      RecordsWellFormed();
      var records := Records();
      records := records[personaName := PrRecord(personaName, prNumber, prUrl, now, synthesizedHash)];
      Save(records);
    }

    /** `RemovePR`: delete the record of one persona. */
    method RemovePR(personaName: string)
      requires Valid()
      modifies this`file
      ensures Valid() && file.Some?
      ensures Records() == old(Records()) - {personaName}
    {
      RecordsWellFormed();
      var records := Records();
      Save(records - {personaName});
    }

    /**
     * `HasPendingPR`: a record whose pull request the client reports closed or
     * merged is removed; a failed query, or a client without the status query,
     * leaves the pull request pending.
     */
    method HasPendingPR(personaName: string, client: StatusClient) returns (pending: bool, record: Option<PrRecord>)
      requires Valid()
      modifies this`file
      ensures Valid()
      ensures personaName !in old(Records()) ==> !pending && record == None && file == old(file)
      ensures personaName in old(Records()) && Finished(old(Records())[personaName], client) ==>
        !pending && record == None && Records() == old(Records()) - {personaName}
      ensures personaName in old(Records()) && !Finished(old(Records())[personaName], client) ==>
        pending && record == Some(old(Records())[personaName]) && file == old(file)
    {
      var records := Records();
      if personaName !in records {
        return false, None;
      }
      var r := records[personaName];
      var finished := false;
      if client.WithStatus? {
        var status := client.status(r.prNumber);
        finished := status == Some("closed") || status == Some("merged");
      }
      assert finished == Finished(r, client);
      if finished {
        RemovePR(personaName);
        return false, None;
      }
      return true, Some(r);
    }

    /**
     * `ShouldCreatePR`: create a pull request unless one is pending for the
     * same content; a pending one for changed content is dropped first.
     */
    method ShouldCreatePR(personaName: string, content: string, client: StatusClient) returns (create: bool, reason: string)
      requires Valid()
      modifies this`file
      ensures Valid()
      ensures personaName !in old(Records()) ==>
        create && reason == "no_pending_pr" && file == old(file)
      ensures personaName in old(Records()) && Finished(old(Records())[personaName], client) ==>
        create && reason == "no_pending_pr" && Records() == old(Records()) - {personaName}
      ensures (personaName in old(Records()) && !Finished(old(Records())[personaName], client)
               && old(Records())[personaName].synthesizedHash != ContentHash(content)) ==>
        create && reason == "content_changed" && Records() == old(Records()) - {personaName}
      ensures (personaName in old(Records()) && !Finished(old(Records())[personaName], client)
               && old(Records())[personaName].synthesizedHash == ContentHash(content)) ==>
        !create && reason == "pending_pr_" + IntToString(old(Records())[personaName].prNumber) && file == old(file)
    {
      var currentHash := ContentHash(content);
      var hasPending, record := HasPendingPR(personaName, client);
      if !hasPending {
        return true, "no_pending_pr";
      }
      if record.value.synthesizedHash != currentHash {
        RemovePR(personaName);
        return true, "content_changed";
      }
      return false, "pending_pr_" + IntToString(record.value.prNumber);
    }

    /** `CleanupOldRecords`: drop every record created before `now - maxAge`. */
    method CleanupOldRecords(maxAge: int, now: int)
      requires Valid()
      modifies this`file
      ensures Valid()
      ensures Records() == map k | k in old(Records()) && Recent(old(Records())[k], now - maxAge) :: old(Records())[k]
      ensures file == old(file) || Holds(Records())
      ensures Records() == old(Records()) ==> file == old(file)
    {
      RecordsWellFormed();
      var records := Records();
      var kept, cleaned := KeepRecent(records, now - maxAge);
      KeptWellFormed(records, kept);
      SaveIfCleaned(kept, cleaned);
    }

    /** `CleanupMergedPRs`: drop every record the client reports closed or merged. */
    method CleanupMergedPRs(client: StatusClient)
      requires Valid()
      modifies this`file
      ensures Valid()
      ensures Records() == map k | k in old(Records()) && !Finished(old(Records())[k], client) :: old(Records())[k]
      ensures file == old(file) || Holds(Records())
      ensures Records() == old(Records()) ==> file == old(file)
    {
      RecordsWellFormed();
      var records := Records();
      var kept, cleaned := KeepUnfinished(records, client);
      KeptWellFormed(records, kept);
      SaveIfCleaned(kept, cleaned);
    }

    /** The end of both clean-ups: the records are saved only when some were dropped. */
    method SaveIfCleaned(kept: map<string, PrRecord>, cleaned: bool)
      requires Valid() && WellKeyed(kept) && AllStorable(kept)
      requires cleaned <==> kept != Records()
      modifies this`file
      ensures Valid() && Records() == kept
      ensures file == old(file) || Holds(Records())
      ensures Records() == old(Records()) ==> file == old(file)
    {
      if cleaned {
        Save(kept);
      }
    }
  }

  /** The records kept from well-formed records are well-formed. */
  lemma KeptWellFormed(records: map<string, PrRecord>, kept: map<string, PrRecord>)
    requires WellKeyed(records) && AllStorable(records)
    requires forall k :: k in kept ==> k in records && kept[k] == records[k]
    ensures WellKeyed(kept) && AllStorable(kept)
  {
  }

  /** The loop of `CleanupOldRecords`: keep the records created at or after `cutoff`. */
  method KeepRecent(records: map<string, PrRecord>, cutoff: int) returns (kept: map<string, PrRecord>, cleaned: bool)
    ensures kept == map k | k in records && Recent(records[k], cutoff) :: records[k]
    ensures cleaned <==> kept != records
  {
    kept := records;
    cleaned := false;
    var left := records.Keys;
    while left != {}
      invariant left <= kept.Keys <= records.Keys
      invariant forall k :: k in kept ==> kept[k] == records[k]
      invariant forall k :: k in records && k !in left ==> (k in kept <==> Recent(records[k], cutoff))
      invariant !cleaned ==> kept == records
      invariant cleaned ==> kept.Keys != records.Keys
      decreases left
    {
      var k :| k in left;
      if !Recent(kept[k], cutoff) {
        kept := kept - {k};
        cleaned := true;
      }
      left := left - {k};
    }
  }

  /** The loop of `CleanupMergedPRs`: keep the records whose pull request is not finished. */
  method KeepUnfinished(records: map<string, PrRecord>, client: StatusClient) returns (kept: map<string, PrRecord>, cleaned: bool)
    ensures kept == map k | k in records && !Finished(records[k], client) :: records[k]
    ensures cleaned <==> kept != records
  {
    kept := records;
    cleaned := false;
    var left := records.Keys;
    while left != {}
      invariant left <= kept.Keys <= records.Keys
      invariant forall k :: k in kept ==> kept[k] == records[k]
      invariant forall k :: k in records && k !in left ==> (k in kept <==> !Finished(records[k], client))
      invariant !cleaned ==> kept == records
      invariant cleaned ==> kept.Keys != records.Keys
      decreases left
    {
      var k :| k in left;
      if client.WithStatus? {
        var status := client.status(kept[k].prNumber);
        if status.Some? && (status.value == "closed" || status.value == "merged") {
          kept := kept - {k};
          cleaned := true;
        }
      }
      left := left - {k};
    }
  }
}
