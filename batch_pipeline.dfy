/**
 * The batch pipeline: a file of persona names is read line by line, names
 * already handled or already present in the personas repository are skipped,
 * the rest are generated, and each handled name is appended to a ledger file.
 */
module Batch {
  import opened Wrappers
  import opened Str
  import opened PersonaNames

  // ------------------------------------------------------------ validation

  /**
   * `validatePersonaName`: both names between 2 and 100 bytes of UTF-8 (Go's
   * `len`); the real name only when it differs.
   */
  function ValidatePersonaName(pn: PersonaName): (err: Option<string>)
    ensures err.None? <==>
      (2 <= ByteLength(pn.primaryName) <= 100 && (pn.HasAlias() ==> 2 <= ByteLength(pn.realName) <= 100))
  {
    if ByteLength(pn.primaryName) < 2 then Some("primary name too short (minimum 2 characters)")
    else if ByteLength(pn.primaryName) > 100 then Some("primary name too long (maximum 100 characters)")
    else if pn.HasAlias() && ByteLength(pn.realName) < 2 then Some("real name too short (minimum 2 characters)")
    else if pn.HasAlias() && ByteLength(pn.realName) > 100 then Some("real name too long (maximum 100 characters)")
    else None
  }

  /** The bound counts bytes: one two-byte letter is long enough, though it is a single character. */
  lemma WideLetterLongEnough(pn: PersonaName)
    requires pn.primaryName == "é" && !pn.HasAlias()
    ensures |pn.primaryName| == 1 && ValidatePersonaName(pn).None?
  {
    assert Utf8Width('é') == 2;
    assert ByteLength(pn.primaryName) == 2;
  }

  /** The characters `sanitizeForPath` turns into `_`. */
  predicate PathUnsafe(c: char)
  {
    c in {' ', '/', '\\', ':', '*', '?', '"', '<', '>', '|'}
  }

  /** What `sanitizeForPath` computes, one character at a time. */
  function Sanitized(name: string): (r: string)
  {
    seq(|name|, i requires 0 <= i < |name| => if PathUnsafe(name[i]) then '_' else LowerChar(name[i]))
  }

  /** `sanitizeForPath`: lowercase, then one replacement per unsafe character. */
  method SanitizeForPath(name: string) returns (sanitized: string)
    ensures sanitized == Sanitized(name)
  {
    sanitized := Lower(name);
    ghost var start := sanitized;
    var unsafe := [' ', '/', '\\', ':', '*', '?', '"', '<', '>', '|'];
    for k := 0 to |unsafe|
      invariant |sanitized| == |name|
      invariant forall i :: 0 <= i < |name| ==>
        sanitized[i] == if start[i] in unsafe[..k] then '_' else start[i]
    {
      ReplaceAllChar(sanitized, unsafe[k], '_');
      sanitized := ReplaceAll(sanitized, [unsafe[k]], "_");
      assert unsafe[..k + 1] == unsafe[..k] + [unsafe[k]];
    }
    assert unsafe[..|unsafe|] == unsafe;
    forall i | 0 <= i < |name| ensures sanitized[i] == Sanitized(name)[i] {
      assert start[i] == LowerChar(name[i]);
    }
  }

  /** A sanitized name has the input's length and no unsafe character. */
  lemma SanitizedClean(name: string)
    ensures |Sanitized(name)| == |name|
    ensures forall i :: 0 <= i < |name| ==> !PathUnsafe(Sanitized(name)[i]) && !IsUpper(Sanitized(name)[i])
  {
  }

  lemma SanitizedIdempotent(name: string)
    ensures Sanitized(Sanitized(name)) == Sanitized(name)
  {
  }

  // ------------------------------------------------ the processed-names file

  /** What the ledger file says: the handled tracking keys and the stored full names. */
  datatype Ledger = Ledger(names: set<string>, aliases: map<string, string>)

  /** The line `saveProcessedName` appends: the key, with the full name after a `|` for an alias. */
  function SavedLine(pn: PersonaName): (line: string)
    ensures HasPrefix(line, GetTrackingKey(pn))
    ensures pn.HasAlias() <==> line != GetTrackingKey(pn)
  {
    if pn.HasAlias() then GetTrackingKey(pn) + "|" + pn.fullName else GetTrackingKey(pn)
  }

  /** One line of `loadProcessedNames`: the text before the first `|` is the key. */
  function LoadLine(l: Ledger, line: string): (r: Ledger)
    ensures l.names <= r.names
  {
    var t := TrimSpace(line);
    if t == [] then l
    else
      var parts := SplitFirst(t, '|');
      Ledger(l.names + {parts[0]}, if |parts| == 2 then l.aliases[parts[0] := parts[1]] else l.aliases)
  }

  function LoadLines(l: Ledger, lines: seq<string>): Ledger
  {
    if lines == [] then l else LoadLine(LoadLines(l, lines[..|lines| - 1]), lines[|lines| - 1])
  }

  /** The ledger a file's text holds. */
  function LoadText(text: string): Ledger
  {
    LoadLines(Ledger({}, map[]), Split(text, '\n'))
  }

  /** No key read back from the ledger contains a `|`. */
  lemma {:induction false} LoadedNamesHaveNoBar(l: Ledger, lines: seq<string>)
    requires forall k :: k in l.names ==> '|' !in k
    ensures forall k :: k in LoadLines(l, lines).names ==> '|' !in k
    decreases |lines|
  {
    if lines != [] {
      LoadedNamesHaveNoBar(l, lines[..|lines| - 1]);
    }
  }

  /** An aliased tracking key is never found in a reloaded ledger, so the name is checked again. */
  lemma AliasKeyNeverReloaded(pn: PersonaName, text: string)
    requires pn.HasAlias()
    ensures GetTrackingKey(pn) !in LoadText(text).names
  {
    LoadedNamesHaveNoBar(Ledger({}, map[]), Split(text, '\n'));
    assert GetTrackingKey(pn)[|pn.primaryName|] == '|';
  }

  lemma LoadLinesPrefix(l: Ledger, lines: seq<string>, i: nat)
    requires i < |lines|
    ensures LoadLines(l, lines[..i + 1]) == LoadLine(LoadLines(l, lines[..i]), lines[i])
  {
    assert lines[..i + 1][..i] == lines[..i];
  }

  lemma LoadLinesAppend(l: Ledger, lines: seq<string>, line: string)
    ensures LoadLines(l, lines + [line]) == LoadLine(LoadLines(l, lines), line)
  {
    assert (lines + [line])[..|lines|] == lines;
  }

  /**
   * Appending a saved line to a ledger file written by earlier saves reads back
   * as that one more line.
   */
  lemma SaveThenLoad(text: string, line: string)
    requires text == [] || text[|text| - 1] == '\n'
    requires '\n' !in line
    ensures LoadText(text + line + "\n") == LoadLine(LoadText(text), line)
  {
    if text == [] {
      assert text + line + "\n" == line + "\n";
      SaveIntoEmpty(line);
    } else {
      SaveAfterNewline(text, line);
    }
  }

  lemma SaveAfterNewline(text: string, line: string)
    requires text != [] && text[|text| - 1] == '\n'
    requires '\n' !in line
    ensures LoadText(text + line + "\n") == LoadLine(LoadText(text), line)
  {
    var front := text[..|text| - 1];
    assert text == front + "\n" by {
      assert text == text[..|text| - 1] + [text[|text| - 1]];
    }
    SaveAfterLines(front, line);
    assert text + line + "\n" == front + "\n" + line + "\n";
  }

  lemma SaveIntoEmpty(line: string)
    requires '\n' !in line
    ensures LoadText(line + "\n") == LoadLine(LoadText([]), line)
  {
    var e := Ledger({}, map[]);
    SplitLine(line);
    assert Split([], '\n') == [[]];
    LoadBlankLine(e);
    assert LoadText([]) == LoadLine(LoadLines(e, []), []);
    assert LoadText([]) == e;
    assert LoadLines(e, [line]) == LoadLine(e, line);
    assert [line, []][..1] == [line];
    assert LoadLines(e, [line, []]) == LoadLine(LoadLines(e, [line]), []);
    LoadBlankLine(LoadLine(e, line));
  }

  lemma SaveAfterLines(front: string, line: string)
    requires '\n' !in line
    ensures LoadText(front + "\n" + line + "\n") == LoadLine(LoadText(front + "\n"), line)
  {
    var e := Ledger({}, map[]);
    var fl := Split(front, '\n');
    SplitTrailingNewline(front);
    SplitAppendedLine(front, line);
    assert LoadText(front + "\n") == LoadLines(e, fl) by {
      LoadLinesAppend(e, fl, []);
      LoadBlankLine(LoadLines(e, fl));
    }
    assert LoadText(front + "\n" + line + "\n") == LoadLines(e, fl + [line]) by {
      LoadLinesAppend(e, fl + [line], []);
      LoadBlankLine(LoadLines(e, fl + [line]));
    }
    LoadLinesAppend(e, fl, line);
  }

  lemma LoadBlankLine(l: Ledger)
    ensures LoadLine(l, []) == l
  {
    TrimSpaceEmptyIff([]);
  }

  /**
   * The key that a saved line puts back: the tracking key itself for a bare
   * name, the primary name alone for an alias, whose stored "alias" is
   * "Real|Full".
   */
  lemma SavedLineReload(l: Ledger, pn: PersonaName)
    requires TrimSpace(SavedLine(pn)) == SavedLine(pn) && SavedLine(pn) != []
    requires '|' !in pn.primaryName
    ensures LoadLine(l, SavedLine(pn)).names == l.names + {pn.primaryName}
    ensures !pn.HasAlias() ==> GetTrackingKey(pn) in LoadLine(l, SavedLine(pn)).names
    ensures pn.HasAlias() ==>
      LoadLine(l, SavedLine(pn)).aliases == l.aliases[pn.primaryName := pn.realName + "|" + pn.fullName]
  {
    var line := SavedLine(pn);
    if pn.HasAlias() {
      var rest := pn.realName + "|" + pn.fullName;
      assert line == pn.primaryName + ['|'] + rest;
      IndexOfCharAfter(pn.primaryName, '|', rest);
      assert line[..|pn.primaryName|] == pn.primaryName;
      assert line[|pn.primaryName| + 1..] == rest;
      assert SplitFirst(line, '|') == [pn.primaryName, rest];
    }
  }

  /** A bare name saved to the ledger is found again under its tracking key. */
  lemma BareNameSurvivesReload(text: string, pn: PersonaName)
    requires text == [] || text[|text| - 1] == '\n'
    requires !pn.HasAlias() && pn.primaryName != [] && TrimSpace(pn.primaryName) == pn.primaryName
    requires '|' !in pn.primaryName && '\n' !in pn.primaryName
    ensures GetTrackingKey(pn) in LoadText(text + SavedLine(pn) + "\n").names
  {
    SaveThenLoad(text, SavedLine(pn));
    SavedLineReload(LoadText(text), pn);
  }

  // ---------------------------------------------------- the duplicate check

  /** A code-search answer: the reported total and the result paths (a nil path is `None`). */
  datatype SearchResult = SearchResult(total: int, paths: seq<Option<string>>)

  function SynthesizedPath(sanitized: string): string
  {
    "personas/" + sanitized + "/synthesized.md"
  }

  /** Some result path names a synthesized persona file. */
  predicate SearchHit(r: SearchResult)
  {
    r.total > 0 && exists k :: 0 <= k < |r.paths| && r.paths[k].Some? && Contains(r.paths[k].value, "/synthesized.md")
  }

  /**
   * What `checkPersonaExists` answers: a synthesized file under the sanitized
   * form of some search variation, or, for an alias, a search hit. A failed
   * search answers false; the lookup never reports an error.
   */
  predicate PersonaExists(pn: PersonaName, pathExists: string -> bool, search: PersonaName -> Result<SearchResult>)
  {
    var vs := SearchVariations(pn);
    (exists k :: 0 <= k < |vs| && pathExists(SynthesizedPath(Sanitized(vs[k]))))
    || (pn.HasAlias() && search(pn).Ok? && SearchHit(search(pn).value))
  }

  method CheckPersonaExists(pn: PersonaName, pathExists: string -> bool, search: PersonaName -> Result<SearchResult>)
    returns (found: bool)
    ensures found == PersonaExists(pn, pathExists, search)
  {
    var variations := GetSearchVariations(pn);
    for k := 0 to |variations|
      invariant forall j :: 0 <= j < k ==> !pathExists(SynthesizedPath(Sanitized(variations[j])))
    {
      var sanitizedName := SanitizeForPath(variations[k]);
      if pathExists(SynthesizedPath(sanitizedName)) {
        return true;
      }
    }
    if pn.HasAlias() {
      var results := search(pn);
      if results.Err? {
        return false;
      }
      if results.value.total > 0 {
        var paths := results.value.paths;
        for k := 0 to |paths|
          invariant forall j :: 0 <= j < k ==> !(paths[j].Some? && Contains(paths[j].value, "/synthesized.md"))
        {
          if paths[k].Some? && Contains(paths[k].value, "/synthesized.md") {
            return true;
          }
        }
      }
    }
    return false;
  }

  // --------------------------------------------------------- generation

  /** The issue body `generatePersona` writes for one name. */
  function BatchDescription(pn: PersonaName): (d: string)
    ensures HasPrefix(d, "Batch processing request for persona: " + GetPromptDescription(pn))
  {
    "Batch processing request for persona: " + GetPromptDescription(pn)
    + (if pn.HasAlias() then "\n\nThis persona is for " + pn.primaryName + ", who is also known as " + pn.realName + "." else "")
    + "\n\nGenerated via studio batch command."
  }

  /**
   * `generatePersona`: a generation failure is an error; a pull-request failure
   * is one too, unless the pull request already exists.
   */
  function GeneratePersona(pn: PersonaName, generate: (string, string) -> Option<string>,
                           createPr: PersonaName -> Result<int>)
    : (err: Option<string>)
    ensures err.None? <==>
      generate(pn.fullName, BatchDescription(pn)).None?
      && (createPr(pn).Ok? || Contains(createPr(pn).error, "A pull request already exists"))
  {
    var failure := generate(pn.fullName, BatchDescription(pn));
    if failure.Some? then Some("failed to generate persona: " + failure.value)
    else if createPr(pn).Err? then
      if Contains(createPr(pn).error, "A pull request already exists") then None
      else Some("failed to create PR: " + createPr(pn).error)
    else None
  }

  // ---------------------------------------------------------- reading names

  /** The names of a batch file that reach processing: parsed, valid, neither blank nor a `#` comment. */
  function CandidateNames(lines: seq<string>): (r: seq<PersonaName>)
    ensures |r| <= |lines|
  {
    if lines == [] then []
    else
      CandidateNames(lines[..|lines| - 1]) + LineCandidate(lines[|lines| - 1])
  }

  /** The name one line of the batch file contributes: none for a blank, comment, unparsable or invalid line. */
  function LineCandidate(line: string): seq<PersonaName>
  {
    var t := TrimSpace(line);
    if t == [] || HasPrefix(t, "#") then []
    else match ParsePersonaName(t)
      case Err(_) => []
      case Ok(pn) => if ValidatePersonaName(pn).Some? then [] else [pn]
  }

  /** Every name that reaches processing was parsed from a non-blank, non-comment line and is valid. */
  lemma {:induction false} CandidatesValid(lines: seq<string>, pn: PersonaName)
    requires pn in CandidateNames(lines)
    ensures ValidatePersonaName(pn).None?
    ensures exists k :: (0 <= k < |lines| && ParsePersonaName(TrimSpace(lines[k])) == Ok(pn)
                         && TrimSpace(lines[k]) != [] && !HasPrefix(TrimSpace(lines[k]), "#"))
    decreases |lines|
  {
    var front := CandidateNames(lines[..|lines| - 1]);
    if pn in front {
      CandidatesValid(lines[..|lines| - 1], pn);
      var k :| 0 <= k < |lines| - 1 && ParsePersonaName(TrimSpace(lines[..|lines| - 1][k])) == Ok(pn)
        && TrimSpace(lines[..|lines| - 1][k]) != [] && !HasPrefix(TrimSpace(lines[..|lines| - 1][k]), "#");
      assert lines[..|lines| - 1][k] == lines[k];
    } else {
      assert TrimSpace(lines[|lines| - 1]) != [];
    }
  }

  // --------------------------------------------------------- one batch run

  /** The outcome of one name. */
  datatype Outcome = AlreadyProcessed | AlreadyExists | Generated | Failed

  /**
   * The duplicate and generation services a run consults. `generate` is the
   * multi-provider generation of an issue numbered 0 with the given title and
   * body, answering the error it fails with, if any.
   */
  /**
   * The batch file as `ProcessFile` finds it: it cannot be opened, the
   * scanner stops with an error (a line over its limit, a read failure), or
   * its whole text is read.
   */
  datatype BatchFile = OpenFailed(error: string) | ScanFailed(error: string) | Contents(text: string)

  datatype Services = Services(
    pathExists: string -> bool,
    search: PersonaName -> Result<SearchResult>,
    generate: (string, string) -> Option<string>,
    createPr: PersonaName -> Result<int>)

  /** What happens to one name, given the keys handled so far. */
  function OutcomeOf(pn: PersonaName, processed: set<string>, force: bool, svc: Services): Outcome
  {
    if !force && GetTrackingKey(pn) in processed then AlreadyProcessed
    else if !force && PersonaExists(pn, svc.pathExists, svc.search) then AlreadyExists
    else if GeneratePersona(pn, svc.generate, svc.createPr).Some? then Failed
    else Generated
  }

  /** The pipeline's state with the run's counters. */
  datatype RunState = RunState(
    names: set<string>, aliases: map<string, string>, ledgerFile: string,
    success: nat, skipped: nat, errors: nat)

  /** One name: skip, mark an existing persona, or generate and mark on success. */
  function Step(st: RunState, pn: PersonaName, force: bool, svc: Services): (r: RunState)
  {
    var key := GetTrackingKey(pn);
    match OutcomeOf(pn, st.names, force, svc)
    case AlreadyProcessed => st.(skipped := st.skipped + 1)
    case AlreadyExists =>
      st.(names := st.names + {key}, aliases := st.aliases[key := pn.fullName],
          ledgerFile := st.ledgerFile + SavedLine(pn) + "\n", skipped := st.skipped + 1)
    case Failed => st.(errors := st.errors + 1)
    case Generated =>
      st.(names := st.names + {key}, aliases := st.aliases[key := pn.fullName],
          ledgerFile := st.ledgerFile + SavedLine(pn) + "\n", success := st.success + 1)
  }

  function Run(st: RunState, pns: seq<PersonaName>, force: bool, svc: Services): RunState
  {
    if pns == [] then st else Step(Run(st, pns[..|pns| - 1], force, svc), pns[|pns| - 1], force, svc)
  }

  /** Marks are only added, and a name is marked exactly when it existed already or was generated. */
  lemma StepMarks(st: RunState, pn: PersonaName, force: bool, svc: Services)
    ensures var o := OutcomeOf(pn, st.names, force, svc);
      var r := Step(st, pn, force, svc);
      && st.names <= r.names
      && (o == AlreadyExists || o == Generated <==> r.names == st.names + {GetTrackingKey(pn)} && r.ledgerFile != st.ledgerFile)
      && (o == AlreadyProcessed || o == Failed ==> r.names == st.names && r.ledgerFile == st.ledgerFile && r.aliases == st.aliases)
  {
  }

  /** With force, the ledger of handled keys and the repository are never consulted. */
  lemma ForceIgnoresLedger(pn: PersonaName, processed: set<string>, svc: Services)
    ensures OutcomeOf(pn, processed, true, svc) == OutcomeOf(pn, {}, true, svc)
    ensures OutcomeOf(pn, processed, true, svc) in {Generated, Failed}
  {
  }

  /** Every name is counted exactly once. */
  lemma {:induction false} RunCounts(st: RunState, pns: seq<PersonaName>, force: bool, svc: Services)
    ensures var r := Run(st, pns, force, svc);
      r.success + r.skipped + r.errors == st.success + st.skipped + st.errors + |pns|
    ensures st.names <= Run(st, pns, force, svc).names
    decreases |pns|
  {
    if pns != [] {
      RunCounts(st, pns[..|pns| - 1], force, svc);
    }
  }

  /** A forced run never skips. */
  lemma {:induction false} ForcedRunNeverSkips(st: RunState, pns: seq<PersonaName>, svc: Services)
    ensures Run(st, pns, true, svc).skipped == st.skipped
    decreases |pns|
  {
    if pns != [] {
      ForcedRunNeverSkips(st, pns[..|pns| - 1], svc);
    }
  }

  /** A name whose key is already handled is skipped by an unforced run and changes nothing but the count. */
  lemma ProcessedKeySkipped(st: RunState, pn: PersonaName, svc: Services)
    requires GetTrackingKey(pn) in st.names
    ensures Step(st, pn, false, svc) == st.(skipped := st.skipped + 1)
  {
  }

  // --------------------------------------------------------- the pipeline

  class BatchPipeline {
    var processedNames: set<string>
    var processedAliases: map<string, string>
    /** The text of the processed-names file. */
    var ledgerFile: string
    const force: bool

    /** `NewBatchPipeline`: the ledger is read from the file when it exists. */
    constructor(force: bool, file: Option<string>)
      ensures this.force == force
      ensures ledgerFile == file.GetOr([])
      ensures Ledger(processedNames, processedAliases) == LoadText(ledgerFile)
    {
      this.force := force;
      ledgerFile := file.GetOr([]);
      processedNames := {};
      processedAliases := map[];
      new;
      LoadProcessedNames();
    }

    /** `loadProcessedNames`: add every line's key and stored full name. */
    method LoadProcessedNames()
      modifies this`processedNames, this`processedAliases
      ensures Ledger(processedNames, processedAliases) ==
        LoadLines(Ledger(old(processedNames), old(processedAliases)), Split(ledgerFile, '\n'))
    {
      var lines := Split(ledgerFile, '\n');
      ghost var start := Ledger(processedNames, processedAliases);
      for i := 0 to |lines|
        invariant Ledger(processedNames, processedAliases) == LoadLines(start, lines[..i])
      {
        LoadLinesPrefix(start, lines, i);
        LoadOne(lines[i]);
      }
      assert lines[..|lines|] == lines;
    }

    /** One pass of the `loadProcessedNames` loop. */
    method LoadOne(rawLine: string)
      modifies this`processedNames, this`processedAliases
      ensures Ledger(processedNames, processedAliases) == LoadLine(Ledger(old(processedNames), old(processedAliases)), rawLine)
    {
      var line := TrimSpace(rawLine);
      if line != [] {
        var parts := SplitFirst(line, '|');
        var trackingKey := parts[0];
        processedNames := processedNames + {trackingKey};
        if |parts| == 2 {
          processedAliases := processedAliases[trackingKey := parts[1]];
        }
      }
    }

    /** `saveProcessedName`: append one line. */
    method SaveProcessedName(pn: PersonaName)
      modifies this`ledgerFile
      ensures ledgerFile == old(ledgerFile) + SavedLine(pn) + "\n"
    {
      var line := GetTrackingKey(pn);
      if pn.HasAlias() {
        line := line + "|" + pn.fullName;
      }
      ledgerFile := ledgerFile + line + "\n";
    }

    /**
     * `ProcessFile`: collect the valid names of the batch file, then handle
     * them in order, returning the success, skip and error counts. A file
     * that cannot be opened or read fails before any name is handled.
     */
    method ProcessFile(file: BatchFile, svc: Services) returns (success: nat, skipped: nat, errors: nat, err: Option<string>)
      modifies this`processedNames, this`processedAliases, this`ledgerFile
      ensures file.OpenFailed? ==> err == Some("failed to open file: " + file.error)
      ensures file.ScanFailed? ==> err == Some("error reading file: " + file.error)
      ensures !file.Contents? ==>
        (success == skipped == errors == 0
         && processedNames == old(processedNames) && processedAliases == old(processedAliases)
         && ledgerFile == old(ledgerFile))
      ensures file.Contents? ==> err.None?
      ensures file.Contents? ==>
        (RunState(processedNames, processedAliases, ledgerFile, success, skipped, errors) ==
         Run(RunState(old(processedNames), old(processedAliases), old(ledgerFile), 0, 0, 0),
             CandidateNames(Split(file.text, '\n')), force, svc))
    {
      success, skipped, errors := 0, 0, 0;
      match file {
        case OpenFailed(e) => return success, skipped, errors, Some("failed to open file: " + e);
        case ScanFailed(e) => return success, skipped, errors, Some("error reading file: " + e);
        case Contents(text) =>
      }
      err := None;
      var personaNames := ReadBatchNames(file.text);
      ghost var start := RunState(processedNames, processedAliases, ledgerFile, 0, 0, 0);
      for i := 0 to |personaNames|
        invariant RunState(processedNames, processedAliases, ledgerFile, success, skipped, errors) ==
          Run(start, personaNames[..i], force, svc)
      {
        RunPrefix(start, personaNames, i, force, svc);
        success, skipped, errors := HandleName(personaNames[i], svc, success, skipped, errors);
      }
      assert personaNames[..|personaNames|] == personaNames;
    }

    /** The body of the `ProcessFile` loop for one name. */
    method HandleName(pn: PersonaName, svc: Services, success: nat, skipped: nat, errors: nat)
      returns (success': nat, skipped': nat, errors': nat)
      modifies this`processedNames, this`processedAliases, this`ledgerFile
      ensures RunState(processedNames, processedAliases, ledgerFile, success', skipped', errors') ==
        Step(RunState(old(processedNames), old(processedAliases), old(ledgerFile), success, skipped, errors), pn, force, svc)
    {
      success', skipped', errors' := success, skipped, errors;
      var trackingKey := GetTrackingKey(pn);
      if !force && trackingKey in processedNames {
        skipped' := skipped + 1;
        return;
      }
      if !force {
        var found := CheckPersonaExists(pn, svc.pathExists, svc.search);
        if found {
          skipped' := skipped + 1;
          processedNames := processedNames + {trackingKey};
          processedAliases := processedAliases[trackingKey := pn.fullName];
          SaveProcessedName(pn);
          return;
        }
      }
      if GeneratePersona(pn, svc.generate, svc.createPr).Some? {
        errors' := errors + 1;
        return;
      }
      processedNames := processedNames + {trackingKey};
      processedAliases := processedAliases[trackingKey := pn.fullName];
      SaveProcessedName(pn);
      success' := success + 1;
    }
  }

  /** The first loop of `ProcessFile`: the names that reach processing. */
  method ReadBatchNames(text: string) returns (personaNames: seq<PersonaName>)
    ensures personaNames == CandidateNames(Split(text, '\n'))
  {
    var lines := Split(text, '\n');
    personaNames := [];
    for i := 0 to |lines|
      invariant personaNames == CandidateNames(lines[..i])
    {
      CandidatesPrefix(lines, i);
      var found := ReadBatchLine(lines[i]);
      personaNames := personaNames + found;
    }
    assert lines[..|lines|] == lines;
  }

  lemma CandidatesPrefix(lines: seq<string>, i: nat)
    requires i < |lines|
    ensures CandidateNames(lines[..i + 1]) == CandidateNames(lines[..i]) + LineCandidate(lines[i])
  {
    assert lines[..i + 1][..i] == lines[..i];
  }

  /** One pass of that loop: blank lines, comments and names that fail to parse or validate are skipped. */
  method ReadBatchLine(rawLine: string) returns (found: seq<PersonaName>)
    ensures found == LineCandidate(rawLine)
  {
    var line := TrimSpace(rawLine);
    if line == [] || HasPrefix(line, "#") {
      return [];
    }
    var parsed := ParsePersonaName(line);
    if parsed.Err? {
      return [];
    }
    if ValidatePersonaName(parsed.value).Some? {
      return [];
    }
    return [parsed.value];
  }

  lemma RunPrefix(st: RunState, pns: seq<PersonaName>, i: nat, force: bool, svc: Services)
    requires i < |pns|
    ensures Run(st, pns[..i + 1], force, svc) == Step(Run(st, pns[..i], force, svc), pns[i], force, svc)
  {
    assert pns[..i + 1][..i] == pns[..i];
  }
}
