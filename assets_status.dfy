/**
 * The per-persona asset status file `.assets_status.json`: which assets are
 * waiting to be generated, which have been generated, and when the persona
 * and its assets were last produced.
 *
 * Times are readings of an integer clock; `ZeroTime` stands for Go's zero
 * `time.Time` ("never"). The status files on disk are a map from persona
 * name to what reading that file gives.
 */
module Assets {
  import opened Wrappers

  /** Go's zero `time.Time`: "never generated". */
  const ZeroTime: int := 0

  // The asset types.
  const PromptReady := "prompt_ready"
  const PlatformAdaptations := "platform_adaptations"
  const VoiceClone := "voice_clone"
  const ImageAvatar := "image_avatar"
  const ChatbotConfig := "chatbot_config"
  const ApiEndpoint := "api_endpoint"
  const Prompts := "prompts"
  const PlatformPrompts := "platform_prompts"
  const VariationPrompts := "variation_prompts"

  /**
   * The contents of a status file. A map that JSON decoding left nil is
   * `None`; a nil and an empty list are the same here.
   */
  datatype AssetStatus = AssetStatus(
    personaName: string,
    lastSynthesizedUpdate: int,
    lastAssetsGeneration: int,
    pendingAssets: seq<string>,
    generatedAssets: seq<string>,
    assetGenerationFlags: Option<map<string, bool>>,
    metadata: Option<map<string, string>>)

  /** What reading one status file gives. */
  datatype StatusFile = Stored(status: AssetStatus) | Unreadable | Malformed

  /** The modification time of a persona's synthesized.md, as `os.Stat` reports it. */
  datatype FileInfo = StatFailed | ModifiedAt(time: int)

  // ------------------------------------------------------- slice helpers

  /** `slice` with every occurrence of `item` removed, the rest in order. */
  function Without(slice: seq<string>, item: string): (r: seq<string>)
    ensures item !in r
    ensures forall x :: x in r ==> x in slice
    ensures |r| <= |slice|
  {
    if slice == [] then []
    else
      var last := slice[|slice| - 1];
      Without(slice[..|slice| - 1], item) + (if last != item then [last] else [])
  }

  /** `contains`. */
  method SliceContains(slice: seq<string>, item: string) returns (found: bool)
    ensures found <==> item in slice
  {
    for i := 0 to |slice|
      invariant item !in slice[..i]
    {
      if slice[i] == item {
        return true;
      }
    }
    assert slice[..|slice|] == slice;
    return false;
  }

  /** `removeFromSlice`. */
  method RemoveFromSlice(slice: seq<string>, item: string) returns (result: seq<string>)
    ensures result == Without(slice, item)
  {
    result := [];
    for i := 0 to |slice|
      invariant result == Without(slice[..i], item)
    {
      assert slice[..i + 1][..i] == slice[..i];
      if slice[i] != item {
        result := result + [slice[i]];
      }
    }
    assert slice[..|slice|] == slice;
  }

  /** Removing keeps every other element, as many times as it occurred, and drops `item` entirely. */
  lemma {:induction false} WithoutCounts(slice: seq<string>, item: string, x: string)
    ensures multiset(Without(slice, item))[x] == if x == item then 0 else multiset(slice)[x]
  {
    if slice != [] {
      var init := slice[..|slice| - 1];
      WithoutCounts(init, item, x);
      assert slice == init + [slice[|slice| - 1]];
    }
  }

  /** Removing works part by part, so the remaining elements keep their order. */
  lemma {:induction false} WithoutConcat(a: seq<string>, b: seq<string>, item: string)
    ensures Without(a + b, item) == Without(a, item) + Without(b, item)
    decreases |b|
  {
    if b != [] {
      var binit := b[..|b| - 1];
      assert (a + b)[..|a + b| - 1] == a + binit;
      WithoutConcat(a, binit, item);
    } else {
      assert a + b == a;
    }
  }

  /** A slice without `item` is left as it is. */
  lemma {:induction false} WithoutAbsent(slice: seq<string>, item: string)
    requires item !in slice
    ensures Without(slice, item) == slice
  {
    if slice != [] {
      var init := slice[..|slice| - 1];
      WithoutAbsent(init, item);
      assert slice == init + [slice[|slice| - 1]];
    }
  }

  /** No element occurs twice. */
  predicate NoDuplicates(s: seq<string>)
  {
    forall i, j :: 0 <= i < j < |s| ==> s[i] != s[j]
  }

  /** Removing keeps a duplicate-free slice duplicate-free. */
  lemma WithoutNoDuplicates(slice: seq<string>, item: string)
    requires NoDuplicates(slice)
    ensures NoDuplicates(Without(slice, item))
  {
    var r := Without(slice, item);
    forall i, j | 0 <= i < j < |r| ensures r[i] != r[j] {
      if r[i] == r[j] {
        TwiceCounted(r, i, j);
        WithoutCounts(slice, item, r[i]);
        DistinctOnce(slice, r[i]);
      }
    }
  }

  /** An element found at two positions occurs at least twice. */
  lemma TwiceCounted(r: seq<string>, i: nat, j: nat)
    requires i < j < |r| && r[i] == r[j]
    ensures multiset(r)[r[i]] >= 2
  {
    var x := r[i];
    assert r == r[..i] + [x] + r[i + 1..j] + [x] + r[j + 1..];
  }

  /** In a duplicate-free slice an element occurs at most once. */
  lemma {:induction false} DistinctOnce(s: seq<string>, x: string)
    requires NoDuplicates(s)
    ensures multiset(s)[x] <= 1
  {
    if s != [] {
      var init := s[..|s| - 1];
      DistinctOnce(init, x);
      assert s == init + [s[|s| - 1]];
      if s[|s| - 1] == x {
        assert x !in init by {
          forall i | 0 <= i < |init| ensures init[i] != x {
            assert s[i] == init[i];
          }
        }
      }
    }
  }

  // ------------------------------------------------- status transitions

  /** The flags map, with a nil map read as empty. */
  function Flags(st: AssetStatus): map<string, bool>
  {
    if st.assetGenerationFlags.Some? then st.assetGenerationFlags.value else map[]
  }

  /** `createDefaultStatus`. */
  function DefaultStatus(personaName: string, now: int): (st: AssetStatus)
    ensures st.personaName == personaName && st.lastSynthesizedUpdate == now
    ensures st.lastAssetsGeneration == ZeroTime
    ensures st.pendingAssets == [] && st.generatedAssets == []
    ensures Flags(st) == map[] && st.metadata == Some(map[])
  {
    AssetStatus(personaName, now, ZeroTime, [], [], Some(map[]), Some(map[]))
  }

  /** The status `MarkAssetPending` saves. */
  function WithPending(st: AssetStatus, asset: string): (r: AssetStatus)
    ensures asset in r.pendingAssets && asset !in r.generatedAssets
    ensures r.pendingAssets == if asset in st.pendingAssets then st.pendingAssets else st.pendingAssets + [asset]
    ensures r.assetGenerationFlags.Some? && Flags(r) == Flags(st)[asset := false]
    ensures forall x :: x != asset ==> (x in r.generatedAssets <==> x in st.generatedAssets)
    ensures r.personaName == st.personaName && r.metadata == st.metadata
    ensures r.lastSynthesizedUpdate == st.lastSynthesizedUpdate
    ensures r.lastAssetsGeneration == st.lastAssetsGeneration
  {
    var pending := if asset in st.pendingAssets then st.pendingAssets else st.pendingAssets + [asset];
    var generated := Without(st.generatedAssets, asset);
    WithoutMembers(st.generatedAssets, asset);
    st.(pendingAssets := pending, generatedAssets := generated,
        assetGenerationFlags := Some(Flags(st)[asset := false]))
  }

  /** The status `MarkAssetGenerated` saves at time `now`. */
  function WithGenerated(st: AssetStatus, asset: string, now: int): (r: AssetStatus)
    ensures asset !in r.pendingAssets && asset in r.generatedAssets
    ensures r.generatedAssets == if asset in st.generatedAssets then st.generatedAssets else st.generatedAssets + [asset]
    ensures r.assetGenerationFlags.Some? && Flags(r) == Flags(st)[asset := true]
    ensures forall x :: x != asset ==> (x in r.pendingAssets <==> x in st.pendingAssets)
    ensures r.lastAssetsGeneration == now
    ensures r.personaName == st.personaName && r.metadata == st.metadata
    ensures r.lastSynthesizedUpdate == st.lastSynthesizedUpdate
  {
    var pending := Without(st.pendingAssets, asset);
    var generated := if asset in st.generatedAssets then st.generatedAssets else st.generatedAssets + [asset];
    WithoutMembers(st.pendingAssets, asset);
    st.(pendingAssets := pending, generatedAssets := generated,
        assetGenerationFlags := Some(Flags(st)[asset := true]), lastAssetsGeneration := now)
  }

  /** Removing `item` leaves every other element present. */
  lemma WithoutMembers(slice: seq<string>, item: string)
    ensures forall x :: x != item ==> (x in Without(slice, item) <==> x in slice)
  {
    forall x | x != item && x in slice ensures x in Without(slice, item) {
      WithoutCounts(slice, item, x);
    }
  }

  /** Pending and generated are duplicate-free and share no asset. */
  predicate WellFormed(st: AssetStatus)
  {
    NoDuplicates(st.pendingAssets) && NoDuplicates(st.generatedAssets)
    && forall x :: x in st.pendingAssets ==> x !in st.generatedAssets
  }

  /** Appending an absent element keeps a slice duplicate-free. */
  lemma AppendFresh(s: seq<string>, x: string)
    requires NoDuplicates(s) && x !in s
    ensures NoDuplicates(s + [x])
  {
  }

  /** Marking an asset pending keeps the lists duplicate-free and disjoint. */
  lemma PendingKeepsWellFormed(st: AssetStatus, asset: string)
    requires WellFormed(st)
    ensures WellFormed(WithPending(st, asset))
  {
    WithoutNoDuplicates(st.generatedAssets, asset);
    if asset !in st.pendingAssets {
      AppendFresh(st.pendingAssets, asset);
    }
  }

  /** Marking an asset generated keeps the lists duplicate-free and disjoint. */
  lemma GeneratedKeepsWellFormed(st: AssetStatus, asset: string, now: int)
    requires WellFormed(st)
    ensures WellFormed(WithGenerated(st, asset, now))
  {
    WithoutNoDuplicates(st.pendingAssets, asset);
    if asset !in st.generatedAssets {
      AppendFresh(st.generatedAssets, asset);
    }
  }

  /** Marking the same asset pending twice is the same as once. */
  lemma PendingIdempotent(st: AssetStatus, asset: string)
    ensures WithPending(WithPending(st, asset), asset) == WithPending(st, asset)
  {
    var once := WithPending(st, asset);
    WithoutAbsent(once.generatedAssets, asset);
    var twice := WithPending(once, asset);
    assert twice.pendingAssets == once.pendingAssets;
    assert twice.generatedAssets == once.generatedAssets;
    assert Flags(twice) == Flags(once);
  }

  /** Marking the same asset generated twice differs from once only in the timestamp. */
  lemma GeneratedIdempotent(st: AssetStatus, asset: string, t1: int, t2: int)
    ensures WithGenerated(WithGenerated(st, asset, t1), asset, t2) == WithGenerated(st, asset, t2)
  {
    var once := WithGenerated(st, asset, t1);
    WithoutAbsent(once.pendingAssets, asset);
    var twice := WithGenerated(once, asset, t2);
    assert twice.pendingAssets == once.pendingAssets;
    assert twice.generatedAssets == once.generatedAssets;
    assert Flags(twice) == Flags(once);
  }

  /** Generating after marking pending undoes the pending mark: the asset moves across. */
  lemma PendingThenGenerated(st: AssetStatus, asset: string, now: int)
    requires WellFormed(st)
    ensures var r := WithGenerated(WithPending(st, asset), asset, now);
      asset in r.generatedAssets && asset !in r.pendingAssets && Flags(r)[asset]
      && (forall x :: x != asset ==> (x in r.pendingAssets <==> x in st.pendingAssets))
  {
  }

  // ------------------------------------------------------ loading status

  /** `LoadStatus`: a missing file gives the default status. */
  function LoadFrom(files: map<string, StatusFile>, personaName: string, now: int): (r: Result<AssetStatus>)
    ensures personaName !in files ==> r == Ok(DefaultStatus(personaName, now))
    ensures r.Err? <==> personaName in files && !files[personaName].Stored?
  {
    if personaName !in files then Ok(DefaultStatus(personaName, now))
    else match files[personaName]
      case Stored(st) => Ok(st)
      case Unreadable => Err("failed to read status file")
      case Malformed => Err("failed to parse status file")
  }

  /** The store after `SaveStatus`: written under the name the status itself carries. */
  function SaveTo(files: map<string, StatusFile>, st: AssetStatus): map<string, StatusFile>
  {
    files[st.personaName := Stored(st)]
  }

  /** The store after `MarkAssetPending` (unchanged when loading fails). */
  function PendingIn(files: map<string, StatusFile>, personaName: string, asset: string, now: int): map<string, StatusFile>
  {
    var loaded := LoadFrom(files, personaName, now);
    if loaded.Err? then files else SaveTo(files, WithPending(loaded.value, asset))
  }

  /** The store after `MarkAssetGenerated` (unchanged when loading fails). */
  function GeneratedIn(files: map<string, StatusFile>, personaName: string, asset: string, now: int): map<string, StatusFile>
  {
    var loaded := LoadFrom(files, personaName, now);
    if loaded.Err? then files else SaveTo(files, WithGenerated(loaded.value, asset, now))
  }

  /** Every stored status sits in the file named after its persona. */
  predicate Keyed(files: map<string, StatusFile>)
  {
    forall k :: k in files && files[k].Stored? ==> files[k].status.personaName == k
  }

  /**
   * In a consistently keyed store MarkAssetPending stores the asset as pending
   * for that persona, and leaves every other persona's file alone.
   */
  lemma PendingInEffect(files: map<string, StatusFile>, personaName: string, asset: string, now: int)
    requires Keyed(files) && LoadFrom(files, personaName, now).Ok?
    ensures var after := PendingIn(files, personaName, asset, now);
      Keyed(after) && personaName in after && after[personaName].Stored?
      && asset in after[personaName].status.pendingAssets
      && asset !in after[personaName].status.generatedAssets
      && !Flags(after[personaName].status)[asset]
      && forall k :: k != personaName ==> (k in after <==> k in files) && (k in files ==> after[k] == files[k])
  {
  }

  /** The same for MarkAssetGenerated: generated, flag set, timestamp now. */
  lemma GeneratedInEffect(files: map<string, StatusFile>, personaName: string, asset: string, now: int)
    requires Keyed(files) && LoadFrom(files, personaName, now).Ok?
    ensures var after := GeneratedIn(files, personaName, asset, now);
      Keyed(after) && personaName in after && after[personaName].Stored?
      && asset !in after[personaName].status.pendingAssets
      && asset in after[personaName].status.generatedAssets
      && Flags(after[personaName].status)[asset]
      && after[personaName].status.lastAssetsGeneration == now
      && forall k :: k != personaName ==> (k in after <==> k in files) && (k in files ==> after[k] == files[k])
  {
  }

  /** `(needs, types)` as `NeedsAssetGeneration` computes them from a loaded status. */
  function NeedsFor(st: AssetStatus): (bool, seq<string>)
  {
    if st.lastSynthesizedUpdate > st.lastAssetsGeneration then (true, st.pendingAssets)
    else (|st.pendingAssets| > 0, [])
  }

  /** A status with nothing pending needs generation exactly when the persona is newer than its assets. */
  lemma NothingPendingNeeds(st: AssetStatus)
    requires st.pendingAssets == []
    ensures NeedsFor(st).0 <==> st.lastSynthesizedUpdate > st.lastAssetsGeneration
    ensures NeedsFor(st).1 == []
  {
  }

  /** A fresh persona (no status file yet) needs generation, with nothing listed, once the clock is past zero. */
  lemma DefaultNeeds(personaName: string, now: int)
    requires now > ZeroTime
    ensures NeedsFor(DefaultStatus(personaName, now)) == (true, [])
  {
  }

  /** Generating an asset at a time no earlier than the last synthesis clears the timestamp trigger. */
  lemma GeneratedClearsTimestamp(st: AssetStatus, asset: string, now: int)
    requires now >= st.lastSynthesizedUpdate
    ensures NeedsFor(WithGenerated(st, asset, now)).1 == []
    ensures NeedsFor(WithGenerated(st, asset, now)).0 <==> |Without(st.pendingAssets, asset)| > 0
  {
  }

  // ---------------------------------------------------- the status manager

  /** `StatusManager`, holding the status files and the synthesized.md timestamps it reads. */
  class StatusManager {
    var files: map<string, StatusFile>
    var synthesized: map<string, FileInfo>

    constructor(files: map<string, StatusFile>, synthesized: map<string, FileInfo>)
      ensures this.files == files && this.synthesized == synthesized
    {
      this.files := files;
      this.synthesized := synthesized;
    }

    /** `LoadStatus`: a missing file gives the default status; an unreadable or malformed one is the only error. */
    function LoadStatus(personaName: string, now: int): (r: Result<AssetStatus>)
      reads this
      ensures personaName !in files ==> r == Ok(DefaultStatus(personaName, now))
      ensures r.Err? <==> personaName in files && !files[personaName].Stored?
      ensures r.Ok? && personaName in files ==> files[personaName] == Stored(r.value)
    {
      LoadFrom(files, personaName, now)
    }

    /** `SaveStatus`; write failures are not modelled. */
    method SaveStatus(st: AssetStatus)
      modifies this
      ensures files == SaveTo(old(files), st) && synthesized == old(synthesized)
    {
      files := files[st.personaName := Stored(st)];
    }

    /** `UpdateSynthesizedTimestamp`. */
    method UpdateSynthesizedTimestamp(personaName: string, now: int) returns (err: Option<string>)
      modifies this
      ensures old(LoadStatus(personaName, now)).Err? ==>
        err == Some("failed to load status: " + old(LoadStatus(personaName, now)).error) && files == old(files)
      ensures old(LoadStatus(personaName, now)).Ok? ==>
        err.None? && files == SaveTo(old(files), old(LoadStatus(personaName, now)).value.(lastSynthesizedUpdate := now))
      ensures synthesized == old(synthesized)
    {
      var loaded := LoadStatus(personaName, now);
      if loaded.Err? {
        return Some("failed to load status: " + loaded.error);
      }
      var status := loaded.value;
      status := status.(lastSynthesizedUpdate := now);
      SaveStatus(status);
      return None;
    }

    /** `MarkAssetPending`. */
    method MarkAssetPending(personaName: string, asset: string, now: int) returns (err: Option<string>)
      modifies this
      ensures err.Some? <==> old(LoadStatus(personaName, now)).Err?
      ensures err.Some? ==> err.value == "failed to load status: " + old(LoadStatus(personaName, now)).error
      ensures files == PendingIn(old(files), personaName, asset, now)
      ensures synthesized == old(synthesized)
    {
      var loaded := LoadStatus(personaName, now);
      if loaded.Err? {
        return Some("failed to load status: " + loaded.error);
      }
      var status := loaded.value;
      var present := SliceContains(status.pendingAssets, asset);
      if !present {
        status := status.(pendingAssets := status.pendingAssets + [asset]);
      }
      var generated := RemoveFromSlice(status.generatedAssets, asset);
      status := status.(generatedAssets := generated);
      if status.assetGenerationFlags.None? {
        status := status.(assetGenerationFlags := Some(map[]));
      }
      status := status.(assetGenerationFlags := Some(status.assetGenerationFlags.value[asset := false]));
      SaveStatus(status);
      return None;
    }

    /** `MarkAssetGenerated`. */
    method MarkAssetGenerated(personaName: string, asset: string, now: int) returns (err: Option<string>)
      modifies this
      ensures err.Some? <==> old(LoadStatus(personaName, now)).Err?
      ensures err.Some? ==> err.value == "failed to load status: " + old(LoadStatus(personaName, now)).error
      ensures files == GeneratedIn(old(files), personaName, asset, now)
      ensures synthesized == old(synthesized)
    {
      var loaded := LoadStatus(personaName, now);
      if loaded.Err? {
        return Some("failed to load status: " + loaded.error);
      }
      var status := loaded.value;
      var pending := RemoveFromSlice(status.pendingAssets, asset);
      status := status.(pendingAssets := pending);
      var present := SliceContains(status.generatedAssets, asset);
      if !present {
        status := status.(generatedAssets := status.generatedAssets + [asset]);
      }
      if status.assetGenerationFlags.None? {
        status := status.(assetGenerationFlags := Some(map[]));
      }
      status := status.(assetGenerationFlags := Some(status.assetGenerationFlags.value[asset := true]),
                        lastAssetsGeneration := now);
      SaveStatus(status);
      return None;
    }

    /** `NeedsAssetGeneration`. */
    method NeedsAssetGeneration(personaName: string, now: int) returns (needs: bool, types: seq<string>, err: Option<string>)
      ensures err.Some? <==> LoadStatus(personaName, now).Err?
      ensures err.Some? ==> !needs && types == []
      ensures err.None? ==> (needs, types) == NeedsFor(LoadStatus(personaName, now).value)
    {
      var loaded := LoadStatus(personaName, now);
      if loaded.Err? {
        return false, [], Some("failed to load status: " + loaded.error);
      }
      var status := loaded.value;
      if status.lastSynthesizedUpdate > status.lastAssetsGeneration {
        var pendingTypes: seq<string> := [];
        for i := 0 to |status.pendingAssets|
          invariant pendingTypes == status.pendingAssets[..i]
        {
          pendingTypes := pendingTypes + [status.pendingAssets[i]];
        }
        assert status.pendingAssets[..|status.pendingAssets|] == status.pendingAssets;
        return true, pendingTypes, None;
      }
      return |status.pendingAssets| > 0, [], None;
    }

    /** `CheckSynthesizedFileModified`: a missing synthesized.md counts as unmodified. */
    function CheckSynthesizedFileModified(personaName: string, now: int): (r: Result<bool>)
      reads this
      ensures r.Ok? ==> LoadStatus(personaName, now).Ok?
      ensures r.Ok? ==>
        (r.value <==> personaName in synthesized && synthesized[personaName].ModifiedAt?
                      && synthesized[personaName].time > LoadStatus(personaName, now).value.lastAssetsGeneration)
      ensures r.Err? <==>
        LoadStatus(personaName, now).Err? || (personaName in synthesized && synthesized[personaName].StatFailed?)
    {
      var loaded := LoadStatus(personaName, now);
      if loaded.Err? then Err("failed to load status: " + loaded.error)
      else if personaName !in synthesized then Ok(false)
      else match synthesized[personaName]
        case StatFailed => Err("failed to stat synthesized file")
        case ModifiedAt(t) => Ok(t > loaded.value.lastAssetsGeneration)
    }
  }
}
