/**
 * The asset monitor: decides for which personas assets must be (re)generated
 * and drives the registered generators, recording each asset as pending and,
 * once its generator succeeds, as generated.
 */
module AssetMonitor {
  import opened Wrappers
  import opened Str
  import opened Assets

  /** What reading a file gives. */
  datatype TextFile = Missing | ReadFailed | Text(content: string)

  /** `PersonaAssetTrigger`. */
  datatype Trigger = Trigger(personaName: string, assetTypes: seq<string>, reason: string, detectedAt: int)

  /** What the GitHub client answers: does a file exist, and when was it last changed. */
  datatype GitHubView = GitHubView(
    listFolders: Result<seq<string>>,
    fileExists: string -> bool,
    fileModTime: string -> Result<int>)

  /** One entry of the local personas directory. */
  datatype DirEntry = DirEntry(name: string, isDir: bool)

  /** Listing the local personas directory. */
  datatype Listing = NoDirectory | ListFailed | Entries(entries: seq<DirEntry>)

  /**
   * An asset generator: given persona and asset type, the error it fails with,
   * if any. It is pure: what a generator writes meanwhile (files, pull
   * requests, the status store) is not part of the model.
   */
  type Callback = (string, string) -> Option<string>

  /** The asset types a README can ask for, in the order they are looked for. */
  const MarkedAssets: seq<string> := [PromptReady, PlatformAdaptations, VoiceClone, ImageAvatar,
    ChatbotConfig, ApiEndpoint, Prompts, PlatformPrompts, VariationPrompts]

  /** The three prompt assets regenerated for a changed persona. */
  const PromptAssets: seq<string> := [Prompts, PlatformPrompts, VariationPrompts]

  /** The README marker `<!-- GENERATE:t -->`. */
  function Marker(t: string): string
  {
    "<!-- GENERATE:" + t + " -->"
  }

  /** The marker strings, in order. */
  const Triggers: seq<string> := [Marker(PromptReady), Marker(PlatformAdaptations), Marker(VoiceClone),
    Marker(ImageAvatar), Marker(ChatbotConfig), Marker(ApiEndpoint), Marker(Prompts),
    Marker(PlatformPrompts), Marker(VariationPrompts)]

  /** `assetMap`: every marked asset name stands for itself. */
  const AssetMap: map<string, string> := map t | t in MarkedAssets :: t

  /** What a marker's text decodes to: split at `:`, drop ` -->`, look up. */
  function MarkerAsset(trigger: string): (r: Option<string>)
  {
    var parts := Split(trigger, ':');
    if |parts| == 2 then
      var name := TrimSuffix(parts[1], " -->");
      if name in AssetMap then Some(AssetMap[name]) else None
    else None
  }

  /** Each marker decodes to the asset it is named after. */
  lemma MarkerDecodes(t: string)
    requires t in MarkedAssets
    ensures MarkerAsset(Marker(t)) == Some(t)
  {
    var parts := ["<!-- GENERATE", t + " -->"];
    assert Split(Marker(t), ':') == parts by {
      assert ':' !in t by {
        NoColonInAssets();
      }
      assert ':' !in t + " -->";
      assert Marker(t) == Join(parts, [':']);
      SplitJoin(parts, ':');
    }
    TrimAppendedSuffix(t, " -->");
  }

  lemma NoColonInAssets()
    ensures forall t :: t in MarkedAssets ==> ':' !in t
  {
  }

  /** The assets whose markers occur in `content`, among the first `n` marked assets. */
  function MarkedUpTo(content: string, n: nat): (r: seq<string>)
    requires n <= |MarkedAssets|
  {
    if n == 0 then []
    else MarkedUpTo(content, n - 1)
         + (if Contains(content, Marker(MarkedAssets[n - 1])) then [MarkedAssets[n - 1]] else [])
  }

  /** The assets a README asks for. */
  function ReadmeAssets(content: string): seq<string>
  {
    MarkedUpTo(content, |MarkedAssets|)
  }

  /** An asset is listed exactly when it is a marked asset whose marker occurs, and at most once. */
  lemma {:induction false} MarkedUpToExactly(content: string, n: nat)
    requires n <= |MarkedAssets|
    ensures forall t :: t in MarkedUpTo(content, n) <==>
      exists i :: 0 <= i < n && t == MarkedAssets[i] && Contains(content, Marker(t))
    ensures NoDuplicates(MarkedUpTo(content, n))
  {
    if n > 0 {
      MarkedUpToExactly(content, n - 1);
      var t := MarkedAssets[n - 1];
      var prev := MarkedUpTo(content, n - 1);
      MarkedAssetsDistinct(n - 1);
      assert t !in prev;
      if Contains(content, Marker(t)) {
        assert MarkedUpTo(content, n) == prev + [t];
        AppendFresh(prev, t);
      } else {
        assert MarkedUpTo(content, n) == prev;
      }
      forall x ensures x in MarkedUpTo(content, n) <==>
        exists i :: 0 <= i < n && x == MarkedAssets[i] && Contains(content, Marker(x))
      {
        if x in MarkedUpTo(content, n) {
          if x in prev {
            var i :| 0 <= i < n - 1 && x == MarkedAssets[i] && Contains(content, Marker(x));
          } else {
            assert x == t && Contains(content, Marker(t));
          }
        }
        if exists i :: 0 <= i < n && x == MarkedAssets[i] && Contains(content, Marker(x)) {
          var i :| 0 <= i < n && x == MarkedAssets[i] && Contains(content, Marker(x));
          if i < n - 1 {
            assert x in prev;
          } else {
            assert x == t;
          }
        }
      }
    }
  }

  /** No asset type is listed twice among the marked ones. */
  lemma MarkedAssetsDistinct(k: nat)
    requires k < |MarkedAssets|
    ensures forall i :: 0 <= i < k ==> MarkedAssets[i] != MarkedAssets[k]
  {
  }

  /** `checkReadmeTriggers`'s list: exactly the asset types whose markers occur, each once. */
  lemma ReadmeAssetsExactly(content: string)
    ensures forall t :: t in ReadmeAssets(content) <==> t in MarkedAssets && Contains(content, Marker(t))
    ensures NoDuplicates(ReadmeAssets(content))
  {
    MarkedUpToExactly(content, |MarkedAssets|);
  }

  /** A README without any marker asks for nothing. */
  lemma UnmarkedReadme(content: string)
    requires !Contains(content, "<!-- GENERATE:")
    ensures ReadmeAssets(content) == []
  {
    forall t | t in MarkedAssets ensures !Contains(content, Marker(t)) {
      if Contains(content, Marker(t)) {
        var i := Index(content, Marker(t)).value;
        assert content[i..i + 14] == Marker(t)[..14];
        assert At(content, "<!-- GENERATE:", i);
        ContainsAt(content, "<!-- GENERATE:", i);
      }
    }
    NoMarkersUpTo(content, |MarkedAssets|);
  }

  lemma {:induction false} NoMarkersUpTo(content: string, n: nat)
    requires n <= |MarkedAssets|
    requires forall t :: t in MarkedAssets ==> !Contains(content, Marker(t))
    ensures MarkedUpTo(content, n) == []
  {
    if n > 0 {
      NoMarkersUpTo(content, n - 1);
    }
  }

  /** `checkReadmeTriggers`: a missing README asks for nothing. */
  method CheckReadmeTriggers(readme: TextFile) returns (found: bool, types: seq<string>, err: Option<string>)
    ensures readme.Missing? ==> !found && types == [] && err.None?
    ensures readme.ReadFailed? ==> !found && types == [] && err == Some("failed to read README")
    ensures readme.Text? ==> err.None? && types == ReadmeAssets(readme.content) && (found <==> types != [])
  {
    match readme {
      case Missing => return false, [], None;
      case ReadFailed => return false, [], Some("failed to read README");
      case Text(content) =>
        types := [];
        for i := 0 to |Triggers|
          invariant types == MarkedUpTo(content, i)
        {
          var trigger := Triggers[i];
          assert trigger == Marker(MarkedAssets[i]);
          if Contains(content, trigger) {
            MarkerDecodes(MarkedAssets[i]);
            var parts := Split(trigger, ':');
            if |parts| == 2 {
              var name := TrimSuffix(parts[1], " -->");
              if name in AssetMap {
                types := types + [AssetMap[name]];
              }
            }
          }
        }
        return |types| > 0, types, None;
    }
  }

  /** The folder a persona's GitHub files live in: lower case, spaces and slashes as `_`. */
  function GitHubFolder(personaName: string): string
  {
    MapChar(Lower(MapChar(personaName, ' ', '_')), '/', '_')
  }

  /** `checkGitHubPersonaForTriggers`. */
  function CheckGitHubPersona(personaName: string, gh: GitHubView, files: map<string, StatusFile>, now: int)
    : (r: Result<Option<Trigger>>)
    ensures var path := "personas/" + GitHubFolder(personaName) + "/synthesized.md";
      (!gh.fileExists(path) ==> r == Ok(None))
      && (r.Err? <==> gh.fileExists(path) && gh.fileModTime(path).Err?)
      && (gh.fileExists(path) && gh.fileModTime(path).Ok? && LoadFrom(files, personaName, now).Err? ==>
            r.Ok? && r.value.Some? && r.value.value.assetTypes == PromptAssets)
      && (gh.fileExists(path) && gh.fileModTime(path).Ok? && LoadFrom(files, personaName, now).Ok? ==>
            var st := LoadFrom(files, personaName, now).value;
            r.Ok?
            && (gh.fileModTime(path).value > st.lastAssetsGeneration ==>
                  r.value.Some? && r.value.value.assetTypes == PromptAssets)
            && (gh.fileModTime(path).value <= st.lastAssetsGeneration ==>
                  (r.value.Some? <==> st.pendingAssets != [])
                  && (r.value.Some? ==> r.value.value.assetTypes == st.pendingAssets)))
    ensures r.Ok? && r.value.Some? ==> r.value.value.personaName == personaName && r.value.value.assetTypes != []
  {
    var path := "personas/" + GitHubFolder(personaName) + "/synthesized.md";
    if !gh.fileExists(path) then Ok(None)
    else match gh.fileModTime(path)
      case Err(e) => Err("failed to get synthesized.md mod time for " + personaName + ": " + e)
      case Ok(modTime) =>
        match LoadFrom(files, personaName, now)
        case Err(_) => Ok(Some(Trigger(personaName, PromptAssets, "first generation for persona", now)))
        case Ok(st) =>
          if modTime > st.lastAssetsGeneration then
            Ok(Some(Trigger(personaName, PromptAssets, "synthesized.md file was modified in GitHub", now)))
          else if |st.pendingAssets| > 0 then
            Ok(Some(Trigger(personaName, st.pendingAssets, "pending assets detected", now)))
          else Ok(None)
  }

  /** The trigger `checkPersonaForTriggers` builds from a loaded status, the modified flag and a README. */
  function LocalTrigger(personaName: string, st: AssetStatus, modified: bool, readme: TextFile, now: int): (r: Option<Trigger>)
    ensures var extra := if readme.Text? then ReadmeAssets(readme.content) else [];
      (r.Some? <==> st.pendingAssets + extra != [])
      && (r.Some? ==> r.value.assetTypes == st.pendingAssets + extra && r.value.personaName == personaName)
  {
    var reason := if modified then "synthesized.md file was modified"
                  else if |st.pendingAssets| > 0 then "pending assets detected" else "";
    var types := if modified || |st.pendingAssets| > 0 then st.pendingAssets else [];
    var extra := if readme.Text? then ReadmeAssets(readme.content) else [];
    var fullReason :=
      if extra == [] then reason
      else if reason == "" then "README trigger markers detected"
      else reason + " and README trigger markers detected";
    if types + extra == [] then None else Some(Trigger(personaName, types + extra, fullReason, now))
  }

  /** `ProcessTriggers`, one asset: with the help of `cbs`, starting from store `files`. */
  function AssetStep(files: map<string, StatusFile>, personaName: string, asset: string,
                     cbs: map<string, Callback>, now: int): map<string, StatusFile>
  {
    if LoadFrom(files, personaName, now).Err? then files
    else
      var pending := PendingIn(files, personaName, asset, now);
      if asset in cbs && cbs[asset](personaName, asset).None? then GeneratedIn(pending, personaName, asset, now)
      else pending
  }

  /** `ProcessTriggers`, the assets of one trigger in order. */
  function AssetSteps(files: map<string, StatusFile>, personaName: string, assets: seq<string>,
                      cbs: map<string, Callback>, now: int): map<string, StatusFile>
  {
    if assets == [] then files
    else AssetStep(AssetSteps(files, personaName, assets[..|assets| - 1], cbs, now), personaName, assets[|assets| - 1], cbs, now)
  }

  /** `ProcessTriggers`, all triggers in order. */
  function TriggerSteps(files: map<string, StatusFile>, triggers: seq<Trigger>,
                        cbs: map<string, Callback>, now: int): map<string, StatusFile>
  {
    if triggers == [] then files
    else
      var t := triggers[|triggers| - 1];
      AssetSteps(TriggerSteps(files, triggers[..|triggers| - 1], cbs, now), t.personaName, t.assetTypes, cbs, now)
  }

  /**
   * One asset of a trigger, in a consistently keyed store that loads: the asset
   * ends up generated when a generator is registered and succeeds, and pending
   * otherwise; other personas' files are untouched.
   */
  lemma AssetStepEffect(files: map<string, StatusFile>, personaName: string, asset: string,
                        cbs: map<string, Callback>, now: int)
    requires Keyed(files) && LoadFrom(files, personaName, now).Ok?
    ensures var after := AssetStep(files, personaName, asset, cbs, now);
      Keyed(after) && personaName in after && after[personaName].Stored?
      && var st := after[personaName].status;
      (asset in cbs && cbs[asset](personaName, asset).None? ==>
         asset in st.generatedAssets && asset !in st.pendingAssets && Flags(st)[asset])
      && (!(asset in cbs && cbs[asset](personaName, asset).None?) ==>
         asset in st.pendingAssets && asset !in st.generatedAssets && !Flags(st)[asset])
      && forall k :: k != personaName ==> (k in after <==> k in files) && (k in files ==> after[k] == files[k])
  {
    PendingInEffect(files, personaName, asset, now);
    var pending := PendingIn(files, personaName, asset, now);
    if asset in cbs && cbs[asset](personaName, asset).None? {
      GeneratedInEffect(pending, personaName, asset, now);
    }
  }

  /** A store that is consistently keyed stays so through any number of trigger steps. */
  lemma {:induction false} AssetStepsKeyed(files: map<string, StatusFile>, personaName: string, assets: seq<string>,
                                           cbs: map<string, Callback>, now: int)
    requires Keyed(files)
    ensures Keyed(AssetSteps(files, personaName, assets, cbs, now))
  {
    if assets != [] {
      var before := AssetSteps(files, personaName, assets[..|assets| - 1], cbs, now);
      AssetStepsKeyed(files, personaName, assets[..|assets| - 1], cbs, now);
      if LoadFrom(before, personaName, now).Ok? {
        AssetStepEffect(before, personaName, assets[|assets| - 1], cbs, now);
      }
    }
  }

  /** Triggers for personas other than `p` never touch `p`'s status file. */
  lemma {:induction false} OtherPersonaUntouched(files: map<string, StatusFile>, personaName: string, assets: seq<string>,
                                                 cbs: map<string, Callback>, now: int, p: string)
    requires Keyed(files) && p != personaName
    ensures var after := AssetSteps(files, personaName, assets, cbs, now);
      (p in after <==> p in files) && (p in files ==> after[p] == files[p])
  {
    if assets != [] {
      var before := AssetSteps(files, personaName, assets[..|assets| - 1], cbs, now);
      OtherPersonaUntouched(files, personaName, assets[..|assets| - 1], cbs, now, p);
      AssetStepsKeyed(files, personaName, assets[..|assets| - 1], cbs, now);
      if LoadFrom(before, personaName, now).Ok? {
        AssetStepEffect(before, personaName, assets[|assets| - 1], cbs, now);
      }
    }
  }

  /** The trigger a GitHub persona yields, if its check succeeds with one. */
  function GitHubTriggerOf(name: string, gh: GitHubView, files: map<string, StatusFile>, now: int): seq<Trigger>
  {
    match CheckGitHubPersona(name, gh, files, now)
    case Ok(Some(t)) => [t]
    case _ => []
  }

  /** The GitHub scan over the listed personas: at most one trigger each, in listing order. */
  function GitHubTriggers(names: seq<string>, gh: GitHubView, files: map<string, StatusFile>, now: int)
    : (ts: seq<Trigger>)
    ensures |ts| <= |names|
  {
    if names == [] then []
    else GitHubTriggers(names[..|names| - 1], gh, files, now) + GitHubTriggerOf(names[|names| - 1], gh, files, now)
  }

  /** A trigger is reported exactly when some listed persona's check yields it. */
  lemma {:induction false} GitHubTriggersExactly(names: seq<string>, gh: GitHubView, files: map<string, StatusFile>,
                                                 now: int, t: Trigger)
    ensures t in GitHubTriggers(names, gh, files, now) <==>
      exists name :: name in names && CheckGitHubPersona(name, gh, files, now) == Ok(Some(t))
  {
    if names != [] {
      var front, last := names[..|names| - 1], names[|names| - 1];
      assert names == front + [last];
      GitHubTriggersExactly(front, gh, files, now, t);
      if t in GitHubTriggers(names, gh, files, now) && t !in GitHubTriggers(front, gh, files, now) {
        assert CheckGitHubPersona(last, gh, files, now) == Ok(Some(t));
      }
    }
  }

  /** `Monitor`. */
  class Monitor {
    const statusManager: StatusManager
    var callbacks: map<string, Callback>

    /** `NewMonitor`: no generator registered yet. */
    constructor(statusManager: StatusManager)
      ensures this.statusManager == statusManager && callbacks == map[]
    {
      this.statusManager := statusManager;
      callbacks := map[];
    }

    /** `RegisterCallback`: a later registration for the same type replaces the earlier one. */
    method RegisterCallback(assetType: string, callback: Callback)
      modifies this
      ensures callbacks == old(callbacks)[assetType := callback]
    {
      callbacks := callbacks[assetType := callback];
    }

    /** What `checkPersonaForTriggers` finds, when the synthesized file can be checked. */
    function LocalCheck(personaName: string, readme: TextFile, now: int): Option<Trigger>
      reads this, statusManager
      requires statusManager.CheckSynthesizedFileModified(personaName, now).Ok?
    {
      LocalTrigger(personaName, statusManager.LoadStatus(personaName, now).value,
                   statusManager.CheckSynthesizedFileModified(personaName, now).value, readme, now)
    }

    /** `checkPersonaForTriggers`: pending assets, then the README's, as one trigger. */
    method CheckPersonaForTriggers(personaName: string, readme: TextFile, now: int) returns (r: Result<Option<Trigger>>)
      ensures r.Err? <==> statusManager.CheckSynthesizedFileModified(personaName, now).Err?
      ensures r.Ok? ==> r.value == LocalCheck(personaName, readme, now)
    {
      var modified := statusManager.CheckSynthesizedFileModified(personaName, now);
      if modified.Err? {
        return Err("failed to check synthesized file: " + modified.error);
      }
      var status := statusManager.LoadStatus(personaName, now).value;
      var reason := "";
      var types: seq<string> := [];
      if modified.value {
        reason := "synthesized.md file was modified";
        types := status.pendingAssets;
      } else if |status.pendingAssets| > 0 {
        reason := "pending assets detected";
        types := status.pendingAssets;
      }
      var readmeTrigger, readmeAssets, readmeErr := CheckReadmeTriggers(readme);
      ghost var extra := if readme.Text? then ReadmeAssets(readme.content) else [];
      assert readmeErr.None? && readmeTrigger <==> extra != [];
      assert readmeErr.None? && readmeTrigger ==> readmeAssets == extra;
      if readmeErr.None? && readmeTrigger {
        if reason == "" {
          reason := "README trigger markers detected";
        } else {
          reason := reason + " and README trigger markers detected";
        }
        types := types + readmeAssets;
      }
      ghost var expected := LocalTrigger(personaName, status, modified.value, readme, now);
      assert types == (if modified.value || |status.pendingAssets| > 0 then status.pendingAssets else []) + extra;
      if |types| == 0 {
        return Ok(None);
      }
      assert expected.Some? && expected.value.assetTypes == types;
      assert expected.value.reason == reason;
      return Ok(Some(Trigger(personaName, types, reason, now)));
    }

    /** `scanGitHubForTriggers`: personas whose check fails are skipped. */
    method ScanGitHubForTriggers(gh: GitHubView, now: int) returns (r: Result<seq<Trigger>>)
      ensures gh.listFolders.Err? <==> r.Err?
      ensures gh.listFolders.Ok? ==> r == Ok(GitHubTriggers(gh.listFolders.value, gh, statusManager.files, now))
    {
      if gh.listFolders.Err? {
        return Err("failed to list persona folders from GitHub: " + gh.listFolders.error);
      }
      var names := gh.listFolders.value;
      var triggers: seq<Trigger> := [];
      for i := 0 to |names|
        invariant triggers == GitHubTriggers(names[..i], gh, statusManager.files, now)
      {
        assert names[..i + 1][..i] == names[..i];
        var trigger := CheckGitHubPersona(names[i], gh, statusManager.files, now);
        if trigger.Ok? && trigger.value.Some? {
          triggers := triggers + [trigger.value.value];
        }
      }
      assert names[..|names|] == names;
      return Ok(triggers);
    }

    /** The trigger a local directory entry yields, if it is a directory whose check succeeds with one. */
    function LocalTriggerOf(e: DirEntry, readmes: string -> TextFile, now: int): seq<Trigger>
      reads this, statusManager
    {
      if e.isDir && statusManager.CheckSynthesizedFileModified(e.name, now).Ok? then
        match LocalCheck(e.name, readmes(e.name), now)
        case Some(t) => [t]
        case None => []
      else []
    }

    /** The local scan over the directory entries: at most one trigger each, in listing order. */
    function LocalTriggers(entries: seq<DirEntry>, readmes: string -> TextFile, now: int): (ts: seq<Trigger>)
      reads this, statusManager
      ensures |ts| <= |entries|
    {
      if entries == [] then []
      else LocalTriggers(entries[..|entries| - 1], readmes, now) + LocalTriggerOf(entries[|entries| - 1], readmes, now)
    }

    /** A trigger is reported exactly when some directory's check yields it. */
    lemma {:induction false} LocalTriggersExactly(entries: seq<DirEntry>, readmes: string -> TextFile, now: int,
                                                  t: Trigger)
      ensures t in LocalTriggers(entries, readmes, now) <==>
        exists e :: e in entries && e.isDir
          && statusManager.CheckSynthesizedFileModified(e.name, now).Ok?
          && LocalCheck(e.name, readmes(e.name), now) == Some(t)
    {
      if entries != [] {
        var front, last := entries[..|entries| - 1], entries[|entries| - 1];
        assert entries == front + [last];
        LocalTriggersExactly(front, readmes, now, t);
        if t in LocalTriggers(entries, readmes, now) && t !in LocalTriggers(front, readmes, now) {
          assert t in LocalTriggerOf(last, readmes, now);
        }
      }
    }

    /**
     * `scanLocalForTriggers`: directories only, each with its README
     * (`readmes`); personas whose check fails are skipped.
     */
    method ScanLocalForTriggers(listing: Listing, readmes: string -> TextFile, now: int) returns (r: Result<seq<Trigger>>)
      ensures listing.NoDirectory? ==> r == Ok([])
      ensures listing.ListFailed? <==> r.Err?
      ensures listing.Entries? ==> r == Ok(LocalTriggers(listing.entries, readmes, now))
    {
      match listing {
        case NoDirectory => return Ok([]);
        case ListFailed => return Err("failed to read personas directory");
        case Entries(entries) =>
          var triggers := ScanEntries(entries, readmes, now);
          return Ok(triggers);
      }
    }

    /** The loop of `scanLocalForTriggers` over the directory entries. */
    method ScanEntries(entries: seq<DirEntry>, readmes: string -> TextFile, now: int) returns (triggers: seq<Trigger>)
      ensures triggers == LocalTriggers(entries, readmes, now)
    {
      triggers := [];
      for i := 0 to |entries|
        invariant triggers == LocalTriggers(entries[..i], readmes, now)
      {
        assert entries[..i + 1][..i] == entries[..i];
        var found := ScanEntry(entries[i], readmes, now);
        triggers := triggers + found;
      }
      assert entries[..|entries|] == entries;
    }

    /** One pass of the local scan's loop: files are skipped, and so are directories whose check fails. */
    method ScanEntry(entry: DirEntry, readmes: string -> TextFile, now: int) returns (found: seq<Trigger>)
      ensures found == LocalTriggerOf(entry, readmes, now)
    {
      if !entry.isDir {
        return [];
      }
      var trigger := CheckPersonaForTriggers(entry.name, readmes(entry.name), now);
      if trigger.Ok? && trigger.value.Some? {
        return [trigger.value.value];
      }
      return [];
    }

    /** `ProcessTriggers`: every asset is marked pending, then generated once its generator succeeds. */
    method ProcessTriggers(triggers: seq<Trigger>, now: int)
      modifies statusManager
      ensures statusManager.files == TriggerSteps(old(statusManager.files), triggers, callbacks, now)
      ensures statusManager.synthesized == old(statusManager.synthesized)
    {
      for i := 0 to |triggers|
        invariant statusManager.files == TriggerSteps(old(statusManager.files), triggers[..i], callbacks, now)
        invariant statusManager.synthesized == old(statusManager.synthesized)
      {
        assert triggers[..i + 1][..i] == triggers[..i];
        var trigger := triggers[i];
        ghost var start := statusManager.files;
        for j := 0 to |trigger.assetTypes|
          invariant statusManager.files == AssetSteps(start, trigger.personaName, trigger.assetTypes[..j], callbacks, now)
          invariant statusManager.synthesized == old(statusManager.synthesized)
        {
          assert trigger.assetTypes[..j + 1][..j] == trigger.assetTypes[..j];
          ProcessAsset(trigger.personaName, trigger.assetTypes[j], now);
        }
        assert trigger.assetTypes[..|trigger.assetTypes|] == trigger.assetTypes;
      }
      assert triggers[..|triggers|] == triggers;
    }

    /**
     * One asset of a trigger in `ProcessTriggers`: marked pending, and marked
     * generated when its registered generator succeeds.
     */
    method ProcessAsset(personaName: string, assetType: string, now: int)
      modifies statusManager
      ensures statusManager.files == AssetStep(old(statusManager.files), personaName, assetType, callbacks, now)
      ensures statusManager.synthesized == old(statusManager.synthesized)
    {
      var err := statusManager.MarkAssetPending(personaName, assetType, now);
      if err.Some? {
        return;
      }
      if assetType in callbacks {
        var callback := callbacks[assetType];
        var cbErr := callback(personaName, assetType);
        if cbErr.Some? {
          return;
        }
        var _ := statusManager.MarkAssetGenerated(personaName, assetType, now);
      }
    }
  }
}
