/**
 * The prompt service: the asset callbacks that generate prompts from a
 * persona's synthesized file and save them, the decision whether a persona
 * needs prompts, the manual trigger, and the statistics of a prompts folder.
 *
 * The persona's files are those of the repository manager; directory
 * listings and file times come in as values.
 */
module PromptService {
  import opened Wrappers
  import opened Str
  import opened PromptGenerator
  import PromptRepository
  import Assets
  import AssetMonitor

  type TimeFormats = PromptRepository.TimeFormats

  const ReadSynthesizedFailed := "failed to read synthesized persona: "
  const StatSynthesizedFailed := "failed to stat synthesized file: "
  const ReadDirFailed := "failed to read prompts directory: "

  /** The path of a persona's synthesized file, relative to the base directory. */
  function SynthesizedPath(personaName: string): string
  {
    PromptRepository.PersonaFolder(personaName) + "/synthesized.md"
  }

  /** The path of a persona's prompts folder. */
  function PromptsDir(personaName: string): string
  {
    PromptRepository.PersonaFolder(personaName) + "/prompts"
  }

  // ------------------------------------------------------- needing prompts

  /** What `os.Stat` says about a path. */
  datatype Stat = Missing | StatError(message: string) | Present(modTime: int)

  /**
   * `CheckPersonaNeedsPrompts`: no synthesized file means no prompts are
   * needed, no prompts folder means they are; otherwise they are needed
   * exactly when the synthesized file is newer. A prompts folder that cannot
   * be examined counts as needing prompts; a synthesized file that cannot is
   * an error.
   */
  function NeedsPrompts(synthesized: Stat, promptsDir: Stat): (r: Result<bool>)
    ensures synthesized.Missing? ==> r == Ok(false)
    ensures !synthesized.Missing? && promptsDir.Missing? ==> r == Ok(true)
    ensures r.Err? <==> synthesized.StatError? && !promptsDir.Missing?
    ensures r.Err? ==> r.error == StatSynthesizedFailed + synthesized.message
    ensures synthesized.Present? && promptsDir.Present? ==>
      r == Ok(synthesized.modTime > promptsDir.modTime)
    ensures synthesized.Present? && promptsDir.StatError? ==> r == Ok(true)
  {
    if synthesized.Missing? then Ok(false)
    else if promptsDir.Missing? then Ok(true)
    else if synthesized.StatError? then Err(StatSynthesizedFailed + synthesized.message)
    else if promptsDir.StatError? then Ok(true)
    else Ok(synthesized.modTime > promptsDir.modTime)
  }

  // ------------------------------------------------------------ statistics

  /** A directory listing: no directory, a failure to read it, or its entries. */
  datatype DirRead = NoDir | DirError(message: string) | DirEntries(entries: seq<AssetMonitor.DirEntry>)

  /** What `GetPromptGenerationStats` reports. */
  datatype Stats = Stats(
    personaName: string, promptsDir: string, promptsExist: bool,
    promptCount: nat, platformCount: nat, variationCount: nat, files: seq<string>)

  /** A file name that counts as a platform prompt. */
  predicate PlatformFile(name: string)
  {
    Contains(name, ChatGpt) || Contains(name, Claude) || Contains(name, Gemini)
    || Contains(name, Discord) || Contains(name, CharacterAi)
  }

  /** A file name that counts as a variation prompt, unless it counts as a platform one. */
  predicate VariationFile(name: string)
  {
    Contains(name, Condensed) || Contains(name, Alternative)
  }

  /** The names of the entries that are not directories, in order. */
  function FileNames(entries: seq<AssetMonitor.DirEntry>): (r: seq<string>)
    ensures |r| <= |entries|
    ensures forall n :: n in r <==> exists e :: e in entries && !e.isDir && e.name == n
  {
    if entries == [] then []
    else
      var last := entries[|entries| - 1];
      var init := entries[..|entries| - 1];
      assert forall e :: e in entries <==> e in init || e == last;
      FileNames(init) + (if last.isDir then [] else [last.name])
  }

  /** How many of `names` count as platform prompts. */
  function PlatformCount(names: seq<string>): nat
  {
    if names == [] then 0
    else PlatformCount(names[..|names| - 1]) + (if PlatformFile(names[|names| - 1]) then 1 else 0)
  }

  /** How many of `names` count as variation prompts. */
  function VariationCount(names: seq<string>): nat
  {
    if names == [] then 0
    else
      var last := names[|names| - 1];
      VariationCount(names[..|names| - 1]) + (if !PlatformFile(last) && VariationFile(last) then 1 else 0)
  }

  /** No file is counted twice: the two counts together are at most the number of files. */
  lemma {:induction false} CountsBounded(names: seq<string>)
    ensures PlatformCount(names) + VariationCount(names) <= |names|
  {
    if names != [] {
      CountsBounded(names[..|names| - 1]);
    }
  }

  /** The statistics of an existing prompts folder with `entries`. */
  function StatsOf(personaName: string, entries: seq<AssetMonitor.DirEntry>): (r: Stats)
    ensures r.promptsExist && r.promptCount == |r.files|
    ensures r.platformCount + r.variationCount <= r.promptCount
  {
    var files := FileNames(entries);
    CountsBounded(files);
    Stats(personaName, PromptsDir(personaName), true, |files|, PlatformCount(files), VariationCount(files), files)
  }

  /** The statistics of a persona without a prompts folder. */
  function NoStats(personaName: string): (r: Stats)
    ensures !r.promptsExist && r.promptCount == 0 && r.platformCount == 0 && r.variationCount == 0 && r.files == []
  {
    Stats(personaName, PromptsDir(personaName), false, 0, 0, 0, [])
  }

  /**
   * `GetPromptGenerationStats`: zero counts when there is no prompts folder,
   * an error when it cannot be read, and otherwise the counts of its files.
   */
  method GetPromptGenerationStats(personaName: string, listing: DirRead) returns (r: Result<Stats>)
    ensures listing.NoDir? ==> r == Ok(NoStats(personaName))
    ensures listing.DirError? ==> r == Err(ReadDirFailed + listing.message)
    ensures listing.DirEntries? ==> r == Ok(StatsOf(personaName, listing.entries))
  {
    match listing {
      case NoDir =>
        return Ok(NoStats(personaName));
      case DirError(e) =>
        return Err(ReadDirFailed + e);
      case DirEntries(entries) =>
        var files: seq<string> := [];
        var platformCount: nat := 0;
        var variationCount: nat := 0;
        for i := 0 to |entries|
          invariant files == FileNames(entries[..i])
          invariant platformCount == PlatformCount(files)
          invariant variationCount == VariationCount(files)
        {
          assert entries[..i + 1][..i] == entries[..i];
          var entry := entries[i];
          if entry.isDir {
            continue;
          }
          var filename := entry.name;
          assert (files + [filename])[..|files|] == files;
          files := files + [filename];
          if PlatformFile(filename) {
            platformCount := platformCount + 1;
          } else if VariationFile(filename) {
            variationCount := variationCount + 1;
          }
        }
        assert entries[..|entries|] == entries;
        CountsBounded(files);
        return Ok(Stats(personaName, PromptsDir(personaName), true, |files|, platformCount, variationCount, files));
    }
  }

  // ------------------------------------------------------------- the service

  /** Generating each of `types` and keeping the results that came through, in order. */
  function Kept(tools: PromptTools, personaName: string, content: string, types: seq<PromptType>,
                clock: nat -> int): seq<PromptResult>
  {
    Succeeded(Attempts(tools, personaName, content, types, clock, false))
  }

  /** What is kept is what came through: the attempts that did not fail, and nothing else. */
  lemma KeptSucceeded(tools: PromptTools, personaName: string, content: string, types: seq<PromptType>,
                      clock: nat -> int, x: PromptResult)
    ensures x in Kept(tools, personaName, content, types, clock) <==>
      exists i :: 0 <= i < |types| && GeneratePrompt(tools, personaName, content, types[i], clock(i)) == Ok(x)
  {
    var attempts := Attempts(tools, personaName, content, types, clock, false);
    if x in Kept(tools, personaName, content, types, clock) {
      var i :| 0 <= i < |attempts| && attempts[i] == x;
      assert GeneratePrompt(tools, personaName, content, types[i], clock(i)) == Ok(x);
    }
    if exists i :: 0 <= i < |types| && GeneratePrompt(tools, personaName, content, types[i], clock(i)) == Ok(x) {
      var i :| 0 <= i < |types| && GeneratePrompt(tools, personaName, content, types[i], clock(i)) == Ok(x);
      assert attempts[i] == x;
    }
  }

  /** The persona's prompts pending after `TriggerPromptGeneration` marks them (unchanged where loading fails). */
  function MarkedPending(files: map<string, Assets.StatusFile>, personaName: string, now: int)
    : map<string, Assets.StatusFile>
  {
    var withAll := Assets.PendingIn(files, personaName, Assets.Prompts, now);
    var withPlatform := Assets.PendingIn(withAll, personaName, Assets.PlatformPrompts, now);
    Assets.PendingIn(withPlatform, personaName, Assets.VariationPrompts, now)
  }

  /** When the status can be loaded, all three prompt assets end up pending and none of them generated. */
  lemma MarkedAllPending(files: map<string, Assets.StatusFile>, personaName: string, now: int)
    requires Assets.Keyed(files) && Assets.LoadFrom(files, personaName, now).Ok?
    ensures var after := MarkedPending(files, personaName, now);
      personaName in after && after[personaName].Stored?
      && var st := after[personaName].status;
      Assets.Prompts in st.pendingAssets && Assets.PlatformPrompts in st.pendingAssets
      && Assets.VariationPrompts in st.pendingAssets
      && Assets.Prompts !in st.generatedAssets && Assets.PlatformPrompts !in st.generatedAssets
      && Assets.VariationPrompts !in st.generatedAssets
  {
    var withAll := Assets.PendingIn(files, personaName, Assets.Prompts, now);
    Assets.PendingInEffect(files, personaName, Assets.Prompts, now);
    var withPlatform := Assets.PendingIn(withAll, personaName, Assets.PlatformPrompts, now);
    Assets.PendingInEffect(withAll, personaName, Assets.PlatformPrompts, now);
    Assets.PendingInEffect(withPlatform, personaName, Assets.VariationPrompts, now);
  }

  /** `Service`, over the repository manager it saves through and the generator's tools. */
  class Service {
    const repository: PromptRepository.RepositoryManager
    const tools: PromptTools

    constructor(repository: PromptRepository.RepositoryManager, tools: PromptTools)
      ensures this.repository == repository && this.tools == tools
    {
      this.repository := repository;
      this.tools := tools;
    }

    /** Reading the persona's synthesized file. */
    function Synthesized(personaName: string): (r: Result<string>)
      reads repository
      ensures r.Ok? <==> SynthesizedPath(personaName) in repository.files
      ensures r.Ok? ==> r.value == repository.files[SynthesizedPath(personaName)]
      ensures r.Err? ==> HasPrefix(r.error, ReadSynthesizedFailed)
    {
      var path := SynthesizedPath(personaName);
      if path in repository.files then Ok(repository.files[path])
      else
        var e := ReadSynthesizedFailed + "open " + path + ": no such file or directory";
        assert e[..|ReadSynthesizedFailed|] == ReadSynthesizedFailed;
        Err(e)
    }

    /**
     * `GenerateAllPrompts` (the callback for the `prompts` asset): all seven
     * types are generated, failures kept, and saved; a missing synthesized
     * file is an error, and then nothing changes.
     */
    method GenerateAllPrompts(personaName: string, clock: nat -> int, tf: TimeFormats, now: int)
      returns (err: Option<string>)
      modifies repository, repository.statusManager
      ensures old(Synthesized(personaName)).Err? ==>
        err == Some(old(Synthesized(personaName)).error)
        && repository.files == old(repository.files)
        && repository.statusManager.files == old(repository.statusManager.files)
      ensures old(Synthesized(personaName)).Ok? ==>
        var results := Attempts(tools, personaName, old(Synthesized(personaName)).value, AllPromptTypes, clock, false);
        err.None?
        && repository.files == PromptRepository.SavedFiles(old(repository.files), personaName, results, tf, now)
        && repository.statusManager.files
           == PromptRepository.SavedStatuses(old(repository.statusManager.files), personaName, results, tf, now)
      ensures repository.statusManager.synthesized == old(repository.statusManager.synthesized)
    {
      var synthesized := Synthesized(personaName);
      if synthesized.Err? {
        return Some(synthesized.error);
      }
      var results := PromptGenerator.GenerateAllPrompts(tools, personaName, synthesized.value, clock);
      repository.SavePromptResults(personaName, results, tf, now);
      return None;
    }

    /** `GeneratePlatformPrompts` (the callback for `platform_prompts`): the five platform types, failures dropped. */
    method GeneratePlatformPrompts(personaName: string, clock: nat -> int, tf: TimeFormats, now: int)
      returns (err: Option<string>)
      modifies repository, repository.statusManager
      ensures old(Synthesized(personaName)).Err? ==>
        err == Some(old(Synthesized(personaName)).error)
        && repository.files == old(repository.files)
        && repository.statusManager.files == old(repository.statusManager.files)
      ensures old(Synthesized(personaName)).Ok? ==>
        var results := Kept(tools, personaName, old(Synthesized(personaName)).value, PlatformTypes, clock);
        err.None?
        && repository.files == PromptRepository.SavedFiles(old(repository.files), personaName, results, tf, now)
        && repository.statusManager.files
           == PromptRepository.SavedStatuses(old(repository.statusManager.files), personaName, results, tf, now)
      ensures repository.statusManager.synthesized == old(repository.statusManager.synthesized)
    {
      err := GenerateAndSave(personaName, PlatformTypes, clock, tf, now);
    }

    /** `GenerateVariationPrompts` (the callback for `variation_prompts`): the two variation types, failures dropped. */
    method GenerateVariationPrompts(personaName: string, clock: nat -> int, tf: TimeFormats, now: int)
      returns (err: Option<string>)
      modifies repository, repository.statusManager
      ensures old(Synthesized(personaName)).Err? ==>
        err == Some(old(Synthesized(personaName)).error)
        && repository.files == old(repository.files)
        && repository.statusManager.files == old(repository.statusManager.files)
      ensures old(Synthesized(personaName)).Ok? ==>
        var results := Kept(tools, personaName, old(Synthesized(personaName)).value, VariationTypes, clock);
        err.None?
        && repository.files == PromptRepository.SavedFiles(old(repository.files), personaName, results, tf, now)
        && repository.statusManager.files
           == PromptRepository.SavedStatuses(old(repository.statusManager.files), personaName, results, tf, now)
      ensures repository.statusManager.synthesized == old(repository.statusManager.synthesized)
    {
      err := GenerateAndSave(personaName, VariationTypes, clock, tf, now);
    }

    /** The body shared by the platform and the variation callbacks. */
    method GenerateAndSave(personaName: string, types: seq<PromptType>, clock: nat -> int, tf: TimeFormats, now: int)
      returns (err: Option<string>)
      modifies repository, repository.statusManager
      ensures old(Synthesized(personaName)).Err? ==>
        err == Some(old(Synthesized(personaName)).error)
        && repository.files == old(repository.files)
        && repository.statusManager.files == old(repository.statusManager.files)
      ensures old(Synthesized(personaName)).Ok? ==>
        var results := Kept(tools, personaName, old(Synthesized(personaName)).value, types, clock);
        err.None?
        && repository.files == PromptRepository.SavedFiles(old(repository.files), personaName, results, tf, now)
        && repository.statusManager.files
           == PromptRepository.SavedStatuses(old(repository.statusManager.files), personaName, results, tf, now)
      ensures repository.statusManager.synthesized == old(repository.statusManager.synthesized)
    {
      var synthesized := Synthesized(personaName);
      if synthesized.Err? {
        return Some(synthesized.error);
      }
      var results := KeepGenerated(personaName, synthesized.value, types, clock);
      repository.SavePromptResults(personaName, results, tf, now);
      return None;
    }

    /** The loop of the platform and variation callbacks: a type that fails is skipped. */
    method KeepGenerated(personaName: string, content: string, types: seq<PromptType>, clock: nat -> int)
      returns (results: seq<PromptResult>)
      ensures results == Kept(tools, personaName, content, types, clock)
    {
      results := [];
      for i := 0 to |types|
        invariant results == Kept(tools, personaName, content, types[..i], clock)
      {
        var attempts := Attempts(tools, personaName, content, types[..i + 1], clock, false);
        assert attempts[..i] == Attempts(tools, personaName, content, types[..i], clock, false);
        var result := GeneratePrompt(tools, personaName, content, types[i], clock(i));
        if result.Err? {
          continue;
        }
        results := results + [result.value];
      }
      assert types[..|types|] == types;
    }

    /**
     * `RegisterCallbacks`: three generators go under the three prompt
     * assets. A monitor callback is a pure function here, so `all`,
     * `platform` and `variation` are whatever the caller passes: the prompt
     * files, README and status file that this service's generators write
     * are not part of what a callback does.
     */
    method RegisterCallbacks(monitor: AssetMonitor.Monitor, all: AssetMonitor.Callback,
                             platform: AssetMonitor.Callback, variation: AssetMonitor.Callback)
      modifies monitor
      ensures monitor.callbacks
              == old(monitor.callbacks)[Assets.Prompts := all][Assets.PlatformPrompts := platform]
                                       [Assets.VariationPrompts := variation]
    {
      monitor.RegisterCallback(Assets.Prompts, all);
      monitor.RegisterCallback(Assets.PlatformPrompts, platform);
      monitor.RegisterCallback(Assets.VariationPrompts, variation);
    }

    /**
     * `TriggerPromptGeneration`: mark the three prompt assets pending, going
     * on when marking fails, then generate all prompts.
     */
    method TriggerPromptGeneration(personaName: string, clock: nat -> int, tf: TimeFormats, now: int)
      returns (err: Option<string>)
      modifies repository, repository.statusManager
      ensures var marked := MarkedPending(old(repository.statusManager.files), personaName, now);
        (old(Synthesized(personaName)).Err? ==>
          err == Some(old(Synthesized(personaName)).error)
          && repository.files == old(repository.files)
          && repository.statusManager.files == marked)
        && (old(Synthesized(personaName)).Ok? ==>
          var results := Attempts(tools, personaName, old(Synthesized(personaName)).value, AllPromptTypes, clock, false);
          err.None?
          && repository.files == PromptRepository.SavedFiles(old(repository.files), personaName, results, tf, now)
          && repository.statusManager.files == PromptRepository.SavedStatuses(marked, personaName, results, tf, now))
    {
      var statusManager := repository.statusManager;
      var _ := statusManager.MarkAssetPending(personaName, Assets.Prompts, now);
      var _ := statusManager.MarkAssetPending(personaName, Assets.PlatformPrompts, now);
      var _ := statusManager.MarkAssetPending(personaName, Assets.VariationPrompts, now);
      err := GenerateAllPrompts(personaName, clock, tf, now);
    }
  }
}
