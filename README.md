# studio persona and prompt core, modelled in Dafny

This project models the core of `studio`. `studio` turns GitHub issues that ask for a persona into persona
documents. The documents are generated by several LLM providers, combined by a synthesizer and proposed in
pull requests. A second stage turns those personas into prompts. The model covers:

- **Issue parsing** (`IssueParser`): the persona name from the issue title; the description, details and
  user persona between their markers, with the whole-body fallback.
- **Persona naming and the batch pipeline** (`PersonaNames`, `Batch`): batch keys, aliases, and the
  line-based batch ledger.
- **The persona pipelines** (`Pipelines`, `StructuredPipeline`, `UpdatePersona`, `Feedback`):
  - which issues are processed, which are skipped or failed, and how labels and comments are written back;
  - feedback collection, regeneration with feedback, and the structured folder pull requests.
- **Multi-provider generation** (`MultiProvider`, `EnhancedGenerator`, `Synthesizer`):
  - fan-out to the providers, counting successes;
  - placeholder substitution into the combination templates;
  - the synthesized persona and its platform variants.
- **Pull request plumbing** (`StructuredPr`, `PromptPr`): branch names, file plans, titles, bodies and the
  PR-exists guard.
- **Asset status and monitoring** (`Assets`, `AssetMonitor`): the per-persona status record; the
  load-modify-save manager; trigger detection and callback registration.
- **Prompt generation** (`PromptGenerator`, `PromptRepository`, `PromptService`, `PromptGitHubService`):
  - prompt kinds, platform and variation tables, and the prompt file layout;
  - the "needs prompts" decision, and prompt generation with its pull requests;
  - the PR tracking ledger (`PrTracking`) that decides whether a new prompt PR is due.

The GitHub API, the LLM providers, the file system, the clock and JSON/RFC 3339 codecs are parameters of the
model (functions, maps or values passed in), so every operation is a pure function or a method over explicit
state. Objects whose fields the Go code updates (the PR tracker, the status manager, the asset monitor, the
pipelines and services) are classes with `modifies` frames. Strings are `seq<char>`, and the Go string helpers
the core relies on live in `Str`. The optional and result values are in `Wrappers`.

Behaviour kept as the code has it, though a reader might expect otherwise:

- A tracked prompt PR that is closed or merged answers "no pending PR". A status lookup that fails counts as
  pending (internal/prompts/pr_tracking.go:53-70).
- Batch keys of aliased personas contain `|`. The ledger reload splits at the first `|`, so such keys do not
  read back as written (internal/pipeline/batch_pipeline.go:331-366).
- The synthesizer's built-in combination template has no `{{PERSONAS}}` placeholder. Without a template file,
  the provider outputs never reach the synthesis prompt (`Synthesizer.MissingPromptFileDropsOutputs`).
- Regeneration with structured feedback combines the provider outputs with the plain combination prompt, not
  the feedback one.
- In feedback rounds, persona names with a hyphen lose their package folder
  (`StructuredPipeline.HyphenatedNameMissesFolder`).
- The parser's example program, test_parser.go, expects its case 3 to fail when the markers are
  missing. The parser does not fail there: it falls back to the whole body, and the model does the same.

## Model

| member | source | states |
|---|---|---|
| `PrTracking.GetContentHash` | internal/prompts/pr_tracking.go:118-127 | The hash as written (byte length, then the first and last byte as characters) is `"empty"` exactly when the content is empty |
| `PrTracking.GetContentHashLengths` | internal/prompts/pr_tracking.go:118-127 | Contents of different lengths in bytes never share a hash |
| `PrTracking.ContentHash` | internal/prompts/pr_tracking.go:118-127 | Corrected hash (byte length, then the first and last byte as decimal codes): `"empty"` exactly for empty content; never holds a tab or newline and never ends in white space, so it fits one records-file field |
| `PrTracking.ContentHashLengths` | internal/prompts/pr_tracking.go:118-127 | The corrected hash also separates contents of different byte lengths |
| `PrTracking.RecordLineParses` | internal/prompts/pr_tracking.go:201-253 | A storable record's tab-joined five-field line has no newline and parses back to the same record |
| `PrTracking.ParsedStorable` | internal/prompts/pr_tracking.go:201-231 | Any line that `loadPRRecords` accepts yields a storable record |
| `PrTracking.LoadTrailingBlank` | internal/prompts/pr_tracking.go:202-205 | A blank line adds no record |
| `PrTracking.LoadTextWellFormed` | internal/prompts/pr_tracking.go:187-235 | Whatever the file holds, the loaded map files each record under its own persona name and all records are storable |
| `PrTracking.Enumerate` | internal/prompts/pr_tracking.go:247-255 | Ranging over the records map lists every record once under its own key, in some order |
| `PrTracking.SaveLoad` | internal/prompts/pr_tracking.go:199-260 | Saving a well-keyed map of storable records, in any enumeration order, and loading the text gives back the same map |
| `PrTracking.HashLostOnReload` | internal/prompts/pr_tracking.go:125 | As written: a record tracked with the hash of content ending in a newline reloads with a different hash than the content's own |
| `PrTracking.ContentHashSurvivesReload` | internal/prompts/pr_tracking.go:118-127 | With the corrected hash, a tracked record saves and reloads unchanged |
| `PrTracking.PrTracker.constructor` | internal/prompts/pr_tracking.go:31-36 | A tracker starts over the records file as it is on disk, with a time format and parser that read each other back |
| `PrTracking.PrTracker.RecordsWellFormed` | internal/prompts/pr_tracking.go:187-236 | Whatever the file holds, the records read from it are keyed by their own persona names, and each of them is written as a line that reads back as the same record |
| `PrTracking.PrTracker.Save` | internal/prompts/pr_tracking.go:238-267 | The file holds the map's records in some order; for storable records, reading it back gives the map |
| `PrTracking.PrTracker.TrackPR` | internal/prompts/pr_tracking.go:81-100 | Only the persona's record is inserted or overwritten, stamped with the current time |
| `PrTracking.PrTracker.RemovePR` | internal/prompts/pr_tracking.go:103-115 | Exactly that persona's key is deleted from the records read back, and the records file exists afterwards |
| `PrTracking.PrTracker.HasPendingPR` | internal/prompts/pr_tracking.go:39-78 | No record: not pending, file untouched. Closed or merged: record removed, not pending. Failed query or no status capability: pending with the record, file untouched |
| `PrTracking.PrTracker.ShouldCreatePR` | internal/prompts/pr_tracking.go:130-158 | No record: (true, `no_pending_pr`), ledger unchanged. Closed or merged: record deleted, (true, `no_pending_pr`). Open with a different hash: record deleted, (true, `content_changed`). Open with an equal hash: (false, `pending_pr_<n>`), ledger unchanged. Never an error |
| `PrTracking.PrTracker.CleanupOldRecords` | internal/prompts/pr_tracking.go:161-184 | Exactly the records created before `now - maxAge` are deleted; the file is rewritten only when something was removed |
| `PrTracking.KeepRecent` | internal/prompts/pr_tracking.go:167-177 | The loop keeps exactly the `Recent` records (created at or after the cutoff), and reports a drop exactly when the kept map differs |
| `PrTracking.PrTracker.CleanupMergedPRs` | internal/prompts/pr_tracking.go:275-307 | Exactly the records whose pull request the client reports closed or merged are deleted; query failures keep the record |
| `PrTracking.KeepUnfinished` | internal/prompts/pr_tracking.go:281-300 | The loop keeps exactly the records not reported closed or merged and reports whether any was dropped |
| `PrTracking.GetContentHashEdges` | internal/prompts/pr_tracking.go:118-127 | Two contents share the hash as written exactly when both are empty or they agree on byte length and on the first and last byte |
| `PrTracking.ContentHashEdges` | internal/prompts/pr_tracking.go:118-127 | The corrected hash compares exactly the same three facts |
| `PrTracking.SameHashDecisions` | internal/prompts/pr_tracking.go:118-127 | The corrected hash and the hash as written agree on every equality test, so every in-memory decision is the same with either |
| `PrTracking.LostHashStem` | internal/prompts/pr_tracking.go:125 | Content ending in a newline (and starting with neither a tab nor a newline) hashes, as written, to a plain field ending in `-` followed by a newline |
| `PrTracking.PrTracker.SaveIfCleaned` | internal/prompts/pr_tracking.go:179-181 | The records become the kept map; the file is rewritten (and then holds them) only when something was dropped |
| `PersonaNames.ParsePersonaName` | internal/pipeline/persona_name.go:17-51 | Fails, with `"empty name"`, exactly when the input is blank after trimming; every other input parses |
| `PersonaNames.AliasMatch` | internal/pipeline/persona_name.go:24-25 | A match of `^([^(]+)\s*\(([^)]+)\)\s*$` has a non-empty first group without `(` and a non-empty second group without `)` |
| `PersonaNames.AkaSearch` | internal/pipeline/persona_name.go:34-35 | The lazy first group of `^(.+?)\s+aka\s+(.+)$` is the shortest prefix for which the rest of the pattern matches |
| `PersonaNames.AliasForm` | internal/pipeline/persona_name.go:24-31 | `"A(B)"` parses to primary trim(A), real trim(B) and the trimmed input as full name |
| `PersonaNames.NoAliasWithoutParen` | internal/pipeline/persona_name.go:24-25 | Without `(` the alias pattern does not match |
| `PersonaNames.AkaForm` | internal/pipeline/persona_name.go:34-43 | `"R aka A"` parses to primary A, real R and full name `"A (R)"` |
| `PersonaNames.AkaSameAsAlias` | internal/pipeline/persona_name.go:24-43 | `"R aka A"` and `"A (R)"` parse to identical fields |
| `PersonaNames.MrBeast` | internal/pipeline/persona_name.go:23-43 | `"Jimmy Donaldson aka MrBeast"` and `"MrBeast (Jimmy Donaldson)"` parse to the same persona, with tracking key `MrBeast\|Jimmy Donaldson` |
| `PersonaNames.BareName` | internal/pipeline/persona_name.go:46-56 | A bare name has primary = real = full, no alias, and is its own tracking key |
| `PersonaNames.GetTrackingKey` | internal/pipeline/persona_name.go:116-121 | The key is the primary name alone without an alias and primary `\|` real with one |
| `PersonaNames.TrackingKeyPrimary` | internal/pipeline/persona_name.go:116-121 | When the primary name has no `\|`, splitting the key at its first `\|` gives back the primary name, and the split has two parts exactly when the name is aliased |
| `PersonaNames.GetPromptDescription` | internal/pipeline/persona_name.go:80-85 | Starts with the primary name, and is the primary name alone exactly when there is no alias |
| `PersonaNames.GetDirectoryName` | internal/pipeline/persona_name.go:88-113 | No longer than the primary name; holds no upper-case letter and none of the characters the replacer maps to `_` or deletes |
| `PersonaNames.ReplaceDirCharsIdentity` | internal/pipeline/persona_name.go:93-112 | The replacer leaves a string that holds none of its characters unchanged |
| `PersonaNames.SearchVariations` | internal/pipeline/persona_name.go:59-77 | 2 entries without an alias and 8 with one; the first is the primary name, and the second half is the lowercase of the first half, in order |
| `PersonaNames.GetSearchVariations` | internal/pipeline/persona_name.go:59-77 | The loop builds exactly `SearchVariations` |
| `Batch.ValidatePersonaName` | internal/pipeline/batch_pipeline.go:162-182 | Accepts exactly when the primary name is 2 to 100 bytes of UTF-8 (Go's `len`) and, for an alias, the real name is too |
| `Batch.SanitizeForPath` | internal/pipeline/batch_pipeline.go:293-308 | The chain of replacements computes `Sanitized`: each of space `/ \ : * ? " < > \|` becomes `_`, everything else is lowercased |
| `Batch.SanitizedClean` | internal/pipeline/batch_pipeline.go:293-308 | The sanitized name has the input's length, no upper-case letter and none of the replaced characters |
| `Batch.SanitizedIdempotent` | internal/pipeline/batch_pipeline.go:293-308 | Sanitizing twice is sanitizing once |
| `Batch.SavedLine` | internal/pipeline/batch_pipeline.go:360-366 | The saved line starts with the tracking key and differs from it exactly for an aliased name |
| `Batch.LoadLine` | internal/pipeline/batch_pipeline.go:324-340 | Loading a line only adds keys |
| `Batch.AliasKeyNeverReloaded` | internal/pipeline/batch_pipeline.go:331-366 | An aliased tracking key holds `\|`, so it is never among the keys read back from the file, whatever the file holds |
| `Batch.SaveThenLoad` | internal/pipeline/batch_pipeline.go:310-370 | Appending a line to a file of complete lines reads back as one more line |
| `Batch.SavedLineReload` | internal/pipeline/batch_pipeline.go:331-366 | A saved line reloads under the primary name; a bare name comes back under its own key, an alias under the primary name with `Real\|Full` as the stored full name |
| `Batch.BareNameSurvivesReload` | internal/pipeline/batch_pipeline.go:310-370 | A bare name without `\|` saved to the file is found under its tracking key after reload |
| `Batch.CheckPersonaExists` | internal/pipeline/batch_pipeline.go:184-249 | True exactly when some search variation's sanitized synthesized path exists or, for an alias, the code search succeeds with a synthesized-file hit; a failed search answers false |
| `Batch.BatchDescription` | internal/pipeline/batch_pipeline.go:252-258 | The generated issue body starts with the batch request line holding the prompt description |
| `Batch.GeneratePersona` | internal/pipeline/batch_pipeline.go:251-291 | Generation gets the full name as title and `BatchDescription` as body; succeeds exactly when generation succeeds and the pull request is created or already exists |
| `Batch.CandidatesValid` | internal/pipeline/batch_pipeline.go:61-84 | Every name that reaches processing is valid and was parsed from a non-blank line that does not start with `#` |
| `Batch.ReadBatchNames` | internal/pipeline/batch_pipeline.go:58-84 | The reading loop yields exactly the candidate names, in file order |
| `Batch.StepMarks` | internal/pipeline/batch_pipeline.go:100-141 | Marks are only added; a name is marked and appended to the file exactly when it already existed or was generated; a skipped or failed name changes neither |
| `Batch.ProcessedKeySkipped` | internal/pipeline/batch_pipeline.go:100-106 | Without force, a key already processed is skipped and only the skip count changes |
| `Batch.ForceIgnoresLedger` | internal/pipeline/batch_pipeline.go:102-109 | With force, the processed keys and the existence check are not consulted: the name is generated or fails |
| `Batch.ForcedRunNeverSkips` | internal/pipeline/batch_pipeline.go:97-150 | A forced run never skips a name |
| `Batch.RunCounts` | internal/pipeline/batch_pipeline.go:93-150 | Every name is counted once as success, skip or error, and no key is ever unmarked |
| `Batch.BatchPipeline.constructor` | internal/pipeline/batch_pipeline.go:30-47 | The processed names and full names are those the file holds; a missing file holds none |
| `Batch.BatchPipeline.LoadProcessedNames` | internal/pipeline/batch_pipeline.go:310-344 | Each non-blank line adds the key before its first `\|`, and the rest as its stored full name when there is one |
| `Batch.BatchPipeline.SaveProcessedName` | internal/pipeline/batch_pipeline.go:346-370 | Appends exactly the saved line and a newline |
| `Batch.BatchPipeline.HandleName` | internal/pipeline/batch_pipeline.go:97-144 | One iteration of the processing loop performs exactly `Step` on the pipeline's state and counters |
| `Batch.BatchPipeline.ProcessFile` | internal/pipeline/batch_pipeline.go:49-160 | A file that cannot be opened fails with `failed to open file: …` and a scanner failure with `error reading file: …`, both before any name is handled and with nothing changed; otherwise no error, and the run's state and counts are those of handling the candidate names in order |
| `Batch.WideLetterLongEnough` | internal/pipeline/batch_pipeline.go:164-166 | A primary name of one two-byte letter passes the minimum, because `len` counts bytes |
| `Batch.BatchPipeline.LoadOne` | internal/pipeline/batch_pipeline.go:325-340 | One ledger line updates the names and aliases exactly as `LoadLine` says |
| `Batch.ReadBatchLine` | internal/pipeline/batch_pipeline.go:60-80 | One batch line yields `LineCandidate`: nothing for a blank line, a comment or a name that fails to parse or validate, else that name |
| `IssueParser.TitleMatchAt` | internal/parser/issue_parser.go:63 | The capture of `(?i)create\s+persona:\s*(.+)` at one position is non-empty and holds no newline |
| `IssueParser.TitleSearch` | internal/parser/issue_parser.go:63-64 | The leftmost position where the pattern matches gives the capture; no match means no position matches |
| `IssueParser.ExtractFullNameFromTitle` | internal/parser/issue_parser.go:61-76 | Succeeds exactly when the pattern matches with a non-blank capture; the name is then non-empty, trimmed and on one line |
| `IssueParser.NoCreateRejected` | internal/parser/issue_parser.go:63-68 | A title without "create" in any letter case is rejected |
| `IssueParser.PlainTitleRejected` | internal/parser/issue_parser.go:61-76 | `"David Attenborough Persona"` is rejected |
| `IssueParser.StandardTitle` | internal/parser/issue_parser.go:61-76 | `"Create Persona: " + name` yields the name, for a trimmed one-line name |
| `IssueParser.Between` | internal/parser/issue_parser.go:84-136 | Fails exactly when a marker is missing or the last end marker is not after the first start marker; otherwise gives the trimmed text between them |
| `IssueParser.MarkersApart` | internal/parser/issue_parser.go:94-135 | An end marker that lies after a start marker lies at least three characters later, so the slice is in range |
| `IssueParser.ExtractDetailedContent` | internal/parser/issue_parser.go:79-112 | Succeeds exactly when the text between `<<<` and `>>>` is non-empty and holds `**` or `:`, and then gives that text |
| `IssueParser.ExtractUserPersona` | internal/parser/issue_parser.go:115-142 | Succeeds exactly when the text between `[[[` and `]]]` is non-empty and not the template placeholder, and then gives that text |
| `IssueParser.ParsePersonaIssue` | internal/parser/issue_parser.go:20-58 | A nil title is an error; success exactly when the title names a persona; a nil or empty body gives empty fields; otherwise the raw body is kept, detailed content falls back to the whole trimmed body, and the user persona to `""` |
| `IssueParser.MissingMarkersUseWholeBody` | internal/parser/issue_parser.go:36-45 | A body without `<<<` is not an error: the detailed content is the whole trimmed body |
| `IssueParser.FormatForPrompt` | internal/parser/issue_parser.go:146-161 | Without detailed content, the name-only text; in every case the output contains the full name, and the detailed content verbatim when there is some |
| `IssueParser.GetParsingErrorComment` | internal/parser/issue_parser.go:164-193 | The comment starts with the fixed heading and contains the error's text |
| `UpdatePersona.UpdateContent` | internal/pipeline/update_persona.go:88-103 | With `[[[` before a later `]]]`, the trimmed text between the first `[[[` and the last `]]]` (always in range); otherwise the whole trimmed body |
| `UpdatePersona.ParseUpdateRequest` | internal/pipeline/update_persona.go:60-113 | Succeeds exactly when the lowercase title starts with `update persona:`, the text after the first colon is not blank, the body is present and non-empty and the extracted persona is non-empty; the name is that text trimmed |
| `UpdatePersona.FirstColon` | internal/pipeline/update_persona.go:67-72 | A title accepted by the prefix test has its first colon at index 14, so the name is everything after it |
| `UpdatePersona.StandardUpdate` | internal/pipeline/update_persona.go:60-113 | `"Update Persona:" + name` with a usable body gives the trimmed name and the extracted persona |
| `UpdatePersona.UnmarkedBody` | internal/pipeline/update_persona.go:100-103 | A body without `[[[` is used whole, trimmed |
| `UpdatePersona.ProcessPersonaUpdate` | internal/pipeline/update_persona.go:18-57 | The steps run are a prefix of fetch, synthesize, create PR; the update stops at the first failing step and succeeds exactly when all three succeed |
| `UpdatePersona.UpdateUsesFetchedPersona` | internal/pipeline/update_persona.go:22-53 | The pull request is made from the persona that was fetched and the text synthesized from it |
| `Feedback.ContainsFeedbackKeywords` | internal/persona/generator.go:167-197 | True exactly when the lowercased comment contains one of the 17 keywords |
| `Feedback.KeywordsIgnoreCase` | internal/persona/generator.go:168 | Letter case does not affect the keyword test |
| `Feedback.KeywordInside` | internal/persona/generator.go:167-197 | Any text that contains a keyword counts as feedback |
| `Feedback.FeedbackOf` | internal/persona/generator.go:143-165 | Never longer than the comment list |
| `Feedback.AnalyzeComments` | internal/persona/generator.go:143-165 | Returns, in order, the bodies of the comments that are present, do not contain `Studio` (case-sensitive) and contain a keyword |
| `Feedback.FeedbackIsSubsequence` | internal/persona/generator.go:143-165 | The result is the bodies of exactly the feedback comments at strictly increasing positions: a subsequence of the comment bodies |
| `Feedback.FormatFeedback` | internal/persona/generator.go:131-141 | No feedback gives `"No specific feedback provided."`; otherwise the concatenation of `"<i>. <comment>\n"` from i = 1 |
| `Feedback.EveryCommentNumbered` | internal/persona/generator.go:137-139 | Each comment appears in the text on its own line numbered by its position |
| `Pipelines.IssueLine` | internal/pipeline/pipeline.go:411-424 | A line adds exactly the integer it holds after trimming, and nothing when it holds none |
| `Pipelines.IssueLinesExactly` | internal/pipeline/pipeline.go:399-427 | Loading keeps exactly the numbers written alone on some line, blanks around them allowed, besides those already present |
| `Pipelines.SaveIssueReload` | internal/pipeline/pipeline.go:410-440 | Appending `"<n>\n"` to a file of complete lines adds exactly `n` on reload |
| `Pipelines.CommentKeyInjective` | internal/pipeline/pipeline.go:346 | Two `"<prNumber>-<commentID>"` keys are equal only for the same PR and comment |
| `Pipelines.CommentKeyTrimmed` | internal/pipeline/pipeline.go:475-476 | A key has no blank edges and no newline, so it survives the trimming reload |
| `Pipelines.SaveCommentReload` | internal/pipeline/pipeline.go:442-478 | Appending a key line to a file of complete lines adds exactly that key on reload |
| `Pipelines.UnprocessedIsFeedback` | internal/pipeline/pipeline.go:485-510 | Every comment still to handle is also feedback in the sense of `AnalyzeComments` |
| `Pipelines.MarkCommentsCovers` | internal/pipeline/pipeline.go:343-354 | After the marking loop every keyword comment with a body and an ID has its key recorded, and no key was lost |
| `Pipelines.NothingLeftWhenMarked` | internal/pipeline/pipeline.go:488-510 | When every markable comment's key is recorded, filtering yields nothing |
| `Pipelines.RefilterAfterMarking` | internal/pipeline/pipeline.go:343-354 | Filtering the same PR right after its marking loop yields nothing |
| `Pipelines.MarkCommentsAgree` | internal/pipeline/pipeline.go:442-483 | Marking keeps the comments file and the in-memory keys in step |
| `Pipelines.MarkIssueAgrees` | internal/pipeline/pipeline.go:399-440 | Marking an issue keeps the issues file and the in-memory set in step |
| `Pipelines.UpdateRunMarksAll` | internal/pipeline/pipeline.go:138-232 | After the update loop, exactly the numbered update issues are added to the processed set, whether parsing failed, the update failed or it succeeded |
| `Pipelines.UpdateRunRepliesOnce` | internal/pipeline/pipeline.go:138-232 | An issue processed before the loop gets no reply, every reply goes to an issue now processed, and no issue is answered twice |
| `Pipelines.NewIssueMarkedIff` | internal/pipeline/pipeline.go:244-292 | An unprocessed new issue ends marked exactly when generation succeeded and the PR was created or already existed |
| `Pipelines.NewIssueRunAgrees` | internal/pipeline/pipeline.go:244-292 | The new-issue loop only adds to the processed set and keeps the file in step |
| `Pipelines.UpdateRunAgrees` | internal/pipeline/pipeline.go:138-232 | The update loop keeps the issues file in step with memory |
| `Pipelines.IssueRefSearch` | internal/pipeline/pipeline.go:520-521 | The leftmost match of `Created from issue: [^#]+#(\d+)` captures a non-empty run of digits; no match means no position matches |
| `Pipelines.FindIssueNumber` | internal/pipeline/pipeline.go:513-529 | A nil body is an error; otherwise a number is found exactly when the pattern matches, and it is never negative |
| `Pipelines.FindOriginalIssue` | internal/pipeline/pipeline.go:512-538 | Fails when no number is found; otherwise succeeds exactly when fetching that issue succeeds, and returns it |
| `Pipelines.IssueRefRoundTrip` | internal/pipeline/pipeline.go:520-529 | A body holding `"Created from issue: " + repo + "#" + n`, with nothing before it that starts the same way, gives back `n` |
| `Pipelines.GetPersonaFilePath` | internal/pipeline/pipeline.go:588-592 | `personas/` + name + `.md`, same length as the name, with space and `/` mapped to `_` and no upper-case letter or space or `/` left in the name part |
| `Pipelines.FilePathCollides` | internal/pipeline/pipeline.go:588-592 | Names that differ only in letter case, or space against `/`, map to the same file |
| `Pipelines.Pipeline.constructor` | internal/pipeline/pipeline.go:399-478 | Both processed sets are loaded from their files; a missing file is empty |
| `Pipelines.Pipeline.LoadProcessedIssues` | internal/pipeline/pipeline.go:399-427 | Adds each trimmed integer line and ignores the others |
| `Pipelines.Pipeline.LoadProcessedComments` | internal/pipeline/pipeline.go:442-464 | Adds each trimmed non-empty line as a key |
| `Pipelines.Pipeline.MarkProcessed` | internal/pipeline/pipeline.go:176-179 | Adds the number in memory, appends `"<n>\n"` to the file, and keeps the two in step |
| `Pipelines.Pipeline.MarkCommentProcessed` | internal/pipeline/pipeline.go:466-483 | Adds the `"<pr>-<id>"` key in memory and appends it to the file |
| `Pipelines.Pipeline.FilterUnprocessedComments` | internal/pipeline/pipeline.go:485-510 | Returns, in comment order, the bodies of comments with body and ID, without `Studio` or `Updated automatically`, with an unprocessed key and a feedback keyword |
| `Pipelines.Pipeline.MarkFeedbackComments` | internal/pipeline/pipeline.go:343-354 | Records every keyword comment's key; filtering the PR again yields nothing; file and memory stay in step |
| `Pipelines.Pipeline.ProcessUpdateRequests` | internal/pipeline/pipeline.go:124-235 | The loop's processed set, file and replies are those of `UpdateRun`: already processed issues are skipped, all others are marked |
| `Pipelines.Pipeline.ProcessNewIssues` | internal/pipeline/pipeline.go:237-295 | The loop's processed set and file are those of `NewIssueRun` |
| `StructuredPipeline.BranchFolder` | internal/pipeline/structured_pipeline.go:203-268 | Missing head, fewer than two `/`-parts, or no `-` in the second part give their own errors, and those are the only errors; the folder holds no `-` or `/` and is shorter than the part it came from |
| `StructuredPipeline.IssueDigits` | internal/github/structured_pr.go:34 | A non-negative issue number's digits hold no `/` and no `-` |
| `StructuredPipeline.BranchSplit` | internal/github/structured_pr.go:32-34 | A package branch splits into `persona` and the sanitized name with its issue number |
| `StructuredPipeline.LastDashBefore` | internal/pipeline/structured_pipeline.go:216-263 | The last `-` of name, dash, digits is the dash before the digits |
| `StructuredPipeline.BranchFolderOfName` | internal/github/structured_pr.go:32-34 | The folder read off a package branch is its sanitized name with `-` as `_` |
| `StructuredPipeline.BranchFolderRoundTrip` | internal/github/structured_pr.go:32-69 | For a name without `-`, the folder read off the branch is the folder the package was written into |
| `StructuredPipeline.HyphenatedNameMissesFolder` | internal/github/structured_pr.go:32-69 | For a name with a `-`, the folder read off the branch differs from the package folder |
| `StructuredPipeline.ExistingPersonaContent` | internal/pipeline/structured_pipeline.go:202-246 | Branch errors pass through; succeeds exactly when the branch gives a folder and `synthesized.md` is fetched and decodes on the PR's branch, and returns that content |
| `StructuredPipeline.UpdateRewritesMainFiles` | internal/pipeline/structured_pipeline.go:273-285 | A feedback round writes the four raw outputs and the synthesis to the paths and contents of the first commit, and never the README, user persona or status file |
| `StructuredPipeline.UpdatedExactly` | internal/pipeline/structured_pipeline.go:288-320 | A path is rewritten exactly when it is planned, exists on the branch and the write goes through; nothing is created |
| `StructuredPipeline.UpdateStructuredPr` | internal/pipeline/structured_pipeline.go:249-345 | Branch errors pass through; otherwise the rewritten files are those of `Updated` over the five-file plan in the branch folder, and the PR gets the update comment |
| `StructuredPipeline.GenerationInput` | internal/pipeline/structured_pipeline.go:57-61 | Same number, the parsed name as title, a body holding the name and the detailed content |
| `StructuredPipeline.StructuredRunPrefix` | internal/pipeline/structured_pipeline.go:22 | The run over one more issue is one more step |
| `StructuredPipeline.ParseFailureMarked` | internal/pipeline/structured_pipeline.go:34-55 | An unparsable new issue is marked, and gets one reply exactly when the error mentions the title |
| `StructuredPipeline.StructuredMarkedIff` | internal/pipeline/structured_pipeline.go:34-103 | A new issue ends marked exactly when it fails to parse, or its package was generated and the PR was opened or already existed |
| `StructuredPipeline.ProcessedIssueSkipped` | internal/pipeline/structured_pipeline.go:23-31 | An issue without a number, or already processed, changes nothing |
| `StructuredPipeline.StepShape` | internal/pipeline/structured_pipeline.go:22-103 | A step changes nothing, or marks its issue and adds at most one reply for it |
| `StructuredPipeline.StructuredStepFresh` | internal/pipeline/structured_pipeline.go:34-55 | A step keeps replies going only to newly processed issues, each once |
| `StructuredPipeline.StepAgrees` | internal/pipeline/structured_pipeline.go:51-101 | A step keeps the issues file in step with memory |
| `StructuredPipeline.StructuredRunAgrees` | internal/pipeline/structured_pipeline.go:15-106 | The run only adds to the processed set, keeps the file in step, and answers each issue at most once |
| `StructuredPipeline.ProcessNewIssuesWithStructure` | internal/pipeline/structured_pipeline.go:15-106 | A failed listing is `failed to get issues: …` with nothing changed; otherwise the processed set, file and replies are those of `StructuredRun` |
| `StructuredPipeline.HandleIssue` | internal/pipeline/structured_pipeline.go:23-31 | One loop pass equals `StructuredStep` |
| `StructuredPipeline.HandleParsed` | internal/pipeline/structured_pipeline.go:34-103 | The pass after parsing equals `ParsedStep` |
| `Synthesizer.FormatPersonasForPrompt` | internal/synthesizer/synthesizer.go:177-204 | Writes exactly `FormattedPersonas` of the outputs: provider blocks in fixed order, then the user block |
| `Synthesizer.SectionOfAbsent` | internal/synthesizer/synthesizer.go:182-194 | Providers with no output add nothing |
| `Synthesizer.OnlyProvider` | internal/synthesizer/synthesizer.go:177-204 | With one provider's output and no user persona, the text is that block alone, numbered by the provider's fixed position |
| `Synthesizer.SectionPrefix` | internal/synthesizer/synthesizer.go:182-194 | The blocks of fewer providers are a prefix of those of more |
| `Synthesizer.SectionOpensText` | internal/synthesizer/synthesizer.go:177-204 | The provider blocks open the text |
| `Synthesizer.LeadingBreak` | internal/synthesizer/synthesizer.go:184-186 | With no Claude output but another provider's, the text starts with two line breaks |
| `Synthesizer.BlockPresent` | internal/synthesizer/synthesizer.go:183-193 | Every provider's output appears in its numbered block |
| `Synthesizer.PromptWithoutPlaceholder` | internal/synthesizer/synthesizer.go:166-174 | A template without `{{PERSONAS}}` is sent unchanged |
| `Synthesizer.NoBraceInDefault` | internal/synthesizer/synthesizer.go:238-256 | The built-in template holds no `{` |
| `Synthesizer.DefaultPromptIgnoresOutputs` | internal/synthesizer/synthesizer.go:166-174 | The built-in template comes back unchanged, whatever the outputs |
| `Synthesizer.MissingPromptFileDropsOutputs` | internal/synthesizer/synthesizer.go:93-163 | When the prompt file cannot be read, the prompt sent is the built-in template, without any raw output |
| `Synthesizer.PersonaToFolderName` | internal/synthesizer/synthesizer.go:218-222 | Same length; no space, `/` or capital letter left |
| `Synthesizer.FolderNamesAgree` | internal/synthesizer/synthesizer.go:218-222 | The synthesizer's folder is the one the package PR writes |
| `Synthesizer.Capitalized` | internal/synthesizer/synthesizer.go:229-233 | Each word keeps its position and gets its first letter in upper case |
| `Synthesizer.FolderToPersonaName` | internal/synthesizer/synthesizer.go:225-236 | The loop capitalises each `_`-separated word and joins with spaces, which is `TitleCased` |
| `Synthesizer.FolderOfConcat` | internal/synthesizer/synthesizer.go:218-222 | Folder naming works character by character |
| `Synthesizer.FolderOfCapitalized` | internal/synthesizer/synthesizer.go:218-233 | A plain word comes back from its capitalised form |
| `Synthesizer.FolderOfJoined` | internal/synthesizer/synthesizer.go:218-236 | Capitalised words joined by spaces fold back to the words joined by `_` |
| `Synthesizer.FolderRoundTrip` | internal/synthesizer/synthesizer.go:60-61 | A folder with no space, `/` or capital letter comes back from its display name |
| `Synthesizer.RawFiles` | internal/synthesizer/synthesizer.go:124-133 | The five files asked for carry distinct names |
| `Synthesizer.FetchedExactly` | internal/synthesizer/synthesizer.go:135-150 | A name has an output exactly when its file can be read, the output is that file's text, and no other name appears |
| `Synthesizer.FetchRawOutputs` | internal/synthesizer/synthesizer.go:120-152 | Never fails; the outputs are `Fetched` over the five files |
| `Synthesizer.SynthesisSucceedsIff` | internal/synthesizer/synthesizer.go:76-117 | Succeeds exactly when some raw file (the user's counts) can be read, the synthesis answers and the PR is opened |
| `Synthesizer.NoRawOutputIff` | internal/synthesizer/synthesizer.go:80-89 | No outputs exactly when none of the five files can be read, and then the error is `no raw AI outputs found for persona …` |
| `Synthesizer.SynthesizeOne` | internal/synthesizer/synthesizer.go:76-117 | Ends with the error `SynthesisOutcome` gives, or none |
| `Synthesizer.CountOk` | internal/synthesizer/synthesizer.go:58-69 | Never more successes than personas |
| `Synthesizer.AllOkIff` | internal/synthesizer/synthesizer.go:58-71 | Every persona is counted exactly when none failed |
| `Synthesizer.OutcomesPrefix` | internal/synthesizer/synthesizer.go:59-69 | One more folder adds its outcome at the end |
| `Synthesizer.CountOkAppend` | internal/synthesizer/synthesizer.go:64-68 | One more outcome adds one exactly when it succeeded |
| `Synthesizer.SynthesizeFolder` | internal/synthesizer/synthesizer.go:61-68 | Succeeds exactly when `SynthesizeOne` of the folder's display name does |
| `Synthesizer.SynthesizeAll` | internal/synthesizer/synthesizer.go:49-73 | A failed listing is `failed to list personas: …`; otherwise no error, and the count is the number of personas that synthesized |
| `Synthesizer.PrepareCombinationPrompt` | internal/synthesizer/synthesizer.go:166-174 | A template without `{{PERSONAS}}` comes back unchanged; one with it holds the formatted outputs |
| `MultiProvider.Response` | internal/multiprovider/generator.go:196-240 | Keeps the provider's name; succeeded exactly when the call answered, and then holds its text |
| `MultiProvider.FullPrompt` | internal/multiprovider/generator.go:170-174 | Starts with the issue content, ends with the template, and is the content alone exactly when the template is empty |
| `MultiProvider.ShortPrompt` | internal/multiprovider/generator.go:177-189 | Starts with the issue content |
| `MultiProvider.FourResponses` | internal/multiprovider/generator.go:196-240 | One response per provider, in the order claude, gemini, grok, gpt |
| `MultiProvider.Successful` | internal/multiprovider/generator.go:278-284 | Exactly the succeeded responses, no more of them than there were |
| `MultiProvider.SuccessfulEmptyIff` | internal/multiprovider/generator.go:278-288 | Nothing remains after filtering exactly when every provider failed |
| `MultiProvider.AllFailedPermutation` | internal/multiprovider/generator.go:243-262 | Whether every provider failed does not depend on the arrival order |
| `MultiProvider.GenerateFromAllProviders` | internal/multiprovider/generator.go:169-266 | Fails, with `all providers failed to generate personas`, exactly when all four calls failed; otherwise returns the answers as they arrived |
| `MultiProvider.WithText` | internal/multiprovider/generator.go:315-318 | Exactly the responses with a non-empty text |
| `MultiProvider.EntriesNumbered` | internal/multiprovider/generator.go:313-321 | The k-th entry is `Persona k: <provider>` with the k-th non-empty text; numbering skips empty texts |
| `MultiProvider.UserEntryLast` | internal/multiprovider/generator.go:323-327 | A user persona's entry comes last, numbered after all the others |
| `MultiProvider.PersonasEverywhere` | internal/multiprovider/generator.go:329 | Every `{{PERSONAS}}` in the template is replaced by the joined entries, the rest kept |
| `MultiProvider.BestIndex` | internal/multiprovider/generator.go:335-341 | The position of a longest text in bytes, the earliest among equals |
| `MultiProvider.FilterSuccessful` | internal/multiprovider/generator.go:278-284 | The loop keeps exactly `Successful`, in order |
| `MultiProvider.BuildEntries` | internal/multiprovider/generator.go:313-327 | The loop builds exactly the numbered entries, then the user's |
| `MultiProvider.PickLongest` | internal/multiprovider/generator.go:336-341 | The loop picks the response at `BestIndex`, the byte-longest |
| `MultiProvider.CombinePersonasWithUser` | internal/multiprovider/generator.go:272-346 | Returns `CombineWithUser`: no successes is an error, one success without a user persona is kept verbatim, else synthesis or the byte-longest text |
| `MultiProvider.Synthesize` | internal/multiprovider/generator.go:332-345 | The synthesis answer, or the byte-longest text when the call fails |
| `MultiProvider.CombineErrIff` | internal/multiprovider/generator.go:286-288 | Combining fails exactly when no response succeeded, with `no successful persona responses to combine` |
| `MultiProvider.SuccessfulSingle` | internal/multiprovider/generator.go:278-284 | One succeeded response, wherever it is, is all that is kept |
| `MultiProvider.SingleSuccessVerbatim` | internal/multiprovider/generator.go:290-293 | One success and no user persona: its text is the result, whatever synthesis would answer |
| `MultiProvider.FallbackLongest` | internal/multiprovider/generator.go:332-342 | When synthesis fails the result is a byte-longest successful text, the earliest among equals, and no error |
| `MultiProvider.FirstFeedbackOnly` | internal/multiprovider/generator.go:516-517 | Only the first `{{FEEDBACK}}` receives the feedback |
| `MultiProvider.CombinePersonasWithFeedback` | internal/multiprovider/generator.go:488-547 | Returns `CombineWithFeedback`: no user entry, a single success kept verbatim, else synthesis or the byte-longest text |
| `MultiProvider.FeedbackCombineErrIff` | internal/multiprovider/generator.go:499-501 | Fails exactly when no response succeeded |
| `MultiProvider.FeedbackSingleSuccessVerbatim` | internal/multiprovider/generator.go:503-506 | With one success, the feedback synthesis is skipped |
| `MultiProvider.FeedbackReachesProviders` | internal/multiprovider/generator.go:113-129 | Every feedback comment appears in the providers' prompt on its own numbered line |
| `MultiProvider.PreviousVersionReachesProviders` | internal/multiprovider/generator.go:113-129 | The previous persona appears in the providers' prompt |
| `MultiProvider.ProcessIssue` | internal/multiprovider/generator.go:49-100 | Fails exactly when all four providers fail, with that message; else the persona is the combination, named by the title or the extracted name, with the issue number |
| `MultiProvider.RegeneratePersonaWithFeedback` | internal/multiprovider/generator.go:102-167 | Same, for the feedback prompt and the feedback combination |
| `MultiProvider.RegenerateFrom` | internal/multiprovider/generator.go:131-167 | The part of the regeneration after the providers' prompt is built |
| `MultiProvider.Collect` | internal/multiprovider/generator.go:247-258 | The loop keeps every arrived response, in arrival order, and counts exactly the successful ones |
| `MultiProvider.BytesDecideLongest` | internal/multiprovider/generator.go:335-341 | Length is measured in bytes: three two-byte letters beat four ASCII letters although they are fewer characters |
| `EnhancedGenerator.ExtractRaw` | internal/multiprovider/enhanced_generator.go:59-79 | Each provider's raw text is `RawOf`: the last successful response of that provider, or empty |
| `EnhancedGenerator.RawOfOnly` | internal/multiprovider/enhanced_generator.go:64-79 | When a provider answered once, its raw text is that answer if it succeeded, else empty |
| `EnhancedGenerator.RawFieldOfProvider` | internal/multiprovider/enhanced_generator.go:52-79 | Whatever the arrival order, each provider's raw text is its own answer when it succeeded and empty when it failed |
| `EnhancedGenerator.ClaudeRawIsItsAnswer` | internal/multiprovider/enhanced_generator.go:64-69 | Claude's raw text is its call's answer, or empty on failure |
| `EnhancedGenerator.ProcessIssueWithStructureAndUser` | internal/multiprovider/enhanced_generator.go:34-122 | Fails exactly when all four providers fail, with that message; else the persona is named by the title (even empty), holds the combination with the user's persona, and the files hold the raw texts, the user persona and the synthesis |
| `EnhancedGenerator.ProcessIssueWithStructure` | internal/multiprovider/enhanced_generator.go:29-32 | Same without a user persona: the user file stays empty |
| `EnhancedGenerator.RegeneratePersonaWithStructuredFeedback` | internal/multiprovider/enhanced_generator.go:333-433 | Fails exactly when all four providers fail on the feedback prompt; else the answers are combined with the plain prompt and no user persona |
| `EnhancedGenerator.PackageFrom` | internal/multiprovider/enhanced_generator.go:52-122 | Generation, raw extraction and combination, with the caller's error prefixes |
| `EnhancedGenerator.EnabledNames` | internal/multiprovider/enhanced_generator.go:145-150 | A name is listed exactly when some enabled platform carries it |
| `EnhancedGenerator.EnabledPositions` | internal/multiprovider/enhanced_generator.go:145-150 | Exactly the positions of enabled platforms, increasing |
| `EnhancedGenerator.EnabledInOrder` | internal/multiprovider/enhanced_generator.go:145-150 | The enabled names are in configuration order |
| `EnhancedGenerator.PlatformsResult` | internal/multiprovider/enhanced_generator.go:133-157 | Read and parse errors carry their prefixes; a parsed list fails, with `no platforms enabled in configuration`, exactly when nothing is enabled; success is the non-empty list of enabled names |
| `EnhancedGenerator.LoadPlatforms` | internal/multiprovider/enhanced_generator.go:133-157 | The loop returns `PlatformsResult` |
| `EnhancedGenerator.DefaultsOnConfigFailure` | internal/multiprovider/enhanced_generator.go:236-251 | Any configuration failure, nothing enabled included, gives the eight default platforms |
| `EnhancedGenerator.CharNotInJoin` | internal/multiprovider/enhanced_generator.go:280-281 | A character in no part and not in the separator is not in the join |
| `EnhancedGenerator.PlatformEverywhere` | internal/multiprovider/enhanced_generator.go:280-281 | Every `{{PLATFORM}}` becomes the platform name and nothing else changes |
| `EnhancedGenerator.Adaptations` | internal/multiprovider/enhanced_generator.go:276-291 | A platform has an adaptation exactly when it is listed and its call succeeds, and it is that call's answer |
| `EnhancedGenerator.AdaptAll` | internal/multiprovider/enhanced_generator.go:278-291 | The loop builds exactly `Adaptations` |
| `EnhancedGenerator.GeneratePlatformAdaptations` | internal/multiprovider/enhanced_generator.go:233-294 | Adaptations for the configured or default platforms, from the file or the built-in template; never an error |
| `EnhancedGenerator.SynthesizeFrom` | internal/multiprovider/enhanced_generator.go:184-229 | Fails exactly when the call on the filled template fails, with the given prefix; else its answer |
| `EnhancedGenerator.PersonaEverywhere` | internal/multiprovider/enhanced_generator.go:184-221 | Every `{{SYNTHESIZED_PERSONA}}` becomes the persona and nothing else changes |
| `EnhancedGenerator.FramedContains` | internal/multiprovider/enhanced_generator.go:301-320 | Both framed texts appear next to the middle marker |
| `EnhancedGenerator.UpdatePromptHasBoth` | internal/multiprovider/enhanced_generator.go:301-320 | The existing persona and the user's update each appear, delimited, in the merge prompt |
| `EnhancedGenerator.UpdatePersonaWithUserInput` | internal/multiprovider/enhanced_generator.go:296-331 | Fails exactly when the synthesis call fails, with `failed to synthesize personas: …`; else its answer |
| `EnhancedGenerator.PromptReadyVersion` | internal/multiprovider/enhanced_generator.go:160-193 | Nothing in the program calls this function. Succeeds exactly when the call on the prompt-ready template, with the persona substituted, succeeds, and returns its answer; the error is prefixed `failed to generate prompt-ready version: ` |
| `EnhancedGenerator.ConstrainedFormats` | internal/multiprovider/enhanced_generator.go:196-230 | Nothing in the program calls this function. Same as `PromptReadyVersion` on the constrained-formats template, with the prefix `failed to generate constrained formats: ` |
| `StructuredPr.BranchNameShape` | internal/github/structured_pr.go:31-34 | The branch starts with `persona/`, is longer than the name plus nine, and the name part has no space, `/` or capital letter |
| `StructuredPr.FolderName` | internal/github/structured_pr.go:66-69 | `personas/` plus a part of the name's length with no space, `/` or capital letter |
| `StructuredPr.FolderAgrees` | internal/github/structured_pr.go:66-69 | The package folder is the older pipeline's file path without `.md`, and the folder the monitor checks |
| `StructuredPr.BranchMatchesFolder` | internal/github/structured_pr.go:31-69 | Position by position, branch and folder hold the same lower-cased character, except `-` against `_` where the name has a space or `/` |
| `StructuredPr.StampStatus` | internal/github/structured_pr.go:301-318 | A zero synthesis time becomes now; missing maps become empty; the metadata gains `created_by: studio` and `created_at: <now>` and keeps every other key; nothing else changes |
| `StructuredPr.StampIdempotent` | internal/github/structured_pr.go:301-318 | Stamping twice at the same time is stamping once |
| `StructuredPr.ReadmeAsksForEverything` | internal/github/structured_pr.go:228-299 | The package README carries all nine markers, so a monitor reading it asks for every asset type, in the fixed order |
| `StructuredPr.ExamplesHaveMarker` | internal/github/structured_pr.go:280-299 | The trigger examples carry each asset type's marker |
| `StructuredPr.MarkerSlot` | internal/github/structured_pr.go:280-299 | Each marker sits at a slot of the examples |
| `StructuredPr.ConcatPiece` | internal/github/structured_pr.go:280-299 | Each piece of the examples appears at its offset |
| `StructuredPr.AllMarked` | internal/assets/monitor.go:281-320 | A text carrying every marker yields every asset type in order |
| `StructuredPr.PrBodyNamesIssue` | internal/github/structured_pr.go:152-176 | The package PR of issue `n > 0` gives `n` back to `findOriginalIssue` when nothing earlier in the body reads as a reference |
| `StructuredPr.BodyWithRef` | internal/github/structured_pr.go:155-156 | A body holding the source line of issue `n`, followed by no digit, gives `n` back |
| `StructuredPr.BatchBodyNamesNoIssue` | internal/github/structured_pr.go:155-159 | Issue number 0 or below gives `Created via batch processing`, with no `#` |
| `StructuredPr.PlanFor` | internal/github/structured_pr.go:72-111 | The six main files in order, then the user persona exactly when supplied, then the status file exactly when serialised |
| `StructuredPr.PrefixCancel` | internal/github/structured_pr.go:69-111 | Paths in one folder are equal only when the names after it are |
| `StructuredPr.PlanHasFile` | internal/github/structured_pr.go:72-111 | The plan writes `base + name` exactly when `name` is one of its names |
| `StructuredPr.PlanOptionalFiles` | internal/github/structured_pr.go:90-111 | The user file is written exactly when a user persona is given, the status file exactly when a status serialised |
| `StructuredPr.Written` | internal/github/structured_pr.go:113-146 | No more files written than planned |
| `StructuredPr.WrittenExactly` | internal/github/structured_pr.go:113-146 | A path is written exactly when it is planned and its create-or-update goes through; a failed write drops only that file |
| `StructuredPr.CommitFiles` | internal/github/structured_pr.go:113-146 | The loop writes exactly `Written`, with `Add <subject> for persona: <name>` messages |
| `StructuredPr.CreateStructuredPersonaPR` | internal/github/structured_pr.go:30-225 | Repository, base ref, branch (an existing one is fine) and PR errors each give their message; otherwise the PR, the four labels, the files written and the issue comment exactly when the issue number is positive |
| `StructuredPr.OpenPackagePr` | internal/github/structured_pr.go:113-225 | The second half once the branch exists: files, PR, labels and comment |
| `StructuredPr.TriggerExamples` | internal/github/structured_pr.go:280-298 | The trigger examples hold the marker of every asset type |
| `StructuredPr.PersonaReadmeLayout` | internal/github/structured_pr.go:228-277 | The package README opens with `# <name>` and its fixed introduction, and holds the marker of every asset type |
| `StructuredPr.GenerateAssetStatusJson` | internal/github/structured_pr.go:301-321 | Serialises the status with its name, lists and generation time kept and the metadata stamped `created_by: studio` and `created_at: <now>` |
| `Assets.Without` | internal/assets/status.go:250-258 | The item is gone, everything left was there before, and it is no longer |
| `Assets.SliceContains` | internal/assets/status.go:241-248 | True exactly when the item is in the slice |
| `Assets.RemoveFromSlice` | internal/assets/status.go:250-258 | The loop keeps exactly `Without`: every other element, in order |
| `Assets.WithoutCounts` | internal/assets/status.go:250-258 | The item occurs no more and every other element keeps its count |
| `Assets.WithoutConcat` | internal/assets/status.go:250-258 | Removal distributes over concatenation |
| `Assets.WithoutAbsent` | internal/assets/status.go:250-258 | Removing an absent item changes nothing |
| `Assets.WithoutNoDuplicates` | internal/assets/status.go:250-258 | Removal keeps a slice duplicate-free |
| `Assets.DistinctOnce` | internal/assets/status.go:117-152 | A duplicate-free slice holds each element at most once |
| `Assets.DefaultStatus` | internal/assets/status.go:209-221 | The given name, synthesized now, assets never generated, nothing pending or generated, empty maps |
| `Assets.WithPending` | internal/assets/status.go:112-135 | The asset is pending (appended only if new) and not generated, its flag false, everything else kept |
| `Assets.WithGenerated` | internal/assets/status.go:138-162 | The asset is generated (appended only if new) and not pending, its flag true, assets generated now, everything else kept |
| `Assets.WithoutMembers` | internal/assets/status.go:250-258 | Every other element stays present |
| `Assets.AppendFresh` | internal/assets/status.go:121-152 | Appending an absent element keeps the slice duplicate-free |
| `Assets.PendingKeepsWellFormed` | internal/assets/status.go:112-135 | Marking pending keeps both lists duplicate-free and disjoint |
| `Assets.GeneratedKeepsWellFormed` | internal/assets/status.go:138-162 | Marking generated keeps both lists duplicate-free and disjoint |
| `Assets.PendingIdempotent` | internal/assets/status.go:112-135 | Marking pending twice is marking once |
| `Assets.GeneratedIdempotent` | internal/assets/status.go:138-162 | Marking generated twice is marking once at the later time |
| `Assets.PendingThenGenerated` | internal/assets/status.go:112-162 | Generating after marking pending moves the asset across and leaves the other pending assets |
| `Assets.LoadFrom` | internal/assets/status.go:58-76 | A missing file gives the default status; a read or parse failure is the only error |
| `Assets.PendingInEffect` | internal/assets/status.go:79-135 | After marking pending the persona's file holds the asset as pending with flag false, and no other file changes |
| `Assets.GeneratedInEffect` | internal/assets/status.go:138-162 | After marking generated the persona's file holds the asset as generated with flag true and time now, and no other file changes |
| `Assets.NothingPendingNeeds` | internal/assets/status.go:165-181 | With nothing pending, generation is needed exactly when the persona is newer than its assets, with no types listed |
| `Assets.DefaultNeeds` | internal/assets/status.go:58-66 | A persona with no status file needs generation, with no types, once the clock is past zero |
| `Assets.GeneratedClearsTimestamp` | internal/assets/status.go:138-181 | After generating at a time not before the synthesis, no types are listed and generation is needed exactly when something else is pending |
| `Assets.StatusManager.constructor` | internal/assets/status.go:45-49 | The manager starts with the given files and timestamps |
| `Assets.StatusManager.SaveStatus` | internal/assets/status.go:79-97 | Stores the status under its own persona name, nothing else changes |
| `Assets.StatusManager.UpdateSynthesizedTimestamp` | internal/assets/status.go:100-109 | A load failure is `failed to load status: …` with nothing stored; else the loaded status with synthesis time now is stored |
| `Assets.StatusManager.MarkAssetPending` | internal/assets/status.go:112-135 | Fails exactly when loading fails; the store becomes `PendingIn` |
| `Assets.StatusManager.MarkAssetGenerated` | internal/assets/status.go:138-162 | Fails exactly when loading fails; the store becomes `GeneratedIn` |
| `Assets.StatusManager.NeedsAssetGeneration` | internal/assets/status.go:165-181 | A load failure gives `false`, no types and the error; otherwise the answer of `NeedsFor` |
| `Assets.StatusManager.CheckSynthesizedFileModified` | internal/assets/status.go:190-207 | True exactly when the synthesized file exists and is newer than the last asset generation (a missing file gives false); fails exactly when loading fails or the file cannot be examined |
| `Assets.StatusManager.LoadStatus` | internal/assets/status.go:58-76 | A persona with no status file gets the default status; the result is an error exactly when the file exists but cannot be read or parsed; a loaded status is the one stored |
| `AssetMonitor.MarkerDecodes` | internal/assets/monitor.go:282-318 | Each marker splits at `:` into two parts and decodes to the asset it names |
| `AssetMonitor.MarkedUpToExactly` | internal/assets/monitor.go:305-317 | An asset is listed exactly when it is among the first `n` marked assets and its marker occurs, at most once |
| `AssetMonitor.ReadmeAssetsExactly` | internal/assets/monitor.go:281-320 | A README asks for exactly the asset types whose markers it holds, each once |
| `AssetMonitor.UnmarkedReadme` | internal/assets/monitor.go:281-320 | A README without `<!-- GENERATE:` asks for nothing |
| `AssetMonitor.NoMarkersUpTo` | internal/assets/monitor.go:305-317 | With no marker present nothing is listed |
| `AssetMonitor.CheckReadmeTriggers` | internal/assets/monitor.go:267-320 | A missing README asks for nothing and is no error; a read failure is an error; otherwise the types are `ReadmeAssets` and found exactly when there are any |
| `AssetMonitor.CheckGitHubPersona` | internal/assets/monitor.go:152-210 | No `synthesized.md` gives no trigger; a failed time lookup is the only error; a status that does not load, or a newer file, gives the three prompt assets; else the pending assets when there are any |
| `AssetMonitor.LocalTrigger` | internal/assets/monitor.go:225-264 | A trigger exactly when pending plus README assets is non-empty, and then it lists exactly those |
| `AssetMonitor.AssetStepEffect` | internal/assets/monitor.go:326-352 | One asset ends generated when its generator is registered and succeeds, pending otherwise; other personas' files untouched |
| `AssetMonitor.AssetStepsKeyed` | internal/assets/monitor.go:326-352 | Each status stays in the file named after its persona |
| `AssetMonitor.OtherPersonaUntouched` | internal/assets/monitor.go:326-352 | A trigger for one persona never touches another persona's file |
| `AssetMonitor.Monitor.constructor` | internal/assets/monitor.go:42-51 | No generator registered yet |
| `AssetMonitor.Monitor.RegisterCallback` | internal/assets/monitor.go:69-71 | A later registration for the same type replaces the earlier one |
| `AssetMonitor.Monitor.CheckPersonaForTriggers` | internal/assets/monitor.go:213-264 | Fails exactly when the synthesized-file check fails; otherwise the trigger `LocalTrigger` builds |
| `AssetMonitor.Monitor.ScanGitHubForTriggers` | internal/assets/monitor.go:86-111 | A failed listing is an error; otherwise `GitHubTriggers` of the listing: one trigger per persona whose check yields one, in listing order |
| `AssetMonitor.Monitor.ScanLocalForTriggers` | internal/assets/monitor.go:114-150 | No directory gives none; a failed listing is an error; otherwise `LocalTriggers` of the entries: one trigger per directory whose check yields one, in directory order |
| `AssetMonitor.Monitor.ProcessTriggers` | internal/assets/monitor.go:323-357 | The status files become `TriggerSteps`: each asset marked pending, then generated once its generator succeeds |
| `AssetMonitor.Monitor.ProcessAsset` | internal/assets/monitor.go:329-352 | One asset of a trigger: its status is marked pending, and generated only when a registered generator succeeds; a status that cannot be loaded is left as it was |
| `AssetMonitor.GitHubTriggers` | internal/assets/monitor.go:96-107 | At most one trigger per listed persona |
| `AssetMonitor.GitHubTriggersExactly` | internal/assets/monitor.go:96-107 | A trigger is listed exactly when some listed persona's check yields it |
| `AssetMonitor.Monitor.LocalTriggers` | internal/assets/monitor.go:130-145 | At most one trigger per directory entry |
| `AssetMonitor.Monitor.LocalTriggersExactly` | internal/assets/monitor.go:130-145 | A trigger is listed exactly when some directory's synthesized-file check succeeds and its local check yields that trigger |
| `AssetMonitor.Monitor.ScanEntries` | internal/assets/monitor.go:130-145 | The loop builds exactly `LocalTriggers` of the entries |
| `AssetMonitor.Monitor.ScanEntry` | internal/assets/monitor.go:131-144 | A file is skipped; a directory gives its trigger exactly when the check succeeds with one |
| `PromptGenerator.PromptCategories` | internal/prompts/generator.go:220-250 | The platform and variation categories never overlap; they hold exactly the five platform types and the two variations, and together the seven known types |
| `PromptGenerator.TemplateFile` | internal/prompts/generator.go:120-140 | A type has a template file exactly when it is one of the seven known types, and that file is a `.txt` file |
| `PromptGenerator.TemplateFilesDistinct` | internal/prompts/generator.go:120-140 | No two prompt types share a template file |
| `PromptGenerator.PromptFilename` | internal/prompts/generator.go:152-171 | Every type, known or not, is written to `prompts/<type>.md`, from which the type can be read back |
| `PromptGenerator.PromptFilenameInjective` | internal/prompts/generator.go:152-171 | Different types are written to different files |
| `PromptGenerator.PromptFileInFolder` | internal/prompts/generator.go:152-171 | Trimming the `prompts/` prefix leaves `<type>.md`, the link target the listings use |
| `PromptGenerator.DisplayName` | internal/prompts/generator.go:174-193 | An unknown type is shown as itself; a known type is shown under a name different from its identifier |
| `PromptGenerator.DisplayNamesDistinct` | internal/prompts/generator.go:174-193 | The seven known types have seven different display names |
| `PromptGenerator.LoadPromptTemplate` | internal/prompts/generator.go:120-149 | An unknown type fails as `unknown prompt type: <type>` without reading a file; otherwise the template's contents, or the read error under `failed to read template file <path>: ` |
| `PromptGenerator.PersonaFillsEveryPlaceholder` | internal/prompts/generator.go:102 | Every `{{SYNTHESIZED_PERSONA}}` in the template is replaced by the persona and the rest of the template is kept |
| `PromptGenerator.TemplateWithoutPlaceholder` | internal/prompts/generator.go:102 | A template without the placeholder is sent to the model unchanged |
| `PromptGenerator.GeneratePrompt` | internal/prompts/generator.go:92-117 | A template error is wrapped as `failed to load prompt template for <type>: …`, a model error as `failed to generate prompt with Gemini: …`; otherwise the result holds the type, the model's answer, the time and the persona, with no error |
| `PromptGenerator.UnknownTypeFails` | internal/prompts/generator.go:92-140 | An unknown type always fails, with the type named in both the outer and the inner message |
| `PromptGenerator.Attempt` | internal/prompts/generator.go:72-83 | A result carries the requested type and persona; it has no error exactly when generation succeeded, and then it is the generated result; otherwise it has no content, the failure time and the generation error |
| `PromptGenerator.Attempts` | internal/prompts/generator.go:71-84 | One result per requested type |
| `PromptGenerator.GenerateTypes` | internal/prompts/generator.go:71-84 | The loop yields exactly one attempt per type, in the order of the types |
| `PromptGenerator.GenerateAllPrompts` | internal/prompts/generator.go:57-90 | Seven results in the fixed order ChatGPT, Claude, Gemini, Discord, Character.AI, condensed, alternative; a failed type keeps its place with its error, no content and the time of the attempt, and the whole never fails |
| `PromptGenerator.Succeeded` | internal/github/prompt_pr.go:249-251 | The successful results are exactly the results without an error |
| `PromptGenerator.Listed` | internal/github/prompt_pr.go:249-259 | A listing never holds more entries than there are successful results |
| `PromptGenerator.ListedExactly` | internal/github/prompt_pr.go:249-259 | An entry is listed exactly when some error-free result of the category shows as that entry |
| `PromptGenerator.ListingsSplit` | internal/github/prompt_pr.go:249-259 | The platform and variation listings together hold one entry for every successful result of a known type |
| `PromptGenerator.ValidatePromptResult` | internal/prompts/generator.go:196-217 | A result passes exactly when it has no error, is not blank, is at least 100 bytes long and holds neither `{{` nor `}}`; a result with an error fails with that error |
| `PromptGenerator.ValidPromptHasText` | internal/prompts/generator.go:196-217 | A valid prompt has a character that is not white space and at least 25 characters |
| `PromptRepository.NormalizeIdempotent` | internal/prompts/repository.go:318-323 | Normalizing a persona name twice gives the same folder name as normalizing it once |
| `PromptRepository.PersonaFolder` | internal/prompts/repository.go:318-323 | The persona folder is `personas/<name>` with spaces and slashes replaced and lower-cased, the same folder the package PR writes; its last part holds neither a space nor a slash |
| `PromptRepository.PromptPath` | internal/prompts/repository.go:83-88 | A prompt of type `t` is written to `<folder>/prompts/<t>.md` |
| `PromptRepository.PromptPathsDistinct` | internal/prompts/repository.go:83-88 | Prompts of different types go to different files of a folder |
| `PromptRepository.PromptDocument` | internal/prompts/repository.go:103-127 | A prompt document is the metadata header, then the prompt text unchanged, then the footer, and the text can be cut back out of it |
| `PromptRepository.Description` | internal/prompts/repository.go:253-272 | An unknown type gets `Custom prompt variation`; every known type gets a description of its own |
| `PromptRepository.PromptsSection` | internal/prompts/repository.go:203-250 | The generated section starts with `## Generated Prompts`, so it is found again as the section to replace |
| `PromptRepository.GeneratePromptsSection` | internal/prompts/repository.go:203-250 | The loops build the section from the error-free results only: platform entries under the platform heading and variation entries under the variation heading, each in input order, an empty list omitting its heading, then the usage notes |
| `PromptRepository.ListBlock` | internal/prompts/repository.go:227-241 | A non-empty list is written as its heading, one line per entry and a blank line; an empty list writes nothing |
| `PromptRepository.AddPromptsSection` | internal/prompts/repository.go:154-172 | The section is inserted in front of the first `## Source`, else in front of the first `\n---\n` behind a newline, else appended after a newline; the rest of the README is kept |
| `PromptRepository.InsertBefore` | internal/prompts/repository.go:160-165 | Replacing the first occurrence of a pattern by a text ending in that pattern inserts the text in front of the occurrence |
| `PromptRepository.ReplacePromptsSection` | internal/prompts/repository.go:175-200 | Without the marker the section is added; otherwise everything before the first marker is kept, and everything from the next `\n## ` follows the new section after a newline; with no later heading the rest of the README is dropped |
| `PromptRepository.Splice` | internal/prompts/repository.go:186-197 | The text before the start, the new section, and the text from the next heading onwards after a newline, or nothing after the section when no heading follows |
| `PromptRepository.UpdatePersonaReadme` | internal/prompts/repository.go:130-151 | A missing README is left missing without an error; a README with the marker has its section replaced, one without has it added |
| `PromptRepository.ReplaceTwice` | internal/prompts/repository.go:175-200 | Replacing the section a second time with the same section changes nothing |
| `PromptRepository.SpliceTwice` | internal/prompts/repository.go:186-197 | Splicing the same section in again at the marker it starts with gives the same README |
| `PromptRepository.MarkPrompts` | internal/prompts/repository.go:284-302 | Marking prompt assets changes neither the persona, the metadata nor the two timestamps |
| `PromptRepository.PromptsMarked` | internal/prompts/repository.go:284-302 | The asset `prompt_<type>` of every error-free result ends up generated, not pending, and flagged true |
| `PromptRepository.OthersUnmarked` | internal/prompts/repository.go:284-302 | An asset that belongs to no error-free result keeps its pending and generated membership and its flag |
| `PromptRepository.NoRepeatsAdded` | internal/prompts/repository.go:292-294 | A generated list without repeats stays without repeats |
| `PromptRepository.PromptStatus` | internal/prompts/repository.go:304-314 | The saved status carries the generation time and metadata `last_prompt_generation` and `prompts_generated`, the latter counting every result, failed ones included |
| `PromptRepository.SavableMembers` | internal/prompts/repository.go:46-65 | The results written are exactly those that pass validation, and none of them failed |
| `PromptRepository.PromptFileWritten` | internal/prompts/repository.go:46-94 | After the writes a path exists exactly when it existed before or is the file of a written result; other files keep their contents; the last written result's file holds its document |
| `PromptRepository.RepositoryManager.constructor` | internal/prompts/repository.go:23-29 | The manager starts with the given files and status manager |
| `PromptRepository.RepositoryManager.SavePromptResults` | internal/prompts/repository.go:32-80 | The files become the prompt files of the valid results plus the README with its section brought up to date; the status is saved when it loads and left alone otherwise; neither failure fails the call |
| `PromptRepository.RepositoryManager.WritePromptFiles` | internal/prompts/repository.go:44-65 | Failed and invalid results are skipped; each valid one is written to its own file, in order |
| `PromptRepository.RepositoryManager.UpdateAssetStatus` | internal/prompts/repository.go:275-315 | A load failure is returned and nothing is saved; otherwise the marked status is saved and no error is returned |
| `PromptRepository.FormatPromptContent` | internal/prompts/repository.go:103-127 | The saved document is its header, the prompt's content unchanged, then its footer |
| `PromptRepository.RepositoryManager.UpdateReadme` | internal/prompts/repository.go:130-151 | The files become `ReadmeUpdated`: a missing README is left missing, an existing one gets its prompts section brought up to date |
| `PromptService.NeedsPrompts` | internal/prompts/service.go:173-199 | No synthesized file needs no prompts; a missing prompts folder needs them; otherwise they are needed exactly when the synthesized file is newer; an unreadable prompts folder counts as needing them, and an unreadable synthesized file is the only error |
| `PromptService.FileNames` | internal/prompts/service.go:272-281 | The files listed are exactly the names of the entries that are not directories |
| `PromptService.CountsBounded` | internal/prompts/service.go:283-289 | No file is counted both as a platform and as a variation prompt: the two counts together are at most the number of files |
| `PromptService.StatsOf` | internal/prompts/service.go:268-296 | An existing folder reports that prompts exist, a prompt count equal to the number of files, and category counts that do not exceed it |
| `PromptService.NoStats` | internal/prompts/service.go:249-264 | A persona without a prompts folder reports no prompts, zero counts and no files |
| `PromptService.GetPromptGenerationStats` | internal/prompts/service.go:246-298 | Zero counts when the folder does not exist, `failed to read prompts directory: …` when it cannot be read, and otherwise the counts of its files, a file whose name mentions a platform counted as a platform prompt before it is considered a variation |
| `PromptService.KeptSucceeded` | internal/prompts/service.go:107-148 | The results kept by the platform and variation callbacks are exactly the generation attempts that succeeded |
| `PromptService.MarkedAllPending` | internal/prompts/service.go:202-219 | When the status loads, the three prompt assets all end up pending and none of them generated |
| `PromptService.Service.constructor` | internal/prompts/service.go:32-46 | The service starts over the given repository manager and generator tools |
| `PromptService.Service.Synthesized` | internal/prompts/service.go:67-71 | Reading the synthesized file succeeds exactly when `personas/<folder>/synthesized.md` exists and gives its contents; a failure is reported under `failed to read synthesized persona: ` |
| `PromptService.Service.GenerateAllPrompts` | internal/prompts/service.go:64-87 | A missing synthesized file is returned as the error and nothing changes; otherwise all seven types are generated, failed ones kept, and saved, with no error |
| `PromptService.Service.GeneratePlatformPrompts` | internal/prompts/service.go:90-123 | The five platform types are generated, failed ones dropped, and the rest saved; a missing synthesized file is the error and changes nothing |
| `PromptService.Service.GenerateVariationPrompts` | internal/prompts/service.go:126-155 | The two variation types are generated, failed ones dropped, and the rest saved; a missing synthesized file is the error and changes nothing |
| `PromptService.Service.GenerateAndSave` | internal/prompts/service.go:90-155 | The shared body of the two callbacks: read, keep the successful generations, save |
| `PromptService.Service.KeepGenerated` | internal/prompts/service.go:107-148 | The loop keeps, in order, the result of every type whose generation succeeded |
| `PromptService.Service.RegisterCallbacks` | internal/prompts/service.go:159-170 | The three generators are registered under the `prompts`, `platform_prompts` and `variation_prompts` assets, other registrations kept |
| `PromptService.Service.TriggerPromptGeneration` | internal/prompts/service.go:202-223 | The three prompt assets are marked pending, a marking failure not stopping it, and then all prompts are generated; the marks stay even when generation fails |
| `PromptPr.PrBranchName` | internal/github/prompt_pr.go:35-39 | The branch is `prompts/<name>-<stamp>`, the name keeping its length with spaces and slashes turned into dashes and no upper-case letter |
| `PromptPr.SameSanitizedName` | internal/github/prompt_pr.go:36-37 | A prompt PR's branch and a package PR's branch spell the persona name with the same characters |
| `PromptPr.PrCopyAddsModelLine` | internal/github/prompt_pr.go:207-232 | The document in the PR is the locally saved document with only the `Model: Gemini 2.0 Flash` line added after the metadata |
| `PromptPr.PromptOps` | internal/github/prompt_pr.go:84-102 | One prompt file per error-free result |
| `PromptPr.PromptOpsExactly` | internal/github/prompt_pr.go:84-102 | A prompt file is planned exactly when it belongs to an error-free result |
| `PromptPr.PromptPlan` | internal/github/prompt_pr.go:71-122 | The plan holds the prompt files of the error-free results in order, then the README under `personas/<folder>/README.md` when one was given, then the status file when one was given |
| `PromptPr.BuildPromptPlan` | internal/github/prompt_pr.go:71-122 | The loop gathers exactly the planned file operations |
| `PromptPr.PlanHasPrompt` | internal/github/prompt_pr.go:84-102 | Every error-free result's document is in the plan, at `<folder>/prompts/<type>.md`, with its display name in the message |
| `PromptPr.PromptLabels` | internal/github/prompt_pr.go:174-180 | The labels are `prompts`, `automated`, `studio` and then `update` for an update or `new-prompts` for a new persona |
| `PromptPr.PrTitle` | internal/github/prompt_pr.go:236-242 | The title ends with the persona name and starts with `Update ` exactly for an update |
| `PromptPr.BodyClosesIssue` | internal/github/prompt_pr.go:312-314 | A PR for an issue says `Closes #<issue>` in its body |
| `PromptPr.BodyListsCounted` | internal/github/prompt_pr.go:244-288 | The body never lists more prompts than the count it announces |
| `PromptPr.CommentLinksPr` | internal/github/prompt_pr.go:323-345 | The comment on the issue holds the PR's address |
| `PromptPr.CreatePromptUpdatePR` | internal/github/prompt_pr.go:32-204 | The repository and base-ref errors are returned under their own prefixes; a branch failure other than an existing branch fails the call; otherwise the planned files are written, failed writes skipped, and the PR is opened, labelled, and commented on the issue when there is one |
| `PromptPr.OpenPromptPr` | internal/github/prompt_pr.go:124-204 | A PR failure is `failed to create PR: …`; otherwise the outcome is the new PR with the files written, its labels and the issue comment when there is an issue |
| `PromptPr.FormatPromptForPr` | internal/github/prompt_pr.go:207-232 | The PR copy of a prompt is its header with the model line, then the prompt's content unchanged, then the footer |
| `PromptPr.PrBodyLayout` | internal/github/prompt_pr.go:244-317 | The body opens with the summary, files, usage and details sections, ends with the attribution line, and holds the related-issue section between |
| `PromptPr.IssueCommentLayout` | internal/github/prompt_pr.go:323-345 | The issue comment opens with the announcement and count, holds the PR's address verbatim, then ends with the closing line |
| `PromptGitHubService.HeaderIsSection` | internal/prompts/github_service.go:420-433 | A line that opens a prompts section is itself a `## ` section line |
| `PromptGitHubService.RewriteHeaderless` | internal/prompts/github_service.go:410-446 | A README whose lines open no prompts section is rewritten line for line unchanged |
| `PromptGitHubService.RewriteKeepsPrefix` | internal/prompts/github_service.go:418-439 | The lines before the first prompts header are kept as they are |
| `PromptGitHubService.RewriteSkipsBody` | internal/prompts/github_service.go:429-439 | While a prompts section is being skipped, lines that open no section are dropped |
| `PromptGitHubService.RewriteReplacesSection` | internal/prompts/github_service.go:410-446 | A prompts section, from its header to the next other `## ` section, is replaced by the new section's lines; what is before it is kept and what follows is rewritten the same way |
| `PromptGitHubService.RewriteFromHeader` | internal/prompts/github_service.go:418-439 | From a prompts header on, the output is the new section followed by the rewrite of what comes after the section's body |
| `PromptGitHubService.RewriteLines` | internal/prompts/github_service.go:414-443 | The line loop produces exactly the rewrite that replaces every prompts section |
| `PromptGitHubService.FirstWithFinds` | internal/prompts/github_service.go:390-399 | The search returns the first line that qualifies, and returns nothing only when no line qualifies |
| `PromptGitHubService.ReadmeContent` | internal/prompts/github_service.go:371-407 | Existing content is kept and the section appended after a blank line; otherwise a new README opens with `# <name>` and ends with the section |
| `PromptGitHubService.GenerateReadmeContent` | internal/prompts/github_service.go:371-407 | The loop takes as description the first trimmed line over 50 bytes not starting with `#`, only in a synthesized text over 200 bytes |
| `PromptGitHubService.UpdatedReadme` | internal/prompts/github_service.go:410-446 | A non-empty README mentioning neither prompts heading gets the section appended after a blank line |
| `PromptGitHubService.MidLineHeadingUnchanged` | internal/prompts/github_service.go:412-421 | When the headings occur only inside lines, no section is found and the README comes back unchanged, without the prompts section |
| `PromptGitHubService.UpdateReadmeWithPrompts` | internal/prompts/github_service.go:410-446 | A README mentioning a prompts heading has its sections rewritten line by line; any other README is extended as a new README would be |
| `PromptGitHubService.Categories` | internal/prompts/github_service.go:524-540 | The categories gathered hold no repeats, are only the platform and variation assets, and hold a category exactly when some error-free result belongs to it |
| `PromptGitHubService.NewPromptStatus` | internal/prompts/github_service.go:515-571 | A new status has nothing pending; each category with an error-free result is generated and flagged, followed by `prompts` exactly when either is; both times are now, and the metadata names generator, model and version |
| `PromptGitHubService.AddFlag` | internal/prompts/github_service.go:530-543 | Flagging an asset as it is appended keeps the flags exactly those of the generated list |
| `PromptGitHubService.GenerateAssetStatus` | internal/prompts/github_service.go:515-562 | The loop builds exactly the new status |
| `PromptGitHubService.MarkIf` | internal/prompts/github_service.go:609-638 | When the condition holds the asset becomes generated, leaves the pending list and is flagged, and every other asset keeps its place and flag; otherwise nothing changes |
| `PromptGitHubService.GeneratedKeepsNoRepeats` | internal/prompts/github_service.go:611-613 | Appending an asset only when it is absent keeps the generated list free of repeats |
| `PromptGitHubService.UpdatedMeta` | internal/prompts/github_service.go:641-646 | The metadata records the time of the prompt generation |
| `PromptGitHubService.UpdatedPromptStatus` | internal/prompts/github_service.go:574-647 | Each category with an error-free result becomes generated, not pending and flagged, and so does `prompts` when either did, which alone moves the generation time; other assets keep their place; no repeats are added |
| `PromptGitHubService.UpdateAssetStatus` | internal/prompts/github_service.go:574-656 | A status that does not parse is `failed to parse existing asset status: …`; otherwise the updated status, encoded |
| `PromptGitHubService.StatusText` | internal/prompts/github_service.go:239-260 | A status the repository does not have is replaced by a new one |
| `PromptGitHubService.KindTypes` | internal/prompts/github_service.go:93-103 | `all` runs the seven types keeping failure times, `platform` and `variation` their own types with failures stamped with the zero time; any other kind is unknown |
| `PromptGitHubService.GitHubService.constructor` | internal/prompts/github_service.go:25-33 | The service starts over the given repository reads, PR client, tracker and status manager, with the fixed README section |
| `PromptGitHubService.GitHubService.KeyCount` | internal/prompts/github_service.go:486-512 | Counting the three key prompt files reaches two exactly when two of them are present |
| `PromptGitHubService.GitHubService.PromptsAlreadyExist` | internal/prompts/github_service.go:486-512 | Prompts exist exactly when at least two of `chatgpt.md`, `claude.md` and `gemini.md` are in the repository |
| `PromptGitHubService.GitHubService.LoadUpdatedReadme` | internal/prompts/github_service.go:220-236 | A README the repository does not have is written anew; an existing one is updated |
| `PromptGitHubService.GitHubService.LoadUpdatedAssetStatus` | internal/prompts/github_service.go:239-260 | The fetched status updated, or a new status when there is none or it does not parse |
| `PromptGitHubService.GitHubService.PrDataFor` | internal/prompts/github_service.go:192-217 | The PR data is for the persona and its results and is never tied to an issue |
| `PromptGitHubService.GitHubService.PreparePrData` | internal/prompts/github_service.go:192-217 | The method gathers exactly that data |
| `PromptGitHubService.GitHubService.Opening` | internal/prompts/github_service.go:93-131 | An unknown kind fails as `unknown prompt type: <kind>`; a PR failure is reported under `failed to create GitHub PR: ` and records nothing; an opened PR is recorded with its number, address, time and content hash |
| `PromptGitHubService.GitHubService.Plan` | internal/prompts/github_service.go:66-134 | A fetch failure is an error; existing prompts (unless forced) or a pending PR for the same content skip the run; otherwise the persona's record is cleared and, once a PR is opened, it is recorded for the fetched content |
| `PromptGitHubService.GitHubService.OpenTracked` | internal/prompts/github_service.go:93-131 | Generation, PR creation and tracking end as the plan says, and the ledger keeps its invariant |
| `PromptGitHubService.GitHubService.GeneratePromptsWithPR` | internal/prompts/github_service.go:66-134 | The run ends as `Plan` says, with the ledger then holding the planned records |
| `PromptGitHubService.GitHubService.RegisterCallbacks` | internal/prompts/github_service.go:274-281 | The three PR generators are registered under the three prompt assets, other registrations kept |
| `PromptGitHubService.GitHubService.TriggerPromptGenerationWithPR` | internal/prompts/github_service.go:284-317 | The three prompt assets are marked pending locally, then all prompts are run with a PR; the issue number is not passed on |

## Left out

- Unicode: `strings.ToLower`, `strings.ToUpper` and the case-insensitive `(?i)` title pattern fold all of
  Unicode, but the model maps ASCII letters only. Persona names and titles outside ASCII are not covered.
- Files, the clock and the network are parameters or explicit state: a map from path to contents, an `int`
  clock with zero as Go's zero time, and functions for GitHub and the LLM providers. Permissions, partial
  writes, directory creation and the timing of calls are not modelled.
- RFC 3339 and the readable time format are function parameters. Their formatting and parsing are assumed
  to be each other's inverse on whole seconds; calendar arithmetic is not modelled.
- JSON: the asset status codec (`StatusCodec`) and the status serializer are parameters. The
  `MarshalIndent` failure fallback to `{}` is not modelled.
- `bufio.Scanner` stops at lines over 64 KiB. The line-based ledgers (processed issues, batch names, PR
  records) are modelled without that limit. For the batch file, a scanner failure is an input of
  `Batch.BatchPipeline.ProcessFile` (its `ScanFailed` case), not derived from the line lengths.
- Goroutines and channels: `generateFromAllProviders` runs the four providers concurrently. The model takes
  the arrival order as a parameter and promises only what does not depend on it (the multiset of outcomes,
  and the success count).
- `extractPersonaName` (internal/persona/generator.go:60-76) is a parameter of the multi-provider pipeline.
  The rest of that file that the pipelines use, the feedback keywords, comment analysis and feedback
  formatting of generator.go:131-197, is modelled in `Feedback`.
- Scheduling, the command-line entry points, configuration loading, internal/prompts/prompt_integration.go,
  the persona generators in generators.go, the vendor LLM clients and the GitHub client
  (internal/github/client.go) are not part of this model. Their calls appear as parameters.
- The persona file set returned by the synthesizer also has ready prompts, constrained formats and platform
  adaptations. The structured pipeline drops them, and so does the model.
- `Batch.CheckPersonaExists`: the Go function returns an error value it never sets, so the model returns a
  `bool`, and the error-count path behind it does not exist.
- `IssueParser.ExtractDetailedContent`: the error message is shortened to a constant. Only the fact that
  parsing fails is modelled.
- `IssueParser.ExtractUserPersona`: the error message is shortened to a constant. Only the fact that
  parsing fails is modelled.
- Storage artifacts other than the status and prompt files (logs, debug dumps) are not modelled. Neither
  is logging.
- `Assets.StatusManager.SaveStatus`: keys the status by the persona name as given. The Go code passes the
  name through `filepath.Clean` first, and path normalization is not modelled. Write failures are not
  modelled either: saving always succeeds.
- `PromptRepository.PersonaFolder`: the folder is `personas/` plus the normalized name, joined as text.
  Go's `getPersonaFolder` (repository.go:318-323, service.go:231-234) goes through `filepath.Join`, which
  cleans the path, so a name such as `..` names a different folder in Go. The base directory is left off.
- `AssetMonitor.CheckReadmeTriggers`: a README that cannot be read gives `failed to read README`. Go adds
  `: <cause>` (monitor.go:275), and the model does not carry the cause.
- `PromptGenerator.TemplatePath`: the template path is `prompts/<file>`, relative to the base directory. Go
  joins the base directory in front (generator.go:142), so the path in the read error lacks it.
- `Pipelines.FindOriginalIssue`: `strconv.Atoi` rejects numbers that overflow `int`, but the model's
  integers are unbounded.
- `Pipelines.IssueLine`: the same `Atoi` overflow. A line holding a number beyond 64 bits (20 digits, say)
  is skipped by Go and loaded by the model.
- `Pipelines.Pipeline.LoadProcessedIssues`: inherits that from `IssueLine`; an overflowing number is kept in
  memory where Go drops it (pipeline.go:417).
- `PrTracking.ParseLine`: the PR number field is read with the same unbounded `Atoi`, so a record whose
  number overflows `int` is loaded where `loadPRRecords` skips it (pr_tracking.go:213).
- `ScanForTriggers`, `RunOnce` and `StartMonitoring`: only the timer loop and the dispatch are left out.
  That dispatch tries the GitHub scan first and falls back to the local one. The two scans
  (`AssetMonitor.Monitor.ScanGitHubForTriggers`, `AssetMonitor.Monitor.ScanLocalForTriggers`), the per-persona
  checks, `ProcessTriggers` and callback registration are modelled.
- `AssetMonitor.Monitor.ProcessTriggers`: a callback is a pure function of the persona name and its
  synthesized text. The files, README, status entries, pull requests and ledger records that the registered
  generators write between `MarkAssetPending` and `MarkAssetGenerated` are not modelled. The ensures covers
  only the monitor's own pending and generated marks.
- `AssetMonitor.Monitor.ProcessAsset`: the same gap, for one asset. A generator's own writes to the status
  file (the `prompt_<type>` entries of repository.go:274-315) are not modelled.
- `PromptService.Service.RegisterCallbacks`: registers three given pure callbacks. Nothing ties them to
  `GenerateAllPrompts`, `GeneratePlatformPrompts` and `GenerateVariationPrompts`, and those generators'
  writes (prompt files, README, status file) happen outside the monitor in the model. They are modelled
  separately, as `PromptService.Service` and `PromptRepository.RepositoryManager.SavePromptResults`.
- `PromptGitHubService.GitHubService.RegisterCallbacks`: registers three given pure callbacks. Nothing ties
  them to the PR generators, whose pull requests and ledger writes are modelled separately by
  `PromptGitHubService.GitHubService.GeneratePromptsWithPR`.
- `PrTracking.PrTracker.ShouldCreatePR`: compares the stored hash with the corrected `PrTracking.ContentHash`
  where Go uses `GetContentHash`. `PrTracking.SameHashDecisions` proves that both hashes make the same
  equality decisions in memory. What differs is this: a records file written by the Go program never
  matches here, and the reload loss of the Findings row (a record whose hash ends in white space answers
  `content_changed` after a reload) is not reproduced.
- `PromptGitHubService.Creates`: the same substitution; the pending-PR test uses the corrected hash.
- `PromptGitHubService.GitHubService.Opening`: records the new PR with the corrected hash, where Go records
  `GetContentHash`.
- `PromptGitHubService.GitHubService.Plan`: the skip decision and the recorded hash use the corrected hash.
- `PromptGitHubService.GitHubService.OpenTracked`: tracks the PR with the corrected hash.
- `PromptGitHubService.GitHubService.GeneratePromptsWithPR`: inherits the corrected hash from `Plan` and
  `OpenTracked`. Content ending in white space, tracked and then reloaded, is skipped here and re-proposed by
  Go.
- `PromptGitHubService.GitHubService.TriggerPromptGenerationWithPR`: inherits the corrected hash from
  `GeneratePromptsWithPR`.
- The six exported prompt-PR wrappers of `GitHubService` (internal/prompts/github_service.go:36-63) pass a
  fixed prompt kind and `force` flag to `generatePromptsWithPR`. The model has the one method
  `PromptGitHubService.GitHubService.GeneratePromptsWithPR`, which takes both as parameters.
- `GitHubService.GetPromptGenerationStats` only delegates to the base service, whose function
  (`PromptService.GetPromptGenerationStats`) is modelled.
- `convertPromptResults` copies each field of one result type into an identical type. The model has one
  `PromptResult` type, so the conversion is the identity and has no member.
- `PrTracking.PrTracker.ShouldCreatePR`: its error result is never produced, because the tracker's lookup
  swallows load errors. The caller's branch for that error is not modelled.
- `PromptService.NeedsPrompts`: takes one file stat per path. The Go code stats the synthesized persona
  twice; the model assumes both calls see the same file.
- `PromptGitHubService.GitHubService.TriggerPromptGenerationWithPR`: the issue number argument is unused by
  the Go code and is dropped.

## Findings

| source | as written | input that shows it | evidently intended | confidence | as-written member | corrected member |
|---|---|---|---|---|---|---|
| internal/prompts/pr_tracking.go:125 | `GetContentHash` ends the hash with the content's last character as it is, white space included; the records loader trims every line | content `"ab\n"` hashes to `3-a-\n`, which reloads as `3-a-`; in Go, `ShouldCreatePR` then answers `content_changed` for that content. The model's flow uses the corrected hash | a content hash that reads back from the records file unchanged, so an unchanged persona is not proposed again | not executed | `PrTracking.HashLostOnReload` | `PrTracking.ContentHashSurvivesReload` |
