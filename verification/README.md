# A Dafny model of TWILL

TWILL reads append-only agent transcripts into derived database rows, turns the
rows into findings, and keeps operator-owned lesson files and a published
artifact tree beside them. This project models the parts whose promises hold
over whole histories, and proves them for every input.

The model takes the form of the source. Code that changes state step by step is
a class or a method with a loop (`CodexParser.LineParser`,
`EpisodeDeriver.Deriver`, `Ingest.Store`, `DetectorRunner.Connection`,
`InlineParser.Parser`, `LessonOperator.Lesson`, `ArtifactWrites.ArtifactRoot`,
`Drift.CheckSource`, `Waste.AttributeWaste`, `Packing.Build`). Each of them is
proved to do what a function on values says, and the theorems are about those
functions. Beside the invariants there is, for each of the main operations, an
account of its result from its inputs alone: the rows of a transcript from its
records, the interactions of a rollout from who did what, the episodes from
what each row rules, a lesson's step from the lifecycle table, a cluster from
the cells of its row, a published tree from the edits.

| files | what they model |
|---|---|
| `Cursor`, `Transcript`, `TranscriptRows`, `Ingest`, `IngestRuns` | the chunked scanner, the resume decision, a transcript pass in its transaction, what its records store, and the incremental index against a whole-file parse |
| `Codex`, `CodexParser`, `CodexReader`, `CodexGraph`, `CodexCalls`, `CodexUsage`, `CodexDeeds`, `CodexStory`, `CodexEndings`, `CodexMeters`, `CodexRows`, `Interactions` | the Codex rollout parser and reader: spans, the interaction graph, the account of calls and event keys, token accounting; and the same interactions and events told from the records alone |
| `Episodes`, `EpisodeDeriver`, `EpisodeMachine`, `EpisodeAuthority`, `EpisodeGrants`, `EpisodeRaises`, `EpisodeRulings`, `Autonomy`, `AutonomyVerdicts` | deriving execution episodes, what each row rules, what may move authority, when the projection raises, and what an autonomy finding rests on |
| `Detectors`, `DetectorRunner`, `DetectorRuns`, `DetectorRows` | the detector runner over any history of runs, failures and reviews, and what it stores of each cell |
| `PyText`, `JsonText`, `Inline`, `InlineParser`, `InlineRoundTrip`, `LessonFile`, `LessonRewrite`, `LessonReload`, `LessonEdits`, `LessonRouting`, `LessonRecord`, `LessonTransition`, `LessonLifecycle`, `LessonLaw`, `LessonSteps`, `LessonOperator`, `LessonRuns`, `LessonSample`, `LessonWitness` | the lesson document: reading, printing, rewriting fields in place, the lifecycle |
| `Artifacts`, `ArtifactWrites`, `ArtifactOutcomes`, `ArtifactWitness` | the manifest and the write that goes through with it or is rolled back |
| `Drift`, `DriftWindows`, `Waste`, `Packing` | the parser-drift alarm, sharing usage over clusters, packing a prompt under two budgets |
| `Prelude`, `Sequences` | options, results, and small facts about sequences |

What the outside supplies is a parameter: decoded JSON records, the answers of
regular expressions (`Episodes.Lexicon`, `Autonomy.Phrases`), redaction, clocks, dates,
SQL answers, and the step at which a database or a file system fails. SHA-256 is
taken to be injective. SQLite is maps with commit and rollback.

## Findings

Where the code falls short of what it is for, an input that shows it, and the
exact condition under which it does not, for all inputs.

| the code | shown by | all is well exactly when |
|---|---|---|
| A resume trusts the first 4096 bytes of a file, and may keep rows of bytes that changed behind them (`twill_cursor.py:172-190`). | `Cursor.ResumeIsSafeExactly` | the committed span lies within those bytes (`Cursor.ResumeIsSafeExactly`) |
| An episode's action is its keys joined by " \| " and split again: asked to "fix a \| b", the projection raises at the next request (`twill_episodes.py:175-179`). | `EpisodeRaises.TwoRequestsRaise` | no request looks at an action one of whose pieces has no colon (`EpisodeRaises.DeriveRaisesExactly`); keys with a colon and no separator never lead to it (`EpisodeRaises.PlainKeysNeverRaise`) |
| A legal command can leave a lesson that no longer loads, though the documentation promises the reload (`twill_lessons.py:683-699`). | `LessonWitness.TwoLostLessons`: a bead with U+2028; a state line ended by a vertical tab | each rewritten line ended in a newline or a blank line follows it, and a rewritten reason and bead hold no U+0085, U+2028 or U+2029 (`LessonLaw.TransitionReloadsExactly`) |
| A failure in the very last cleanup of a write leaves the new manifest over the old files (`twill_artifacts.py:672-679`). | `ArtifactWitness.LateCleanupMisdescribes` | the cleanup did not fail, or the manifest is rolled back with the rest, or the write kept the inventory (`ArtifactWrites.DescribedExactly`) |
| Rolling back removes files, not directories: after a first autonomy write fails nothing can be published (`twill_artifacts.py:611-615`). | `ArtifactWitness.FirstAutonomyWriteBlocks` | the write got neither as far as a file in the directory nor past the scan before its sidecar (`ArtifactWrites.FailedFirstAutonomyWriteBlocksExactly`) |

## Model

| member | source | states |
|---|---|---|
| `Cursor.ScanLines` | `twill_cursor.py:193-226` | for any bytes, start and chunk size the chunk loop returns the scan of the region, or the error when the start is past the end |
| `Cursor.CountNewlinesTo` | `twill_cursor.py:229-238` | the count of newlines before the limit, whatever the chunk size |
| `Cursor.IdentityHash` | `twill_cursor.py:146-158` | the digest of the first `length` bytes or of the whole shorter file, fed chunk by chunk |
| `Cursor.ScanEndIsExact` | `twill_cursor.py:216-226` | `new_offset` is one past the last newline of the region, or the start; the tail is pending exactly when bytes remain |
| `Cursor.ScanLinesAreExact` | `twill_cursor.py:203-215` | the lines, re-terminated, are the region up to `new_offset`, none holds a newline, and their numbers are those of the whole file |
| `Cursor.ScanResumes` | `twill_cursor.py:193-226` | scanning from a committed offset yields exactly the lines a scan from the start has beyond it |
| `Cursor.CommittedIsBoundary` | `twill_cursor.py:116-135` | what a scan commits ends a line |
| `Cursor.PlanIsExact` | `twill_cursor.py:172-190` | resume is chosen exactly when no hashed byte moved and nothing committed was cut off; otherwise the pass starts at zero and replaces the session |
| `Cursor.ResumeIsSafeExactly` | `twill_cursor.py:172-190` | resuming never trusts changed bytes exactly when the committed span is within the hashed prefix |
| `Transcript.ParseGenericScan` | `twill_app.py:583-696` | the loop over scanned lines, with the working directory restored from the prefix, is the line-by-line reading |
| `Transcript.ParseCodexScan` | `twill_app.py:506-580` | replaying the prefix into a fresh parser and then feeding the new lines is the line-by-line reading |
| `Transcript.ReplayCodex` | `twill_app.py:506-580` | the replay leaves the parser and the session id as reading the prefix does |
| `Transcript.RecordEvents` | `twill_app.py:640-690` | the events of one record: one for each text that is not blank, under the number of such texts before it, then one for each read path, and no other |
| `TranscriptRows.WholeFileStores` | `twill_app.py:640-690` | a whole-file parse stores, of each line that is a record, its texts that are not blank and its read paths under those indices, in the directory named last at or before the line; of any other line nothing |
| `TranscriptRows.WholeFileCounts` | `twill_app.py:583-696` | the rows come line by line and of no other line; the errors are the lines that are no record, and the session is the one named last |
| `TranscriptRows.PassRowExactly` | `twill_app.py:1600-1672` | the cursor row of a pass from the bytes and the row before: size, offset, first and last times, the errors of its region and their streak |
| `Ingest.Store.Persist` | `twill_app.py:1251-1415` | one transaction: all rows and the cursor row, or nothing, and an integrity failure only for a repeated (line, index) |
| `Ingest.Store.IngestPath` | `twill_app.py:1600-1672` | a pass that commits leaves exactly the next state of the path; a pass that fails leaves it and every other path alone |
| `Ingest.Store.SkipUnchangedPath` | `twill_app.py:1561-1598` | skips exactly when identity, size and time agree, and then only refreshes the error count |
| `Ingest.CodexReadIsFeed` | `twill_app.py:506-580` | reading Codex lines is feeding the rollout parser |
| `CodexRows.WholeCodexStores` | `twill_app.py:506-580` | a whole-file parse of a rollout stores exactly the events its records tell, and files them under the session the rollout names |
| `Ingest.WholeEventsUnique` | `twill_app.py:207-219` | the events of a whole-file parse have distinct (line, index), as the UNIQUE constraint needs |
| `IngestRuns.ResumedEvents` | `twill_app.py:506-696` | the prefix's events and the resumed tail's are the whole file's |
| `IngestRuns.ResumedSession` | `twill_app.py:506-696` | a resumed parse reports the session id of the whole file |
| `IngestRuns.PassKeepsIndex` | `twill_app.py:1600-1672` | a trusted pass leaves the index of the bytes it read |
| `IngestRuns.IncrementalIsFromScratch` | `twill_app.py:1600-1672` | after any history of writes, passes, failures, skips and sweeps whose resumes are trusted, the stored rows and session are those of one whole-file parse of the bytes last ingested, with no duplicate key |
| `IngestRuns.ShortHistoryIsFromScratch` | `twill_cursor.py:172-190` | for files whose complete lines fit 4096 bytes nothing has to be trusted |
| `IngestRuns.SkipRefinesPass` | `twill_app.py:1561-1649` | on unchanged bytes a skip leaves the offset, errors and error runs an idle pass leaves |
| `IngestRuns.ErrorStreakIsExact` | `twill_app.py:1070-1083` | over any mix of passes the error-run counter is the number of latest passes in a row with errors |
| `CodexParser.LineParser.ParseLine` | `codex_reader.py:360-395` | one line changes the parser and emits events as the step function says; over a rollout that is the story of its records (`CodexStory.InteractionsTellTheStory`) |
| `CodexParser.LineParser.Finish` | `codex_reader.py:397-409` | the flush in order, the emptied table and the closed trailing replies; the missing-key error leaves the state |
| `CodexParser.LineParser.RegisterCall` | `codex_reader.py:592-660` | the interaction, the pending entry and the file-read event of a call |
| `CodexParser.LineParser.ConsumeCallOutput` | `codex_reader.py:662-704` | the resolved call leaves the table and its events are emitted |
| `CodexParser.LineParser.ConsumeUserPrompt` | `codex_reader.py:742-774` | the prompt blocks in order, interrupts and the one correction |
| `CodexParser.LineParser.ConsumeUsageSnapshot` | `codex_reader.py:860-914` | the deltas, the new last reading and the raised maxima |
| `CodexStory.InteractionsTellTheStory` | `codex_reader.py:223-842` | after every rollout the interactions are exactly the nodes its deeds leave, in every field: who, text, thread, turn, links, how it ended; and the events exactly those its records tell. Deeds are read off the records by looking back, not by the parser's steps |
| `CodexEndings.RepliesEndAsTold` | `codex_reader.py:271-288` | every reply is completed if the thread's next reply or closing deed is a task-complete, interrupted if an abort or an interrupt prompt, unknown if a prompt that opens a turn, and not final if another reply came first or nothing did yet |
| `CodexEndings.FinishingTells` | `codex_reader.py:397-409` | finishing leaves the replies still open unknown and every other interaction as it was told |
| `CodexEndings.LinkedCallStandsThere` | `codex_reader.py:592-704` | the place a link names holds the question or call of the record it comes from |
| `CodexEndings.PromptsTellTheirCorrection` | `codex_reader.py:742-774` | one interruption for each interrupting block up to the correction, then the correction: the first block with text after an interruption |
| `CodexReader.RolloutReader.Parse` | `codex_reader.py:1008-1060` | a parse consumes exactly the whole lines of its span, keeps its place, and fails without effect |
| `CodexReader.SplittingDoesNotMatter` | `codex_reader.py:1008-1060` | any number of successive spans of a growing file gives the state, events and position of one read |
| `CodexReader.ResumeIsOneRead` | `codex_reader.py:1008-1060` | reading a prefix and then the rest is reading the file once |
| `CodexGraph.GraphOfEveryPrefix` | `codex_reader.py:223-288` | on every prefix ordinals are indices and links point strictly back to a call or a question; later lines only move a terminal state up and never change a settled one; completions never outnumber `task_complete` records |
| `CodexGraph.FeedKeeps` | `codex_reader.py:706-842` | feeding keeps the graph and only ages old interactions |
| `CodexGraph.DrainedIsSettled` | `codex_reader.py:397-409` | finishing keeps the graph and leaves no trailing reply open |
| `CodexCalls.EventKeysNeverCollide` | `codex_reader.py:397-409` | no two events of a rollout, flush included, share (source_line, event_index), with no call id reused in flight |
| `CodexCalls.AccountIsKept` | `codex_reader.py:592-704` | the pending table is exactly the calls still waiting, and each call's runs so far are exactly what its output owes |
| `CodexCalls.RolloutAccount` | `codex_reader.py:397-409` | finishing succeeds and empties the table; each run call has exactly one run event, from its output or the flush, or none for a rejection |
| `CodexUsage.TokensAreConserved` | `codex_reader.py:860-914` | the deltas of a counter sum to its last reading plus what its resets lost, so at least its maximum and exactly that when it never drops |
| `CodexMeters.UsageIsTold` | `codex_reader.py:860-914` | the usage rows are exactly one for each snapshot that adds to some counter, with what it adds to each: the rise since the last reading, or all of a first reading and of one after a drop |
| `CodexUsage.SessionIdSticks` | `codex_reader.py:411-432` | once a session id is known no record changes it |
| `Interactions.ApplyCompletedHistory` | `twill_interactions.py:208-236` | exactly the unknown replies of completed turns are upgraded |
| `Interactions.HistoryUpgradesWhatItCounts` | `twill_interactions.py:239-251` | the count announced beforehand is the number upgraded |
| `EpisodeDeriver.DeriveEpisodes` | `twill_episodes.py:122-322` | the loop over mutable episodes computes the derivation, or raises exactly where it does; what each row does in it is `EpisodeRulings.RowsRuleExactly` |
| `EpisodeDeriver.Deriver.HandleRow` | `twill_episodes.py:127-303` | one row moves the objects as the step function moves the values |
| `EpisodeDeriver.Deriver.HumanRequest` | `twill_episodes.py:139-250` | a main-thread request: instruction, decision, restriction, status, cancellation, completion, replacement, resumption, approval or a new episode |
| `EpisodeDeriver.Deriver.HumanAnswer` | `twill_episodes.py:262-287` | an answer goes to the episode that asked, or is noted as unmatched |
| `EpisodeDeriver.LiveEpisode.constructor` | `twill_episodes.py:103-119` | a new episode with its first assertions, an authorization for each of its actions |
| `EpisodeMachine.StepAdvances` | `twill_episodes.py:122-322` | every row keeps at most one active episode, the newest, and moves episodes only forward |
| `EpisodeMachine.FoldAdvances` | `twill_episodes.py:122-322` | a longer prefix of rows never revives a closed episode or a revoked authority, and authorized implies an action |
| `EpisodeRulings.RowsRuleExactly` | `twill_episodes.py:122-303` | over every session, what each row does to every episode in every field: a request closes the active one as cancelled and revoked, completed, replaced and revoked, or superseded, exactly by how the lexicon reads it and what no earlier question answers; which rows grant, withhold or cloud; what a request opens; and that no other row does any of it |
| `EpisodeRulings.ClosedByARuling` | `twill_episodes.py:178-250` | every closed episode was closed by a main-thread request that ruled so while it was active |
| `EpisodeRulings.DerivedIsFolded` | `twill_episodes.py:312-322` | the end of a session: what omission and truncation note and cloud, and an episode whose reply was never seen to end says so |
| `EpisodeAuthority.AuthorityNonInterference` | `twill_episodes.py:122-322` | sessions that agree on main-thread human and question rows derive episodes with the same start, objective, action, authority, lifecycle, advice flag and historical policy |
| `EpisodeAuthority.FoldDependsOnMovingRows` | `twill_episodes.py:122-322` | deleting every other row leaves those fields as they were |
| `EpisodeGrants.EveryGrantHasAHumanSource` | `twill_episodes.py:103-303` | every known authorization or explicit approval comes from a main-thread human row that gave exactly that action |
| `EpisodeRaises.DeriveRaisesExactly` | `twill_episodes.py:175-179` | the projection raises exactly when a request reaches the pending objects of an action with a colonless piece |
| `EpisodeRaises.ActionReadsBackExactly` | `twill_episodes.py:175-179` | the stored action splits back into its keys exactly when the separator tells them apart |
| `EpisodeRaises.LegibleRequestsNeverRaise` | `twill_episodes.py:122-322` | requests whose actions read back with colons never lead to it |
| `EpisodeRaises.PlainKeysNeverRaise` | `twill_episodes.py:122-322` | keys with a colon and no separator: every session is derived to the end and every grant in it has its human source |
| `EpisodeRaises.TwoRequestsRaise` | `twill_episodes.py:175-179` | a session of two requests that raises |
| `Autonomy.Shortlist` | `twill_autonomy.py:73-97` | the first candidate of each family, in row order, of a pending action |
| `Autonomy.Assess` | `twill_autonomy.py:105-200` | dismissed exactly when an assertion of a stopping kind, advice or a contradicting row is on record; supported exactly when none is, the action is on record as pending and granted, the episode is active, authorized, of known context and unrestricted, and the family's evidence is there |
| `Autonomy.AssessBounded` | `twill_autonomy.py:200-210` | at most the cap is cited, and only a complete assessment stays supported |
| `Autonomy.ProjectSession` | `twill_autonomy.py:213-273` | for one session: raises exactly when deriving does, one finding for each family of each episode that has a candidate, and a supported one only if nothing is missing or adverse and a main-thread human row granted exactly its action |
| `Autonomy.SupportNeedsAHumanGrant` | `twill_autonomy.py:105-210` | support always rests on a main-thread human row granting exactly that action |
| `Autonomy.CandidatesArePending` | `twill_autonomy.py:73-97` | a candidate is a main-thread assistant row naming a pending action |
| `AutonomyVerdicts.ShortlistedExactly` | `twill_autonomy.py:73-97` | the candidate of a family is the one raised by the earliest main-thread reply that offers, abandons or calls blocked a pending action as the family asks |
| `AutonomyVerdicts.StoppedIsNeverSupported` | `twill_autonomy.py:105-210` | an episode left cancelled, completed, revoked or withheld is stopped for every candidate, and no finding in it is supported |
| `Detectors.BuildRegistry` | `twill_detectors.py:192-291` | a registry is accepted exactly when every entry is acceptable and no id repeats |
| `Detectors.CollectClusters` | `twill_detectors.py:1848-1880` | one emission for each row of the answer, each column's cell in its own place and the key its redacted, cut text, or the contract error exactly when no such reading exists |
| `Detectors.CollectedExactly` | `twill_detectors.py:1848-1880` | the collected rows are the one reading of the answer's cells, column by column |
| `Detectors.CollectSessionHits` | `twill_detectors.py:1896-1929` | the distinct hits of emitted keys, or the error exactly when a row is malformed or some key has not the sessions it claims |
| `Detectors.HitsCollectedExactly` | `twill_detectors.py:1896-1929` | the collected hits are the one reading of the answer's cells |
| `DetectorRunner.Connection.RunOne` | `twill_detectors.py:2199-2315` | whichever statement fails, nothing changes; a commit leaves exactly the refresh, and only a fault or a contract breach prevents it |
| `DetectorRunner.Connection.RecordFailure` | `twill_detectors.py:2318-2376` | marks an existing record or does nothing |
| `DetectorRunner.UpsertThenDelete` | `twill_detectors.py:2226-2256` | upserting the emitted rows and deleting the open keys not emitted is the refresh of every row |
| `DetectorRunner.HandleDetector` | `twill_detectors.py:2426-2579` | skip, the four drift refusals in order, run, and what each records |
| `DetectorRunner.RunDetectors` | `twill_detectors.py:2379-2600` | a whole run is a step for each active detector in turn, isolated but for faults the source does not catch |
| `DetectorRunner.SelectDetectors` | `twill_detectors.py:294-307` | each named detector once; an unknown name is an error |
| `DetectorRuns.EachDetectorStandsAlone` | `twill_detectors.py:2379-2600` | over a run each detector's clusters and hits are its own refresh of what the run found, or untouched when it was skipped, refused or errored |
| `DetectorRuns.OpenKeysAreEmittedOnes` | `twill_detectors.py:2226-2256` | after a commit the open keys are the emitted keys nobody had reviewed |
| `DetectorRuns.ReviewSurvives` | `twill_detectors.py:2158-2166` | state, cover and score of a row survive; a row goes only when open and not emitted |
| `DetectorRuns.EmittedKeysAreCounted` | `twill_detectors.py:1919-1929` | each emitted key stores exactly its sessions as hits when there is hit SQL, and none otherwise |
| `DetectorRuns.HashesAreWrittenOnce` | `twill_detectors.py:2168-2196` | over any history a stored semantics, attribution, backtest or weekly hash never changes |
| `DetectorRuns.ClustersNeedTheStoredHash` | `twill_detectors.py:2445-2545` | clusters change only in a commit under the hash on record |
| `DetectorRuns.OneVersionOneMeaning` | `twill_detectors.py:2445-2545` | two commits of one detector version, however far apart, ran the same SQL |
| `DetectorRuns.RecordsComeFromCommits` | `twill_detectors.py:2318-2345` | a version that never committed has no record |
| `DetectorRuns.HitsAlwaysHaveClusters` | `twill_detectors.py:2226-2268` | no history leaves a session hit without its cluster |
| `DetectorRuns.ReviewOutlivesRuns` | `twill_detectors.py:2158-2166` | a reviewed row outlives every later run in the state review left it |
| `DetectorRows.RowsAreStored` | `twill_detectors.py:2226-2256` | after a commit every row of the answer is stored under the key its cell says, its sessions, events and times from their own columns |
| `DetectorRows.OnlyRowsAreStored` | `twill_detectors.py:2226-2256` | what a commit puts in the table, or changes there, is a row of the answer |
| `DetectorRows.HitsAreStored` | `twill_detectors.py:2257-2268` | a hit is stored exactly when hit SQL ran, a row of its answer says it and a row of the clusters says its key |
| `DetectorRows.CommitIsRecorded` | `twill_detectors.py:2270-2315` | a commit records its time, window and row count, and keeps the first run's time |
| `DetectorRows.FailureOnlyMarks` | `twill_detectors.py:2318-2376` | a refusal or a failure marks its own record and touches nothing else |
| `DetectorRows.RefusedForTheFirstDrift` | `twill_detectors.py:2445-2545` | each refusal names the first of the four stored hashes that differs |
| `DetectorRows.RunsOnlyUndrifted` | `twill_detectors.py:2445-2545` | what runs at all has none of them differing |
| `PyText.JoinedLinesSplitBack` | `twill_lessons.py:574-574` | splitting undoes joining exactly for lists that could have come from splitting |
| `JsonText.QuoteReadsBack` | `twill_lessons.py:110-118` | any text, quoted as section 7 of RFC 8259 and followed by anything, decodes to itself and leaves the rest |
| `JsonText.QuoteBreaksExactly` | `twill_lessons.py:661-661` | quoted text stays on one line exactly without U+0085, U+2028 and U+2029 |
| `InlineParser.ParseInline` | `twill_lessons.py:57-183` | the moving-position parser accepts and reads what the grammar functions do |
| `InlineParser.Parser.Value` | `twill_lessons.py:73-108` | one value, and the position after it |
| `InlineParser.Parser.Mapping` | `twill_lessons.py:134-161` | the mapping loop: keys, colons, separators, duplicates and trailing commas |
| `InlineParser.Parser.Sequence` | `twill_lessons.py:163-183` | the sequence loop |
| `InlineRoundTrip.ScalarReadsBack` | `twill_lessons.py:646-662` | a rendered text, integer, boolean or null reads back before any stop |
| `InlineRoundTrip.MappingReadsBack` | `twill_lessons.py:665-670` | parsing a rendered mapping of scalars gives the mapping back |
| `InlineRoundTrip.CutMappingFails` | `twill_lessons.py:134-161` | a mapping cut inside a quoted text is no value |
| `LessonFile.Read` | `twill_lessons.py:567-607` | the frontmatter between the markers, its fields, and the body, or an error |
| `LessonFile.ReplaceField` | `twill_lessons.py:676-699` | the one line that names the field is respelled with its newline kept; none or several is an error |
| `LessonFile.DocumentIsFront` | `twill_lessons.py:574-607` | finding the marker first and reading line by line agree |
| `LessonRewrite.FieldHasOneLine` | `twill_lessons.py:676-682` | in frontmatter that reads, a field's name stands on exactly the line that gives it |
| `LessonEdits.HeldEditsRead` | `twill_lessons.py:673-700` | edits that stay on lines that end read back as the old fields overwritten |
| `LessonEdits.UnheldEditSpoils` | `twill_lessons.py:683-699` | an edit that breaks its line or runs into the next reads as an error or an invalid field |
| `LessonRouting.MappingBreaksExactly` | `twill_lessons.py:661-670` | a mapping renders on one line exactly when every text in it does |
| `LessonRecord.SettledReadsBack` | `twill_lessons.py:329-365` | a routing written back validates exactly when its parts agree, and to itself |
| `LessonLaw.DecisionIsSound` | `twill_lessons.py:868-950` | whatever a legal command writes has a valid state and a routing that fits it |
| `LessonLaw.TransitionReloadsExactly` | `twill_lessons.py:868-957` | a legal command's file loads again exactly when the rewritten lines hold, and then with the new state and routing, the other fields and the body kept |
| `LessonTransition.ReplaceFields` | `twill_lessons.py:673-700` | the state line, then the routing line, and nothing else of the text |
| `LessonSteps.DecidedExactly` | `twill_lessons.py:882-945` | which commands move a lesson, to which state and routing: the table's pairs written out, the operator flag, the bead and the time; which find it where they ask; every other one is refused |
| `LessonRuns.CommandWritesExactly` | `twill_lessons.py:868-957` | the file changes exactly when the command moves the lesson, and then loads, when it loads, with that state and routing |
| `LessonRuns.DraftsAreAcceptedFirst` | `twill_lessons.py:905-917` | no run of commands takes a draft to any other state without an accepted state before it |
| `LessonOperator.Lesson.Transition` | `twill_lessons.py:868-957` | by the loaded state and the command: moved along the lifecycle table, the file is rewritten with that state and routing and loaded again; asked for where it is, the lesson is returned and nothing written; else an error and nothing written |
| `LessonOperator.LoadFile` | `twill_lessons.py:610-621` | reading, validation and the body check |
| `LessonOperator.TidyLessonsAlwaysLoad` | `twill_lessons.py:868-957` | no run of commands leaves a newline-ended lesson unreadable or touches its body, given beads that stay on their line |
| `LessonSample.FileLoads` | `twill_lessons.py:400-470` | a file with every required field and a two-line body loads under a redaction that strips |
| `LessonWitness.TwoLostLessons` | `twill_lessons.py:683-699` | a bead with U+2028, or a state line ended by a vertical tab: legal commands after which the lesson does not load |
| `LessonWitness.NoteSurvives` | `twill_lessons.py:868-957` | that file, applied with a bead that stays on its line, loads again in the new state with its body kept |
| `Artifacts.Inventory` | `twill_artifacts.py:346-372` | every file of the namespaces by path, schema, size and digest, or the error exactly when one cannot be listed |
| `Artifacts.PublishedDescribes` | `twill_artifacts.py:601-620` | a published tree is described by its own manifest |
| `ArtifactWrites.TakeSnapshots` | `twill_artifacts.py:115-128` | each path once with its bytes, or the error exactly when one is not a regular file |
| `ArtifactWrites.ArtifactRoot.RestoreAll` | `twill_artifacts.py:130-159` | every snapshot path as it was, no other path touched |
| `ArtifactWrites.ArtifactRoot.WriteManifest` | `twill_artifacts.py:632-679` | the payload of the tree, or the tree as it was at every failure but the last cleanup, and which failure it is |
| `ArtifactWrites.ArtifactRoot.ManifestAfterWrite` | `twill_artifacts.py:683-712` | how the write ends and what it leaves, both told from the tree, the paths, the edits and the failing stages |
| `ArtifactWrites.DescribedExactly` | `twill_artifacts.py:683-712` | the manifest transaction: a described tree is described after the write, whatever fails, exactly but for one case of the last cleanup |
| `ArtifactWrites.CleanupFailsExactly` | `twill_artifacts.py:632-679` | that case from the stages that fail and the tree before |
| `ArtifactWrites.FailedWriteRestores` | `twill_artifacts.py:706-712` | every other failure leaves every file as it was, and that one every file but the manifest |
| `ArtifactWrites.FailedFirstAutonomyWriteBlocksExactly` | `twill_artifacts.py:611-615` | after a failed first autonomy write the root can be published exactly when the write, by what is known before it, did not come to make the directory |
| `ArtifactWitness.LateCleanupMisdescribes` | `twill_artifacts.py:672-679` | a lesson rewrite whose last cleanup fails leaves a manifest that does not describe the tree |
| `ArtifactWitness.FirstAutonomyWriteBlocks` | `twill_artifacts.py:611-615` | a first autonomy write that raises leaves an empty root that cannot be published |
| `ArtifactWrites.FinishedIsDescribed` | `twill_artifacts.py:683-712` | after a write the manifest, its pointer and the sidecar describe the tree |
| `ArtifactOutcomes.GoesThroughExactly` | `twill_artifacts.py:683-712` | a write goes through exactly when every stage passes, the watched paths are plain, every file can be listed and nothing stands where the manifests go |
| `ArtifactOutcomes.GoesThroughWithEverything` | `twill_artifacts.py:632-712` | then every edit is in place, every other path is as it was, and the manifest lists exactly the files of the namespace with schema, size and digest |
| `Drift.CheckSource` | `twill_doctor.py:1084-1131` | exactly the types that vanished or appeared, with their medians and counts |
| `Drift.MedianIsMajority` | `twill_doctor.py:1116-1120` | a positive lower median is a strict majority of runs that carried the type |
| `Drift.StoppedTypeAlarmsExactly` | `twill_doctor.py:1084-1120` | a type that stops is reported exactly while gone two runs or more and still holding its majority |
| `Drift.AlarmLastsTwoToFive` | `twill_doctor.py:63-65` | with ten runs or more the alarm stands for absences of two to five runs |
| `Drift.SilentFromSix` | `twill_doctor.py:1093-1120` | six runs without a type and no history reports it |
| `Drift.NeverBoth` | `twill_doctor.py:1120-1125` | no type is reported vanished and new |
| `DriftWindows.VerdictsExactly` | `twill_doctor.py:1084-1125` | both verdicts from the runs themselves: five runs at least, the last two pooled, and more than half, or none, of the up to eight before them |
| `DriftWindows.NewForTwoRuns` | `twill_doctor.py:1120-1125` | a type that starts for good is new for exactly two runs |
| `Waste.AttributeWaste` | `twill_digest.py:732-805` | for each cluster hit, a component's sum of shares, available exactly when every hit session of the cluster is known |
| `Waste.SessionIsShared` | `twill_digest.py:774-784` | the shares of one session sum to its known usage |
| `Waste.WasteIsConserved` | `twill_digest.py:732-790` | the total over clusters is the total over the distinct sessions that hit them |
| `Waste.EstimatesAreConserved` | `twill_digest.py:786-805` | with every hit session known, the estimates sum to the sessions' usage |
| `Waste.ComponentsNeedTheirColumn` | `twill_digest.py:717-730` | a component is available exactly when every session that hit the cluster has a figure in that column |
| `Waste.ComponentsAreEqualParts` | `twill_digest.py:764-790` | an available component is the sum of equal parts of its sessions' figures in that column |
| `Waste.EachColumnIsConserved` | `twill_digest.py:732-805` | with every figure of a column there, the clusters' figures sum to the sessions' figures of the same column |
| `Packing.Build` | `twill_explainer.py:681-732` | ends with a prompt within both budgets showing an in-order selection of items and of their evidence, after a round that accepted nothing; the error exactly when the framing is over the budget |
| `Packing.RunRound` | `twill_explainer.py:711-727` | one round: each cluster tries its next excerpt and moves past it |
| `Packing.ItemsAreTakenWhenTheyFit` | `twill_explainer.py:695-704` | offered in order, each cluster joins exactly when its block and the prompt with it fit their budgets |
| `Packing.ExcerptsAreShownWhenTheyFit` | `twill_explainer.py:711-727` | in every round each cluster has its turn in order, and the excerpt it looks at is shown exactly when its block and the prompt then fit |
| `Packing.RoundOnlyExtends` | `twill_explainer.py:709-727` | a round withdraws nothing, and counts as progress exactly when some cluster shows more |
| `Packing.PositionsAfterRounds` | `twill_explainer.py:706-727` | after round r each position is min(r, evidence length), and every block and the prompt fit |
| `Packing.RoundShrinks` | `twill_explainer.py:709-727` | a round that accepted an excerpt leaves less evidence to look at, so the rounds end |

## Left out

- File I/O, permission bits, fsync, git, argparse, JSON envelopes, text rendering and the modules that only wrap them (config, contract, lock, perf, brief, denials, publisher, crosshost).
- The regular expressions and the JSON decoding of records: parameters, so nothing is said about which phrase means what.
- The windows between `stat`, hashing and scanning one file: a pass sees one version of the bytes.
- Of a parsed transcript: timestamps, costs, model names, message counts, locators, record-type counts, observations and the interaction tables; the stored row is line, index, kind, redacted text and working directory.
- The rest of a usage row (`usage_max`'s context fields) and `_consume_cost`.
- Codex call ids reused while in flight, where `finish` can look up a missing key; the step is modelled (`MissingPendingCall`), the account needs the premise.
- `project_session`, `project_all` and the autonomy tables' SQL and savepoint; the rows are given in ordinal order, one session at a time. Dates are day numbers. An assertion's free-text detail is not kept.
- The 4300-digit limit of Python integers, recursion limits on nested inline values, lone surrogates, and digits of other scripts in the inline grammar.
- Decimals in the lesson round trip: `str(float)` may write an exponent that does not read back as a number.
- The normal form of a lesson's other fields (repeated session ids dropped, dates stripped): they are checked, and kept as they were read. `save_lesson` and `attach_guard`, which rewrite no state.
- Symbolic links and the repository boundary of artifact and lesson paths; a path is a regular file or not.
- JSON and contents of the manifest beyond its inventory and pointer; `_validate_snapshot_contents`; a rollback step that itself fails.
- `twill_trend`'s weekly tables: its hooks are steps that may fail and touch none of the modelled tables. The SQL of each detector and the replay queries.
- Grouping `parse_shape` rows by source, and the report's wording. Rounding of floats in usage shares.
- Item normalisation and redaction before packing. Whether a later excerpt would still fit when the rounds stop: the source stops there too.
- Autonomy.AssessBounded: says that only a complete assessment can stay supported, not which references are kept under the cap.
- Drift.StoppedTypeAlarmsExactly: is about a type carried by every run until it stopped; a type with gaps is covered by `Drift.CheckSource` and `Drift.SilentFromSix`.
