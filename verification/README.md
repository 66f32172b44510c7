# GodBrain: a verified model

A Dafny model of the parts of the GodBrain desk that keep promises about state: the edit job
that survives crashes, the image service, the multi-file edit, the stream reader, the kernel's
tool loop and task ledger, the review planner, and some in-place text and interval algorithms.
`dafny verify dfyconfig.toml` checks all of it.

| module | models |
|---|---|
| `Text` | byte strings and `std::string::find` |
| `JobRecord`, `JarvisJob`, `JarvisJobRuns`, `JarvisCancel`, `JarvisSize`, `JarvisLive`, `JarvisRecovery`, `JarvisOutcomes` | the job record and its size; each call as the list of its disk effects, with a class that performs them; whole lives with a crash after any effect, what a cancel leaves, sizes over lives, the methods in a row, recovery after a crash, and what each call reports and leaves when the disk works |
| `ImageServer` | lock, job table and request threads as interleaved steps, with a class for the shared state |
| `ApplyBlocks`, `BlockReading`, `LocalEdit`, `EditTransaction` | the apply-block parser and its printer, and what it takes for a block; hunks on working copies; writing, checking and restoring real files |
| `ToolCalls`, `ToolFields`, `ColiSse`, `StreamContent`, `PrivateReasoning` | tool-call slots by index, and their fields; the event stream over arbitrary splits, and what it says in terms of the JSON on its lines; the reasoning channel that must not leak into it |
| `SourceLines`, `Boundaries`, `BoundaryUnits`, `WindowSearch`, `ReviewPlan`, `AttachmentPlan`, `AttachmentFailures` | line splitting, brace boundaries, the halving search, the two planners, and when they fail |
| `ChainLedger`, `ChainSolo`, `ToolRounds`, `ToolEnds`, `NgramLoop`, `ReplayedPrefix` | slot and ledger under interleaving, and one flight alone; the round, chunk and retry loop, and when it ends well; the repeat detector; replayed continuations |
| `FileEdit`, `RegTokens` | the replace loop and the quoted-argument tokenizer |
| `LyricsLoop`, `PreserveLocks` | redo groups, subtitles, and putting locked lines onto new segments |

What the outside decides is a parameter or an arbitrary choice in every proof: disk failures, the
verifier's and the edit check's exit and what they leave behind, the hash, the JSON library, the
token counter, the brace lexer, model answers, and the order in which threads move. The librarian and
the research tick take the generate slot by the same compare-exchange (`main.cpp` lines 1369-1392 and
1742-1747); a flight that leaves without using tools stands for them too. The hash needs
64-character results where sizes matter, and no second text with the hash of the original or the
patched one where the job relies on comparing hashes. Two minted task ids are never equal. Python's
`strip` leaves the empty text empty, and the lexer's matches come in order without overlap. Lives of an
edit job are those of one job: a further `run` is any call once a record exists, where it is refused,
and before one exists only as `SecondRun` says.

Where the code does less than its purpose suggests, the model follows the code and says exactly
when it holds:

- A job cancelled while `proposed` keeps its fixture as it is: the original if and only if the patch was
  not written yet (`CancelledFromProposed`, `CancelAfterCrashKeepsPatch`). A crash leaves the patch with
  no record if and only if the run had no stop (`OrphanIff`); a further `run` then writes if and only if it
  proposes an edit of the patched text (`SecondRun`).
- A hunk's old text is only sure to come from the file on disk if an excerpt is shown, which an empty or
  unreadable file has none of, or if the disk holds the working text (`OnlyFromDiskIff`,
  `EmptyFileIsNotAnchored`).
- A synchronous image request reads its job back after giving up the lock and can find it evicted
  (`OwnReply`, `ReplyCanBeLost`).
- A file named like the temporary sibling of an edited file is consumed by the rename
  (`WrittenExactly`, `UndoExactly`); a fixture named like the record's is a clash
  (`FilesAreDisjointIff`).
- A cancel reaches a flight if and only if the ledger holds that flight's own row: before its first save
  only when it adopted a running one (`CancelIsHeardIff`, `CancelBeforeFirstRowIsLost`). A row left
  cancelled blocks every later task with its goal until another flight's save replaces it
  (`StaleRowBlocks`, `BlockEndsIff`).
- The tool loop makes at most rounds + chunks requests, 10 on a tool mouth with eight rounds, which is
  fewer than rounds times chunks; an example reaches the bound (`Run`, `BoundIsMet`).
- A counter that is not monotone makes the search give up if and only if none of its halving points
  fits, although a longer or shorter run may (`GivesUpIff`, `NoNextIff`, `PlanFailsIff`,
  `GivesUpThoughAPartFits`, `RoundFailsIff`, `RoundsFailIff`).
- Trimming a loop once leaves a longer repeat if and only if one lies within what is kept
  (`TrimIsEnoughIff`, `TrimMayLeaveLonger`).
- Redo groups and subtitles take segments in any order. A group reaches back to a segment if and only if
  its opener starts no later; a time is shown if and only if a segment is sung then that has none before
  it in the list ending after that time. Sorting by start ensures both (`HeldIff`, `CoveredIff`,
  `SubtitlesInAnyOrder`). An operator's locked line can be overwritten by another on the same segment
  (`OldLineStays`, `FirstOfTwoIsLost`).
- The edit's receipt names the first readable file, which may be one whose hunk was skipped; its
  after-hash is then empty (`MaybeApply`).

## Model

| member | source | states |
|---|---|---|
| `JobRecord.EscapeGrowsSixfold` | godbrain_core/cpp_kernel/jarvis_job.cpp:129-131 | JSON escaping makes a byte at most six |
| `JobRecord.SizedFits` | godbrain_core/cpp_kernel/jarvis_job.cpp:28-30 | a record whose four texts are at most 256 KiB, or its patched text twice that, and whose other fields are bounded is written in at most 8 MiB |
| `JobRecord.LessonStaysSized` | godbrain_core/cpp_kernel/jarvis_job.cpp:182-186 | the lesson a closing job adds changes nothing else in the record and keeps it within those bounds |
| `JarvisJob.Workspace.DoVerifyAndClose` | godbrain_core/cpp_kernel/jarvis_job.cpp:281-298 | run in place: exactly the disk effects and the outcome of the specification, for every answer of the disk and the verifier |
| `JarvisJob.Workspace.DoContinueJob` | godbrain_core/cpp_kernel/jarvis_job.cpp:300-344 | the same for the branching from `proposed` and `applied` |
| `JarvisJob.Workspace.DoRun` | godbrain_core/cpp_kernel/jarvis_job.cpp:348-413 | the same for `run`, with every refusal |
| `JarvisJob.Workspace.DoResume` | godbrain_core/cpp_kernel/jarvis_job.cpp:415-427 | the same for `resume` |
| `JarvisJob.Workspace.DoCancel` | godbrain_core/cpp_kernel/jarvis_job.cpp:429-446 | the same for `cancel` |
| `JarvisJobRuns.AtMostOnePatch` | godbrain_core/cpp_kernel/jarvis_job.cpp:300-344 | over a run followed by any further calls, with a crash after any effect of any call: the patch reaches the fixture at most once, saved `writes` never exceeds the writes made nor 1, the record never moves back, a closed record never changes |
| `JarvisJobRuns.ReplacedDiffers` | godbrain_core/cpp_kernel/jarvis_job.cpp:393-408 | replacing a text by a different one changes the file, so patched and original differ |
| `JarvisJobRuns.OutcomesTellTheTruth` | godbrain_core/cpp_kernel/jarvis_job.cpp:264-298 | over every life with crashes: a saved `verified` follows a verifier exit of 0 that left the patched text, a saved `rolled_back` follows a verifier run and the original being put back; at every moment the fixture beside such a record is what it says |
| `JarvisCancel.CancelledFromApplied` | godbrain_core/cpp_kernel/jarvis_job.cpp:429-446 | over every life with crashes: a `cancelled` saved over an applied job finds the original back in the fixture |
| `JarvisJobRuns.CleanLifeRestores` | godbrain_core/cpp_kernel/jarvis_job.cpp:264-298 | with no crash and no failing save a record always exists, and `cancelled` or `rolled_back` ends with the original bytes |
| `JarvisJobRuns.RefusedTouchesNothing` | godbrain_core/cpp_kernel/jarvis_job.cpp:348-408 | a request that is not proposed never touches the fixture, in any life |
| `JarvisJobRuns.IdleSession` | godbrain_core/cpp_kernel/jarvis_job.cpp:423-438 | closed jobs are fixed points: resume and cancel have no effect at all |
| `JarvisJobRuns.ProposedIsSized` | godbrain_core/cpp_kernel/jarvis_job.cpp:402-410 | the record `run` proposes is within the bounds of the state limit |
| `JarvisJobRuns.OkIsOnDisk` | godbrain_core/cpp_kernel/jarvis_job.cpp:271-279 | a reported success ends with the record that says so on disk |
| `JarvisJobRuns.CancelOfProposed` | godbrain_core/cpp_kernel/jarvis_job.cpp:429-446 | cancelling a proposed job changes its record and nothing else on disk |
| `JarvisSize.NeverTooBig` | godbrain_core/cpp_kernel/jarvis_job.cpp:129-133 | over every life with crashes and failing writes, every record any call tries to save is within the bounds of the state limit, none is refused for its size, and every text written to the fixture can be read back under its own limit |
| `JarvisSize.SavesAreUpToTheDisk` | godbrain_core/cpp_kernel/jarvis_job.cpp:129-133 | so at any moment of any life the record on disk, given any status the program writes, is saved if and only if the disk writes |
| `JarvisSize.CancelledFromProposed` | godbrain_core/cpp_kernel/jarvis_job.cpp:429-446 | over every life with crashes, at any moment with a proposed record: a cancel whose writes succeed leaves the original in the fixture if and only if the patch was not written, and the patched text if and only if it was written once |
| `JarvisRecovery.RecoversIff` | godbrain_core/cpp_kernel/jarvis_job.cpp:300-344 | over every life with crashes, at any moment with an open record: a resume in which all goes well ends verified over the patched text if and only if the record is proposed, or applied with the patch still in the fixture |
| `JarvisRecovery.RunWritesIff` | godbrain_core/cpp_kernel/jarvis_job.cpp:348-413 | a run writes to the fixture if and only if it gets as far as proposing, is not told to stop there, and can read and write; its first write is then its own patch |
| `JarvisRecovery.SecondRun` | godbrain_core/cpp_kernel/jarvis_job.cpp:348-413 | after a crash between the patch and the first record, a further run with any request writes to the fixture if and only if that holds of the patched text, such as where the same old text still stands in it |
| `JarvisLive.Live` | godbrain_core/cpp_kernel/jarvis_job.cpp:348-446 | the methods run one after the other leave the disk as the life they are reasoned about as |
| `JarvisOutcomes.PatchIsFirst` | godbrain_core/cpp_kernel/jarvis_job.cpp:393-407 | there is a patch if and only if the old text is not empty, differs from the new one, stands in the file, and the result fits 256 KiB; it replaces the first occurrence and nothing else |
| `JarvisOutcomes.ProposedSays` | godbrain_core/cpp_kernel/jarvis_job.cpp:374-410 | the fields of the record a run starts from, fails with or proposes: what was asked, the text as read with its hash and id, no writes; and, when proposed, the patched text with its hash |
| `JarvisOutcomes.StopsBeforeVerifier` | godbrain_core/cpp_kernel/jarvis_job.cpp:326-344 | a run with a stop never starts the verifier, whatever the disk answers |
| `JarvisOutcomes.RunPausesProposed` | godbrain_core/cpp_kernel/jarvis_job.cpp:409-411 | when the disk works, a run stopped at `proposed` reports success, leaves the fixture as it was and exactly the proposed record |
| `JarvisOutcomes.RunPausesApplied` | godbrain_core/cpp_kernel/jarvis_job.cpp:321-328 | when the disk works, a run stopped at `applied` reports success and leaves the patched text beside that record, applied, with one write |
| `JarvisOutcomes.RunEnds` | godbrain_core/cpp_kernel/jarvis_job.cpp:281-344 | when the disk works, a run without a stop ends verified over the patched text if the verifier exits with 0 and leaves that text, and otherwise rolled back over the original; the record has one write and the exit |
| `JarvisOutcomes.RunDenied` | godbrain_core/cpp_kernel/jarvis_job.cpp:389-392 | an unauthorised run that can read the fixture leaves it alone and reports no success; it saves a denied record when its texts are within 256 KiB |
| `JarvisOutcomes.RunFails` | godbrain_core/cpp_kernel/jarvis_job.cpp:393-407 | the same for a failed record of an authorised run that proposes no patch, an over-long one included |
| `JarvisOutcomes.ResumeEnds` | godbrain_core/cpp_kernel/jarvis_job.cpp:415-427 | when the disk works, resuming a proposed job, or an applied one whose patch is still there, ends as `RunEnds` says, with a second write only if there was none |
| `JarvisOutcomes.CancelEnds` | godbrain_core/cpp_kernel/jarvis_job.cpp:437-446 | when the disk works, cancelling an applied job puts the original back and saves the cancelled record |
| `JarvisOutcomes.ClosedReports` | godbrain_core/cpp_kernel/jarvis_job.cpp:423-437 | a closed job is reported as it ended, with success only for `verified`, and nothing is done |
| `JarvisJobRuns.CancelAfterCrashKeepsPatch` | godbrain_core/cpp_kernel/jarvis_job.cpp:438-446 | a reachable case: crash after the patch, then cancel, leaves a cancelled job over the patched file |
| `JarvisJobRuns.OrphanIff` | godbrain_core/cpp_kernel/jarvis_job.cpp:409-412 | a crash can leave the patch of a proposing run with no record beside it if and only if it was not told to stop at `proposed` and its next read and its write succeed |
| `JarvisJobRuns.FilesAreDisjointIff` | godbrain_core/cpp_kernel/jarvis_job.cpp:69-107 | the files the fixture and the record are written through are disjoint unless the fixture is named `jarvis-job.json.tmp` |
| `ImageServer.AlwaysSafe` | scripts/qwen_image_server.py:419-451 | in every interleaving: at most one running job, whose own request is the one holder of the lock; at most eight entries; no release of a free lock; no worker finds its entry gone; each taken lock is given back once |
| `ImageServer.StepKeeps` | scripts/qwen_image_server.py:419-451 | the inductive invariant behind it is kept by every step of every thread |
| `ImageServer.EvictionSparesRunning` | scripts/qwen_image_server.py:425-428 | when the table is full no entry is running, so the evicted one is not |
| `ImageServer.OutcomesStay` | scripts/qwen_image_server.py:303-309 | an entry with an outcome keeps it for as long as the table keeps it |
| `ImageServer.OwnReply` | scripts/qwen_image_server.py:446-451 | a synchronous request reads its own outcome exactly while fewer than eight registrations came after its own, and no job exactly when its id is not among the last eight |
| `ImageServer.ReplyCanBeLost` | scripts/qwen_image_server.py:446-451 | eight later requests run to the end do make the reply read a missing job |
| `ImageServer.Server.RunGeneration` | scripts/qwen_image_server.py:297-311 | the worker in place: the two steps of the interleaved model, for success and failure |
| `ImageServer.Server.DoPost` | scripts/qwen_image_server.py:419-451 | the handler in place: reply, table and lock for every branch |
| `ImageServer.SoloIs` | scripts/qwen_image_server.py:419-451 | a request of the interleaved model that nobody disturbs: busy, conflict, accepted, image or error exactly when the lock, the id, the thread and the worker say so, with the table it leaves; a thread that does not start leaves a failed job |
| `ApplyBlocks.ParseApplyBlocks` | godbrain_core/cpp_kernel/local_edit.cpp:422-468 | the position-advancing loop computes the specification `Parse` and ends on every text |
| `ApplyBlocks.RoundTrip` | godbrain_core/cpp_kernel/local_edit.cpp:422-468 | printing well-formed hunks and parsing the text gives the hunks back in order; of more than six, the first six |
| `ApplyBlocks.ParsedShape` | godbrain_core/cpp_kernel/local_edit.cpp:422-468 | on any text: at most six hunks, with a trimmed backslash path that is not empty and texts free of the marker that closes them |
| `ApplyBlocks.MarkersApart` | godbrain_core/cpp_kernel/local_edit.cpp:450-459 | the inner markers found in order never overlap, so both texts are well-defined slices |
| `ApplyBlocks.MalformedIsPassedOver` | godbrain_core/cpp_kernel/local_edit.cpp:437-456 | on any text: what is parsed are the first of all its well-formed blocks, in order; a malformed one is passed over and does not count toward the six |
| `BlockReading.NextBlockIs` | godbrain_core/cpp_kernel/local_edit.cpp:426-434 | the next block runs from the first opener, in either spelling, to the first closer after it, or past the first `>>>>` where none comes |
| `BlockReading.BlockIs` | godbrain_core/cpp_kernel/local_edit.cpp:435-464 | a hunk is its path, trimmed and with backslashes, from the first `path:` to the end of its line, and the texts between the first inner markers in order, each less one leading line break; a block without one of these is none |
| `LocalEdit.SwappedIff` | godbrain_core/cpp_kernel/local_edit.cpp:732-767 | a hunk is applied if and only if its old text, with the line ends of the file, stands exactly once, and in the excerpt when there is one; then exactly that occurrence is replaced |
| `LocalEdit.SkippedIffRefused` | godbrain_core/cpp_kernel/local_edit.cpp:709-761 | a hunk changes nothing if and only if its path is bad, its file cannot be read, its old text does not stand exactly once in the working text at its turn, or stands outside the excerpt; otherwise its one occurrence is replaced |
| `LocalEdit.AcceptedIsSifted` | godbrain_core/cpp_kernel/local_edit.cpp:709-768 | the accepted hunks of a list are exactly those that are not refused at their turn, in order |
| `LocalEdit.SiftsOnce` | godbrain_core/cpp_kernel/local_edit.cpp:709-768 | only one list is that |
| `LocalEdit.PreviewIsFirst` | godbrain_core/cpp_kernel/local_edit.cpp:723-731 | the previewed file is that of the first hunk whose path is good and whose file can be read |
| `LocalEdit.RewritesOnce` | godbrain_core/cpp_kernel/local_edit.cpp:745-761 | a list of hunks rewrites a text in one way only |
| `LocalEdit.PlanIsItsHunks` | godbrain_core/cpp_kernel/local_edit.cpp:699-768 | the working texts are the files on disk rewritten in order by their own accepted hunks, for exactly the files with accepted hunks; originals, edited list and before-hash are true |
| `LocalEdit.OldTextIsOnDisk` | godbrain_core/cpp_kernel/local_edit.cpp:754-759 | an accepted old text stands in the file on disk, carriage returns aside, if an excerpt of that file is shown or the file holds the working text |
| `LocalEdit.OnlyFromDiskIff` | godbrain_core/cpp_kernel/local_edit.cpp:743-759 | for a working text with line ends of one kind: every acceptable old text stands on disk if and only if an excerpt is shown or the disk holds the working text, carriage returns aside |
| `LocalEdit.EmptyFileIsNotAnchored` | godbrain_core/cpp_kernel/local_edit.cpp:754-761 | on an empty file a second hunk is accepted whose old text only the first one wrote |
| `LocalEdit.MatchedStrips` | godbrain_core/cpp_kernel/local_edit.cpp:382-391 | matching line ends changes carriage returns only |
| `LocalEdit.MatchedLineEnds` | godbrain_core/cpp_kernel/local_edit.cpp:382-391 | a matched text has only CR LF line ends if the body has any, even a mixed one, and no carriage return otherwise; only one text with the same letters is that |
| `LocalEdit.ExcerptShows` | godbrain_core/cpp_kernel/local_edit.cpp:666-682 | an excerpt shows a text if and only if it stands from 800 before to 1600 after the place, or among the last 4000 bytes when there is no place |
| `LocalEdit.LineEndsStayUniform` | godbrain_core/cpp_kernel/local_edit.cpp:362-391 | a file with line ends of one kind keeps them through any list of hunks |
| `EditTransaction.Repo.WriteAll` | godbrain_core/cpp_kernel/local_edit.cpp:351-360 | a write replaces the file or leaves everything but the temporary sibling unchanged |
| `EditTransaction.Repo.WriteWorking` | godbrain_core/cpp_kernel/local_edit.cpp:773-783 | the write loop: all texts written, or stopped at one failure with every file old or new |
| `EditTransaction.Repo.RestoreOriginals` | godbrain_core/cpp_kernel/local_edit.cpp:792-801 | every original is back if all writes succeed; a failed one never stops the others |
| `EditTransaction.Repo.PlanHunks` | godbrain_core/cpp_kernel/local_edit.cpp:699-768 | the planning loop computes the plan and the number of accepted hunks |
| `EditTransaction.Repo.ApplyHunks` | godbrain_core/cpp_kernel/local_edit.cpp:699-790 | either the plan is written whole, or, when restoring succeeds or nothing was written, every file is as before |
| `EditTransaction.Repo.MaybeApply` | godbrain_core/cpp_kernel/local_edit.cpp:900-1006 | all or nothing over both passes, whatever the check does to the files: the check runs only after a pass, and then the accepted hunks are exactly the unrefused ones, in order, of the blocks of the first answer, or of the operator where it has none, or of the second answer where that pass took nothing; applied means each file is rewritten by exactly those hunks and the check ran and passed; rolled back means every edited file is back; without a pass nothing changed |
| `EditTransaction.UndoneSame` | godbrain_core/cpp_kernel/local_edit.cpp:773-783 | after a failed write, restoring undoes the transaction, and before the first write there is nothing to undo |
| `EditTransaction.WrittenExactly` | godbrain_core/cpp_kernel/local_edit.cpp:351-360 | writing a plan adds exactly its texts if and only if no edited file has its `.edit.tmp` sibling on disk outside the plan |
| `EditTransaction.UndoExactly` | godbrain_core/cpp_kernel/local_edit.cpp:792-801 | writing and restoring is no change at all if and only if no touched file has an untouched sibling on disk |
| `ColiSse.Stream.HandleEvent` | godbrain_core/cpp_kernel/coli_sse.h:55-127 | the line loop in place computes the specification of one event |
| `ColiSse.Stream.Feed` | godbrain_core/cpp_kernel/coli_sse.h:129-150 | the buffer loop in place computes the specification `Drain` |
| `ColiSse.SplitIsFree` | godbrain_core/cpp_kernel/coli_sse.h:129-150 | any split of the bytes leaves the same buffer, texts, reasoning, slots and callbacks as feeding them whole |
| `ColiSse.DrainLeaves` | godbrain_core/cpp_kernel/coli_sse.h:141-145 | what stays in the buffer holds no blank line |
| `ColiSse.FramedReadsBack` | godbrain_core/cpp_kernel/coli_sse.h:141-149 | events written with blank lines between them are handled once each, in order |
| `ColiSse.TextIsFramed` | godbrain_core/cpp_kernel/coli_sse.h:141-149 | every text is framed as some events and a rest |
| `ColiSse.FramingIsUnique` | godbrain_core/cpp_kernel/coli_sse.h:141-149 | in one way only |
| `ColiSse.FeedIsTheFraming` | godbrain_core/cpp_kernel/coli_sse.h:129-150 | so feeding in any split is handling the framed events of the joined bytes and keeping the rest |
| `ColiSse.CrLfNeverDispatches` | godbrain_core/cpp_kernel/coli_sse.h:141-143 | a stream with CR LF line ends is only ever buffered, narrower than section 9.2.6 of the HTML Living Standard |
| `ColiSse.TextsAreTokens` | godbrain_core/cpp_kernel/coli_sse.h:93-123 | over a whole stream the assembled and the spoken text are exactly the concatenated tokens handed on |
| `StreamContent.StreamIsHeard` | godbrain_core/cpp_kernel/coli_sse.h:63-127 | over a whole stream in any split: the assembled and the spoken text are the `content` strings of the first choices on its lines up to `[DONE]`, and the callbacks are, line by line, the error, or the finish reason and then the text, or a ping where only an empty text or a thought is there |
| `StreamContent.StreamIsCalled` | godbrain_core/cpp_kernel/coli_sse.h:66-112 | over a whole stream in any split: the slots are made from the `tool_calls` of the deltas on those lines, in order, or of a `message` as long as there has been none |
| `StreamContent.LinesAre` | godbrain_core/cpp_kernel/coli_sse.h:64-66 | the lines hold no line feed, and with one after each they are the event |
| `StreamContent.PayloadIff` | godbrain_core/cpp_kernel/coli_sse.h:67-69 | the payload of a line is what follows `data: `, less one carriage return at the end |
| `ColiSse.SlotsOfStream` | godbrain_core/cpp_kernel/coli_sse.h:105-112 | over a whole stream whose arguments are strings, in any split: as many slots as the largest index asks for, each with its own fragments in order |
| `PrivateReasoning.ReasoningIsKept` | godbrain_core/cpp_kernel/coli_sse.h:99-104 | over a whole stream the private buffer holds the reasoning sent, in order |
| `PrivateReasoning.ReasoningStaysPrivate` | godbrain_core/cpp_kernel/coli_sse.h:99-123 | two byte streams for one parser, each split anyhow, whose events pair up line by line with any reasoning texts replaced, each by its own: the texts, slots and callbacks come out the same |
| `PrivateReasoning.WrittenReasoningStaysPrivate` | godbrain_core/cpp_kernel/coli_sse.h:99-123 | the same for streams written from such events, and both leave the buffer empty |
| `ToolCalls.Accumulate` | godbrain_core/cpp_kernel/coli_sse.h:11-53 | the growing and patching loops compute the fold of the deltas |
| `ToolCalls.SlotsAreSeparate` | godbrain_core/cpp_kernel/coli_sse.h:15-52 | each slot depends on the deltas of its own index only, and the array is just long enough |
| `ToolCalls.ArgumentsAreFragments` | godbrain_core/cpp_kernel/coli_sse.h:42-46 | with string arguments, a slot holds the in-order concatenation of its fragments; the length is one more than the largest index |
| `ToolCalls.InterleavingIsFree` | godbrain_core/cpp_kernel/coli_sse.h:14-52 | two delta sequences with the same deltas per index give the same array |
| `ToolCalls.NeighboursCommute` | godbrain_core/cpp_kernel/coli_sse.h:14-52 | neighbouring deltas of different indices commute |
| `ToolCalls.ReplaceRestarts` | godbrain_core/cpp_kernel/coli_sse.h:47-49 | arguments that are neither a string nor null start the slot over |
| `ToolCalls.IndexIsKept` | godbrain_core/cpp_kernel/coli_sse.h:15-21 | an integer index is used as sent if and only if it is a non-negative 32-bit one; a negative 32-bit one is 0 |
| `ToolFields.FieldsAreLast` | godbrain_core/cpp_kernel/coli_sse.h:28-41 | each slot has the last id, type and name given for its own index |
| `ToolFields.DeltaReads` | godbrain_core/cpp_kernel/coli_sse.h:29-50 | when a delta gives an id, a type, a name or arguments, and when arguments are added to, kept or replaced |
| `ToolFields.FloatIndex` | godbrain_core/cpp_kernel/coli_sse.h:18-21 | an index that is no integer counts toward zero, and a negative one as 0 |
| `SourceLines.LinesJoin` | scripts/desk_review_plan.py:91 | joining the lines gives the text |
| `SourceLines.PartSplits` | scripts/desk_review_plan.py:75-76 | any run of lines, joined and split again, is the same run |
| `Boundaries.Scanned` | scripts/desk_review_plan.py:50-72 | the scanning loop computes the boundaries |
| `Boundaries.StackShape` | scripts/desk_review_plan.py:62-71 | the stack is always scopes, then at most one unit with nested braces in it |
| `Boundaries.EndsAreUnitCloses` | scripts/desk_review_plan.py:68-70 | the recorded lines are those where an outermost unit closes, all of them and no others |
| `BoundaryUnits.StackIsLevels` | scripts/desk_review_plan.py:62-71 | the stack holds, for each brace that matching leaves open, whether it is a scope, a unit or nested, by the braces around it and the text since the last brace |
| `BoundaryUnits.EndsAreUnitEnds` | scripts/desk_review_plan.py:50-72 | the recorded lines are exactly those on which a brace closes a unit: an opening brace with scopes only around it that is no scope itself |
| `Boundaries.BoundariesCover` | scripts/desk_review_plan.py:50-72 | boundaries ascend, lie in 1..n and include n |
| `WindowSearch.LastFit` | scripts/desk_review_plan.py:117-125 | the halving search finds an end that fits while the next does not, and finds none only if a single line does not fit; no monotone counter assumed |
| `WindowSearch.CutIsLargest` | scripts/desk_review_plan.py:117-125 | with a monotone counter that end is the largest that fits |
| `WindowSearch.NoneFits` | scripts/desk_review_plan.py:126-127 | with a monotone counter a line that cannot fit means no run can begin there |
| `WindowSearch.GivesUpIff` | scripts/desk_review_plan.py:117-127 | for any counter: the search finds no end if and only if none of the halving points, from the middle down to the single line, fits |
| `ReviewPlan.Greedy` | scripts/desk_review_plan.py:108-114 | the last of the first boundaries that fit, or that the first does not |
| `ReviewPlan.Parts` | scripts/desk_review_plan.py:106-132 | the parts loop computes the specification `Plan`: contiguous, at most 16, each chosen by the rule; the two errors mean what they say |
| `ReviewPlan.NoNextIff` | scripts/desk_review_plan.py:108-127 | for any counter: no part is found from a line on if and only if the first boundary and every halving point are refused |
| `ReviewPlan.PlanFailsIff` | scripts/desk_review_plan.py:107-132 | the plan gives up on a line if and only if its own parts, at most 16, lead there and no part is found; it reports too many parts if and only if its own parts number more than 16 |
| `ReviewPlan.GivesUpThoughAPartFits` | scripts/desk_review_plan.py:105-127 | a counter under which the whole plan gives up on line 1 although lines 1 to 3 fit together |
| `ReviewPlan.MakePlan` | scripts/desk_review_plan.py:85-139 | every outcome: when it succeeds the parts are contiguous over all lines and within the context; each error if and only if, or only if, its cause holds |
| `ReviewPlan.PartShowsItsLines` | scripts/desk_review_plan.py:75-82 | a part shows exactly its lines under their own numbers |
| `ReviewPlan.MessageSays` | scripts/desk_review_plan.py:75-82 | a prompt holds the range, the shared declarations and every line of its source, numbered on from the first |
| `ReviewPlan.PlanShowsEverything` | scripts/desk_review_plan.py:106-132 | the parts together show every line once, in order, under its number |
| `AttachmentPlan.PlanRound` | scripts/desk_review_plan.py:225-247 | one round in place is the specification: a window for each unfinished source, each just fitting an equal share; or the first source for which none of the ends tried, the single line among them, fits that share |
| `AttachmentPlan.Rounds` | scripts/desk_review_plan.py:222-253 | the rounds in place are the specification, and end because remaining lines shrink; at most 16; each error holds at a place that the rounds so far lead to |
| `AttachmentPlan.MakeAttachmentPlan` | scripts/desk_review_plan.py:166-257 | every outcome, from validation to the last chunk |
| `AttachmentPlan.SourceAccepted` | scripts/desk_review_plan.py:172-178 | exactly which sources are accepted, and which of the two errors is reported |
| `AttachmentPlan.DocumentsAre` | scripts/desk_review_plan.py:179-207 | the documents are the lines of the sources in order, with those of the diff of a bounded pair last |
| `AttachmentPlan.AllowanceIsShare` | scripts/desk_review_plan.py:225-227 | the share, with the 64 to spare, is the largest number that goes into what is left once for each unfinished source |
| `AttachmentPlan.RoundAdvances` | scripts/desk_review_plan.py:250-251 | a round advances every unfinished source by at least a line and moves no finished one |
| `AttachmentPlan.RoundShrinks` | scripts/desk_review_plan.py:223-253 | each round leaves fewer lines |
| `AttachmentPlan.PlanCoversAll` | scripts/desk_review_plan.py:214-257 | the windows of each document, taken in order, are all its lines exactly once, and each window is headed by the numbers of its first and last line; each chunk is within the budget |
| `AttachmentPlan.SharesSuffice` | scripts/desk_review_plan.py:226-247 | if windows cost no more together than one by one, a shared round is never refused as a whole |
| `AttachmentFailures.RoundFailsIff` | scripts/desk_review_plan.py:229-247 | for any counter: a round names a source and line if and only if that is the first unfinished source for which nothing fits its share; it is refused as a whole if and only if every source has a window and together they exceed the budget |
| `AttachmentFailures.RoundsFailIff` | scripts/desk_review_plan.py:222-253 | the plan fails with an error if and only if its own rounds, at most 16, lead to a round that fails so; it reports too many parts if and only if its own rounds number more than 16 |
| `ChainLedger.OneHolder` | godbrain_core/cpp_kernel/main.cpp:4743-4755 | in every interleaving at most one flight holds the generate slot |
| `ChainLedger.CancelHolds` | godbrain_core/cpp_kernel/main.cpp:2299-2385 | once a cancel has marked a flight, the ledger stays cancelled until the flight leaves, whatever it saves, and at most one start past its check still happens; a start is one native call or one whole legacy batch, which the code runs to its end without a look |
| `ChainLedger.CancelIsHeardIff` | godbrain_core/cpp_kernel/main.cpp:3009-3041 | in every interleaving: a cancel marks a flight that knows its identity if and only if the ledger holds that flight's own row, so always once it has saved one; otherwise it does not change what the flight looks for |
| `ChainLedger.NothingMoreStarts` | godbrain_core/cpp_kernel/main.cpp:4496-4522 | a marked flight not past a check starts nothing more in any continuation |
| `ChainLedger.StaleRowBlocks` | godbrain_core/cpp_kernel/main.cpp:2379-2385 | the look goes by goal: a row left cancelled stays, and stops every later flight that names its goal before its first tool, however many come, as long as no other goal and no seeded observation comes |
| `ChainLedger.BlockEndsIff` | godbrain_core/cpp_kernel/main.cpp:4602-4605 | a step replaces a cancelled row if and only if it is a successful save of another flight, and that flight either does not name the goal or saves a seeded answer |
| `ChainLedger.CancelBeforeFirstRowIsLost` | godbrain_core/cpp_kernel/main.cpp:3010-3017 | a cancel before the first row is lost, with the run that shows it |
| `ChainLedger.SaveKeepsCancelled` | godbrain_core/cpp_kernel/main.cpp:2309-2319 | a save leaves the row cancelled if and only if it was cancelled and of the same flight |
| `ChainLedger.OwnRowNames` | godbrain_core/cpp_kernel/main.cpp:2323-2339 | the row of a flight always names its goal, although the stored goal is cut at 500 bytes |
| `ChainLedger.SaveRemembers` | godbrain_core/cpp_kernel/main.cpp:2314-2340 | a save by the flight of the row under `continue` leaves goal and hash as they were; any other save that replaces stores the cut goal and the hash of the whole goal |
| `ChainLedger.GoalIsRemembered` | godbrain_core/cpp_kernel/main.cpp:2323-2340 | in every interleaving from a moment when nobody runs: however many flights go on with a task by `continue` or by its very goal, its row keeps goal and hash, the goal cut at 500 bytes as it was stored, and every goal that named it still does |
| `ChainLedger.TurnSaves` | godbrain_core/cpp_kernel/main.cpp:2325-2329 | the saved row is the flight that saves: running, or at its last save done or failed as its hops went |
| `ChainSolo.RoundAlone` | godbrain_core/cpp_kernel/main.cpp:4485-4535 | a round of tools that nobody disturbs: under a cancelled row nothing starts; otherwise every call starts once, with a save before and after |
| `ChainSolo.Identity` | godbrain_core/cpp_kernel/main.cpp:3947-3960 | a flight takes the id of a running task its goal names, and otherwise a fresh one |
| `ChainSolo.AnswerAlone` | godbrain_core/cpp_kernel/main.cpp:4602-4605 | a final answer is saved where tools were used, and the slot is given back |
| `ChainLedger.StepKeeps` | godbrain_core/cpp_kernel/main.cpp:2299-2385 | the inductive invariant of slot, ledger and flights is kept by every step |
| `ChainLedger.Kernel.Save` | godbrain_core/cpp_kernel/main.cpp:2299-2377 | `save_chain` in place: exactly when it throws, and that a throw leaves the old ledger or, at the event log, the fully saved one |
| `ChainLedger.Kernel.CancelNow` | godbrain_core/cpp_kernel/main.cpp:3009-3041 | `handle_cancel_chain` in place: exactly when it throws, and that a throw at the event log leaves the row cancelled |
| `ChainLedger.Kernel.IsCancelled` | godbrain_core/cpp_kernel/main.cpp:2379-2385 | the look in place is the specification |
| `ChainLedger.Kernel.NativeTurn` | godbrain_core/cpp_kernel/main.cpp:4496-4527 | one turn of native calls in place: nothing starts under a cancelled row, every call starts otherwise, the ledger is the two saves, the slot is as before |
| `ChainLedger.Kernel.TryAcquire` | godbrain_core/cpp_kernel/main.cpp:4743-4750 | the compare-exchange takes a free slot only and never stores 0 |
| `ToolRounds.Run` | godbrain_core/cpp_kernel/main.cpp:4006-4569 | for any answers the loop ends with at most rounds + chunks requests and at most one batch a round |
| `ToolRounds.StepFine` | godbrain_core/cpp_kernel/main.cpp:4006-4569 | the counting invariant: one request for each earlier round, further chunks only in a last round, one for the retry |
| `ToolRounds.Serve` | godbrain_core/cpp_kernel/main.cpp:4006-4569 | the nested loops compute that run although a retry steps the chunk back |
| `ToolRounds.Grows` | godbrain_core/cpp_kernel/main.cpp:4438-4447 | the limit never rises, the retry is used at most once, rounds go up by one |
| `ToolRounds.Shrunk` | godbrain_core/cpp_kernel/tool_round.h:44-54 | a lowered limit still leaves a round to speak in |
| `ToolRounds.DecideIs` | godbrain_core/cpp_kernel/main.cpp:4013-4028 | a retry is granted only when there was none; a further chunk only in a last round without one |
| `ToolEnds.StepIs` | godbrain_core/cpp_kernel/main.cpp:4006-4569 | what any answer leads to, by its fields and whether tools were offered: the request again, a further chunk, a further round, or the end, and which end |
| `ToolEnds.RunEndsWellIff` | godbrain_core/cpp_kernel/main.cpp:4006-4569 | a run ends well if and only if its last answer is usable for what was asked of it and the record of its tools was saved |
| `ToolEnds.PlainAnswerEnds` | godbrain_core/cpp_kernel/main.cpp:4325-4361 | without tools, a 200 answer that stopped by itself, neither blank nor looping and without calls, ends the run well at that request |
| `ToolEnds.LimitIs` | godbrain_core/cpp_kernel/main.cpp:4440-4447 | a fix that held, or a read-only round that found nothing new, leaves one more round; nothing else lowers the limit |
| `ToolEnds.BudgetIs` | godbrain_core/cpp_kernel/main.cpp:4006-4029 | rounds and chunks for each kind of request: five requests without tools, three with legacy tools, ten or five with native ones |
| `ToolRounds.ToolsAreAnswered` | godbrain_core/cpp_kernel/main.cpp:4523-4535 | over a whole run: each batch of tools but one of the last step had a round of its own after it; if a run that ends well took that one, it was the last round, a cancel came, or it printed nothing |
| `ToolRounds.ReadOnlyAnswersAreWhole` | godbrain_core/cpp_kernel/main.cpp:4148-4171 | a read-only run that ends well ends on text that was not cut by the limit, does not loop and is not blank, or on a request for tools |
| `ToolRounds.RetryMustStop` | godbrain_core/cpp_kernel/main.cpp:4195-4282 | a run that ends well after its retry ends on an answer the model stopped by itself, or, in a writing job only, on a loop that is cut |
| `ToolRounds.BoundIsMet` | godbrain_core/cpp_kernel/main.cpp:4283-4290 | the bound rounds + chunks is reached, with a run of three rounds and five requests that shows it |
| `NgramLoop.FindNgramLoop` | godbrain_core/cpp_kernel/main.cpp:608-637 | succeeds if and only if a block of 6 to 32 stands three times in a row; reports the shortest, then leftmost, with all copies |
| `NgramLoop.ReportIsUnique` | godbrain_core/cpp_kernel/main.cpp:619-634 | there is only one such report |
| `NgramLoop.TripleIsThreeBlocks` | godbrain_core/cpp_kernel/main.cpp:622-623 | the two comparisons hold if and only if the text there is w + w + w |
| `NgramLoop.CutLeavesNone` | godbrain_core/cpp_kernel/main.cpp:653-659 | after the cut no repeat of that length or a shorter one in range is left |
| `NgramLoop.TrimNgramLoop` | godbrain_core/cpp_kernel/main.cpp:653-659 | `trim_ngram_loop` as a whole |
| `NgramLoop.TrimIsEnoughIff` | godbrain_core/cpp_kernel/main.cpp:653-659 | the trimmed text has no repeat in range at all if and only if no longer repeat of the text lies within what the cut and the trim keep |
| `NgramLoop.TrimMayLeaveLonger` | godbrain_core/cpp_kernel/main.cpp:653-659 | a text in which a longer repeat does lie before the reported one |
| `ReplayedPrefix.StripReplayedPrefix` | godbrain_core/cpp_kernel/main.cpp:805-825 | drops the longest common prefix, or else the largest overlap of 24 or more, or nothing |
| `ReplayedPrefix.DroppedWasSaid` | godbrain_core/cpp_kernel/main.cpp:805-825 | one amount only is dropped and it was already said |
| `ReplayedPrefix.WholeReplay` | godbrain_core/cpp_kernel/main.cpp:810-816 | repeating everything adds only what follows |
| `FileEdit.EditLocalFile` | godbrain_core/cpp_kernel/local_tools.cpp:3043-3056 | the in-place loop ends even when the new text holds the old one, and equals replacing every leftmost non-overlapping match, with its count |
| `FileEdit.PiecesCut` | godbrain_core/cpp_kernel/local_tools.cpp:3045-3055 | the text is its pieces with the old text between, cut leftmost |
| `FileEdit.CutIsUnique` | godbrain_core/cpp_kernel/local_tools.cpp:3045-3055 | there is only one such cut |
| `FileEdit.ReplaceBack` | godbrain_core/cpp_kernel/local_tools.cpp:3043-3056 | replacing back restores the file if and only if the new text is found first exactly where it was put |
| `RegTokens.SplitRegTokens` | godbrain_core/cpp_kernel/local_tools.cpp:2301-2333 | the tokenizer loop computes the specification, unterminated quotes included |
| `RegTokens.QuotedRoundTrip` | godbrain_core/cpp_kernel/local_tools.cpp:1122-1124 | quoting tokens and splitting the line gives them back if and only if none holds a quote |
| `RegTokens.QueryRoundTrip` | godbrain_core/cpp_kernel/local_tools.cpp:912-915 | the line built for a bare path is read as `query` and that path unless it holds a quote |
| `LyricsLoop.RedoGroups` | scripts/lyrics_loop.py:786-795 | the grouping loop computes `Groups` |
| `LyricsLoop.RedoCovers` | scripts/lyrics_loop.py:786-800 | sorted segments: each lies in a group, groups are ordered and more than 0.8 apart, padded clips do not touch |
| `LyricsLoop.GroupsAreClusters` | scripts/lyrics_loop.py:786-795 | when no segment ends before it starts: groups start exactly where every earlier segment ended more than the gap before, and end at the latest end before the next such place |
| `LyricsLoop.HeldIff` | scripts/lyrics_loop.py:786-795 | in any order, when no segment ends before it starts: a segment lies in the group it is put into if and only if the segment that opened the group starts no later |
| `LyricsLoop.CoveredIff` | scripts/lyrics_loop.py:786-795 | in any order, when no segment ends before it starts: some group holds a segment if and only if an opener starts no later and the latest end before the next opener is no earlier |
| `LyricsLoop.UnsortedIsNotCovered` | scripts/lyrics_loop.py:789-794 | two unsorted segments, the second outside every group |
| `LyricsLoop.RebuiltKeepsLocked` | scripts/lyrics_loop.py:809-810 | the rebuilt list is sorted and keeps each locked segment as often as before |
| `LyricsLoop.SortIsStable` | scripts/lyrics_loop.py:810 | equal starts keep their order |
| `LyricsLoop.WriteSrt` | scripts/lyrics_loop.py:454-478 | the cue loop computes `Cues` |
| `LyricsLoop.CueSays` | scripts/lyrics_loop.py:459-477 | a cue that shows a time carries the text of the segment that is heard then |
| `LyricsLoop.SubtitlesShowWhatIsSung` | scripts/lyrics_loop.py:454-478 | sorted segments: numbered cues that never overlap and show exactly the times that are sung |
| `LyricsLoop.SubtitlesInAnyOrder` | scripts/lyrics_loop.py:454-478 | in any order: numbered cues that never overlap, and a time is shown if and only if some segment is sung then and every segment listed before it leaves nothing later to show |
| `LyricsLoop.UnsortedIsNotShown` | scripts/lyrics_loop.py:471-474 | two unsorted segments, the second never shown |
| `PreserveLocks.Preserve` | scripts/lyrics_loop.py:305-318 | the two loops in place compute the specification |
| `PreserveLocks.AllSettle` | scripts/lyrics_loop.py:305-318 | every new segment keeps place and times and takes the text of the last old line that overlaps it |
| `PreserveLocks.OldLineStays` | scripts/lyrics_loop.py:308-317 | where an old line was put it stays if and only if no later one overlaps that place, or the last that does says the same |
| `PreserveLocks.SomewherePut` | scripts/lyrics_loop.py:308-317 | every old line is put somewhere |
| `PreserveLocks.FirstOfTwoIsLost` | scripts/lyrics_loop.py:310-315 | two old lines on one new segment: the first text is gone |

## Left out

- Process launch, pipes, HTTP, sockets, timeouts, registry, sqlite, audio and GPU work: outside parts; their results are arbitrary where a core needs them.
- Path resolution, case folding and the path jail: a path is its spelling, admitted by any test that refuses the empty one; two spellings of one file are two files here.
- Report and receipt texts, progress, event logs and the `last-*` files: they are written and never read back by what is modelled.
- Keccak, the JSON grammar, the brace lexer's and the other regular expressions: parameters, as said above.
- A job record that does not parse, or holds fields of another type: `load` fails as a whole.
- What makes the ledger unreadable or too long: such a read or write throws, as does the event log, and the flight ends.
- Callbacks that are absent in `feed_sse`: only their log entries would be missing.
- Tool-call indices: memory exhaustion for a huge index, and the undefined conversion of a floating-point index out of range, which is taken as the smallest int, are not modelled.
- Which phrases make a job a fix job, a continuation unfinished or an answer a loop by headings: arbitrary choices of the loop's answers.
- How the tool context is cut to its byte limit, and the research result list: only whether something new arrived matters to the loop.
- Boundary line numbers count line feeds only, as the code does, while `n` counts Python's line breaks.
- Rounding of times to two digits and their printing: times are reals.
- `slice_lines`, `snap_first`, `apply_rewrite`, `drop_ranges`: would add easy members only.
- Chat routing, prompts, command lists, bearer checks, and the Galaxy, phone and extension screens: I/O or facts of a single branch.
- Concurrency of `maybe_apply` and of the edit job with other writers of the same files: one transaction at a time, as the plan mutex and the work directory intend; the check and the verifier may still leave anything behind.
