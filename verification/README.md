# Media pipeline: a Dafny model

A model of the hard parts of the video pipeline, with proofs of what they promise.
`dafny verify dfyconfig.toml` checks it all, with no other option.

**Exact piece planning** (`RateConversion`, `PieceShift`, `PiecePlan`, `ChunkedPlan`,
`LadderPlan`). A video is cut at real frame times and its pieces are encoded by whoever is
free. The specification is one frame-rate conversion of the whole source: output frame
`k` shows the last source frame that rounds to `k` or earlier. A piece is read from a seek
that goes a millisecond early and never below zero, put back on the source's timestamps
as if the seek had landed on its start, and cut after its counted frames. The pieces join
into the single run when the first starts on the first frame and every seek holds: it
moves none of its piece's frames to another output frame (`PiecePlan.SeekHolds`). For
sources without look-alike frames that is necessary too. It is so whenever no frame is
before zero and frames are over a millisecond apart (`PiecePlan.ApartHolds`). It is not
always so, and methods that run the planners on such sources show it: a clamped seek loses
a frame before zero, in the MP4 (`ChunkedPlan.EarlyFramesLost`, `JustBeforeZeroLost`) and
in the HD ladder (`LadderPlan.LadderLosesEarlyFrame`), and a frame just before a start
moves its piece (`ChunkedPlan.CloseFrameMovesPiece`, `LadderPlan.LadderMovesCloseFrame`).
The ladder's pieces are whole segments, and their lengths are stated in seconds.

**The piece board** (`PieceBoard`, `PieceHelpers`, `Coordinator`). One coordinator and any number of
helpers share a list, an in-flight hash and a done set in Redis. Every command is a step
of its own, so a pop and its in-flight note, or `unclaimed`'s reads, can be interleaved
with anything, and helpers can fail, crash, give back and finish late. The coordinator's
loop is also a method over the same protocol, with helpers running between any two of its
commands: it takes the head of the list as it stands, gives up nothing while a piece is
queued or orphaned, and by itself it finishes as soon as its clock allows the looks.

**Resumable uploads** (`UploadParts`, `PartSenders`, `PartOutcomes`, `UploadSessions`,
`UploadMoves`, `UploadOutcomes`). The page's three
senders over one shared counter; the server's check of the parts; and the session's
states under `start`, `complete`, `abort`, the expiry cleanup, deleting a job and the
orphan sweep. A part is tried up to three times, and storage may keep an attempt whose
answer the page never hears. A step is what happens between two awaits; a crash can fall
between any two. What one step may do to a session is a relation on its tables alone
(`UploadMoves.RowMove`), which every step of every run keeps; what each request comes to
when nothing disturbs it is stated besides, up to a whole upload of any size.

**The job's row** (`JobRow`, `JobProtocol`, `JobFencing`, `JobStore`, `JobOutcomes`). The CHECK
constraints, every conditional update, and one row under all its deliveries, its ladder's
deliveries, an owner's retry, the reaper and delete. The constraints alone are not kept by
the updates (`JobRow.ChecksAloneNotInductive`); the invariant that is kept says besides
that a row that is not done has none of a finished row's columns. Nothing ties a write to
its claim. While the reaper fails no job that a worker is still at, only the latest
claimant writes (`JobFencing.OneWorkerAtATime`, `OnlyLatestWrites`); once it fails one,
in any run, the run can go on to a late write on a job another worker has claimed since
(`JobFencing.LateWriteLands`). The table itself is a class, and `JobStore.Follow` drives
it through whole runs of the protocol. `JobOutcomes` says what becomes of a job, step by
step, from a new upload to its recorded ladder, or to its third stopped worker.

**Playlists and the filter graph** (`MasterText`, `MasterPlaylist`, `MasterListing`,
`MasterBuilders`, `BuilderProgress`, `LadderMaster`, `AttributeList`, `MasterAttributes`,
`LadderJoin`, `FilterGraph`). The master playlist is a text that is written, labelled with
its frame rate, parsed, extended and printed, its attributes found as the code's regular
expressions find them, and is edited by concurrent builders under a lock. What a player
reads in its lines is stated with a reader of attribute lists of its own. The ladder's pieces are joined
under new names. The filter graph is generated, then run by an interpreter of its links.
The playlists are those of RFC 8216, sections 4.2, 4.3.2.1, 4.3.3.1 and 4.3.4.

**Edits** (`EditRoots`, `EditRules`, `EditVerdict`). The batched lookup of every edit's upload against a
walk of one job's own chain, which agree exactly when no key is in two owners' hands; and
the rules an edit request must meet, which are also said operation by operation, against
the filters it becomes. FFmpeg's `scale=-2:H`
is taken to give the nearest even width, a half away from zero.

`Prelude`, `Text` and `Rounding` hold what these share. A state machine is a total step
function over events, where an event that cannot happen now changes nothing, and its
theorems are about every list of events. Code that updates in place or loops is a class
or a method, proved against a function whose properties the lemmas state.

## Model

| member | source | states |
|---|---|---|
| PiecePlan.OutputTick | app/worker/chunked.py:130-135 | the output frame is the nearest to the time, a half rounded up |
| RateConversion.Convert | app/worker/chunked.py:341-358 | one conversion writes an output frame for every tick from the first frame's to the last's |
| RateConversion.ConvertSuffix | app/worker/chunked.py:341-358 | converting from a frame that begins an output frame changes no later output frame |
| RateConversion.PieceIsStretch | app/worker/chunked.py:334-340 | a counted piece writes exactly the stretch of the single run up to the next piece's start |
| PieceShift.JoinIsWholeIff | app/worker/chunked.py:607-621 | joined pieces are the single run when the first starts on the first frame and no shift moves a frame to another output frame; with no two frames alike, only then |
| PiecePlan.SeekTo | app/worker/chunked.py:330-333 | the decoder begins at the first frame at or after the time it is told |
| PiecePlan.Seek | app/worker/chunked.py:107-120 | that time is never negative, never after the start and at most a millisecond and half a microsecond before it; zero for a start before zero |
| PiecePlan.LandsIff | app/worker/chunked.py:107-120 | a seek lands on its start exactly when the start is not before zero and no frame is in the millisecond before it |
| PiecePlan.StartTicksExact | app/worker/chunked.py:480-480 | a planned start tick is the frame's own timestamp, exactly |
| PiecePlan.PieceFromPlan | app/worker/chunked.py:341-358 | where the seek lands on the start, undoing it gives every frame its timestamp back, so the piece rounds as the whole does |
| PiecePlan.PlannedJoin | app/worker/chunked.py:471-487 | pieces encoded by the plan, seeks and all, join frame for frame into the single run when the first starts on the first frame and every seek holds; with no two frames alike, only then |
| PiecePlan.ApartHolds | app/worker/chunked.py:107-120 | frames not before zero and over a millisecond apart: every seek holds |
| PiecePlan.PiecesAbut | app/worker/ladder_pieces.py:398-411 | first-frame offsets plus counts leave no gap and no overlap, no count but the last is zero, and a piece whose seek holds writes exactly its count |
| ChunkedPlan.FrameStarts | app/worker/chunked.py:138-174 | the cutting loop ends and finds the greedy starts: each the first suitable frame at or after the next mark, a short remainder joined to the last |
| ChunkedPlan.GreedyCuts | app/worker/chunked.py:138-174 | the starts are a strictly increasing subsequence of the frames, each beginning an output frame; the first is frame 0 unless that is over a microsecond early |
| ChunkedPlan.GreedyIsUnique | app/worker/chunked.py:138-174 | no other list of starts meets that specification |
| ChunkedPlan.PlanChunks | app/worker/chunked.py:441-487 | there is a plan exactly when at least two starts are kept; it joins into the single run when no frame is over a microsecond before zero and every seek holds, and with no two frames alike, only then |
| ChunkedPlan.EarlyFramesLost | app/worker/chunked.py:162-168 | run on a source with a frame a second before zero, the planner makes a plan whose pieces are not the single run |
| ChunkedPlan.JustBeforeZeroLost | app/worker/chunked.py:117-120 | so it does with a frame a microsecond before zero, which begins a piece and is lost to the clamped seek |
| ChunkedPlan.CloseFrameMovesPiece | app/worker/chunked.py:341-358 | and with no time before zero, where a frame 0.1 ms before a start takes the start's timestamp and moves the piece |
| LadderPlan.SegmentsIn | app/worker/ladder_pieces.py:115-115 | the whole segments of six seconds nearest to the seconds asked for, an even number of them half-way between two, and never less than one |
| LadderPlan.SegmentAlignedStarts | app/worker/ladder_pieces.py:101-137 | each start is the first frame at or after a piece's length from the one before, a short remainder joined to the last |
| LadderPlan.PieceLengths | app/worker/ladder_pieces.py:118-136 | every piece but the last spans at least its whole segments' output frames, the last at least half |
| LadderPlan.FastSourceIsDense | app/worker/ladder_pieces.py:111-113 | a source no slower than the output begins every output frame |
| LadderPlan.ExactLengths | app/worker/ladder_pieces.py:111-113 | and then a piece that is not the last is exactly its whole segments |
| LadderPlan.WholeSegments | app/worker/ladder_pieces.py:104-111 | a keyframe falls inside a piece exactly for each of its whole segments |
| LadderPlan.PlanLadder | app/worker/ladder_pieces.py:382-411 | there is a plan exactly when at least two starts are kept; a piece that is not the last has at least the output frames of the whole segments nearest to the seconds asked for, and not one more where every output frame is begun; the last has at least half; the pieces join into the single run when every seek holds, and with no two frames alike, only then |
| LadderPlan.LadderLosesEarlyFrame | app/worker/ladder_pieces.py:175-178 | run on any source with a frame a second before zero and a frame a second, of two pieces and more there is a plan, and its pieces are never the single run |
| LadderPlan.LadderMovesCloseFrame | app/worker/ladder_pieces.py:168-178 | nor are they where, with no time before zero, a frame is 0.1 ms before a start |
| PieceBoard.RunKeepsInv | app/worker/chunked.py:239-310 | every interleaving keeps `done` inside 0..count-1 and every done piece at hand or in storage, as planned |
| PieceBoard.EveryPieceJoins | app/worker/chunked.py:526-560 | when the coordinator returns the join gets every piece once, in order, as the plan writes it |
| PieceBoard.PassProgress | app/worker/chunked.py:292-307 | with helpers stopped and notes stale, each pass of the coordinator lowers todo plus unfinished, or returns |
| PieceBoard.FinishesAlone | app/worker/ladder_pieces.py:469-491 | so it finishes with no helper at all |
| PieceBoard.EveryPieceIsSomewhere | app/worker/chunked.py:292-307 | at every moment of every run a piece is done and can be had, queued, freshly in flight, or one that `unclaimed` returns, and what it returns is not done |
| PieceBoard.ReadsUnclaimed | app/worker/chunked.py:292-307 | the coordinator's four reads, undisturbed, find exactly that |
| PieceBoard.NoPieceIsLost | app/worker/chunked.py:529-560 | from any run, however helpers left things, the coordinator alone reaches a complete join once their notes are stale |
| PieceHelpers.LoneHelper | app/worker/chunked.py:648-671 | a helper alone on a board just opened takes the pieces 0, 1, 2, ... in order, and after k of them exactly those are done and stored as planned, and the rest still queued |
| PieceHelpers.GivesBack | app/worker/chunked.py:669-671 | a helper that fails with a piece in hand, at any point, puts it back at the front and takes its note away; one that fails between the pop and the note leaves it in no list |
| Coordinator.HelpersOnlyAdd | app/worker/chunked.py:624-671 | a helper's step leaves the coordinator's own pieces alone and only adds to done and to storage |
| Coordinator.SharedBoard.Take | app/worker/chunked.py:264-273 | it takes the head of the list as it stands at its pop, and the board has it removed and noted in flight; it takes nothing exactly when the list is empty there |
| Coordinator.SharedBoard.Unclaimed | app/worker/chunked.py:292-307 | exactly the pieces that its own reads, helpers between them, find neither done, queued nor freshly in flight, in order; stale notes are dropped |
| Coordinator.SharedBoard.Look | app/worker/chunked.py:545-551 | with the list empty it gets the first unclaimed piece, else it is finished exactly when as many are done as there are; alone, with old notes stale, it gets a piece or is finished |
| Coordinator.SharedBoard.Next | app/worker/chunked.py:539-553 | the list's head at the pop, else the first unclaimed piece; nothing and not finished only when the list was empty and every piece not done was queued or freshly in flight; finished only when every piece is done |
| Coordinator.SharedBoard.EncodeUntilAllDone | app/worker/chunked.py:526-560 | it returns its own pieces once all are done, each as planned and at hand; it gives up only at a look at the clock that finds the time over, and with no helper and old notes stale it never does while the clock allows a look for each piece and each list entry |
| Coordinator.PiecedEncodeIsSingleRun | app/worker/chunked.py:441-520 | cut, encoded by anybody in any order with any failures, and joined: the single run, under exactly the plan's condition |
| UploadParts.Slice | frontend/app.js:945-947 | a part is never empty and has exactly the bytes `partBytes` counts |
| UploadParts.PartsAssemble | app/models/upload.py:49-51 | the parts in order are exactly the file's bytes, for every size and part size |
| UploadParts.ValidateParts | app/api/multipart_uploads.py:153-164 | the check passes exactly when what is stored, by number, is what the manifest and the file's size call for |
| UploadParts.ValidatedMeans | app/schemas/upload.py:48-56 | for a contiguous manifest that is: storage holds each part once, with its ETag and size, and nothing else |
| PartSenders.OneSenderPerPart | frontend/app.js:934-949 | however the senders interleave and fail, one sender alone ever has a part in hand, for good, and a part the server held none |
| PartSenders.PartAttempts | frontend/app.js:856-886 | a held part is never PUT, any other at most PART_ATTEMPTS times, again only after a retryable answer; once through, exactly once if and only if no such answer came |
| PartSenders.SentFileIsWhole | frontend/app.js:924-955 | when all senders end, after whatever retries and lost answers, the manifest passes the check against everything storage holds, in any order, and those parts are the file |
| PartOutcomes.ThreeAtOnce | frontend/app.js:949-950 | three senders, or as many as parts are missing, throughout |
| PartOutcomes.GetsThrough | frontend/app.js:895-903 | an answer in the two hundreds with an ETag gets the part through and frees its sender; without one it ends the upload |
| PartOutcomes.TriesAgain | frontend/app.js:859-886 | a dropped connection while nobody cancelled, a 408, a 429 or a code from 500 on is tried again after a pause, twice at most |
| PartOutcomes.GivesUp | frontend/app.js:877-882 | any other bad answer, and the third, ends the upload and puts nothing more |
| PartOutcomes.CancelStops | frontend/app.js:939-941 | after a cancel no further part is taken, however the run goes on |
| PartOutcomes.CanFinish | frontend/app.js:934-950 | from anywhere in an upload that nothing has ended, storage can answer so that all senders come to their end |
| UploadSessions.OneSoundJobPerSession | app/repositories/uploads.py:35-64 | a session makes one job exactly on becoming ready; a job's object has the declared size and is a video; at most 5 slots are held |
| UploadSessions.NothingUndone | app/api/multipart_uploads.py:167-259 | ready and completed are never cancelled, the manifest is frozen once the session leaves open, a live job keeps the very object it was made from |
| UploadSessions.SweepSparesLive | app/worker/reaper.py:140-147 | the orphan sweep never has a live job's or a reserved session's object on its list, however old its keys |
| UploadSessions.RunKeepsInv | app/services/upload_cleanup.py:21-49 | every interleaving of requests, cleanup, sweep and crashes keeps the invariant behind these |
| UploadMoves.StoredIsValid | app/api/multipart_uploads.py:153-164 | the check passes exactly when storage holds the manifest's parts and no other: as many as the file has, each by number, ETag and byte count |
| UploadMoves.MergedIsWhole | app/services/multipart_storage.py:75-83 | then storage merges them in order, each once, into exactly the declared bytes |
| UploadMoves.EveryStepIsAMove | app/api/multipart_uploads.py:89-259 | in every run, whatever comes next: no session's row, parts or object changes but by the listed moves, each under its own condition |
| UploadMoves.FrozenIsStored | app/api/multipart_uploads.py:190-199 | a session leaves open for completing only in a step whose state holds exactly the manifest's parts, by number, ETag and byte count, and they make up the declared file; nothing else of its row changes |
| UploadMoves.FreezesIff | app/api/multipart_uploads.py:194-199 | a request under the lock freezes its manifest if and only if its parts are all there, and otherwise leaves every table as it was |
| UploadOutcomes.CompletesAlone | app/api/multipart_uploads.py:178-229 | an undisturbed completion of an open session whose parts are all there makes one job of one object of the declared size; what is no video is thrown away and makes none |
| UploadOutcomes.RefusedAlone | app/api/multipart_uploads.py:186-203 | an expired, uninitiated or incomplete open session, other parts than were frozen, and a cancelled or completed session: nothing changes |
| UploadOutcomes.RetriedAlone | app/api/multipart_uploads.py:201-229 | a retry goes on from the frozen manifest, the merged object or the job not queued yet, to the same end |
| UploadOutcomes.FailedCallChangesNothing | app/api/multipart_uploads.py:206-228 | a merge or an enqueue that fails leaves the session for a retry and the lock free |
| UploadOutcomes.AbortsAlone | app/api/multipart_uploads.py:251-259 | a cancellation frees an open or cancelling session's slot and all it stored, and changes nothing once completion has begun |
| UploadOutcomes.CleansAlone | app/services/upload_cleanup.py:21-49 | the cleanup does so for an expired session with a slot and touches no other |
| UploadOutcomes.StartsAlone | app/api/multipart_uploads.py:89-131 | a start opens a session that expires in 24 hours and is ready for its parts, unless five slots are taken |
| UploadOutcomes.SweepListsOrphans | app/worker/reaper.py:140-147 | an undisturbed sweep lists exactly the old objects that no job and no session with a slot needs |
| UploadOutcomes.PutReplaces | app/services/multipart_storage.py:54-66 | in every run a part number is held once at most, and putting a part again replaces it and leaves the others |
| UploadOutcomes.UploadsFile | app/api/multipart_uploads.py:89-229 | a file of any size in parts of any size: started, every part put, completed, it is one job with an object of exactly that size, and the slots are as before |
| JobRow.StrippedIsNotBlank | app/models/job.py:56-60 | a message Python does not find blank is one the database does not either |
| JobRow.ReadableErrorFits | app/worker/tasks.py:76-99 | a failed step's message is never blank, fits 500 characters and is stored as it is |
| JobRow.ReadableErrorIs | app/worker/tasks.py:76-99 | a step's own message is shown whole where it fits, else its first 497 characters, but for spaces at the cut, and three dots; without one a fixed text |
| JobRow.DoneIsSoundIff | app/repositories/jobs.py:268-306 | finishing a job passes the constraints exactly when its result does not pair a pending ladder with a key and has positive sizes |
| JobRow.UpdatesKeepSound | app/repositories/jobs.py:198-252 | every other update passes them from any sound row, also where it leaves columns as they were |
| JobRow.RequeuedIsNew | app/repositories/jobs.py:418-443 | a retried job, and one given back, has exactly a new one's row |
| JobRow.ChecksAloneNotInductive | app/models/job.py:51-89 | a row that passes the constraints and, marked stale, fails them |
| JobStore.JobTable.Process | app/repositories/jobs.py:255-265 | a claim succeeds exactly on a queued row, and says why otherwise |
| JobStore.JobTable.Finish | app/repositories/jobs.py:268-306 | exactly a processing row with nonblank keys and a sound result is completed, with exactly the result's columns and its ladder's state; each other case has its own outcome |
| JobStore.JobTable.Fail | app/repositories/jobs.py:406-415 | exactly a processing row with a nonblank message fails, with the stripped message and nothing of a finished row |
| JobStore.JobTable.Interrupt | app/repositories/jobs.py:388-403 | exactly a processing row is given back, as a new one |
| JobStore.JobTable.Settle | app/repositories/jobs.py:309-343 | exactly a done row with a pending ladder and a nonblank key, if any, is settled, its status and key together |
| JobStore.JobTable.RecordPreview | app/repositories/jobs.py:346-370 | exactly a done row with a ladder gets a nonblank preview key |
| JobStore.JobTable.FailStale | app/repositories/jobs.py:521-539 | exactly a processing row is failed as stale |
| JobStore.JobTable.Retry | app/repositories/jobs.py:418-455 | exactly a failed row is queued again, as a new one |
| JobStore.Follow | app/repositories/jobs.py:198-252 | driven through any run of the protocol by these methods alone, the table holds the protocol's row and no other row changes |
| JobOutcomes.Claims | app/worker/tasks.py:114-131 | a worker that takes an entry of a queued job claims it |
| JobOutcomes.LeavesAlone | app/worker/tasks.py:117-126 | any other job it leaves as it is |
| JobOutcomes.Completes | app/worker/tasks.py:163-194 | a step that returns is recorded with everything it found, and hands its ladder on only after that |
| JobOutcomes.Fails | app/worker/tasks.py:142-161 | a step that raises fails the job with a message for its owner |
| JobOutcomes.Stops | app/worker/tasks.py:197-212 | a stopped worker gives the job back as new, and the same entry runs it again |
| JobOutcomes.StopsTooOften | app/worker/tasks.py:201-206 | the third time it fails |
| JobOutcomes.HandsOn | app/worker/tasks.py:215-223 | a ladder that can be queued is, and one that cannot is settled at once |
| JobOutcomes.LadderStarts | app/worker/tasks.py:238-252 | a ladder is taken up exactly while its done row waits for it and has its sizes |
| JobOutcomes.LadderIsRecorded | app/worker/tasks.py:281-298 | built, it is recorded with its key |
| JobOutcomes.LadderRaisesOnce | app/worker/tasks.py:269-279 | one that is stopped goes back, twice at most; one that fails is settled and the video stands |
| JobOutcomes.Retries | app/api/jobs.py:274-295 | a retry puts a failed job back as a new one with an entry of its own |
| JobOutcomes.ReaperGivesUp | app/worker/reaper.py:123-126 | the reaper fails a job only while it is processing |
| JobOutcomes.UploadIsProcessed | app/worker/tasks.py:102-298 | a new upload, undisturbed, is claimed once, done with everything its step found, and has its ladder and preview |
| JobOutcomes.ThreeStops | app/worker/tasks.py:197-212 | a new job whose worker is stopped three times over has failed, given back twice, and is not queued again |
| JobProtocol.RunKeepsInv | app/worker/tasks.py:102-298 | every interleaving of workers, retries, reaper, ladder and delete keeps the invariant behind these |
| JobProtocol.RowIsAlwaysSound | app/models/job.py:46-89 | every row ever stored passes the constraints, whatever the steps return: an output exactly when done, an error exactly when failed, a ladder's key exactly when it is available, sizes only when done and positive; at most one ladder settlement succeeds |
| JobProtocol.UpdateIsStored | app/repositories/jobs.py:198-252 | a step stores what its UPDATE computes, unless a constraint refuses it; a retry's is kept back until its commit |
| JobProtocol.OnlyUnsoundIsRefused | app/models/job.py:46-89 | in no run does the database refuse an UPDATE that matches its row, except exactly a completion whose result is not sound |
| JobProtocol.DoneIsFinal | app/repositories/jobs.py:309-331 | done is left only by delete, and output and ladder keys never change once set |
| JobProtocol.ClaimsBalance | app/worker/tasks.py:197-212 | claims + [queued] = 1 + give-backs + committed retries; one entry is given back at most MAX_INTERRUPTIONS - 1 times |
| JobProtocol.RetryMeetsItsDelivery | app/api/jobs.py:280-295 | unless the retry's own entry has died, a worker that takes it before the commit waits, then claims the job; after a rollback it leaves the failed row alone |
| JobProtocol.QueuedIsClaimable | app/repositories/jobs.py:418-443 | a queued job is three steps from a worker through exactly its live entries, and the entry last queued is one of them unless it has died |
| JobFencing.OneWorkerAtATime | app/repositories/jobs.py:255-265 | if the reaper fails no job a worker is at, at most one delivery is between its claim and its write, and it is the latest claimant |
| JobFencing.OnlyLatestWrites | app/repositories/jobs.py:230-252 | and then a claimed job's row changes only by the latest claimant's write, by the reaper with no delivery active, or by delete |
| JobFencing.LateWriteLands | app/repositories/jobs.py:521-539 | from every reachable processing state, giving up on an active worker has a continuation in which another claims the job and the first one's write still lands |
| JobFencing.FirstWriteIsLate | app/worker/tasks.py:163-177 | so it can go from a job's very first claim on |
| MasterText.ReadEntries | app/worker/renditions.py:192-205 | the loop returns the head and the (STREAM-INF, URI) pairs that `Parse` specifies |
| MasterText.ParsePrint | app/worker/renditions.py:248-248 | printing and parsing again gives the same head and entries |
| MasterPlaylist.PlansArePlain | app/worker/renditions.py:109-142 | a planned rendition's codecs and range hold no quote, slash, equals sign or line break |
| MasterPlaylist.InfoCarries | app/worker/renditions.py:229-244 | the audio group given to a new entry is the one read back, and so is the frame rate, exactly when the group's name hides no other |
| AttributeList.BareReads | app/worker/renditions.py:234-244 | reading an attribute list, a bare value ends at the next comma |
| AttributeList.QuotedReads | app/worker/renditions.py:234-244 | and a quoted one at its quote, commas and all |
| MasterAttributes.InfoReads | app/worker/renditions.py:230-244 | a new entry reads as BANDWIDTH and AVERAGE-BANDWIDTH with 128000 added, RESOLUTION width by rung, CODECS with mp4a.40.2 exactly when there is audio, VIDEO-RANGE, AUDIO and FRAME-RATE, these and in this order |
| MasterAttributes.AddedIsShown | app/worker/renditions.py:212-248 | in the playlist that `add_to_master` leaves there is exactly one entry more, with the rendition's URI and, read by name, its numbers, size, codecs and range and the first video's audio group and rate |
| MasterAttributes.PlanShows | app/worker/renditions.py:109-147 | HDR is planned exactly for an HDR source in PQ or HLG and AV1 exactly up to 1080 lines; the codec string's fields are the profile, the height's level, the depth and, for HDR, the source's own transfer, and the range is PQ, HLG or SDR to match |
| MasterListing.UriHolds | app/worker/renditions.py:225-226 | a rendition's URI is found inside another's only when they are the same |
| MasterListing.AddedIsWellFormed | app/worker/renditions.py:228-248 | the extended playlist reads back as meant exactly when no STREAM-INF line was left without a URI |
| MasterListing.AddTwice | app/worker/renditions.py:222-227 | adding a rendition twice is adding it once, for every playlist |
| MasterListing.OthersAreKept | app/worker/renditions.py:245-247 | every kind's entries keep their text and order, the new one behind its own kind, HDR before AV1 before the ladder |
| MasterListing.SharedIsKept | app/worker/renditions.py:222-244 | each new entry keeps the ladder's audio group and rate, also when it is read from an earlier rendition |
| MasterListing.AddedHolds | app/worker/renditions.py:225-226 | adding one rendition never makes the text name another |
| MasterListing.OrderDoesNotMatter | app/worker/renditions.py:212-248 | an HDR and an AV1 rung added in either order give the same text |
| MasterListing.JobOrderDoesNotMatter | app/worker/renditions.py:338-350 | so do the two jobs' lists of rungs |
| MasterListing.AllListed | app/worker/renditions.py:342-343 | a builder's list adds exactly its renditions: all of them, and nothing goes |
| MasterListing.LadderIsKept | app/worker/renditions.py:245-248 | the head and the ladder's own entries keep text and order |
| MasterListing.LadderIsGood | app/worker/renditions.py:212-248 | any playlist that names neither kind, leaves no STREAM-INF line dangling and hides no rate in its audio group's name meets what these ask, also one FFmpeg wrote |
| LadderMaster.WriteMaster | app/worker/ladder_pieces.py:311-336 | the loop writes the lines that `MasterLines` specifies, blank ones too |
| LadderMaster.LabelFrameRates | app/worker/hls.py:247-267 | the loop labels each line of the text that names a resolution and no rate |
| LadderMaster.LinesAreSplit | app/worker/renditions.py:192-194 | the lines an extension reads are those of `splitlines` that are not blank, for every text |
| LadderMaster.WrittenIsGood | app/worker/ladder_pieces.py:311-336 | for all plain rungs, audio and rate, what is written and labelled reads back as its head, every rung in order with the audio group and that rate, and the audio; and it meets what all results about listing ask |
| MasterAttributes.LadderIsShown | app/worker/ladder_pieces.py:311-336 | what a player reads in it: the audio group's line, every rung in order with its rates and the audio's added up, its size and both codecs, and the audio's own entry |
| MasterAttributes.RateIsNear | app/worker/hls.py:262-262 | the rate shown is the rate to the nearest thousandth |
| LadderMaster.WriteAndLabel | app/worker/hls.py:371-389 | the two calls in a row give that text |
| MasterBuilders.RunKeepsInv | app/worker/renditions.py:281-353 | every interleaving of builders, with deaths anywhere, keeps the invariant behind these |
| MasterBuilders.PlayersFindEveryFile | app/worker/hls.py:389-404 | at every instant each URI in the stored master names something whose files are all stored, and the ladder's part is as it was |
| MasterBuilders.NoEntryIsLost | app/worker/tasks.py:443-452 | whatever ran beside it, what a finished builder listed is in the master |
| BuilderProgress.BuildsAll | app/worker/renditions.py:281-353 | undisturbed, a builder whose kind is not listed stores every file of every rendition, adds its entries to the master as it is then, and frees the lock |
| BuilderProgress.DeathFreesLock | app/worker/tasks.py:443-452 | a death at any moment leaves no lock behind |
| BuilderProgress.LadderIsStored | app/worker/hls.py:389-404 | the ladder stores all its files and only then its master |
| LadderJoin.DecimalOfFixed6 | app/worker/ladder_pieces.py:267-267 | a duration printed to six decimals reads back as its nearest microsecond |
| LadderJoin.WritePlaylist | app/worker/ladder_pieces.py:260-269 | the loop writes the playlist that `Playlist` specifies |
| LadderJoin.TargetBounds | app/worker/ladder_pieces.py:261-261 | the target bounds every segment's duration, as it is and as written, and is one segment's duration rounded up |
| LadderJoin.PlaylistReadsBack | app/worker/ladder_pieces.py:250-257 | reading a written playlist gives the same names in order, durations to six decimals |
| LadderJoin.PlaylistLines | app/worker/ladder_pieces.py:260-269 | before the segments: version 3, the target duration, sequence 0, on demand; after them the end |
| LadderJoin.TargetIsLeast | app/worker/ladder_pieces.py:261-261 | the target is the least whole number of seconds that no segment is longer than, and 1 for none |
| LadderJoin.NamesDiffer | app/worker/ladder_pieces.py:509-509 | two segments never get the same new name, also past 99999 |
| LadderJoin.NameIs | app/worker/ladder_pieces.py:509-509 | a new name is seg, the segment's number to five digits or more, and .ts |
| LadderJoin.JoinRung | app/worker/ladder_pieces.py:502-512 | the rung holds its pieces' segments in order, each content under its own new name and nothing else; it raises exactly when a file is missing or listed twice or a playlist cannot be read |
| LadderJoin.JoinedPlaylist | app/worker/ladder_pieces.py:500-512 | the rung's playlist reads back as the joined segments, none longer than the target |
| FilterGraph.RungsAreRight | app/worker/hls.py:82-94 | a ladder's heights are increasing, never empty, and exactly the rungs within the source and the limit, an inner 480 left out |
| FilterGraph.LadderOf | app/worker/hls.py:82-94 | by number: under 360 lines its own height alone, else 360, 720, 1080, 1440 and 2160 as far as source and limit reach, and 480 exactly when they end below 720 and reach it |
| FilterGraph.LadderFilter | app/worker/hls.py:117-150 | the loops append the links that `Graph` specifies |
| FilterGraph.GraphIsRight | app/worker/hls.py:117-150 | every label is an output once in the whole graph and consumed once, every split fits, and output k is at heights[k], from the 1080 rendition below 1080 when there is one |
| FilterGraph.LabelTextsDiffer | app/worker/hls.py:137-149 | different labels are different texts |
| EditRoots.ParentIs | app/repositories/jobs.py:563-580 | with unique keys the hop finds the one other job of the same owner that has the key |
| EditRoots.ParentSays | app/repositories/jobs.py:574-580 | keys unique or not: of the owner's own rows the last upload with the key, else the last output with it, unless it is the job itself |
| EditRoots.BatchFindsParent | app/repositories/jobs.py:557-580 | with no key in two owners' hands the batch's query gives each of its jobs the parent its own query would |
| EditRoots.BatchesAgreeIff | app/repositories/jobs.py:557-580 | batch and single lookup agree for all keys and owners if and only if no key is carried by rows of two owners |
| EditRoots.ResolveEditRoots | app/repositories/jobs.py:547-585 | then every job gets the ancestor of its own walk of at most 8 hops, whatever else is looked up, cycles included |
| EditRoots.WalkKeepsOwner | app/repositories/jobs.py:579-579 | the ancestor has the same owner |
| EditRoots.SharedKeyMisleads | app/repositories/jobs.py:574-578 | with a key in two owners' hands a batch can lose an ancestor |
| EditRules.CheckEditOperations | app/services/media_rules.py:204-238 | the two loops give the verdict of the fold over the operations' order, which the next rows say rule by rule |
| EditVerdict.Mp3Refused | app/services/media_rules.py:224-232 | refused for its MP3 if and only if convert's format is mp3 and crop, rotate, flip, downscale, upscale, adjust or preset is asked for; the labels are theirs, each once and in order, scale for both scalings and colour for adjust |
| EditVerdict.RefusedFor | app/services/media_rules.py:234-290 | otherwise: a turn without an angle, then a downscale that is no whole number, no rung or not below the height it gets, then an upscale likewise not above; each height the one the crop, the turn and the downscale leave |
| EditVerdict.OrderedIs | app/services/media_rules.py:35-46 | the order in which the worker applies what is asked for |
| EditRules.OrderDoesNotMatter | app/services/media_rules.py:222-235 | the verdict depends only on the set of operations |
| EditRules.KnowingLessIsNotStricter | app/services/media_rules.py:213-238 | what is refused knowing less of the frame is refused knowing more |
| EditRules.OfferedIsAccepted | app/services/media_rules.py:166-201 | the heights offered are exactly those accepted, largest first below and smallest first above |
| EditRules.BuildFilterChain | app/worker/edit_ops/registry.py:72-92 | the loop returns the chain that `Chained` specifies |
| EditRules.AcceptedIsBuilt | app/worker/edit_ops/registry.py:72-92 | what is accepted can be built, each filter on the frame the checker computed, and before + after is all of them in OPERATION_ORDER |
| EditVerdict.BuiltInOrder | app/worker/edit_ops/registry.py:72-92 | the chain of an accepted request: crop, rotate, flip and the scalings before the tone-map, adjust, preset and speed after it, each built once on the picture the ones before it leave |
| EditRules.WidthAgreesIff | app/worker/edit_ops/scale.py:11-16 | the checker's width is the filter's exactly unless the exact one is a half above an even number of pairs, or the filter's would be nothing |
| EditRules.CheckerMisroundsTie | app/services/media_rules.py:266-268 | 532x960 at 240 lines: the checker says 132, the filter gives 134 |
| EditRules.FrameIsPicture | app/services/media_rules.py:252-281 | the checker's frame is the size the filters leave the picture at, after every operation, if and only if no scale's width is one it misrounds |
| EditRules.WidthKeepsShape | app/services/media_rules.py:266-268 | a scaled width is even, at least 2, and within one pixel of the picture's shape |

## Left out

- FFmpeg, ffprobe and subprocesses: an encode is a function of frames; codecs, quality and the printed `setpts` expressions are not modelled, and a seek decodes from the first frame at or after the printed microsecond.
- Floating point: times, rates, marks and durations are exact numbers; in particular `frame_starts` compares with `mark - 1e-6` exactly, and `round` of a width is of the exact quotient.
- Plans without counts (`PiecePlan.exact` false): only exact plans are modelled, so of `bounds` the seek and not the length.
- PiecePlan.PlannedJoin: the condition is necessary only where no two frames look alike, since a moved frame that looks like the one it replaces changes nothing.
- Helpers of an earlier board generation, closing a board, and two ladder builders for one job: taken not to happen, as nothing in the code rules them out.
- Coordinator.SharedBoard.HelpersRun: stands for any number of helper steps, and promises only what `HelpersOnlyAdd` proves of each of them.
- Source frame times are taken sorted, as ffprobe's reader returns them; `segment_aligned_starts` sorts them itself.
- LadderPlan.WholeSegments: asks for a rate of at least one frame a segment, because slower output puts several keyframes on one frame.
- LadderPlan.ExactLengths: is about a source whose frames begin every output frame; a variable-rate one only has the lower bound of `PieceLengths`.
- "Every final MP4 piece is at least half a chunk" is not claimed: `frame_starts` joins only one short remainder.
- UploadSessions.OneSoundJobPerSession: is about one owner; owners share no rows, and a storage request takes effect before its lock is given up.
- UploadSessions.SweepSparesLive: speaks of direct uploads; objects posted through the older upload path, and deleting an account, are not modelled.
- UploadOutcomes.CompletesAlone: asks that the open session has no object yet, which `NothingMergedYet` proves of every run.
- MasterAttributes.AddedIsShown: asks for a range without a comma and a resolution likewise; `PlanShows` proves it of every planned range.
- LadderMaster.WrittenIsGood: takes resolution and codec to hold no quote, slash, equals sign or line break; what `_video_facts` reads from a segment is not modelled.
- PartSenders.SentFileIsWhole: takes storage to hold only numbers the server signs; cancelling is one flag, a pause lasts any time, and the page's progress and saved notes are left out.
- JobProtocol.QueuedIsClaimable: nothing says that a dead entry is replaced; the reaper's re-enqueue is an event like any other, and heartbeats and ages only limit when it comes.
- JobFencing.LateWriteLands: leaves out a step that has finished with a result the update or the database refuses, which cannot land on any claim.
- JobProtocol.ClaimsBalance: each queue entry carries its own count of re-runs; RQ keeps one hash per job id, whose reuse by a later entry is not modelled.
- Moving a job to the trash and back, which changes none of the columns above.
- MasterListing.OrderDoesNotMatter: asks that the playlist names a rendition only where it lists it, has its entries in rank order, no dangling STREAM-INF line and no frame rate inside the audio group's name; `LadderMaster.WrittenIsGood` proves this of the playlist the code writes, and `GoodIsKept` that adding renditions keeps it. Of one that FFmpeg writes it is asked.
- MasterBuilders.NoEntryIsLost: takes the master lock's lease to outlive a holder that is alive.
- The measured bandwidths and the bitrate ceilings of a rendition are given numbers.
- LadderJoin.DecimalOfFixed6: reads plain decimal notation only, as FFmpeg writes it.
- LadderJoin.JoinRung: one rung at a time; unpacking archives and probing the first segment are left out.
- FilterGraph.GraphIsRight: is about the links; of their text only the labels are written out.
- EditRoots.ResolveEditRoots: takes no key to be in two owners' hands, which the schema does not enforce and `BatchesAgreeIff` shows to be exactly what it takes.
- EditRules.FrameIsPicture: takes parameters as the request's schema lets them through; whether a crop fits the picture is checked elsewhere.
- Operation names outside OPERATION_ORDER are ignored, as `ordered` ignores them; the filters' texts and the messages' wording are left out.
- Authentication, signing, metrics, page code other than the part sender, thumbnails and seek-bar previews: thin beside the rest.
