# Proofs about the wbf core

A Dafny model of the parts of `wbf-core` where many things happen at once, and proofs about every run of them. Each part is
written twice: as functions on values, which say what one step does, and, where the repository changes fields in place, as a
class whose methods do the same step by step and are proved equal to the functions. What holds over whole runs is proved about
the functions.

- **Downloads** (`Download*.dfy`, `JobQueue`, `SharedQueue`, `Files`). The handler of one account as a state machine: its jobs, open files,
  seek-only files, the in-flight table, the send queue, GETs, the claim table and the pool it shares with other handlers. Its
  control state says at which await or between which two locks it stands, so other threads, other handlers and an abort can
  come in there. `DownloadSystem` puts any number of handlers together; `DownloadRuns`, `DownloadLost`, `DownloadEnds`, `DownloadCancel`,
  `DownloadStops` and `DownloadAway` hold the results on claims, requests, endings and cancels; `DownloadOutcomes` and `DownloadTold`
  say who is told what about a job, `DownloadGets` and `DownloadPieces` which GET has its piece, `DownloadTaken` that jobs and GETs are
  taken up, `DownloadKept` and `DownloadWritten` what becomes of what was written. `DownloadWitness` and
  `DownloadStuck` are concrete runs, `DownloadHandler` is the class and `DownloadDrive` its whole life.
- **The send queue of a line** (`Lines`, `LineRuns`, `LineAnswers`, `RequestLine`). Queue, the sender's hand, the wire table, reply tasks,
  and the silence timeout on a logical clock.
- **Reading a range** (`ByteSource`, `MediaStream`). A local file, the pool, a downloader, a transfer still running.
- **Uploads** (`Upload`). A server that takes only the chunk it wants next, and may lose answers or get a chunk late.
- **Room keys** (`KeyShare`), **key subscription** (`KeySync`), **invites** (`Invites`, `InviteRuns`, `InviteDrive`),
  **line pool** (`LinkPool`, `LinkRegistry`, `PoolSlot`),
  **config file** (`Conf`, `ConfFile`).

What comes from outside is a parameter or a free choice: what the sdk says of an acknowledgement, whether disk, database and
network calls work, in which order the tasks run. What the sdk promises is written down where it is used (`InfoContract`,
`ChunkContract`, `OpenContract` in the download modules): a chunk it verified is the chunk of the file, and a block it accepted
describes the file. That a file continued from disk was begun with the same description is not the sdk's doing but the caller's,
who compares the block on record first (`is_same_block`); `OpenContract` holds both.

Where the code and what is said about it differ, the model follows the code:

- `close_everything` gives up the claims of open and opening files only, so a handler dropped while `finish_job` records the
  file keeps its claim; `AbortReleasesUnlessRecording`, `LeakedExactly`, `LeakStays`, `LeakedFileIsNobodys` and `ClaimLeaks` say
  exactly when, that it stays, and what it means.
- The comment on `process_download_job` promises that a cancel noted while a job is prepared is not dropped with its entry. It
  is, for a job handed over meanwhile: `cancel` says yes, and the job runs on at the other handler. `LateCancelStopsNothing` has
  the exact condition, `CancelIsLost` a run.
- `end_job` drains the waiters before the job leaves `preparing`. Between awaits nothing can come in (`NothingSlipsInAtAwait`);
  between locks it can (`LostJobExactly`, and a run in `WaiterIsLeft`).
- `enqueue` and `hand_over` look up a queue and then put the job there without looking at `stopped` again; `AllAnsweredIff` says
  exactly what that costs.
- The wire table is keyed by the number alone, which is unique only per link. `LosesOnlyByReuse` says exactly when a line
  loses a request, `NothingLost` exactly which requests of a download have no copy left, `StuckJobHangs` what that does to a job,
  and `LastCopyIsLost` shows one.
- A reply task finds its request by the number alone, so it can hand a request the answer to another one. `ClearIff` says exactly
  when, `OthersAnswer` shows a run.
- The comment on `quote_if_needed` calls it the mirror of `strip_comment` and `unquote`. It is not for an odd number of quotes, for
  a sign after a tab, or for one after a letter whose last byte reads as white space (`AccentIsCut`); `LineComesBackIff` is the exact
  condition.
- The sized upload adds up what the acknowledgements and one status say of truncation. A chunk of an earlier request that arrives
  late is acknowledged to nobody, so "not truncated" can be wrong then, and only then (`SendSizedBody`).
- "A front push always goes next" is not claimed: a request in the sender's hand can be put back in front of it.

## Model

| member | source | states |
|---|---|---|
| DownloadShared.StepKeeps | crates/wbf-core/src/download_queue.rs:754-1821 | Whatever one of any number of handlers, senders, cancelling or enqueuing threads, aborts or the database does next, every invariant of every handler and of what they share still holds: cursors, GETs on their own requests, GET accounting, retry budgets, soundness of files, waiters, claims. Reused numbers, jobs put in between two locks and jobs put into a queue that is closed are among the events |
| DownloadRuns.OneWriter | crates/wbf-core/src/download_queue.rs:282-300 | In every reachable state at most one handler, alive or gone, holds a file of a server directory |
| DownloadRuns.ClaimIsHolding | crates/wbf-core/src/download_queue.rs:1630-1671 | The claim table names a handler for a file exactly when that file is in its `open`, in its `opening`, or the one it is recording as finished |
| DownloadRuns.WritesOnlyOwn | crates/wbf-core/src/download_queue.rs:282-300 | An event changes a file on disk or in the pool only if the handler it belongs to had claimed that file; nobody gives up or takes over another handler's claim; a new claim belongs to the actor |
| DownloadRuns.LeakedExactly | crates/wbf-core/src/download_queue.rs:1441-1471 | What a dropped handler leaves in the claim table is exactly the file it had put into the pool and was recording |
| DownloadRuns.AbortReleasesUnlessRecording | crates/wbf-core/src/download_queue.rs:1772-1781 | Dropping a handler frees all its claims if and only if it was not inside `finish_job` at the `record_finished` await |
| DownloadRuns.LeakStays | crates/wbf-core/src/download_queue.rs:1772-1781 | A claim left behind is never freed, by any further run |
| DownloadWitness.ClaimLeaks | crates/wbf-core/src/download_queue.rs:1441-1471 | A run from a starting process ends with a dropped handler's claim still standing |
| DownloadRuns.LeakedFileIsNobodys | crates/wbf-core/src/download_queue.rs:1772-1781 | From then on no other handler ever holds the file, in any run, whether or not the database still records its row |
| DownloadRuns.OneCursor | crates/wbf-core/src/download_queue.rs:907-960 | In every reachable state a running job's file is open unless it is the one being finished; then exactly one request in flight carries exactly one `Main`: `Info` while needed, otherwise the next chunk; no other request carries one |
| DownloadLost.NothingLost | crates/wbf-core/src/download_queue.rs:966-1059 | From the start of a process, over every run: a request in flight has no copy left (queued, in the sender's hand, on the wire or answered) if and only if a reused number pushed its last one off the wire table and it has been in flight ever since |
| DownloadLost.NoReuseLosesNothing | crates/wbf-core/src/link_requests.rs:180-204 | A run in which no handler sends under a number its wire table still has is exactly one in which no line has pushed anything off; and then every request in flight of every handler has a copy |
| DownloadLost.StuckJobHangs | crates/wbf-core/src/download_queue.rs:1311-1353 | A job whose main request lost its last copy hangs: cancelled or not, in every state of every further run in which that request is in flight the job still runs and its main file still waits for just that request |
| DownloadStuck.LastCopyIsLost | crates/wbf-core/src/link_requests.rs:180-204 | A run from a starting process ends with a running job whose main request is in flight and has no copy left |
| DownloadCopies.ReplyKeeps | crates/wbf-core/src/download_queue.rs:988-1059 | Any reply with any verdict: of the requests in flight afterwards exactly those have no copy that had none before, and whoever waited for one of them still does; nothing it drops, resends or wants loses a copy |
| DownloadRuns.EveryGetAccounted | crates/wbf-core/src/download_queue.rs:1228-1307 | Every GET ever asked is answered or attached in exactly one place, and all are answered once the handler is gone |
| DownloadRuns.ResentAtMost | crates/wbf-core/src/download_queue.rs:341-366 | No request in flight was resent more than twice for timeouts and once for a bad reply, and none is in flight with nobody waiting |
| DownloadRuns.FilesAreRight | crates/wbf-core/src/download_queue.rs:907-960 | The main file is always the plain text of chunks 0 to next in order; a pool file is the whole file; whoever was told "finished" finds it there. Who is told what is in `DownloadTold.ToldIff` |
| DownloadOutcomes.MoveTells | crates/wbf-core/src/download_queue.rs:1569-1622 | Every move of a handler: which job it ends, if any, worked out from what arrived and what was found alone (`EndingOf`), and everyone who waits for it is told just that and is gone: "finished" if it was found complete, or was recorded and answered; `Usage` if cancelled; the very error otherwise. Nobody else is told anything and no other job goes |
| DownloadTold.MoveFinishes | crates/wbf-core/src/download_queue.rs:1441-1474 | A file begins to be finished exactly when what arrived, with the chunks already stored, brings its main file to its end uncancelled; and its job then ends complete exactly if the file went into the pool and the row was recorded, with the very error otherwise |
| DownloadTold.ToldIff | crates/wbf-core/src/download_queue.rs:1594-1622 | From the start of a process, over every run: a waiter was told an outcome if and only if, somewhere in the run, it waited for that file and the job ended with just this outcome, or its handler was dropped |
| DownloadTold.UnharmedFinishes | crates/wbf-core/src/download_queue.rs:754-1622 | In any run in which nothing goes wrong with a file, whoever waits for it waits still or was told "finished", and then the whole file is in the pool. Lost links, two timeouts and one bad answer to a request are nothing going wrong |
| DownloadTold.RecordedIsFinished | crates/wbf-core/src/download_queue.rs:1441-1506 | Once the row of a finished file is recorded, everyone who waits for it is told "finished", cancelled or not, in any run in which the handler is not dropped |
| DownloadTaken.MoveTakes | crates/wbf-core/src/download_queue.rs:754-861 | Every move of a handler: what it is at next, what is left in inbox and channel, and which jobs run, worked out from what arrived alone. A job goes through looking, opening, the look at its cancel and the start, or straight to the tail once that is clear; only a job taken up or cancelled leaves the inbox, and a job runs from its start until it ends |
| DownloadTaken.JobIsTakenUp | crates/wbf-core/src/download_queue.rs:775-796 | Over any run through which a job waits at a handler, in the inbox or on its way from there: the handler takes at most six turns for each job before it, six for its own and five for the one at hand, whatever is put in, cancelled or asked meanwhile |
| DownloadTaken.SomeTurnIsPossible | crates/wbf-core/src/download_queue.rs:754-861 | A living handler at which a job waits can always go on, with a turn or with what it has to finish before one |
| DownloadKept.MoveMeets | crates/wbf-core/src/download_queue.rs:1536-1566 | Every move of a handler: a file it has open is kept with all that was written, with what arrived added to file or seek store, is deleted, or goes into the pool, by what arrived alone (`FateOf`). Deleted only if it is not to be had, does not verify or cannot be written in order; a cancel, timeouts, a lost link and other files keep it |
| DownloadWritten.WrittenStays | crates/wbf-core/src/download_queue.rs:1536-1590 | What was written of a file stays written, on disk or in the handler that has it open, through any run of any number of handlers, cancels, failures and dropped handlers; until it is told that the file is not to be had or does not verify, has the whole of it, or finds less on disk than was left there |
| DownloadRuns.PiecesAreRight | crates/wbf-core/src/download_queue.rs:1122-1307 | Every piece any GET was ever given is of the file it asked for and is, byte for byte, the chunk whose number the handler worked out for its position; it covers that position if and only if the position is in the file and the chunk size at hand then gave the file's own number. From chunk arrivals, local chunks and the pool alike. That a GET has its piece is in `DownloadGets.AnsweredHasPiece` |
| DownloadGets.MoveServes | crates/wbf-core/src/download_queue.rs:1003-1307 | Every move of a handler: each GET it answers has a piece, except those something named went wrong for (`FailuresOf`, worked out from what arrived, what could be read and where the GET stood) |
| DownloadGets.AnsweredHasPiece | crates/wbf-core/src/download_queue.rs:1122-1307 | From the start of a process, over every run: a GET that was answered was given a piece, unless one of the named failures happened to it or its handler was dropped |
| DownloadPieces.ArrivedIsGiven | crates/wbf-core/src/download_queue.rs:1122-1222 | A chunk that arrives and verifies is given to every GET that waits for it, whether the file is downloaded or only read, and whatever becomes of the main file |
| DownloadPieces.LocalIsGiven | crates/wbf-core/src/download_queue.rs:1277-1288 | A GET for a file being downloaded is given the chunk at once if that is at hand and can be read |
| DownloadPieces.PoolIsGiven | crates/wbf-core/src/download_queue.rs:1228-1250 | A GET for a complete file is given its chunk out of the pool if that can be read |
| DownloadPieces.LastIsGiven | crates/wbf-core/src/download_queue.rs:1477-1506 | When a file is finished and found, every GET still waiting for any of its requests is given its own chunk out of the pool, if that can be read |
| DownloadPieces.InfoSendsOn | crates/wbf-core/src/download_queue.rs:1108-1119 | Once the block is verified, every GET that waited for that has its piece or waits for its own chunk, or something named went wrong for it |
| DownloadPieces.SeekGoesFirst | crates/wbf-core/src/download_queue.rs:966-985 | A GET that is not answered at once waits for its own chunk, or for `Info` as long as that is not verified, and nothing unsent goes before that request |
| DownloadTaken.GetsAreTakenInTurn | crates/wbf-core/src/download_queue.rs:754-774 | Over any run in which the handler is not dropped, GETs are taken in the order in which they came: the channel holds what was in it and was asked since, less as many from the front as were taken |
| DownloadPieces.MainGoesLast | crates/wbf-core/src/download_queue.rs:907-985 | The next request of a main file waits behind all that is queued already, unless a GET had asked for it, and then it stays where that put it |
| DownloadPieces.SeekIsRemembered | crates/wbf-core/src/download_queue.rs:1250-1265 | A GET for a file that is neither downloaded nor complete: the file is remembered, by the first description that came, as used now; the others are as they were |
| DownloadPieces.RefusedIsTriedAgain | crates/wbf-core/src/download_queue.rs:1003-1042 | A refusal that is not final: a timeout or a bad reply is counted and everybody waits on, with the request sent again; after a lost link only the main file does, and nothing is counted |
| DownloadPieces.BadAnswerIsTriedAgain | crates/wbf-core/src/download_queue.rs:1083-1096 | An answer that is bad for the first time is asked for once more, for everybody who waits, and counted |
| DownloadRuns.WaitersConserved | crates/wbf-core/src/download_queue.rs:145-201 | Over all handlers: every waiter given to `enqueue` was told once or waits once, wherever its job was handed over to |
| DownloadRuns.AllAnsweredIff | crates/wbf-core/src/download_queue.rs:466-477 | Once every handler is gone: every waiter ever put in was answered exactly once, if and only if none was put into the queue of a handler that had gone since it was looked up |
| DownloadRuns.WaiterHasJob | crates/wbf-core/src/download_queue.rs:145-201 | Nobody waits at a living handler for a job that is not in its `inbox`, `preparing` or `downloading`, except for a file whose job was put in while the last one was wound up |
| DownloadRuns.NothingSlipsInAtAwait | crates/wbf-core/src/download_queue.rs:798-809 | At every await of the handler there is no job that is past its end and still listed as being prepared |
| DownloadRuns.LostJobExactly | crates/wbf-core/src/download_queue.rs:798-809 | What is put in while a job is wound up leaves no job behind if and only if it is the same file and that job is over |
| DownloadWitness.WaiterIsLeft | crates/wbf-core/src/download_queue.rs:798-809 | A run from a starting process ends with a waiter at a living handler that has no job for it |
| DownloadEnds.DownloadEnds | crates/wbf-core/src/download_queue.rs:988-1042 | In any interleaving, a job that runs throughout gets at most 8 answers per chunk left, plus 7, that are not link failures; so it ends if the link fails finitely often |
| DownloadProgress.RankStep | crates/wbf-core/src/download_queue.rs:1003-1042 | No move raises the measure (chunks left, info needed, resends left) of a running job, and an answer to its main request that is not a link failure lowers it |
| DownloadCancel.CancelNeverLost | crates/wbf-core/src/download_queue.rs:798-809 | In every run a cancel on record of a job at hand stays on record, through preparing, opening and starting, until the job has ended at this handler with all its waiters told; such a job is never handed over |
| DownloadCancel.AcceptedCancelIsKept | crates/wbf-core/src/download_queue.rs:551-590 | A cancel of a job at hand is accepted and, in whatever run follows, on record until the job has ended here with all its waiters told |
| DownloadCancel.WaitingIsTakenOut | crates/wbf-core/src/download_queue.rs:551-590 | A cancelled job that was not taken up yet is gone from the inbox, and no other job is |
| DownloadAway.LateCancelStopsNothing | crates/wbf-core/src/download_queue.rs:551-590 | A job left its preparing without running. Through any run of other events until its entry goes, a cancel is accepted and noted at every moment and touches nothing else, and the entry takes it along. Either the job was handed over and goes on there with all its waiters and no new cancel, or it had ended here with all of them told; with anyone waiting it goes on elsewhere if and only if it was handed over |
| DownloadAway.HandedOverGoesOn | crates/wbf-core/src/download_queue.rs:865-904 | A hand-over puts the job at the other handler with everyone who waited, after those who wait there already |
| DownloadWitness.CancelIsLost | crates/wbf-core/src/download_queue.rs:798-809 | A run from a starting process in which a cancel is accepted, the job runs on at the handler it was handed to, and no cancel is on record anywhere |
| DownloadCancel.CancelIsPrompt | crates/wbf-core/src/download_queue.rs:1311-1353 | One move after the flag is up: the job still runs and its main file is untouched, or it is over with at most one more chunk, nothing of it in the pool |
| DownloadStops.CancelStops | crates/wbf-core/src/download_queue.rs:907-916 | Over whole runs: while a flagged job runs not one chunk lands; when it is over at most one more has landed, on disk or in the open file, and the pool did not change |
| DownloadMoves.EnqueueKeepsInv | crates/wbf-core/src/download_queue.rs:145-201 | Putting a job in at any moment keeps every invariant, adds its waiters to those to be answered, and marks the file if it slipped in while its last job was wound up |
| DownloadSteps.ContinueKeepsInv | crates/wbf-core/src/download_queue.rs:907-960 | Moving a main file on, through any number of chunks taken out of the seek store, restores the one main request or ends the job, and lands only right bytes |
| DownloadReplies.ReplyKeepsInv | crates/wbf-core/src/download_queue.rs:988-1036 | Any reply (acknowledged, refused, timed out, of a request nobody wants any more) with any verdict of the sdk keeps all invariants |
| DownloadJobs.CancelOneKeepsInv | crates/wbf-core/src/download_queue.rs:1311-1353 | Dealing with a raised flag keeps all invariants, also when GETs share the withdrawn request |
| DownloadTable.WantKeepsInv | crates/wbf-core/src/download_queue.rs:966-985 | Wanting a request moves the waiter onto exactly one entry, on the request it asked for, also when a seek brings a queued request forward, and every other invariant stands |
| DownloadTable.DropKeepsInv | crates/wbf-core/src/download_queue.rs:1536-1566 | Dropping a file's requests answers each of its GETs once and leaves nothing of the file in flight |
| DownloadFrame.ReplyShrinks | crates/wbf-core/src/download_queue.rs:988-1036 | A reply opens nothing, claims nothing, and touches disk and pool only under files this handler has open |
| JobQueue.EnqueueBalances | crates/wbf-core/src/download_queue.rs:145-201 | Known job or new one: the waiters put in are added once to those waiting |
| JobQueue.TellBalances | crates/wbf-core/src/download_queue.rs:1570-1577 | Telling the waiters of a file moves each of them from waiting to told, once |
| DownloadDrive.Step | crates/wbf-core/src/download_queue.rs:755-774 | Every move of the state machine, done in place on the handler object, its queue, its line, the claims and the store, leaves the state the machine gives and keeps every invariant |
| DownloadDrive.Drive | crates/wbf-core/src/download_queue.rs:755-774 | The object driven through any sequence of moves ends where the state machine ends, every invariant kept on the way |
| DownloadHandlers.DownloadHandler.FailMedia | crates/wbf-core/src/download_queue.rs:1536-1566 | Requests out of table and queue, GETs told, file deleted or kept, claim given up, job failed: the state the invariants are proved of |
| DownloadHandlers.DownloadHandler.ContinueMain | crates/wbf-core/src/download_queue.rs:907-960 | The loop over stored chunks ends in the state the recursive specification gives, for every disk outcome |
| DownloadHandlers.DownloadHandler.PrepareDownload | crates/wbf-core/src/download_queue.rs:821-861 | Complete already; claimed and being opened; or claimed elsewhere and then handed over exactly if another downloader takes jobs and no cancel is noted |
| DownloadHandlers.DownloadHandler.HandOver | crates/wbf-core/src/download_queue.rs:865-904 | The waiters leave with the job and are exactly what the other queue gains |
| DownloadHandlers.DownloadHandler.AnswerFromPool | crates/wbf-core/src/download_queue.rs:1477-1506 | Every GET still hanging on the finished file gets its own piece or the error, none stays in the table (`DownloadPieces.LastIsGiven`: it is the piece wherever the pool can be read); everyone who waits for the job is told how it ended (`DownloadOutcomes.MoveTells`: "finished" if the row was recorded, the very error otherwise) |
| DownloadHandlers.DownloadHandler.HandleCancellations | crates/wbf-core/src/download_queue.rs:1311-1353 | Every raised flag is dealt with once, in whatever order the table gives them |
| DownloadHandlers.DownloadHandler.CloseIdleWithoutJob | crates/wbf-core/src/download_queue.rs:1706-1736 | Exactly the open files with no job and nothing in flight are closed and kept; seek-only files go, the one not used for longest first, until 16 are left and no further, never one with a request in flight |
| DownloadHandlers.DownloadHandler.CloseEverything | crates/wbf-core/src/download_queue.rs:1772-1820 | Open files kept, claims of `open` and `opening` given up, every waiter and every GET told: the end state `AbortReleasesUnlessRecording` is about |
| SharedQueues.SharedQueue.CancelJob | crates/wbf-core/src/download_queue.rs:551-590 | Flag raised, noted on the job being prepared, or the waiting job taken out and its waiters told; true exactly if there was such a job |
| SharedQueues.SharedQueue.FindStatus | crates/wbf-core/src/download_queue.rs:645-660 | How the job stands, running before being prepared before waiting |
| SharedQueues.MediaClaims.TryClaim | crates/wbf-core/src/download_queue.rs:282-288 | Claimed exactly if nobody else holds the file, and then held by this handler; otherwise nothing changes |
| Files.CutIsSlice | crates/wbf-core/src/download_queue.rs:670-672 | Chunk number `i` is the slice of the file that starts where `chunk_start` says |
| Files.IndexCovers | crates/wbf-core/src/download_queue.rs:681-691 | `chunk_index_at` names the chunk that covers a position, and it exists |
| LineRuns.EveryRequestAccounted | crates/wbf-core/src/link_requests.rs:95-117 | Over every run the requests pushed are, as a multiset, those queued, in hand, on the wire, withdrawn, replied, and those a reused number pushed off the table |
| LineRuns.LosesOnlyByReuse | crates/wbf-core/src/link_requests.rs:180-204 | Over every run of a new line: each copy pushed is in the line, withdrawn or delivered, if and only if no number is ever handed out that the wire table still has |
| LineRuns.ReuseLoses | crates/wbf-core/src/link_requests.rs:180-204 | A concrete run over two links that hand out the same number: of the two requests pushed only the second has a copy left, none was withdrawn or answered |
| LineRuns.SilenceIsSound | crates/wbf-core/src/link_requests.rs:218-240 | A silence timeout comes only after a full window in which something was on the wire throughout and nothing was answered |
| LineRuns.SilenceTakesAll | crates/wbf-core/src/link_requests.rs:218-240 | And then everything on the wire is answered with a timeout, each once; of the reply tasks exactly those go on that have their answer already |
| LineRuns.LateAnswerIsNothing | crates/wbf-core/src/link_requests.rs:189-203 | In any run after a silence timeout, a late reply task tells nobody anything and takes nothing off the table, unless its number was handed out again since |
| LineRuns.TimedOutOnce | crates/wbf-core/src/link_requests.rs:189-203 | In any run after a silence timeout, what is answered was still queued then or was pushed later: nothing that timed out is answered again |
| LineRuns.AtMostOneAnswer | crates/wbf-core/src/link_requests.rs:189-203 | Over every run no request is answered more often than it was pushed |
| LineAnswers.AnswersAreTaken | crates/wbf-core/src/link_requests.rs:189-240 | Over every run: the replies handed out and those still waiting are exactly the requests taken off so far, in that order, each with the result of the very reply task, send error or silence timeout that took it |
| LineAnswers.ClearIff | crates/wbf-core/src/link_requests.rs:180-204 | Over every run: at no moment could a reply task take another request than the one it was started for, if and only if no number is ever handed out for which a task still lives |
| LineAnswers.OwnAnswer | crates/wbf-core/src/link_requests.rs:180-204 | As long as that has not happened, the answer a task gives goes to the request the task was started for, or to nobody |
| LineAnswers.OthersAnswer | crates/wbf-core/src/link_requests.rs:180-204 | A run over two links in which the first request comes back as a timeout and its late answer as the answer to the second |
| Lines.SenderKeepsCopies | crates/wbf-core/src/link_requests.rs:139-215 | Each sender step keeps the number of copies of every request, less what a reused number overwrites |
| RequestLines.RequestLine.Withdraw | crates/wbf-core/src/link_requests.rs:112-117 | Every queued copy goes; true exactly if there was one |
| RequestLines.RequestLine.AnswerArrives | crates/wbf-core/src/link_requests.rs:189-203 | The last reply is the request on the table under the task's number with the link's own result; none if there is none. The number is free afterwards |
| RequestLines.RequestLine.Turn | crates/wbf-core/src/link_requests.rs:139-215 | One turn of the sender: the front request, and no other, is on the table under its number with its reply task, was refused with the very error, or is back in front of the queue; nothing is lost but what a reused number pushes off |
| RequestLines.RequestLine.SendQueued | crates/wbf-core/src/link_requests.rs:139-215 | The sender's loop over any number of turns, with pushes, answers and late reply tasks in between: every request there was or that was pushed is still in the line, or was pushed off the table by a reused number |
| RequestLines.RequestLine.TimeOutIfSilent | crates/wbf-core/src/link_requests.rs:218-240 | Times out all or nothing, exactly after a full silent window with something outstanding |
| RequestLines.Drain | crates/wbf-core/src/link_requests.rs:228-239 | Draining the table in any order gives one timeout for each entry |
| MediaStreams.MediaStream.NextPiece | crates/wbf-core/src/media_stream.rs:94-153 | For every origin: never an empty piece, exactly the bytes at the position when the origin is honest, the position moved by just that much. An error if and only if the downloader gave one, its piece does not cover the position (`Integrity`), a local read failed, or the local file is at its end; and then no bytes |
| MediaStreams.MediaStream.ReadToEnd | crates/wbf-core/src/media_stream.rs:85-154 | A reader that asks until the end gets exactly the range, in finitely many steps. If it breaks it has the prefix up to where it stands, and just there a local read failed, the downloader gave that very error, or its piece does not cover the position |
| MediaStreams.TakeOut | crates/wbf-core/src/media_stream.rs:121-147 | Something is taken exactly if the piece covers the position; it is then the file's bytes, up to the end of the range |
| MediaStreams.ReadAt | crates/wbf-core/src/media_stream.rs:156-176 | Short reads put together are the slice, as far as the file goes |
| MediaStreams.CoversIffSameNumber | crates/wbf-core/src/download_queue.rs:1850-1876 | A chunk asked for by a number worked out from another cut still gives right bytes, and covers the position exactly if both cuts give the same number |
| MediaStreams.TransferTask.PieceArrives | crates/wbf-core/src/matrix_download.rs:405-414 | New bytes are appended, and every read whose position is sealed by then is given the file's bytes from there |
| MediaStreams.AnswersAre | crates/wbf-core/src/matrix_download.rs:480-495 | The pieces given are exactly those of the reads whose position is sealed, each with what the file has there |
| MediaStreams.TransferTask.AnswerReads | crates/wbf-core/src/matrix_download.rs:480-495 | Each read with a sealed position, and no other, is given its own piece; the others wait on in their order. It fails exactly if something sealed cannot be read back, and drops only reads it was about to answer |
| MediaStreams.TransferTask.Finish | crates/wbf-core/src/matrix_download.rs:335-366 | Everyone still waiting or still in the inbox is answered and nobody is left; with the file in the pool each read in it that can be read gets its own piece from there |
| MediaStreams.TransferTask.Run | crates/wbf-core/src/matrix_download.rs:314-475 | Over the whole fetch, ended, cancelled, failing or with the file there already: every read asked for was answered or dropped, once; what is in the pool then is the file, as the pieces that came put it together. A stream that ends whole without a cancel or a failing read puts the file there and serves every read in it |
| ByteSources.ReadUpTo | crates/wbf-core/src/attachment_ops.rs:562-575 | The next `want` bytes, fewer only at the end |
| Uploads.SendSizedBody | crates/wbf-core/src/attachment_ops.rs:307-386 | Ok if and only if the size can be cut, the body is exactly of that size and no call to the server and no read failed, from whatever prefix the server had, and with no more chunks sent than it had not; `Network` and `Io` are told only of a call or a read that failed. Then the server has taken every chunk of the cut in order and the hash covers the whole body, also the chunks the server had. "Truncated" is said only if the server did truncate; without it the server keeps the whole file, unless a late chunk of an earlier request went over its size limit in the meantime. Whatever happens the server has taken a prefix of the cut |
| Uploads.PutAgainAndAgain | crates/wbf-core/src/attachment_ops.rs:307-386 | Any number of requests cut off anywhere, then the whole body again: that put works if and only if nothing failed in it and the size can be cut; the server has then what a single request leaves, and it is the file |
| Uploads.SendStreamedBody | crates/wbf-core/src/attachment_ops.rs:393-453 | A second attempt and an empty stream are refused; a first one on which nothing fails works; what the server took is the cut of the stream, all of it unless it ended the upload early, and the hash covers just that; without "truncated" the server keeps all that was hashed |
| Uploads.ReadChunkOf | crates/wbf-core/src/attachment_ops.rs:325-352 | The next chunk in full or an error, never a short one |
| Uploads.NextChunk | crates/wbf-core/src/attachment_ops.rs:412-449 | Reading one chunk ahead tells exactly whether the one in hand is the last |
| KeyShare.ReadyIsDistributed | crates/wbf-core/src/key_share.rs:514-540 | A room is recorded ready for a version only right after a distribution for that version, to the members last asked for, ended ready; and that version is the last one asked for |
| KeyShare.DiscardBeforeReady | crates/wbf-core/src/key_share.rs:514-540 | A discard asked for runs before the room is next recorded ready |
| KeyShare.NoSecondDiscard | crates/wbf-core/src/key_share.rs:514-540 | Between two discards of a room another one was asked for: retries do not discard again |
| KeyShare.AskedStaysWanted | crates/wbf-core/src/key_share.rs:544-556 | A room asked for stays pending until it is recorded ready, through every merge |
| KeyShare.KeyShareTask.MergeWant | crates/wbf-core/src/key_share.rs:544-556 | The newest want replaces the older, but a pending discard stays |
| KeyShare.KeyShareTask.TakeWork | crates/wbf-core/src/key_share.rs:559-573 | One message taken over and nothing pending dropped |
| KeyShare.KeyShareTask.CheckAfterSend | crates/wbf-core/src/key_share.rs:484-507 | By the state read: a key due for rotation is asked for with a discard, one not ready without, a good one or an unknown state not at all; nothing else is asked for |
| KeyShare.KeyShareTask.CheckAll | crates/wbf-core/src/key_share.rs:384-507 | After the messages: what is asked for is exactly what `CheckAfterSend` asks for each room that was sent in, and each is looked at once |
| KeyShare.KeyShareTask.PrepareRoom | crates/wbf-core/src/key_share.rs:514-540 | Done if and only if the discard (where asked for), the query, the sending and the state read all work and the key is ready: then the room is recorded ready for its version and gone. Otherwise it stays pending, less a discard already done |
| KeyShare.KeyShareTask.PrepareAll | crates/wbf-core/src/key_share.rs:384-481 | Every pending room is tried; recorded ready and gone exactly if everything works for it; failed exactly if a room is left |
| KeyShare.KeyShareTask.Round | crates/wbf-core/src/key_share.rs:384-481 | All that came in is taken over, every room sent in is asked for as its state says, and with the line open everything wanted is tried: recorded ready if all of it works, still pending otherwise. The worker waits with work pending and no retry armed only if the line is not open; the pause doubles up to its bound and starts over after success |
| KeyShare.KeyShareTask.Run | crates/wbf-core/src/key_share.rs:384-481 | Over any sequence of rounds every room that came in was asked for, and the log stays well run, so the four statements about logs hold of the worker's whole life |
| KeySync.KeySyncTask.AnyRun | crates/wbf-core/src/key_sync.rs:310-386 | No key is lost: whatever arrives, breaks, overflows, fails, ends or reopens, every item ever queued is still on the server or in the store; and while the subscription runs each queued one is in a push to come, covered by a gap, or will be pulled |
| KeySync.KeySyncTask.ImportItems | crates/wbf-core/src/key_sync.rs:393-429 | An item leaves the server's queue only if it is in the store, also when the destroy or its answer is lost; imported if and only if nothing failed, and then every item is stored |
| KeySync.KeySyncTask.Pull | crates/wbf-core/src/key_sync.rs:493-522 | Done if and only if no call failed; then everything queued at its start is stored and everything queued now is announced |
| KeySync.KeySyncTask.Round | crates/wbf-core/src/key_sync.rs:310-386 | `needs_pull` is cleared only by a pull that stored all that was queued before, and stays set only if something failed; the subscription ends with its message and nothing else; a push that came is stored if nothing failed |
| KeySync.KeySyncTask.HandleMessage | crates/wbf-core/src/key_sync.rs:327-359 | A push is imported, or something failed; the queue is to be pulled exactly if it was already, the message is a gap or a bad one, or something failed |
| KeySync.KeySyncTask.TakeGap | crates/wbf-core/src/key_sync.rs:318-322 | A pull is due afterwards exactly if it was or the local inbox overflowed |
| KeySync.KeySyncTask.Reopens | crates/wbf-core/src/key_sync.rs:145-157 | A reopened subscription runs exactly if nothing failed, and then everything queued was pulled from the head |
| InviteRuns.Converges | crates/wbf-core/src/invites.rs:114-250 | With all pushes written, in every interleaving with overlapping rounds: a pushed room has exactly the server's membership; any other is locally invited exactly if the server says so, once a snapshot was written |
| InviteRuns.NewerPushStands | crates/wbf-core/src/invites.rs:188-250 | Writing a snapshot changes no room whose push is newer than the snapshot and ends no invite touched during the round |
| InviteRuns.TouchedWhileOpen | crates/wbf-core/src/invites.rs:43-105 | Touched rooms are kept exactly while some round is open, and the callers are counted right |
| InviteRuns.StepKeeps | crates/wbf-core/src/invites.rs:114-176 | Every event, in any state the invariant allows, keeps it |
| InviteDrive.DoAll | crates/wbf-core/src/invites.rs:43-250 | The account's open rounds and local table, kept in place through any run of pushes, rounds and snapshots, end where the state machine ends; the rounds of other accounts are as they were |
| InviteDrive.InviteKeeper.RecordRound | crates/wbf-core/src/invites.rs:217-225 | Reading what pushes touched and writing the snapshot in one go makes just the local table of the state machine |
| Invites.InviteRounds.MarkTouched | crates/wbf-core/src/invites.rs:64-73 | While a round is open the room's newest push position is kept, never an older one |
| Invites.ApplyInviteRound | crates/wbf-sdk/src/cache.rs:736-800 | Room by room: an item newer than any push that touched the room is an invite; one not newer is skipped; an invite neither in the round nor touched is over, joined or banned if the departed memberships say so and left otherwise; every other room is as it was |
| LinkPool.EventsAlternate | crates/wbf-core/src/link_pool.rs:131-168 | Over every run `Opened` and `Closed` of a slot strictly alternate and the last one says whether there is a line |
| LinkPool.LineGoesUnused | crates/wbf-core/src/link_pool.rs:264-275 | A line is dropped only when no command has a client of it; and every client is of the line the slot has |
| LinkPool.OpenedOnce | crates/wbf-core/src/link_pool.rs:131-168 | Any number of commands arriving together open once, if opening works and the line lives; not at all if a line is there |
| LinkPool.LookGivesIff | crates/wbf-core/src/link_pool.rs:131-187 | In any run: a command that looks (first, again, after opening, or for a line only to reuse) has a client afterwards if and only if a living line is there at that moment, and it is of that line |
| LinkPool.CalmIsServed | crates/wbf-core/src/link_pool.rs:131-168 | As long as opening works, lines live and nobody closes or walks away: a command that began `acquire` and has come to the end of it has a client of the living line that is there |
| LinkPool.NoDeadlock | crates/wbf-core/src/link_pool.rs:131-168 | In any run, as long as some command is inside `acquire`, some command can go on |
| LinkPool.EightStepsAtMost | crates/wbf-core/src/link_pool.rs:131-275 | In any run no command takes more than eight steps; with `NoDeadlock`, each comes to the end of `acquire` |
| LinkPool.StepKeepsInv | crates/wbf-core/src/link_pool.rs:131-275 | Locks are held by exactly the commands standing where they say, after every step, also when a command is dropped at any await |
| PoolSlots.PoolSlot.DoAll | crates/wbf-core/src/link_pool.rs:131-275 | The slot object taken through any run of any commands is where the state machine is, with all that always holds; a look gives a client exactly if a living line is there (`LinkPool.LookGivesIff`) |
| LinkRegistry.EverySlotIsRight | crates/wbf-core/src/link_pool.rs:112-168 | However commands, `close` and `close_all` interleave: in every slot there ever was, registered or taken out, `Opened` and `Closed` alternate, whoever uses a line uses the one that is there, and the line goes only when no command uses it |
| LinkRegistry.OneSlotPerRole | crates/wbf-core/src/link_pool.rs:110-118 | Over any run a role had at most one slot, and one more for each time `close_all` emptied the registry: all commands of a role share it |
| LinkRegistry.CloseAllClosesAll | crates/wbf-core/src/link_pool.rs:238-257 | `close_all`, once it has come to every slot and waits for none, has closed the line of each slot registered when it began, whatever commands did meanwhile, unless it was dropped itself |
| LinkRegistry.ClosedUnused | crates/wbf-core/src/link_pool.rs:238-275 | At the moment a slot is closed nobody has a client of its line, and exactly one `Closed` follows if there was one |
| Conf.LineComesBackIff | crates/wbf-core/src/conf.rs:91-179 | For Unicode text: a printed line gives its value back if and only if the value's quotes pair up and no `#` or `;` right after a byte that reads as white space stands outside quotes; the origin comment does not matter |
| ConfFiles.FileComesBackIff | crates/wbf-core/src/conf.rs:302-344 | The written file always parses, and each entry's value comes back under the same condition, whatever the other entries and groups |
| Conf.PlainComesBack | crates/wbf-core/src/conf.rs:351-365 | Every value without a quote whose signs follow nothing that reads as white space but plain spaces comes back |
| Conf.UnquotedComesBackIff | crates/wbf-core/src/conf.rs:351-365 | A value without a quote comes back if and only if it is put in quotes or no sign in it follows a byte that reads as white space |
| Conf.AccentIsCut | crates/wbf-core/src/conf.rs:152-168 | The value `à#b` does not come back: its first letter ends in a byte that reads as white space |
| Conf.QuotedComesBack | crates/wbf-core/src/conf.rs:351-365 | Every value in quotes of its own, none inside and no sign right after a space, comes back |
| Conf.LoneQuoteIsLost | crates/wbf-core/src/conf.rs:351-365 | A value with a single quote anywhere never comes back |
| Conf.NoCutIff | crates/wbf-core/src/conf.rs:152-168 | The quote-tracking scan cuts nothing exactly if every sign after a byte that reads as white space is inside quotes |
| Conf.StripCommentOf | crates/wbf-core/src/conf.rs:152-168 | The loop over the UTF-8 bytes keeps exactly the bytes of the characters before the comment |
| Conf.BytesCutAlike | crates/wbf-core/src/conf.rs:152-168 | Searching the UTF-8 bytes and searching the characters, each remembered by its last byte, stop at the same place |
| ConfFiles.Parse | crates/wbf-core/src/conf.rs:91-145 | Every line in turn, later values win, a senseless line is an error |
| ConfFiles.ParseSays | crates/wbf-core/src/conf.rs:91-145 | Any text is refused if and only if one of its lines makes no sense; otherwise each key has the value of the last line that sets it, and there is no other key |
| ConfFiles.MeaningIs | crates/wbf-core/src/conf.rs:91-145 | A line makes no sense if and only if it opens a group and does not close it, or is no group, not empty, and has no `=` or nothing before it; it never sets a key that is refused, or an empty value |
| ConfFiles.SecretsAreNotRead | crates/wbf-core/src/conf.rs:130-136 | No text gives a refused key a value, or any key an empty one |
| ConfFiles.WriteText | crates/wbf-core/src/conf.rs:302-344 | Group after group in first-seen order, each entry once, one line each |
| ConfFiles.ConfFile.WriteIfAbsent | crates/wbf-core/src/conf.rs:302-344 | A file that is there is never touched; true exactly if it was not |

## Left out

- DownloadEnds.DownloadEnds: it bounds the answers a running job can get; that answers come at all is up to the link and the server.
- DownloadCancel.CancelIsPrompt: GETs on a shared request keep that request going after the job ended, as in the code; only the job's own file is bounded.
- DownloadSystem: a job may be put into the queue of any handler, since who was looked up may have gone on since; that is more than the code allows, never less.
- DownloadRuns.PiecesAreRight: the chunk size a GET's number was worked out with is recorded with it; that it was the one of the description at hand is in the step functions only.
- DownloadTaken.JobIsTakenUp: it counts the handler's turns; that it takes them at all is up to the runtime. The model lets GETs and replies come in between two jobs, which the code does only once the inbox is empty.
- DownloadHandlers: who listens for progress and under which name a file is shown is left out.
- KeySync.KeySyncTask.AnyRun: decryption, one-time-key top-up and what follows an import are left out; the server is taken to report gaps honestly.
- InviteRuns.Converges: pushes that are lost or whose write fails, and where departed rooms went, are left out; `Invites.ApplyInviteRound` has the departed memberships.
- LinkPool.EventsAlternate: of each slot; that a role has one line at a time is not claimed, since a slot that was taken out may still have its line, or get one from a command that looked it up before, while a new slot of the role opens. Lock fairness, and the line that goes without an event when the last holder of a slot that was taken out lets go of it, are left out.
- LinkPool.EightStepsAtMost: with `NoDeadlock` each command comes to its end if the locks are given out to whoever can go on; their fairness is the runtime's.
- Conf.LineComesBackIff: values of one line; warnings and the words of the header comment are left out.
- Uploads.SendSizedBody: that a late chunk over the size limit goes unreported is allowed by the server's free choices, not shown by a run; sealing of chunks is left out, the server's bytes are counted in plain text.
- KeyShare.KeyShareTask.Round: waiting for a key with a deadline (`is_room_key_ready_within`) and the background key backup are left out.
- The sdk's own insides: encryption, the cache database, the pool's file format, `WsLink`. A file being written is its chunks in order and a store of chunks out of order.
- Progress pushes, `tick`, events to the user interface, fsync: they do not feed back into any state modelled here.
- HTTP, WebSocket, file locks, the command line, error code tables, `backend_choice`, `link_keeper`, `job`, `handles`, `read_ops`, `media_ops`: plumbing or single-lock tables that would only add easy members.
- `server_host_of`: idempotence is false as written and nothing here depends on it.
