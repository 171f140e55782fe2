/** What the waiters of a job are told. `EndingOf` says it of every move, from what arrived and what was found alone; the steps do
    just that, and over whole runs nobody is told anything else. */
module DownloadOutcomes {
  import opened Files
  import opened Wrappers
  import opened Lines
  import opened JobQueue
  import opened Download
  import opened DownloadInv
  import DownloadTable
  import opened DownloadSteps
  import DownloadJobs
  import opened DownloadMoves
  import opened DownloadSystem

  /** A job that ends: its file, and what everyone waiting for it is told. */
  datatype Ending = Ending(mxc: Mxc, outcome: Outcome)

  /** The queue of a job that ends so: its waiters were told and are gone, and so is the job. Nothing was said of any other job, and
      those that ran run on. */
  ghost predicate Tells(q: QueueState, q2: QueueState, ending: Option<Ending>) {
    match ending
    case None => q2.waiters == q.waiters && q2.outcomes == q.outcomes && q.downloading.Keys <= q2.downloading.Keys
    case Some(Ending(mxc, outcome)) =>
      && q2.waiters == q.waiters - {mxc} && mxc !in q2.downloading && q.downloading.Keys - {mxc} <= q2.downloading.Keys
      && q2.outcomes == q.outcomes + set w | w in WaitersOf(q, mxc) :: Told(w, mxc, outcome)
  }

  // ---- what is final ----

  /** The third timeout, the second bad reply, or any other refusal but a lost link. */
  predicate IsFinal(error: Error, retries: Retries) {
    match error
    case Network => false
    case Timeout => retries.timeouts >= 2
    case Protocol => retries.badReplies >= 1
    case Corrupt => retries.badReplies >= 1
    case _ => true
  }

  /** What did not verify is asked for again once, if it was the answer that was bad. */
  predicate IsBroken(r: Request, error: Error, retries: Retries) {
    retries.badReplies >= 1 || match error
                               case Protocol => false
                               case Corrupt => r.Chunk?
                               case Integrity => r.Info?
                               case _ => true
  }

  /** Every chunk from the next one to chunk `k` is in the seek store and can be read there. */
  predicate StoredUpTo(m: MediaDownload, disk: DiskResults, k: nat) {
    forall i :: Next(m) <= i <= k ==> i in m.store && i !in disk.undecodable
  }

  /** A chunk the main file comes to cannot be written to it. */
  predicate Sticks(m: MediaDownload, disk: DiskResults) {
    !m.needsInfo && exists k :: k in disk.unmovable && Next(m) <= k < Total(m) && StoredUpTo(m, disk, k)
  }

  /** The file when its reply has landed. */
  function Landed(m: MediaDownload, r: Request, v: Verdict): MediaDownload {
    if r.Info? then m.(needsInfo := false) else m.(main := m.main + [v.plain], store := m.store - {Next(m)})
  }

  // ---- how each move ends a job ----

  /** How moving the main file on ends its job, if it does. */
  function MovedOn(q: QueueState, mxc: Mxc, m: MediaDownload, disk: DiskResults): Option<Ending> {
    if mxc !in q.downloading then None
    else if q.downloading[mxc].cancelled then Some(Ending(mxc, Failed(Usage)))
    else if Sticks(m, disk) then Some(Ending(mxc, Failed(disk.fault)))
    else None
  }

  /** What an acknowledgement ends. */
  ghost function AckEnding(q: QueueState, r: Request, entry: InFlight, m: MediaDownload, v: Verdict): Option<Ending> {
    if v.refused.Some? then
      if IsBroken(r, v.refused.value, entry.retries) then Some(Ending(r.mxc, Failed(v.refused.value))) else None
    else if !(Main in entry.waiters) then None
    else if r.Chunk? && v.unwritten.Some? then Some(Ending(r.mxc, Failed(v.unwritten.value)))
    else MovedOn(q, r.mxc, Landed(m, r, v), v.disk)
  }

  ghost function ReplyEnding(s: State, v: Verdict): Option<Ending>
    requires s.h.line.replies != []
  {
    var reply := s.h.line.replies[0];
    var r := reply.action;
    if r !in s.h.inFlight || r.mxc !in s.h.q.downloading || r.mxc !in s.h.open then None
    else
      var entry := s.h.inFlight[r];
      match reply.result
      case Refused(error) =>
        if IsFinal(error, entry.retries) && (Main in entry.waiters || error.NotFound? || error.Forbidden?)
        then Some(Ending(r.mxc, Failed(error))) else None
      case Ack => AckEnding(s.h.q, r, entry, s.h.open[r.mxc], v)
  }

  ghost function EndingOf(w: World, s: State, move: Move): Option<Ending>
    requires Inv(w, s, None, multiset{}) && May(w, s, move)
  {
    match move
    case TakeReplyMove(v, _) => ReplyEnding(s, v)
    case CancelOneMove(mxc, main) =>
      if main.Some? && main.value !in s.h.line.queued then None else Some(Ending(mxc, Failed(Usage)))
    case LookedMove(found) =>
      var mxc := s.h.task.manifest.mxc;
      if found then Some(Ending(mxc, Finished))
      else if !ClaimedElsewhere(s) then None
      else Some(Ending(mxc, Failed(if CancelledWhilePreparing(s.h.q, mxc) then Usage else AccountBusy)))
    case OpenedMove(media) => if media.Err? then Some(Ending(s.h.task.manifest.mxc, Failed(media.error))) else None
    case CancelCheckMove =>
      var mxc := s.h.task.manifest.mxc;
      if CancelledWhilePreparing(s.h.q, mxc) then Some(Ending(mxc, Failed(Usage))) else None
    case StartJobMove(disk) =>
      var mxc := s.h.task.manifest.mxc;
      if Sticks(s.h.open[mxc], disk) then Some(Ending(mxc, Failed(disk.fault))) else None
    case AnsweredMove(_, _) =>
      Some(Ending(s.h.finishing.mxc, if s.h.finishing.end.Broken? then Failed(s.h.finishing.end.error) else Finished))
    case CancelMove(mxc) =>
      if mxc !in s.h.q.downloading && mxc !in s.h.q.preparing && InInbox(s.h.q.inbox, mxc)
      then Some(Ending(mxc, Failed(Usage))) else None
    case _ => None
  }

  // ---- each step does just that ----

  lemma {:induction false} EndTells(s: State, mxc: Mxc, error: Error)
    ensures Tells(s.h.q, EndJob(s, mxc, Complete).h.q, Some(Ending(mxc, Finished)))
    ensures Tells(s.h.q, EndJob(s, mxc, Cancelled).h.q, Some(Ending(mxc, Failed(Usage))))
    ensures Tells(s.h.q, EndJob(s, mxc, Broken(error)).h.q, Some(Ending(mxc, Failed(error))))
  {
    LeaveTells(s.h.q, mxc, error);
  }

  lemma {:induction false} LeaveTells(q: QueueState, mxc: Mxc, error: Error)
    ensures Tells(q, LeaveQueue(q, mxc, Complete), Some(Ending(mxc, Finished)))
    ensures Tells(q, LeaveQueue(q, mxc, Cancelled), Some(Ending(mxc, Failed(Usage))))
    ensures Tells(q, LeaveQueue(q, mxc, Broken(error)), Some(Ending(mxc, Failed(error))))
  {
  }

  lemma {:induction false} FailTells(s: State, mxc: Mxc, error: Error, discard: bool)
    ensures Tells(s.h.q, FailMedia(s, mxc, error, discard).h.q,
                  if mxc in s.h.q.downloading then Some(Ending(mxc, Failed(error))) else None)
  {
    var dropped := s.(h := DropRequests(s.h, mxc));
    var closed := if mxc !in s.h.open then dropped
                  else if discard then CloseDiscarding(dropped, mxc) else CloseKeeping(dropped, mxc);
    assert closed.h.q == s.h.q;
    EndTells(closed, mxc, error);
  }

  lemma {:induction false} StoredFurther(m: MediaDownload, disk: DiskResults, k: nat)
    requires InStore(m, disk) && Next(m) < k
    ensures StoredUpTo(Land(m, m.store[Next(m)]), disk, k) <==> StoredUpTo(m, disk, k)
  {
    var m2 := Land(m, m.store[Next(m)]);
    forall i | Next(m) < i <= k ensures i in m2.store <==> i in m.store {
    }
  }

  lemma {:induction false} SticksFurther(m: MediaDownload, disk: DiskResults)
    requires !m.needsInfo && InStore(m, disk) && Next(m) < Total(m) && Next(m) !in disk.unmovable
    ensures Sticks(Land(m, m.store[Next(m)]), disk) <==> Sticks(m, disk)
  {
    var m2 := Land(m, m.store[Next(m)]);
    assert Next(m2) == Next(m) + 1 && Total(m2) == Total(m);
    forall k | Next(m2) <= k < Total(m) ensures StoredUpTo(m2, disk, k) <==> StoredUpTo(m, disk, k) {
      StoredFurther(m, disk, k);
    }
  }

  lemma {:induction false} SticksHere(m: MediaDownload, disk: DiskResults)
    requires Next(m) < Total(m)
    ensures !m.needsInfo && InStore(m, disk) && Next(m) in disk.unmovable ==> Sticks(m, disk)
    ensures m.needsInfo || !InStore(m, disk) ==> !Sticks(m, disk)
  {
    assert InStore(m, disk) ==> StoredUpTo(m, disk, Next(m));
  }

  lemma {:induction false} ContinueTells(s: State, mxc: Mxc, disk: DiskResults)
    requires mxc in s.h.open
    ensures Tells(s.h.q, ContinueMain(s, mxc, disk).h.q, MovedOn(s.h.q, mxc, s.h.open[mxc], disk))
    decreases Total(s.h.open[mxc]) - Next(s.h.open[mxc])
  {
    var m := s.h.open[mxc];
    if mxc in s.h.q.downloading {
      if s.h.q.downloading[mxc].cancelled {
        EndTells(s, mxc, Usage);
      } else if !IsWritten(m) {
        ContinueOpenTells(s, mxc, disk);
      }
    }
  }

  lemma {:induction false} ContinueOpenTells(s: State, mxc: Mxc, disk: DiskResults)
    requires mxc in s.h.open && mxc in s.h.q.downloading && !s.h.q.downloading[mxc].cancelled && !IsWritten(s.h.open[mxc])
    ensures Tells(s.h.q, ContinueMain(s, mxc, disk).h.q, MovedOn(s.h.q, mxc, s.h.open[mxc], disk))
    decreases Total(s.h.open[mxc]) - Next(s.h.open[mxc]), 0
  {
    var m := s.h.open[mxc];
    SticksHere(m, disk);
    if !m.needsInfo && InStore(m, disk) && Next(m) in disk.unmovable {
      FailTells(s, mxc, disk.fault, true);
    } else if !m.needsInfo && InStore(m, disk) {
      var landed := s.(h := LandFromStore(s.h, mxc));
      assert ContinueMain(s, mxc, disk) == ContinueMain(landed, mxc, disk);
      SticksFurther(m, disk);
      ContinueTells(landed, mxc, disk);
    }
  }

  // ---- a reply ----

  lemma {:induction false} FailedTells(s: State, r: Request, entry: InFlight, error: Error)
    requires Bounded(r, entry) && r.mxc in s.h.q.downloading
    ensures Tells(s.h.q, RequestFailed(s, r, entry, error).h.q,
                  if IsFinal(error, entry.retries) && (Main in entry.waiters || error.NotFound? || error.Forbidden?)
                  then Some(Ending(r.mxc, Failed(error))) else None)
  {
    if IsFinal(error, entry.retries) {
      assert RequestFailed(s, r, entry, error) == GiveUp(s, r, entry, error);
      GiveUpTells(s, r, entry, error);
    } else {
      TriesAgain(s, r, entry, error);
    }
  }

  lemma {:induction false} TriesAgain(s: State, r: Request, entry: InFlight, error: Error)
    requires Bounded(r, entry) && !IsFinal(error, entry.retries)
    ensures RequestFailed(s, r, entry, error).h.q == s.h.q
  {
  }

  lemma {:induction false} GiveUpTells(s: State, r: Request, entry: InFlight, error: Error)
    requires r.mxc in s.h.q.downloading
    ensures Tells(s.h.q, GiveUp(s, r, entry, error).h.q,
                  if Main in entry.waiters || error.NotFound? || error.Forbidden? then Some(Ending(r.mxc, Failed(error))) else None)
  {
    var told := s.(h := AnswerSeeks(s.h, entry.waiters));
    FailTells(told, r.mxc, error, IsPermanentRefusal(error));
  }

  lemma {:induction false} UnverifiedTells(s: State, mxc: Mxc, entry: InFlight, error: Error)
    requires mxc in s.h.open && mxc in s.h.q.downloading
    ensures Tells(s.h.q, Unverified(s, mxc, entry, error).h.q, Some(Ending(mxc, Failed(error))))
  {
    FailTells(s.(h := AnswerSeeks(s.h, entry.waiters)), mxc, error, true);
  }

  lemma {:induction false} InfoTells(s: State, mxc: Mxc, entry: InFlight, v: Verdict, local: LocalReads)
    requires Bounded(Info(mxc), entry) && mxc in s.h.open && mxc in s.h.q.downloading
    ensures Tells(s.h.q, InfoArrived(s, mxc, entry, v, local).h.q,
                  AckEnding(s.h.q, Info(mxc), entry, s.h.open[mxc], v))
  {
    if v.refused.Some? {
      if IsBroken(Info(mxc), v.refused.value, entry.retries) { UnverifiedTells(s, mxc, entry, v.refused.value); }
    } else {
      var accepted := AcceptInfo(s.h, mxc);
      var asked := s.(h := RequestSeekChunks(accepted, mxc, entry.waiters, local));
      SeekChunksSame(accepted, mxc, entry.waiters, local);
      if Main in entry.waiters { ContinueTells(asked, mxc, v.disk); }
    }
  }

  lemma {:induction false} SeekChunksSame(h: Handler, mxc: Mxc, waiters: seq<Waiting>, local: LocalReads)
    ensures SameJobs(h, RequestSeekChunks(h, mxc, waiters, local))
    decreases |waiters|
  {
    if waiters != [] {
      var first := if waiters[0].Seek? then RequestSeekChunk(h, mxc, waiters[0], local) else h;
      if waiters[0].Seek? { SeekChunkFrame(h, mxc, waiters[0], local); }
      SeekChunksSame(first, mxc, waiters[1..], local);
    }
  }

  lemma {:induction false} ChunkTells(s: State, mxc: Mxc, index: nat, entry: InFlight, v: Verdict)
    requires Bounded(Chunk(mxc, index), entry) && mxc in s.h.open && mxc in s.h.q.downloading
    requires Main in entry.waiters ==> index == Next(s.h.open[mxc])
    ensures Tells(s.h.q, ChunkArrived(s, mxc, index, entry, v).h.q,
                  AckEnding(s.h.q, Chunk(mxc, index), entry, s.h.open[mxc], v))
  {
    if v.refused.Some? {
      RefusedChunkTells(s, mxc, index, entry, v);
    } else if Main in entry.waiters {
      MainChunkTells(s, mxc, index, entry, v);
    } else {
      SeekChunkTells(s, mxc, index, entry, v);
    }
  }

  lemma {:induction false} RefusedChunkTells(s: State, mxc: Mxc, index: nat, entry: InFlight, v: Verdict)
    requires Bounded(Chunk(mxc, index), entry) && mxc in s.h.open && mxc in s.h.q.downloading && v.refused.Some?
    ensures Tells(s.h.q, ChunkArrived(s, mxc, index, entry, v).h.q,
                  if IsBroken(Chunk(mxc, index), v.refused.value, entry.retries)
                  then Some(Ending(mxc, Failed(v.refused.value))) else None)
  {
    if IsBroken(Chunk(mxc, index), v.refused.value, entry.retries) {
      assert ChunkArrived(s, mxc, index, entry, v) == Unverified(s, mxc, entry, v.refused.value);
      UnverifiedTells(s, mxc, entry, v.refused.value);
    }
  }

  /** With only GETs waiting for it a chunk ends nothing. */
  lemma {:induction false} SeekChunkTells(s: State, mxc: Mxc, index: nat, entry: InFlight, v: Verdict)
    requires mxc in s.h.open && v.refused.None? && !HasMain(entry.waiters)
    ensures ChunkArrived(s, mxc, index, entry, v).h.q == s.h.q
  {
  }

  lemma {:induction false} MainChunkTells(s: State, mxc: Mxc, index: nat, entry: InFlight, v: Verdict)
    requires mxc in s.h.open && mxc in s.h.q.downloading && v.refused.None?
    requires Main in entry.waiters && index == Next(s.h.open[mxc])
    ensures Tells(s.h.q, ChunkArrived(s, mxc, index, entry, v).h.q,
                  if v.unwritten.Some? then Some(Ending(mxc, Failed(v.unwritten.value)))
                  else MovedOn(s.h.q, mxc, Landed(s.h.open[mxc], Chunk(mxc, index), v), v.disk))
  {
    var m := s.h.open[mxc];
    var given := s.(h := GivePiece(s.h, entry.waiters, mxc, ChunkStart(index, m.manifest.chunkSize), v.plain));
    if v.unwritten.Some? {
      assert ChunkArrived(s, mxc, index, entry, v) == FailMedia(given, mxc, v.unwritten.value, false);
      FailTells(given, mxc, v.unwritten.value, false);
    } else {
      var landed := given.(h := LandArrived(given.h, mxc, v.plain));
      assert ChunkArrived(s, mxc, index, entry, v) == ContinueMain(landed, mxc, v.disk);
      assert landed.h.open[mxc] == Landed(m, Chunk(mxc, index), v);
      ContinueTells(landed, mxc, v.disk);
    }
  }

  lemma {:induction false} AckTells(s: State, r: Request, entry: InFlight, v: Verdict, local: LocalReads)
    requires Bounded(r, entry) && r.mxc in s.h.open && r.mxc in s.h.q.downloading
    requires r.Chunk? && Main in entry.waiters ==> r.index == Next(s.h.open[r.mxc])
    ensures Tells(s.h.q, (if r.Info? then InfoArrived(s, r.mxc, entry, v, local) else ChunkArrived(s, r.mxc, r.index, entry, v)).h.q,
                  AckEnding(s.h.q, r, entry, s.h.open[r.mxc], v))
  {
    if r.Info? { InfoTells(s, r.mxc, entry, v, local); } else { ChunkTells(s, r.mxc, r.index, entry, v); }
  }

  /** A reply of a file without a job ends none. */
  lemma {:induction false} JoblessTells(s: State, v: Verdict, local: LocalReads)
    requires s.h.line.replies != [] && s.h.line.replies[0].action.mxc !in s.h.q.downloading
    ensures HandleReply(s, v, local).h.q == s.h.q
  {
    var reply := s.h.line.replies[0];
    var r := reply.action;
    if r in s.h.inFlight {
      var entry := s.h.inFlight[r];
      var taken := s.(h := s.h.(line := TakeReply(s.h.line), inFlight := s.h.inFlight - {r}));
      if reply.result.Ack? && r.Info? {
        assert HandleReply(s, v, local) == InfoArrived(taken, r.mxc, entry, v, local);
        JoblessInfo(taken, r.mxc, entry, v, local);
      } else if reply.result.Ack? {
        assert HandleReply(s, v, local) == ChunkArrived(taken, r.mxc, r.index, entry, v);
        JoblessChunk(taken, r.mxc, r.index, entry, v);
      } else {
        assert HandleReply(s, v, local) == RequestFailed(taken, r, entry, reply.result.error);
        JoblessFailed(taken, r, entry, reply.result.error);
      }
    }
  }

  lemma {:induction false} JoblessFail(s: State, mxc: Mxc, error: Error, discard: bool)
    requires mxc !in s.h.q.downloading
    ensures FailMedia(s, mxc, error, discard).h.q == s.h.q
  {
  }

  lemma {:induction false} JoblessFailed(s: State, r: Request, entry: InFlight, error: Error)
    requires r.mxc !in s.h.q.downloading
    ensures RequestFailed(s, r, entry, error).h.q == s.h.q
  {
    JoblessGiveUp(s, r, entry, error);
  }

  lemma {:induction false} JoblessGiveUp(s: State, r: Request, entry: InFlight, error: Error)
    requires r.mxc !in s.h.q.downloading
    ensures GiveUp(s, r, entry, error).h.q == s.h.q
  {
    JoblessFail(s.(h := AnswerSeeks(s.h, entry.waiters)), r.mxc, error, IsPermanentRefusal(error));
  }

  lemma {:induction false} JoblessUnverified(s: State, mxc: Mxc, entry: InFlight, error: Error)
    requires mxc !in s.h.q.downloading
    ensures Unverified(s, mxc, entry, error).h.q == s.h.q
  {
    JoblessFail(s.(h := AnswerSeeks(s.h, entry.waiters)), mxc, error, true);
  }

  lemma {:induction false} JoblessInfo(s: State, mxc: Mxc, entry: InFlight, v: Verdict, local: LocalReads)
    requires mxc !in s.h.q.downloading
    ensures InfoArrived(s, mxc, entry, v, local).h.q == s.h.q
  {
    if v.refused.Some? {
      JoblessUnverified(s, mxc, entry, v.refused.value);
    } else {
      SeekChunksSame(AcceptInfo(s.h, mxc), mxc, entry.waiters, local);
    }
  }

  lemma {:induction false} JoblessChunk(s: State, mxc: Mxc, index: nat, entry: InFlight, v: Verdict)
    requires mxc !in s.h.q.downloading
    ensures ChunkArrived(s, mxc, index, entry, v).h.q == s.h.q
  {
    if v.refused.Some? {
      JoblessUnverified(s, mxc, entry, v.refused.value);
    } else if mxc in s.h.open {
      var start := ChunkStart(index, s.h.open[mxc].manifest.chunkSize);
      var given := s.(h := GivePiece(s.h, entry.waiters, mxc, start, v.plain));
      if v.unwritten.Some? { JoblessFail(given, mxc, v.unwritten.value, false); }
    }
  }

  lemma {:induction false} ReplyTells(w: World, s: State, v: Verdict, local: LocalReads)
    requires Inv(w, s, None, multiset{}) && AtEvent(s.h) && s.h.line.replies != []
    ensures Tells(s.h.q, HandleReply(s, v, local).h.q, ReplyEnding(s, v))
  {
    var reply := s.h.line.replies[0];
    var r := reply.action;
    if r.mxc !in s.h.q.downloading {
      JoblessTells(s, v, local);
    } else if r in s.h.inFlight {
      var entry := s.h.inFlight[r];
      var taken := s.(h := s.h.(line := TakeReply(s.h.line), inFlight := s.h.inFlight - {r}));
      DownloadTable.MainIsCounted(entry.waiters);
      match reply.result
      case Ack =>
        assert HandleReply(s, v, local)
            == if r.Info? then InfoArrived(taken, r.mxc, entry, v, local) else ChunkArrived(taken, r.mxc, r.index, entry, v);
        AckTells(taken, r, entry, v, local);
      case Refused(error) =>
        assert HandleReply(s, v, local) == RequestFailed(taken, r, entry, error);
        FailedTells(taken, r, entry, error);
    } else {
      assert HandleReply(s, v, local).h.q == s.h.q;
    }
  }

  // ---- any move ----

  lemma {:induction false} CancelOneTells(s: State, mxc: Mxc, found: Option<Request>)
    requires found.Some? ==> MainOf(s.h, found.value, mxc)
    ensures Tells(s.h.q, CancelOne(s, mxc, found).h.q,
                  if found.Some? && found.value !in s.h.line.queued then None else Some(Ending(mxc, Failed(Usage))))
  {
    if found.None? {
      EndTells(s, mxc, Usage);
    } else if found.value in s.h.line.queued {
      var r := found.value;
      var others := SeeksOnly(s.h.inFlight[r].waiters);
      var h := s.h.(inFlight := s.h.inFlight - {r}, line := Withdraw(s.h.line, {r}));
      var kept := s.(h := if others == [] then h else Resend(h, r, others, s.h.inFlight[r].retries));
      assert CancelOne(s, mxc, found) == EndJob(kept, mxc, Cancelled);
      EndTells(kept, mxc, Usage);
    }
  }

  lemma {:induction false} AnsweredTells(s: State, found: bool, unread: set<nat>)
    requires s.h.finishing.Answering? && !s.h.finishing.end.Cancelled?
    requires found ==> Key(s.h, s.h.finishing.mxc) in s.d.pool
    ensures Tells(s.h.q, FinishAnswered(s, found, unread).h.q,
                  Some(Ending(s.h.finishing.mxc, if s.h.finishing.end.Broken? then Failed(s.h.finishing.end.error) else Finished)))
  {
    var mxc := s.h.finishing.mxc;
    var pieces := if found then PiecesFromPool(s.d.pool[Key(s.h, mxc)], mxc, s.h.inFlight, RequestsOf(s.h, mxc), unread) else {};
    var ready := s.(h := DropRequests(s.h, mxc).(finishing := NotFinishing, pieces := s.h.pieces + pieces));
    var end := s.h.finishing.end;
    assert FinishAnswered(s, found, unread) == EndJob(ready, mxc, end);
    EndTells(ready, mxc, if end.Broken? then end.error else Usage);
  }

  lemma {:induction false} StartTells(s: State, disk: DiskResults)
    requires s.h.task.Preparing? && s.h.task.manifest.mxc in s.h.open && s.h.task.manifest.mxc !in s.h.q.downloading
    ensures var mxc := s.h.task.manifest.mxc;
            Tells(s.h.q, StartJob(s, disk).h.q, if Sticks(s.h.open[mxc], disk) then Some(Ending(mxc, Failed(disk.fault))) else None)
  {
    assert StartJob(s, disk) == ContinueMain(Started(s), s.h.task.manifest.mxc, disk);
    ContinueTells(Started(s), s.h.task.manifest.mxc, disk);
  }

  lemma {:induction false} PreparingTells(w: World, s: State, move: Move)
    requires Inv(w, s, None, multiset{}) && May(w, s, move) && IsPreparingMove(move)
    ensures Tells(s.h.q, Act(w, s, move).h.q, EndingOf(w, s, move))
  {
    var mxc := s.h.task.manifest.mxc;
    match move
    case LookedMove(found) => LookedTells(s);
    case OpenedMove(media) => OpenedTells(s, media);
    case CancelCheckMove => CheckTells(s);
    case StartJobMove(disk) => StartTells(s, disk);
    case _ =>
  }

  lemma {:induction false} TailTells(s: State, error: Error)
    requires s.h.task.Preparing?
    ensures var mxc := s.h.task.manifest.mxc;
            && Tells(s.h.q, EndJob(SetStage(s, Tail), mxc, Complete).h.q, Some(Ending(mxc, Finished)))
            && Tells(s.h.q, EndJob(SetStage(s, Tail), mxc, Cancelled).h.q, Some(Ending(mxc, Failed(Usage))))
            && Tells(s.h.q, EndJob(SetStage(s, Tail), mxc, Broken(error)).h.q, Some(Ending(mxc, Failed(error))))
  {
    EndTells(SetStage(s, Tail), s.h.task.manifest.mxc, error);
  }

  lemma {:induction false} LookedTells(s: State)
    requires s.h.task.Preparing?
    ensures var mxc := s.h.task.manifest.mxc;
            && Tells(s.h.q, FoundComplete(s).h.q, Some(Ending(mxc, Finished)))
            && Tells(s.h.q, GiveUpJob(s).h.q,
                     Some(Ending(mxc, Failed(if CancelledWhilePreparing(s.h.q, mxc) then Usage else AccountBusy))))
            && (!ClaimedElsewhere(s) ==> Tells(s.h.q, StartOpening(s).h.q, None))
  {
    TailTells(s, AccountBusy);
  }

  lemma {:induction false} OpenedTells(s: State, media: Result<MediaDownload, Error>)
    requires s.h.task.Preparing?
    ensures Tells(s.h.q, Opened(s, media).h.q,
                  if media.Err? then Some(Ending(s.h.task.manifest.mxc, Failed(media.error))) else None)
  {
    if media.Err? {
      var back := DownloadJobs.Unopened(s);
      assert Opened(s, media) == EndJob(SetStage(back, Tail), s.h.task.manifest.mxc, Broken(media.error));
      TailTells(back, media.error);
    }
  }

  lemma {:induction false} CheckTells(s: State)
    requires s.h.task.Preparing?
    ensures var mxc := s.h.task.manifest.mxc;
            Tells(s.h.q, CancelCheck(s).h.q,
                  if CancelledWhilePreparing(s.h.q, mxc) then Some(Ending(mxc, Failed(Usage))) else None)
  {
    TailTells(s, Usage);
  }

  /** GETs and everything else of the handler that is not about a job, and what others do, ends none; but for a cancel of a job
      that has not been taken up. */
  lemma {:induction false} QuietTells(w: World, s: State, move: Move)
    requires Inv(w, s, None, multiset{}) && May(w, s, move) && !IsPreparingMove(move) && !IsWritingMove(move)
    ensures Tells(s.h.q, Act(w, s, move).h.q, EndingOf(w, s, move))
  {
    match move
    case SeekLookedMove(found, local) => SeekLookedTells(s, found, local);
    case TakeSeekMove(local) => TakeSeekTells(s.h, local);
    case CancelMove(mxc) => CancelTells(s.h.q, mxc);
    case FinishPreparingMove => FinishPreparingTells(s.h);
    case _ =>
  }

  lemma {:induction false} CancelTells(q: QueueState, mxc: Mxc)
    ensures Tells(q, Cancel(q, mxc), if mxc !in q.downloading && mxc !in q.preparing && InInbox(q.inbox, mxc)
                                     then Some(Ending(mxc, Failed(Usage))) else None)
  {
  }

  lemma {:induction false} FinishPreparingTells(h: Handler)
    requires h.task.Preparing?
    ensures Tells(h.q, FinishPreparing(h).q, None)
  {
  }

  lemma {:induction false} TakeSeekTells(h: Handler, local: LocalReads)
    requires h.seeks != []
    ensures TakeSeek(h, local).q == h.q
  {
    var job := h.seeks[0];
    if job.manifest.mxc in h.open {
      SeekAtOnly(h.(seeks := h.seeks[1..]), job.manifest.mxc, h.open[job.manifest.mxc].manifest.chunkSize, job, local);
    }
  }

  lemma {:induction false} SeekLookedTells(s: State, found: bool, local: LocalReads)
    requires s.h.task.SeekLooking?
    requires found ==> Key(s.h, s.h.task.job.manifest.mxc) in s.d.pool
    ensures SeekLooked(s, found, local).q == s.h.q
  {
    var job := s.h.task.job;
    var mxc := job.manifest.mxc;
    if !found {
      var known := s.h.(task := Idle, seekOnly := Remember(s.h.seekOnly, job, s.h.line.now));
      SeekAtOnly(known, mxc, known.seekOnly[mxc].manifest.chunkSize, job, local);
    }
  }

  /** Whatever a handler does: exactly the job named by what arrived ends, exactly so, with everyone who waited for it told. */
  lemma {:induction false} MoveTells(w: World, s: State, move: Move)
    requires Inv(w, s, None, multiset{}) && May(w, s, move)
    ensures Tells(s.h.q, Act(w, s, move).h.q, EndingOf(w, s, move))
  {
    if IsPreparingMove(move) {
      PreparingTells(w, s, move);
    } else if IsWritingMove(move) {
      WritingTells(w, s, move);
    } else {
      QuietTells(w, s, move);
    }
  }

  lemma {:induction false} WritingTells(w: World, s: State, move: Move)
    requires Inv(w, s, None, multiset{}) && May(w, s, move) && IsWritingMove(move)
    ensures Tells(s.h.q, Act(w, s, move).h.q, EndingOf(w, s, move))
  {
    match move
    case TakeReplyMove(v, local) => ReplyTells(w, s, v, local);
    case CancelOneMove(mxc, found) => CancelOneTells(s, mxc, found);
    case AnsweredMove(found, unread) => AnsweredTells(s, found, unread);
    case CloseIdleMove(mxc) => assert CloseIdle(s, mxc).h.q == s.h.q;
    case _ =>
  }
}
