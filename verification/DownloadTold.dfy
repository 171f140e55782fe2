/** Over whole runs: who is told what about a job, and what has to go wrong for anyone to be told anything but "finished". */
module DownloadTold {
  import opened Files
  import opened Wrappers
  import opened Lines
  import opened JobQueue
  import opened Download
  import opened DownloadInv
  import DownloadTable
  import DownloadJobs
  import opened DownloadFrame
  import opened DownloadMoves
  import opened DownloadSystem
  import opened DownloadShared
  import opened DownloadEvents
  import opened DownloadRuns
  import Outcomes = DownloadOutcomes

  // ---- a main file that comes to its end ----

  /** Moved on from here, the main file needs nothing more from the server. */
  predicate ComesToItsEnd(m: MediaDownload, disk: DiskResults) {
    Next(m) >= Total(m)
    || (!m.needsInfo && !Outcomes.Sticks(m, disk) && Outcomes.StoredUpTo(m, disk, Total(m) - 1))
  }

  /** The whole file goes into the pool and its row is recorded, or it could not go there. */
  function AtItsEnd(mxc: Mxc, disk: DiskResults): Finishing {
    if disk.adopts then Recording(mxc) else Answering(mxc, Broken(disk.fault))
  }

  /** What arrived and verified takes the main file on. */
  predicate TakesOn(h: Handler, v: Verdict)
    requires h.line.replies != []
  {
    var reply := h.line.replies[0];
    var r := reply.action;
    && r in h.inFlight && r.mxc in h.q.downloading && r.mxc in h.open
    && reply.result.Ack? && v.refused.None? && Main in h.inFlight[r].waiters
    && (r.Chunk? ==> v.unwritten.None?) && !h.q.downloading[r.mxc].cancelled
  }

  /** Where a file being finished stands after a move. */
  ghost function FinishingOf(w: World, s: State, move: Move): Finishing
    requires Inv(w, s, None, multiset{}) && May(w, s, move)
  {
    match move
    case TakeReplyMove(v, _) =>
      var r := s.h.line.replies[0].action;
      if TakesOn(s.h, v) && ComesToItsEnd(Outcomes.Landed(s.h.open[r.mxc], r, v), v.disk) then AtItsEnd(r.mxc, v.disk)
      else s.h.finishing
    case StartJobMove(disk) =>
      var mxc := s.h.task.manifest.mxc;
      if ComesToItsEnd(s.h.open[mxc], disk) then AtItsEnd(mxc, disk) else s.h.finishing
    case RecordedMove(failed) =>
      Answering(s.h.finishing.mxc, if failed.None? then Complete else Broken(failed.value))
    case AnsweredMove(_, _) => NotFinishing
    case _ => s.h.finishing
  }

  lemma {:induction false} EndsFurther(m: MediaDownload, disk: DiskResults)
    requires !m.needsInfo && InStore(m, disk) && Next(m) < Total(m) && Next(m) !in disk.unmovable
    ensures ComesToItsEnd(Land(m, m.store[Next(m)]), disk) <==> ComesToItsEnd(m, disk)
  {
    var m2 := Land(m, m.store[Next(m)]);
    Outcomes.SticksFurther(m, disk);
    assert Next(m2) == Next(m) + 1 && Total(m2) == Total(m);
    if Next(m2) < Total(m) {
      Outcomes.StoredFurther(m, disk, Total(m) - 1);
    } else {
      assert Outcomes.StoredUpTo(m, disk, Total(m) - 1);
    }
  }

  lemma {:induction false} ContinueFinishing(s: State, mxc: Mxc, disk: DiskResults)
    requires mxc in s.h.open && mxc in s.h.q.downloading
    ensures ContinueMain(s, mxc, disk).h.finishing
         == if !s.h.q.downloading[mxc].cancelled && ComesToItsEnd(s.h.open[mxc], disk) then AtItsEnd(mxc, disk)
            else s.h.finishing
    decreases Total(s.h.open[mxc]) - Next(s.h.open[mxc])
  {
    var m := s.h.open[mxc];
    if !s.h.q.downloading[mxc].cancelled && !IsWritten(m) {
      ContinueOpenFinishing(s, mxc, disk);
    }
  }

  lemma {:induction false} ContinueOpenFinishing(s: State, mxc: Mxc, disk: DiskResults)
    requires mxc in s.h.open && mxc in s.h.q.downloading && !s.h.q.downloading[mxc].cancelled && !IsWritten(s.h.open[mxc])
    ensures ContinueMain(s, mxc, disk).h.finishing
         == if ComesToItsEnd(s.h.open[mxc], disk) then AtItsEnd(mxc, disk) else s.h.finishing
    decreases Total(s.h.open[mxc]) - Next(s.h.open[mxc]), 0
  {
    var m := s.h.open[mxc];
    Outcomes.SticksHere(m, disk);
    if m.needsInfo {
    } else if InStore(m, disk) && Next(m) !in disk.unmovable {
      var landed := s.(h := LandFromStore(s.h, mxc));
      assert ContinueMain(s, mxc, disk) == ContinueMain(landed, mxc, disk);
      EndsFurther(m, disk);
      ContinueFinishing(landed, mxc, disk);
    } else if !InStore(m, disk) {
      assert !Outcomes.StoredUpTo(m, disk, Total(m) - 1);
    }
  }

  lemma {:induction false} FailSame(s: State, mxc: Mxc, error: Error, discard: bool)
    ensures FailMedia(s, mxc, error, discard).h.finishing == s.h.finishing
  {
  }

  lemma {:induction false} FailedSame(s: State, r: Request, entry: InFlight, error: Error)
    ensures RequestFailed(s, r, entry, error).h.finishing == s.h.finishing
  {
    GiveUpSame(s, r, entry, error);
  }

  lemma {:induction false} GiveUpSame(s: State, r: Request, entry: InFlight, error: Error)
    ensures GiveUp(s, r, entry, error).h.finishing == s.h.finishing
  {
    FailSame(s.(h := AnswerSeeks(s.h, entry.waiters)), r.mxc, error, IsPermanentRefusal(error));
  }

  lemma {:induction false} UnverifiedSame(s: State, mxc: Mxc, entry: InFlight, error: Error)
    ensures Unverified(s, mxc, entry, error).h.finishing == s.h.finishing
  {
    FailSame(s.(h := AnswerSeeks(s.h, entry.waiters)), mxc, error, true);
  }

  /** After the landing the main file goes on. */
  predicate GoesOn(h: Handler, r: Request, entry: InFlight, v: Verdict) {
    && r.mxc in h.open && v.refused.None? && Main in entry.waiters && (r.Chunk? ==> v.unwritten.None?)
  }

  lemma {:induction false} InfoFinishing(s: State, mxc: Mxc, entry: InFlight, v: Verdict, local: LocalReads)
    requires Main in entry.waiters ==> mxc in s.h.open && mxc in s.h.q.downloading
    ensures InfoArrived(s, mxc, entry, v, local).h.finishing
         == if GoesOn(s.h, Info(mxc), entry, v) && !s.h.q.downloading[mxc].cancelled
               && ComesToItsEnd(s.h.open[mxc].(needsInfo := false), v.disk)
            then AtItsEnd(mxc, v.disk) else s.h.finishing
  {
    if mxc !in s.h.open && mxc !in s.h.seekOnly {
    } else if v.refused.Some? {
      UnverifiedSame(s, mxc, entry, v.refused.value);
    } else {
      var accepted := AcceptInfo(s.h, mxc);
      var asked := s.(h := RequestSeekChunks(accepted, mxc, entry.waiters, local));
      Outcomes.SeekChunksSame(accepted, mxc, entry.waiters, local);
      if Main in entry.waiters { ContinueFinishing(asked, mxc, v.disk); }
    }
  }

  lemma {:induction false} ChunkFinishing(s: State, mxc: Mxc, index: nat, entry: InFlight, v: Verdict)
    requires Main in entry.waiters ==> mxc in s.h.open && mxc in s.h.q.downloading && index == Next(s.h.open[mxc])
    ensures ChunkArrived(s, mxc, index, entry, v).h.finishing
         == if GoesOn(s.h, Chunk(mxc, index), entry, v) && !s.h.q.downloading[mxc].cancelled
               && ComesToItsEnd(Outcomes.Landed(s.h.open[mxc], Chunk(mxc, index), v), v.disk)
            then AtItsEnd(mxc, v.disk) else s.h.finishing
  {
    if mxc !in s.h.open && mxc !in s.h.seekOnly {
    } else if v.refused.Some? {
      UnverifiedSame(s, mxc, entry, v.refused.value);
    } else if Main in entry.waiters {
      MainChunkFinishing(s, mxc, index, entry, v);
    }
  }

  lemma {:induction false} MainChunkFinishing(s: State, mxc: Mxc, index: nat, entry: InFlight, v: Verdict)
    requires mxc in s.h.open && mxc in s.h.q.downloading && v.refused.None?
    requires Main in entry.waiters && index == Next(s.h.open[mxc])
    ensures ChunkArrived(s, mxc, index, entry, v).h.finishing
         == if v.unwritten.None? && !s.h.q.downloading[mxc].cancelled
               && ComesToItsEnd(Outcomes.Landed(s.h.open[mxc], Chunk(mxc, index), v), v.disk)
            then AtItsEnd(mxc, v.disk) else s.h.finishing
  {
    var m := s.h.open[mxc];
    var given := s.(h := GivePiece(s.h, entry.waiters, mxc, ChunkStart(index, m.manifest.chunkSize), v.plain));
    if v.unwritten.Some? {
      FailSame(given, mxc, v.unwritten.value, false);
    } else {
      var landed := given.(h := LandArrived(given.h, mxc, v.plain));
      assert ChunkArrived(s, mxc, index, entry, v) == ContinueMain(landed, mxc, v.disk);
      assert landed.h.open[mxc] == Outcomes.Landed(m, Chunk(mxc, index), v);
      ContinueFinishing(landed, mxc, v.disk);
    }
  }

  /** The main file waits for the request that brings it on. */
  predicate MainFits(h: Handler, r: Request, entry: InFlight) {
    Main in entry.waiters ==> r.mxc in h.open && r.mxc in h.q.downloading && (r.Chunk? ==> r.index == Next(h.open[r.mxc]))
  }

  lemma {:induction false} MainOfFits(w: World, s: State, r: Request)
    requires Inv(w, s, None, multiset{}) && r in s.h.inFlight
    ensures MainFits(s.h, r, s.h.inFlight[r])
  {
    DownloadTable.MainIsCounted(s.h.inFlight[r].waiters);
  }

  lemma {:induction false} ReplyFinishing(w: World, s: State, v: Verdict, local: LocalReads)
    requires Inv(w, s, None, multiset{}) && May(w, s, TakeReplyMove(v, local))
    ensures HandleReply(s, v, local).h.finishing == FinishingOf(w, s, TakeReplyMove(v, local))
  {
    var r := s.h.line.replies[0].action;
    if r in s.h.inFlight {
      MainOfFits(w, s, r);
      ReplyOfEntry(s, r, v, local);
    }
  }

  lemma {:induction false} ReplyOfEntry(s: State, r: Request, v: Verdict, local: LocalReads)
    requires s.h.line.replies != [] && r == s.h.line.replies[0].action && r in s.h.inFlight && MainFits(s.h, r, s.h.inFlight[r])
    ensures HandleReply(s, v, local).h.finishing
         == if TakesOn(s.h, v) && ComesToItsEnd(Outcomes.Landed(s.h.open[r.mxc], r, v), v.disk) then AtItsEnd(r.mxc, v.disk)
            else s.h.finishing
  {
    var reply := s.h.line.replies[0];
    var entry := s.h.inFlight[r];
    var taken := s.(h := s.h.(line := TakeReply(s.h.line), inFlight := s.h.inFlight - {r}));
    if reply.result.Ack? {
      assert HandleReply(s, v, local)
          == if r.Info? then InfoArrived(taken, r.mxc, entry, v, local) else ChunkArrived(taken, r.mxc, r.index, entry, v);
      AckFinishing(taken, r, entry, v, local);
    } else {
      assert HandleReply(s, v, local) == RequestFailed(taken, r, entry, reply.result.error);
      FailedSame(taken, r, entry, reply.result.error);
    }
  }

  lemma {:induction false} AckFinishing(s: State, r: Request, entry: InFlight, v: Verdict, local: LocalReads)
    requires MainFits(s.h, r, entry)
    ensures (if r.Info? then InfoArrived(s, r.mxc, entry, v, local) else ChunkArrived(s, r.mxc, r.index, entry, v)).h.finishing
         == if GoesOn(s.h, r, entry, v) && !s.h.q.downloading[r.mxc].cancelled
               && ComesToItsEnd(Outcomes.Landed(s.h.open[r.mxc], r, v), v.disk)
            then AtItsEnd(r.mxc, v.disk) else s.h.finishing
  {
    if r.Info? { InfoFinishing(s, r.mxc, entry, v, local); } else { ChunkFinishing(s, r.mxc, r.index, entry, v); }
  }

  lemma {:induction false} StartFinishing(s: State, disk: DiskResults)
    requires s.h.task.Preparing? && s.h.task.manifest.mxc in s.h.open
    ensures var mxc := s.h.task.manifest.mxc;
            StartJob(s, disk).h.finishing == if ComesToItsEnd(s.h.open[mxc], disk) then AtItsEnd(mxc, disk) else s.h.finishing
  {
    assert StartJob(s, disk) == ContinueMain(Started(s), s.h.task.manifest.mxc, disk);
    ContinueFinishing(Started(s), s.h.task.manifest.mxc, disk);
  }

  lemma {:induction false} TailSame(s: State, end: JobEnd)
    requires s.h.task.Preparing?
    ensures EndJob(SetStage(s, Tail), s.h.task.manifest.mxc, end).h.finishing == s.h.finishing
  {
  }

  lemma {:induction false} PreparingFinishing(w: World, s: State, move: Move)
    requires Inv(w, s, None, multiset{}) && May(w, s, move) && IsPreparingMove(move)
    ensures Act(w, s, move).h.finishing == FinishingOf(w, s, move)
  {
    if move.LookedMove? {
      TailSame(s, Complete);
      TailSame(s, if CancelledWhilePreparing(s.h.q, s.h.task.manifest.mxc) then Cancelled else Broken(AccountBusy));
    } else if move.OpenedMove? {
      OpenedFinishing(s, move.media);
    } else if move.CancelCheckMove? {
      TailSame(s, Cancelled);
    } else {
      StartFinishing(s, move.disk);
    }
  }

  lemma {:induction false} OpenedFinishing(s: State, media: Result<MediaDownload, Error>)
    requires s.h.task.Preparing?
    ensures Opened(s, media).h.finishing == s.h.finishing
  {
    if media.Err? {
      TailSame(DownloadJobs.Unopened(s), Broken(media.error));
      assert Opened(s, media) == EndJob(SetStage(DownloadJobs.Unopened(s), Tail), s.h.task.manifest.mxc, Broken(media.error));
    }
  }

  lemma {:induction false} SeekFinishing(w: World, s: State, move: Move)
    requires Inv(w, s, None, multiset{}) && May(w, s, move) && (move.SeekLookedMove? || move.TakeSeekMove?)
    ensures Act(w, s, move).h.finishing == s.h.finishing
  {
    match move
    case SeekLookedMove(found, local) => SeekLookedFrame(s, found, local);
    case TakeSeekMove(local) => TakeSeekFrame(s.h, local);
    case _ =>
  }

  lemma {:induction false} CancelledSame(s: State, mxc: Mxc, found: Option<Request>)
    requires found.Some? ==> MainOf(s.h, found.value, mxc)
    ensures CancelOne(s, mxc, found).h.finishing == s.h.finishing
  {
  }

  lemma {:induction false} ClosedSame(s: State, mxc: Mxc)
    requires mxc in s.h.open
    ensures CloseIdle(s, mxc).h.finishing == s.h.finishing
  {
  }

  lemma {:induction false} OthersFinishing(w: World, s: State, move: Move)
    requires Inv(w, s, None, multiset{}) && May(w, s, move) && !IsPreparingMove(move)
    requires !move.TakeReplyMove? && !move.SeekLookedMove? && !move.TakeSeekMove? && !move.AnsweredMove?
    ensures Act(w, s, move).h.finishing == FinishingOf(w, s, move)
  {
    if move.CancelOneMove? {
      CancelledSame(s, move.mxc, move.main);
    } else if move.CloseIdleMove? {
      ClosedSame(s, move.mxc);
    } else {
      OutsideFinishing(w, s, move);
    }
  }

  lemma {:induction false} OutsideFinishing(w: World, s: State, move: Move)
    requires Inv(w, s, None, multiset{}) && May(w, s, move) && !IsPreparingMove(move) && !IsWritingMove(move)
    requires !move.SeekLookedMove? && !move.TakeSeekMove?
    ensures Act(w, s, move).h.finishing == FinishingOf(w, s, move)
  {
  }

  /** A file begins to be finished exactly when its main file comes to its end, and its job ends by whether the row was recorded. */
  lemma {:induction false} MoveFinishes(w: World, s: State, move: Move)
    requires Inv(w, s, None, multiset{}) && May(w, s, move)
    ensures Act(w, s, move).h.finishing == FinishingOf(w, s, move)
  {
    if IsPreparingMove(move) { PreparingFinishing(w, s, move); }
    else if move.SeekLookedMove? || move.TakeSeekMove? { SeekFinishing(w, s, move); }
    else if move.TakeReplyMove? { ReplyFinishing(w, s, move.v, move.local); }
    else if move.AnsweredMove? { AnsweredEnds(s, move.found, move.unread); }
    else { OthersFinishing(w, s, move); }
  }

  // ---- who is told, over whole runs ----

  predicate ToldAt(y: System, id: HandlerId, t: Told) { id in y.handlers && t in y.handlers[id].q.outcomes }

  predicate WaitsAt(y: System, id: HandlerId, mxc: Mxc, waiter: Waiter) {
    id in y.handlers && waiter in WaitersOf(y.handlers[id].q, mxc)
  }

  /** The event tells this waiter this outcome: the job it waits for ends so, or its handler is dropped. */
  ghost predicate TellsAt(file: Mxc -> ServerFile, y: System, e: Event, id: HandlerId, t: Told)
    requires SysInv(file, y) && Possible(file, y, e)
  {
    && WaitsAt(y, id, t.mxc, t.waiter) && Actor(e, id)
    && (if e.Abort? then t.outcome == Failed(Io)
        else (RunMakes(file, y, id, e.move);
              Outcomes.EndingOf(WorldOf(file, y, id), At(y, id), e.move) == Some(Outcomes.Ending(t.mxc, t.outcome))))
  }

  lemma {:induction false} AbortTells(s: State, t: Told)
    ensures t in Close(s).h.q.outcomes <==> t in s.h.q.outcomes || (t.waiter in WaitersOf(s.h.q, t.mxc) && t.outcome == Failed(Io))
  {
  }

  lemma {:induction false} EnqueueTells(h: Handler, manifest: Manifest, waiters: seq<Waiter>)
    ensures EnqueueAt(h, manifest, waiters).outcomes == h.q.outcomes
  {
  }

  lemma {:induction false} BesideTells(y: System, e: Event, id: HandlerId)
    requires id in y.handlers
    requires e.HandOver? ==> e.id in y.handlers && y.handlers[e.id].task.Preparing?
    ensures Beside(y, e, id).q.outcomes == y.handlers[id].q.outcomes
  {
    match e
    case Put(_, manifest, waiters) => EnqueueTells(y.handlers[id], manifest, waiters);
    case HandOver(leaving, _) =>
      var job := y.handlers[leaving];
      EnqueueTells(y.handlers[id], job.task.manifest, WaitersOf(job.q, job.task.manifest.mxc));
    case _ =>
  }

  lemma {:induction false} RunTells(file: Mxc -> ServerFile, y: System, id: HandlerId, move: Move, t: Told)
    requires SysInv(file, y) && Possible(file, y, Run(id, move))
    ensures ToldAt(After(file, y, Run(id, move)), id, t) <==> ToldAt(y, id, t) || TellsAt(file, y, Run(id, move), id, t)
  {
    RunMakes(file, y, id, move);
    EndingTells(WorldOf(file, y, id), At(y, id), move, t);
  }

  lemma {:induction false} EndingTells(w: World, s: State, move: Move, t: Told)
    requires Inv(w, s, None, multiset{}) && May(w, s, move)
    ensures t in Act(w, s, move).h.q.outcomes <==>
            || t in s.h.q.outcomes
            || (t.waiter in WaitersOf(s.h.q, t.mxc) && Outcomes.EndingOf(w, s, move) == Some(Outcomes.Ending(t.mxc, t.outcome)))
  {
    Outcomes.MoveTells(w, s, move);
  }

  lemma {:induction false} OthersTell(file: Mxc -> ServerFile, y: System, e: Event, id: HandlerId)
    requires SysInv(file, y) && Possible(file, y, e) && id in After(file, y, e).handlers && !Actor(e, id)
    ensures After(file, y, e).handlers[id].q.outcomes == if id in y.handlers then y.handlers[id].q.outcomes else {}
  {
    if id in y.handlers {
      OthersMake(file, y, e, id);
      BesideTells(y, e, id);
    } else {
      NewOnesBegin(file, y, e, id);
    }
  }

  lemma {:induction false} OthersToldAt(file: Mxc -> ServerFile, y: System, e: Event, id: HandlerId, t: Told)
    requires SysInv(file, y) && Possible(file, y, e) && !Actor(e, id)
    ensures ToldAt(After(file, y, e), id, t) <==> ToldAt(y, id, t)
  {
    if id in After(file, y, e).handlers {
      OthersTell(file, y, e, id);
    } else {
      OnlyBeginMakes(file, y, e);
      assert id !in After(file, y, e).handlers.Keys;
    }
  }

  lemma {:induction false} AbortToldAt(y: System, id: HandlerId, t: Told)
    requires id in y.handlers
    ensures t in Close(At(y, id)).h.q.outcomes <==> ToldAt(y, id, t) || (WaitsAt(y, id, t.mxc, t.waiter) && t.outcome == Failed(Io))
  {
    AbortTells(At(y, id), t);
  }

  lemma {:induction false} EventTells(file: Mxc -> ServerFile, y: System, e: Event, id: HandlerId, t: Told)
    requires SysInv(file, y) && Possible(file, y, e)
    ensures ToldAt(After(file, y, e), id, t) <==> ToldAt(y, id, t) || TellsAt(file, y, e, id, t)
  {
    if !Actor(e, id) { OthersToldAt(file, y, e, id, t); }
    else if e.Run? { RunTells(file, y, id, e.move, t); }
    else {
      AbortMakes(file, y, id);
      AbortToldAt(y, id, t);
    }
  }

  ghost predicate TellsIn(file: Mxc -> ServerFile, y: System, events: seq<Event>, id: HandlerId, t: Told)
    requires SysInv(file, y) && IsRun(file, y, events)
    decreases |events|
  {
    events != [] &&
    (TellsAt(file, y, events[0], id, t)
     || (StepKeeps(file, y, events[0]); TellsIn(file, After(file, y, events[0]), events[1..], id, t)))
  }

  lemma {:induction false} ToldInRun(file: Mxc -> ServerFile, y: System, events: seq<Event>, id: HandlerId, t: Told)
    requires SysInv(file, y) && IsRun(file, y, events)
    ensures ToldAt(EndOf(file, y, events), id, t) <==> ToldAt(y, id, t) || TellsIn(file, y, events, id, t)
    decreases |events|
  {
    if events != [] {
      StepKeeps(file, y, events[0]);
      EventTells(file, y, events[0], id, t);
      ToldInRun(file, After(file, y, events[0]), events[1..], id, t);
    }
  }

  /** From the start of a process: a waiter was told an outcome of a file if and only if, somewhere in the run, it was waiting for
      that file and the job ended with just this outcome, or its handler was dropped. */
  lemma {:induction false} ToldIff(file: Mxc -> ServerFile, start: System, events: seq<Event>, id: HandlerId, t: Told)
    requires Starting(file, start) && SysInv(file, start) && IsRun(file, start, events)
    ensures ToldAt(EndOf(file, start, events), id, t) <==> TellsIn(file, start, events, id, t)
  {
    ToldInRun(file, start, events, id, t);
  }

  // ---- nothing goes wrong ----

  /** What can go wrong with the job of a file: it is cancelled, it cannot be claimed, opened, written, put into the pool or
      recorded, the server refuses for good, or what it sends does not verify. */
  ghost predicate Harms(w: World, s: State, move: Move, mxc: Mxc)
    requires Inv(w, s, None, multiset{}) && May(w, s, move)
  {
    match move
    case CancelMove(m) => m == mxc
    case LookedMove(found) => !found && s.h.task.manifest.mxc == mxc && ClaimedElsewhere(s)
    case OpenedMove(media) => media.Err? && s.h.task.manifest.mxc == mxc
    case StartJobMove(disk) => s.h.task.manifest.mxc == mxc && DiskHarms(s.h.open[mxc], disk)
    case RecordedMove(failed) => failed.Some? && s.h.finishing.mxc == mxc
    case TakeReplyMove(v, _) =>
      var reply := s.h.line.replies[0];
      reply.action.mxc == mxc && reply.action in s.h.inFlight && ReplyHarms(s.h, reply, s.h.inFlight[reply.action], v)
    case _ => false
  }

  /** Moved on from here, a chunk cannot be written, or the whole file cannot go into the pool. */
  predicate DiskHarms(m: MediaDownload, disk: DiskResults) {
    Outcomes.Sticks(m, disk) || (ComesToItsEnd(m, disk) && !disk.adopts)
  }

  predicate ReplyHarms(h: Handler, reply: LineReply<Request>, entry: InFlight, v: Verdict) {
    var r := reply.action;
    match reply.result
    case Refused(error) =>
      Outcomes.IsFinal(error, entry.retries) && (Main in entry.waiters || error.NotFound? || error.Forbidden?)
    case Ack =>
      if v.refused.Some? then Outcomes.IsBroken(r, v.refused.value, entry.retries)
      else Main in entry.waiters && r.mxc in h.open
           && ((r.Chunk? && v.unwritten.Some?) || DiskHarms(Outcomes.Landed(h.open[r.mxc], r, v), v.disk))
  }

  predicate Uncancelled(q: QueueState, mxc: Mxc) {
    (mxc in q.downloading ==> !q.downloading[mxc].cancelled) && (mxc in q.preparing ==> !q.preparing[mxc])
  }

  /** No cancel of the file is on record, and if it is being finished nothing has failed. */
  predicate Unharmed(h: Handler, mxc: Mxc) {
    Uncancelled(h.q, mxc) && (h.finishing.Answering? && h.finishing.mxc == mxc ==> h.finishing.end.Complete?)
  }

  lemma {:induction false} UnharmedEnding(w: World, s: State, move: Move, mxc: Mxc)
    requires Inv(w, s, None, multiset{}) && May(w, s, move) && Unharmed(s.h, mxc) && !Harms(w, s, move, mxc)
    ensures var ending := Outcomes.EndingOf(w, s, move);
            ending.Some? && ending.value.mxc == mxc ==> ending.value.outcome == Finished
  {
    if move.TakeReplyMove? {
      ReplyUnharmed(s, move.v, mxc);
    } else if IsPreparingMove(move) {
      PreparingUnharmed(w, s, move, mxc);
    } else {
      OthersUnharmed(w, s, move, mxc);
    }
  }

  lemma {:induction false} ReplyUnharmed(s: State, v: Verdict, mxc: Mxc)
    requires s.h.line.replies != [] && Uncancelled(s.h.q, mxc)
    requires var reply := s.h.line.replies[0];
             reply.action.mxc == mxc && reply.action in s.h.inFlight ==> !ReplyHarms(s.h, reply, s.h.inFlight[reply.action], v)
    ensures var ending := Outcomes.ReplyEnding(s, v); ending.Some? ==> ending.value.mxc != mxc
  {
  }

  lemma {:induction false} PreparingUnharmed(w: World, s: State, move: Move, mxc: Mxc)
    requires Inv(w, s, None, multiset{}) && May(w, s, move) && IsPreparingMove(move)
    requires Uncancelled(s.h.q, mxc) && !Harms(w, s, move, mxc)
    ensures var ending := Outcomes.EndingOf(w, s, move);
            ending.Some? && ending.value.mxc == mxc ==> ending.value.outcome == Finished
  {
  }

  lemma {:induction false} OthersUnharmed(w: World, s: State, move: Move, mxc: Mxc)
    requires Inv(w, s, None, multiset{}) && May(w, s, move) && !IsPreparingMove(move) && !move.TakeReplyMove?
    requires Unharmed(s.h, mxc) && !Harms(w, s, move, mxc)
    ensures var ending := Outcomes.EndingOf(w, s, move);
            ending.Some? && ending.value.mxc == mxc ==> ending.value.outcome == Finished
  {
  }

  lemma {:induction false} UnharmedFinishing(w: World, s: State, move: Move, mxc: Mxc)
    requires Inv(w, s, None, multiset{}) && May(w, s, move) && Unharmed(s.h, mxc) && !Harms(w, s, move, mxc)
    ensures var f := FinishingOf(w, s, move);
            f.Answering? && f.mxc == mxc ==> f.end.Complete?
  {
  }

  // ---- no flag goes up by itself ----

  lemma {:induction false} ShrinksUncancelled(s: State, s2: State, mxc: Mxc)
    requires Uncancelled(s.h.q, mxc) && Shrinks(s, s2)
    ensures Uncancelled(s2.h.q, mxc)
  {
  }

  lemma {:induction false} PreparingUncancelled(w: World, s: State, move: Move, mxc: Mxc)
    requires Inv(w, s, None, multiset{}) && May(w, s, move) && IsPreparingMove(move) && Uncancelled(s.h.q, mxc)
    ensures Uncancelled(Act(w, s, move).h.q, mxc)
  {
    if move.LookedMove? {
      LookedUncancelled(s, mxc);
    } else if move.OpenedMove? {
      OpenedUncancelled(s, move.media, mxc);
    } else if move.CancelCheckMove? {
      TailUncancelled(s, Cancelled, mxc);
    } else {
      StartUncancelled(s, move.disk, mxc);
    }
  }

  lemma {:induction false} TailUncancelled(s: State, end: JobEnd, mxc: Mxc)
    requires s.h.task.Preparing? && Uncancelled(s.h.q, mxc)
    ensures Uncancelled(EndJob(SetStage(s, Tail), s.h.task.manifest.mxc, end).h.q, mxc)
  {
    EndTailShrinks(s, end);
  }

  lemma {:induction false} LookedUncancelled(s: State, mxc: Mxc)
    requires s.h.task.Preparing? && Uncancelled(s.h.q, mxc)
    ensures Uncancelled(FoundComplete(s).h.q, mxc) && Uncancelled(GiveUpJob(s).h.q, mxc)
    ensures !ClaimedElsewhere(s) ==> Uncancelled(StartOpening(s).h.q, mxc)
  {
    TailUncancelled(s, Complete, mxc);
    TailUncancelled(s, if CancelledWhilePreparing(s.h.q, s.h.task.manifest.mxc) then Cancelled else Broken(AccountBusy), mxc);
  }

  lemma {:induction false} OpenedUncancelled(s: State, media: Result<MediaDownload, Error>, mxc: Mxc)
    requires s.h.task.Preparing? && Uncancelled(s.h.q, mxc)
    ensures Uncancelled(Opened(s, media).h.q, mxc)
  {
    if media.Err? {
      var back := DownloadJobs.Unopened(s);
      assert Opened(s, media) == EndJob(SetStage(back, Tail), s.h.task.manifest.mxc, Broken(media.error));
      TailUncancelled(back, Broken(media.error), mxc);
    }
  }

  lemma {:induction false} StartUncancelled(s: State, disk: DiskResults, mxc: Mxc)
    requires s.h.task.Preparing? && s.h.task.manifest.mxc in s.h.open && Uncancelled(s.h.q, mxc)
    ensures Uncancelled(StartJob(s, disk).h.q, mxc)
  {
    StartShrinks(s, disk);
    assert Uncancelled(Started(s).h.q, mxc);
    ShrinksUncancelled(Started(s), StartJob(s, disk), mxc);
  }

  lemma {:induction false} QuietUncancelled(w: World, s: State, move: Move, mxc: Mxc)
    requires Inv(w, s, None, multiset{}) && May(w, s, move) && !IsPreparingMove(move) && !IsWritingMove(move)
    requires move != CancelMove(mxc) && Uncancelled(s.h.q, mxc)
    ensures Uncancelled(Act(w, s, move).h.q, mxc)
  {
    match move
    case SeekLookedMove(found, local) => Outcomes.SeekLookedTells(s, found, local);
    case TakeSeekMove(local) => Outcomes.TakeSeekTells(s.h, local);
    case CancelMove(m) => CancelUncancelled(s.h.q, m, mxc);
    case TakeJobMove => TakeJobUncancelled(s.h, mxc);
    case FinishPreparingMove => FinishUncancelled(s.h, mxc);
    case _ =>
  }

  lemma {:induction false} CancelUncancelled(q: QueueState, m: Mxc, mxc: Mxc)
    requires m != mxc && Uncancelled(q, mxc)
    ensures Uncancelled(Cancel(q, m), mxc)
  {
  }

  lemma {:induction false} TakeJobUncancelled(h: Handler, mxc: Mxc)
    requires h.q.inbox != [] && Uncancelled(h.q, mxc)
    ensures Uncancelled(TakeJob(h).q, mxc)
  {
  }

  lemma {:induction false} FinishUncancelled(h: Handler, mxc: Mxc)
    requires h.task.Preparing? && Uncancelled(h.q, mxc)
    ensures Uncancelled(FinishPreparing(h).q, mxc)
  {
  }

  lemma {:induction false} MoveUncancelled(w: World, s: State, move: Move, mxc: Mxc)
    requires Inv(w, s, None, multiset{}) && May(w, s, move) && move != CancelMove(mxc) && Uncancelled(s.h.q, mxc)
    ensures Uncancelled(Act(w, s, move).h.q, mxc)
  {
    if IsWritingMove(move) {
      WritingShrinks(w, s, move);
    } else if IsPreparingMove(move) {
      PreparingUncancelled(w, s, move, mxc);
    } else {
      QuietUncancelled(w, s, move, mxc);
    }
  }

  // ---- a waiter in a run in which nothing goes wrong ----

  /** At a living handler: still waiting, or told that the file is finished, and nothing has gone wrong so far. */
  ghost predicate Served(y: System, id: HandlerId, mxc: Mxc, waiter: Waiter) {
    && Alive(y, id) && Unharmed(y.handlers[id], mxc)
    && (WaitsAt(y, id, mxc, waiter) || ToldAt(y, id, Told(waiter, mxc, Finished)))
  }

  ghost predicate HarmsAt(file: Mxc -> ServerFile, y: System, e: Event, id: HandlerId, mxc: Mxc)
    requires SysInv(file, y) && Possible(file, y, e)
  {
    || e == Abort(id)
    || (HandsOver(e, id) && y.handlers[id].task.manifest.mxc == mxc)
    || (e.Run? && e.id == id && (RunMakes(file, y, id, e.move); Harms(WorldOf(file, y, id), At(y, id), e.move, mxc)))
  }

  lemma {:induction false} MoveServes(w: World, s: State, move: Move, mxc: Mxc, waiter: Waiter)
    requires Inv(w, s, None, multiset{}) && May(w, s, move) && Unharmed(s.h, mxc) && !Harms(w, s, move, mxc)
    ensures var h2 := Act(w, s, move).h;
            && Unharmed(h2, mxc) && s.h.q.outcomes <= h2.q.outcomes
            && (waiter in WaitersOf(s.h.q, mxc) ==> waiter in WaitersOf(h2.q, mxc) || Told(waiter, mxc, Finished) in h2.q.outcomes)
  {
    UnharmedEnding(w, s, move, mxc);
    UnharmedFinishing(w, s, move, mxc);
    MoveFinishes(w, s, move);
    MoveUncancelled(w, s, move, mxc);
    Outcomes.MoveTells(w, s, move);
    WellTold(s.h.q, Act(w, s, move).h.q, Outcomes.EndingOf(w, s, move), mxc, waiter);
  }

  lemma {:induction false} WellTold(q: QueueState, q2: QueueState, ending: Option<Outcomes.Ending>, mxc: Mxc, waiter: Waiter)
    requires Outcomes.Tells(q, q2, ending)
    requires ending.Some? && ending.value.mxc == mxc ==> ending.value.outcome == Finished
    ensures q.outcomes <= q2.outcomes
    ensures waiter in WaitersOf(q, mxc) ==> waiter in WaitersOf(q2, mxc) || Told(waiter, mxc, Finished) in q2.outcomes
  {
  }

  lemma {:induction false} EnqueueServes(h: Handler, manifest: Manifest, waiters: seq<Waiter>, mxc: Mxc, waiter: Waiter)
    requires Unharmed(h, mxc)
    ensures var h2 := h.(q := EnqueueAt(h, manifest, waiters));
            && Unharmed(h2, mxc) && h2.q.outcomes == h.q.outcomes
            && (waiter in WaitersOf(h.q, mxc) ==> waiter in WaitersOf(h2.q, mxc))
  {
  }

  lemma {:induction false} BesideServes(y: System, e: Event, id: HandlerId, mxc: Mxc, waiter: Waiter)
    requires id in y.handlers && Unharmed(y.handlers[id], mxc)
    requires e.HandOver? ==> e.id in y.handlers && y.handlers[e.id].task.Preparing?
    requires HandsOver(e, id) ==> y.handlers[id].task.manifest.mxc != mxc
    ensures var h2 := Beside(y, e, id);
            && Unharmed(h2, mxc) && h2.q.outcomes == y.handlers[id].q.outcomes
            && (waiter in WaitersOf(y.handlers[id].q, mxc) ==> waiter in WaitersOf(h2.q, mxc))
  {
    match e
    case Put(_, manifest, waiters) => EnqueueServes(y.handlers[id], manifest, waiters, mxc, waiter);
    case HandOver(leaving, _) =>
      var job := y.handlers[leaving];
      EnqueueServes(y.handlers[id], job.task.manifest, WaitersOf(job.q, job.task.manifest.mxc), mxc, waiter);
    case _ =>
  }

  lemma {:induction false} EventServes(file: Mxc -> ServerFile, y: System, e: Event, id: HandlerId, mxc: Mxc, waiter: Waiter)
    requires SysInv(file, y) && Possible(file, y, e) && Served(y, id, mxc, waiter) && !HarmsAt(file, y, e, id, mxc)
    ensures Served(After(file, y, e), id, mxc, waiter)
  {
    if e.Run? && e.id == id {
      RunMakes(file, y, id, e.move);
      MoveServes(WorldOf(file, y, id), At(y, id), e.move, mxc, waiter);
      RunStaysOpen(file, y, id, e.move);
    } else {
      OthersMake(file, y, e, id);
      BesideServes(y, e, id, mxc, waiter);
      BesideRuns(y, e, id);
    }
  }

  ghost predicate NoHarmIn(file: Mxc -> ServerFile, y: System, events: seq<Event>, id: HandlerId, mxc: Mxc)
    requires SysInv(file, y) && IsRun(file, y, events)
    decreases |events|
  {
    events == [] ||
    (!HarmsAt(file, y, events[0], id, mxc)
     && (StepKeeps(file, y, events[0]); NoHarmIn(file, After(file, y, events[0]), events[1..], id, mxc)))
  }

  lemma {:induction false} ServedInRun(file: Mxc -> ServerFile, y: System, events: seq<Event>, id: HandlerId, mxc: Mxc, waiter: Waiter)
    requires SysInv(file, y) && IsRun(file, y, events) && Served(y, id, mxc, waiter) && NoHarmIn(file, y, events, id, mxc)
    ensures Served(EndOf(file, y, events), id, mxc, waiter)
    decreases |events|
  {
    if events != [] {
      StepKeeps(file, y, events[0]);
      EventServes(file, y, events[0], id, mxc, waiter);
      ServedInRun(file, After(file, y, events[0]), events[1..], id, mxc, waiter);
    }
  }

  /** In any run in which nothing goes wrong with a file at a handler, whoever waits for it there is waiting still or was told that
      it is finished; and then the whole file is in the pool. A lost link, two timeouts and one bad answer to a request are nothing
      going wrong, nor is anything about another file. */
  lemma {:induction false} UnharmedFinishes(file: Mxc -> ServerFile, y: System, events: seq<Event>, id: HandlerId, mxc: Mxc,
      waiter: Waiter)
    requires Reachable(file, y) && SysInv(file, y) && IsRun(file, y, events) && NoHarmIn(file, y, events, id, mxc)
    requires Alive(y, id) && Unharmed(y.handlers[id], mxc) && WaitsAt(y, id, mxc, waiter)
    ensures var y2 := EndOf(file, y, events);
            && Alive(y2, id)
            && (WaitsAt(y2, id, mxc, waiter)
                || (ToldAt(y2, id, Told(waiter, mxc, Finished))
                    && Look(y2.d.pool, Key(y2.handlers[id], mxc)) == Some(file(mxc))))
  {
    ServedInRun(file, y, events, id, mxc, waiter);
    RunKeepsInv(file, y, events);
    var y2 := EndOf(file, y, events);
    if ToldAt(y2, id, Told(waiter, mxc, Finished)) { FinishedIsThere(file, y2, id, mxc, waiter); }
  }

  lemma {:induction false} FinishedIsThere(file: Mxc -> ServerFile, y: System, id: HandlerId, mxc: Mxc, waiter: Waiter)
    requires SysInv(file, y) && ToldAt(y, id, Told(waiter, mxc, Finished))
    ensures Look(y.d.pool, Key(y.handlers[id], mxc)) == Some(file(mxc))
  {
    assert OneInv(WorldOf(file, y, id), At(y, id));
    var t := Told(waiter, mxc, Finished);
    assert t.outcome == Finished && Key(y.handlers[id], t.mxc) in y.d.complete;
  }

  // ---- a file that was recorded ----

  /** The row is recorded and the waiter waits, or it was told that the file is finished. */
  ghost predicate Settled(y: System, id: HandlerId, mxc: Mxc, waiter: Waiter) {
    && Alive(y, id)
    && (|| (y.handlers[id].finishing == Answering(mxc, Complete) && WaitsAt(y, id, mxc, waiter))
        || ToldAt(y, id, Told(waiter, mxc, Finished)))
  }

  /** Until it is answered nothing else becomes of it. */
  lemma {:induction false} AnsweringStays(w: World, s: State, move: Move, mxc: Mxc)
    requires Inv(w, s, None, multiset{}) && May(w, s, move) && !move.AnsweredMove?
    requires s.h.finishing == Answering(mxc, Complete)
    ensures FinishingOf(w, s, move) == s.h.finishing
    ensures var ending := Outcomes.EndingOf(w, s, move); ending.Some? ==> ending.value.mxc != mxc
  {
  }

  lemma {:induction false} MoveSettles(w: World, s: State, move: Move, mxc: Mxc, waiter: Waiter)
    requires Inv(w, s, None, multiset{}) && May(w, s, move)
    requires s.h.finishing == Answering(mxc, Complete) && waiter in WaitersOf(s.h.q, mxc)
    ensures var h2 := Act(w, s, move).h;
            || Told(waiter, mxc, Finished) in h2.q.outcomes
            || (h2.finishing == Answering(mxc, Complete) && waiter in WaitersOf(h2.q, mxc))
  {
    MoveFinishes(w, s, move);
    Outcomes.MoveTells(w, s, move);
    if !move.AnsweredMove? { AnsweringStays(w, s, move, mxc); }
    Settles(s.h, Act(w, s, move).h, Outcomes.EndingOf(w, s, move), mxc, waiter);
  }

  lemma {:induction false} Settles(h: Handler, h2: Handler, ending: Option<Outcomes.Ending>, mxc: Mxc, waiter: Waiter)
    requires Outcomes.Tells(h.q, h2.q, ending) && waiter in WaitersOf(h.q, mxc)
    requires || ending == Some(Outcomes.Ending(mxc, Finished))
             || (h2.finishing == Answering(mxc, Complete) && (ending.Some? ==> ending.value.mxc != mxc))
    ensures || Told(waiter, mxc, Finished) in h2.q.outcomes
            || (h2.finishing == Answering(mxc, Complete) && waiter in WaitersOf(h2.q, mxc))
  {
  }

  lemma {:induction false} StaysAlive(file: Mxc -> ServerFile, y: System, e: Event, id: HandlerId)
    requires SysInv(file, y) && Possible(file, y, e) && Alive(y, id) && e != Abort(id)
    ensures Alive(After(file, y, e), id)
  {
    if e.Run? && e.id == id {
      RunStaysOpen(file, y, id, e.move);
    } else {
      OthersMake(file, y, e, id);
      BesideRuns(y, e, id);
    }
  }

  lemma {:induction false} RunSettles(file: Mxc -> ServerFile, y: System, id: HandlerId, move: Move, mxc: Mxc, waiter: Waiter)
    requires SysInv(file, y) && Possible(file, y, Run(id, move)) && Alive(After(file, y, Run(id, move)), id)
    requires y.handlers[id].finishing == Answering(mxc, Complete) && WaitsAt(y, id, mxc, waiter)
    ensures Settled(After(file, y, Run(id, move)), id, mxc, waiter)
  {
    RunMakes(file, y, id, move);
    MoveSettles(WorldOf(file, y, id), At(y, id), move, mxc, waiter);
  }

  lemma {:induction false} OthersSettle(file: Mxc -> ServerFile, y: System, e: Event, id: HandlerId, mxc: Mxc, waiter: Waiter)
    requires SysInv(file, y) && Possible(file, y, e) && Alive(y, id) && !Actor(e, id) && Alive(After(file, y, e), id)
    requires y.handlers[id].finishing == Answering(mxc, Complete) && WaitsAt(y, id, mxc, waiter)
    ensures Settled(After(file, y, e), id, mxc, waiter)
  {
    OthersMake(file, y, e, id);
    BesideRuns(y, e, id);
    FinishingHandsNothingOver(file, y, e, id);
    BesideWaits(y, e, id, mxc, waiter);
  }

  lemma {:induction false} EventSettles(file: Mxc -> ServerFile, y: System, e: Event, id: HandlerId, mxc: Mxc, waiter: Waiter)
    requires SysInv(file, y) && Possible(file, y, e) && Settled(y, id, mxc, waiter) && e != Abort(id)
    ensures Settled(After(file, y, e), id, mxc, waiter)
  {
    StaysAlive(file, y, e, id);
    if ToldAt(y, id, Told(waiter, mxc, Finished)) { EventTells(file, y, e, id, Told(waiter, mxc, Finished)); }
    else if e.Run? && e.id == id { RunSettles(file, y, id, e.move, mxc, waiter); }
    else { OthersSettle(file, y, e, id, mxc, waiter); }
  }

  /** While a file is being finished no job is handed over. */
  lemma {:induction false} FinishingHandsNothingOver(file: Mxc -> ServerFile, y: System, e: Event, id: HandlerId)
    requires SysInv(file, y) && Possible(file, y, e) && id in y.handlers && FinishingFile(y.handlers[id]).Some?
    ensures !HandsOver(e, id)
  {
    assert OneInv(WorldOf(file, y, id), At(y, id));
  }

  lemma {:induction false} BesideWaits(y: System, e: Event, id: HandlerId, mxc: Mxc, waiter: Waiter)
    requires WaitsAt(y, id, mxc, waiter)
    requires e.HandOver? ==> e.id in y.handlers && y.handlers[e.id].task.Preparing?
    requires !HandsOver(e, id)
    ensures waiter in WaitersOf(Beside(y, e, id).q, mxc)
  {
    match e
    case Put(_, manifest, waiters) => EnqueueWaits(y.handlers[id], manifest, waiters, mxc, waiter);
    case HandOver(leaving, _) =>
      var job := y.handlers[leaving];
      EnqueueWaits(y.handlers[id], job.task.manifest, WaitersOf(job.q, job.task.manifest.mxc), mxc, waiter);
    case _ =>
  }

  lemma {:induction false} EnqueueWaits(h: Handler, manifest: Manifest, waiters: seq<Waiter>, mxc: Mxc, waiter: Waiter)
    requires waiter in WaitersOf(h.q, mxc)
    ensures waiter in WaitersOf(EnqueueAt(h, manifest, waiters), mxc)
  {
  }

  /** Once the row of a finished file is recorded, everyone who waits for it is told that it is finished, cancelled or not, unless
      the handler is dropped before it comes to that. */
  lemma {:induction false} RecordedIsFinished(file: Mxc -> ServerFile, y: System, events: seq<Event>, id: HandlerId, mxc: Mxc,
      waiter: Waiter)
    requires SysInv(file, y) && IsRun(file, y, events) && Abort(id) !in events && Settled(y, id, mxc, waiter)
    ensures Settled(EndOf(file, y, events), id, mxc, waiter)
    decreases |events|
  {
    if events != [] {
      StepKeeps(file, y, events[0]);
      EventSettles(file, y, events[0], id, mxc, waiter);
      assert Abort(id) !in events[1..];
      RecordedIsFinished(file, After(file, y, events[0]), events[1..], id, mxc, waiter);
    }
  }
}
