/** A cancel that was accepted is never lost, and it is prompt: the job goes no further than the one chunk under way. */
module DownloadCancel {
  import opened Files
  import opened Wrappers
  import opened Lines
  import opened JobQueue
  import opened Download
  import opened DownloadInv
  import opened DownloadJobs
  import opened DownloadFrame
  import opened DownloadMoves
  import opened DownloadSystem
  import DownloadShared
  import opened DownloadEvents
  import DownloadRuns
  import opened DownloadProgress

  /** The cancel is on record: on the entry being prepared or on the running job. */
  predicate Pending(h: Handler, x: Mxc) {
    CancelledWhilePreparing(h.q, x) || (x in h.q.downloading && h.q.downloading[x].cancelled)
  }

  /** The job is at this handler: running, or on its way to run. */
  predicate JobHere(h: Handler, x: Mxc) {
    x in h.q.downloading || (h.task.Preparing? && h.task.manifest.mxc == x && h.task.stage != Tail)
  }

  /** The job is not here, or not here any more. */
  predicate Over(h: Handler, x: Mxc) { !JobHere(h, x) }

  /** From `h` to `h2` the job came to its end here: everyone who waited for it was told, and nobody waits any more. */
  ghost predicate EndsHere(h: Handler, h2: Handler, x: Mxc) {
    Over(h2, x) && WaitersOf(h2.q, x) == [] && AllTold(h.q, h2.q, x)
  }

  /** `cancel` of a job that is past the inbox puts it on record. */
  lemma {:induction false} CancelIsRecorded(h: Handler, x: Mxc)
    requires x in h.q.preparing || x in h.q.downloading
    ensures CancelAccepted(h.q, x) && Pending(h.(q := Cancel(h.q, x)), x)
  {
  }

  // ---- never lost ----

  lemma {:induction false} FlagsKeepPending(h: Handler, h2: Handler, x: Mxc)
    requires Pending(h, x) && TaskShape(h) && Flags(h.q, h2.q) && TaskFrom(h.task, h2.task)
    ensures Pending(h2, x) || Over(h2, x)
  {
  }

  lemma {:induction false} StartKeepsPending(s: State, disk: DiskResults, x: Mxc)
    requires TaskShape(s.h) && s.h.task.Preparing? && s.h.task.stage == Checked && Pending(s.h, x)
    ensures Pending(StartJob(s, disk).h, x) || Over(StartJob(s, disk).h, x)
  {
    var next := StartJob(s, disk).h;
    StartShrinks(s, disk);
    if x in next.q.downloading {
      assert x in Started(s).h.q.downloading;
    }
  }

  lemma {:induction false} FinishKeepsPending(h: Handler, x: Mxc)
    requires TaskShape(h) && h.task.Preparing? && h.task.stage == Tail && Pending(h, x)
    ensures Pending(FinishPreparing(h), x) || Over(FinishPreparing(h), x)
  {
  }

  lemma {:induction false} TakeJobKeepsPending(h: Handler, x: Mxc)
    requires InboxShape(h.q) && h.q.inbox != [] && Pending(h, x)
    ensures Pending(TakeJob(h), x)
  {
  }

  lemma {:induction false} PreparingKeepsPending(w: World, s: State, move: Move, x: Mxc)
    requires Inv(w, s, None, multiset{}) && May(w, s, move) && IsPreparingMove(move) && Pending(s.h, x)
    ensures Pending(Act(w, s, move).h, x) || Over(Act(w, s, move).h, x)
  {
    match move
    case LookedMove(found) =>
      if found { EndTailKeepsPending(s, Complete, x); }
      else if ClaimedElsewhere(s) {
        EndTailKeepsPending(s, if CancelledWhilePreparing(s.h.q, s.h.task.manifest.mxc) then Cancelled else Broken(AccountBusy), x);
      }
    case OpenedMove(media) => OpenedKeepsPending(s, media, x);
    case CancelCheckMove => EndTailKeepsPending(s, Cancelled, x);
    case StartJobMove(disk) => StartKeepsPending(s, disk, x);
    case _ =>
  }

  lemma {:induction false} EndTailKeepsPending(s: State, end: JobEnd, x: Mxc)
    requires TaskShape(s.h) && s.h.task.Preparing? && Pending(s.h, x)
    ensures var h2 := EndJob(SetStage(s, Tail), s.h.task.manifest.mxc, end).h;
            Pending(h2, x) || Over(h2, x)
  {
    EndTailShrinks(s, end);
    FlagsKeepPending(s.h, EndJob(SetStage(s, Tail), s.h.task.manifest.mxc, end).h, x);
  }

  lemma {:induction false} OpenedKeepsPending(s: State, media: Result<MediaDownload, Error>, x: Mxc)
    requires TaskShape(s.h) && s.h.task.Preparing? && s.h.task.stage == Opening && Pending(s.h, x)
    ensures Pending(Opened(s, media).h, x) || Over(Opened(s, media).h, x)
  {
    if media.Err? {
      var back := Unopened(s);
      EndTailShrinks(back, Broken(media.error));
      assert Opened(s, media) == EndJob(SetStage(back, Tail), s.h.task.manifest.mxc, Broken(media.error));
    }
  }

  /** A cancel on record stays on record until the job is over. */
  lemma {:induction false} MoveKeepsPending(w: World, s: State, move: Move, x: Mxc)
    requires Inv(w, s, None, multiset{}) && May(w, s, move) && Pending(s.h, x)
    ensures Pending(Act(w, s, move).h, x) || Over(Act(w, s, move).h, x)
  {
    if IsWritingMove(move) {
      WritingShrinks(w, s, move);
      FlagsKeepPending(s.h, Act(w, s, move).h, x);
    } else if IsPreparingMove(move) {
      PreparingKeepsPending(w, s, move, x);
    } else {
      QuietKeepsPending(w, s, move, x);
    }
  }

  lemma {:induction false} QuietKeepsPending(w: World, s: State, move: Move, x: Mxc)
    requires Inv(w, s, None, multiset{}) && May(w, s, move) && Pending(s.h, x)
    requires !IsWritingMove(move) && !IsPreparingMove(move)
    ensures Pending(Act(w, s, move).h, x) || Over(Act(w, s, move).h, x)
  {
    if IsSeekMove(move) {
      SeekMoveKeepsFiles(w, s, move);
    } else if move.TakeJobMove? {
      TakeJobKeepsPending(s.h, x);
    } else if move.FinishPreparingMove? {
      FinishKeepsPending(s.h, x);
    } else if move.CancelMove? {
      CancelKeepsPending(s.h, move.mxc, x);
    }
  }

  lemma {:induction false} CancelKeepsPending(h: Handler, mxc: Mxc, x: Mxc)
    requires Pending(h, x)
    ensures Pending(h.(q := Cancel(h.q, mxc)), x)
  {
  }

  predicate IsSeekMove(move: Move) { move.TakeSeekMove? || move.SeekLookedMove? }

  lemma {:induction false} SeekMoveKeepsFiles(w: World, s: State, move: Move)
    requires Inv(w, s, None, multiset{}) && May(w, s, move) && IsSeekMove(move)
    ensures var next := Act(w, s, move);
            next.d == s.d && next.h.q == s.h.q && next.h.open == s.h.open && next.h.dir == s.h.dir
  {
    if move.TakeSeekMove? {
      TakeSeekKeepsFiles(s.h, move.local);
    } else {
      SeekLookedKeepsFiles(s, move.found, move.local);
    }
  }

  lemma {:induction false} TakeSeekKeepsFiles(h: Handler, local: LocalReads)
    requires h.seeks != []
    ensures TakeSeek(h, local).q == h.q && TakeSeek(h, local).open == h.open && TakeSeek(h, local).dir == h.dir
  {
    var job := h.seeks[0];
    var taken := h.(seeks := h.seeks[1..]);
    if job.manifest.mxc in h.open {
      SeekAtOnly(taken, job.manifest.mxc, h.open[job.manifest.mxc].manifest.chunkSize, job, local);
    }
  }

  lemma {:induction false} SeekLookedKeepsFiles(s: State, found: bool, local: LocalReads)
    requires s.h.task.SeekLooking?
    requires found ==> Key(s.h, s.h.task.job.manifest.mxc) in s.d.pool
    ensures SeekLooked(s, found, local).q == s.h.q && SeekLooked(s, found, local).open == s.h.open
    ensures SeekLooked(s, found, local).dir == s.h.dir
  {
    var job := s.h.task.job;
    var mxc := job.manifest.mxc;
    var h := s.h.(task := Idle);
    if found {
      SeekFoundFrame(s, local);
    } else {
      var known := h.(seekOnly := Remember(h.seekOnly, job, h.line.now));
      SeekAtOnly(known, mxc, known.seekOnly[mxc].manifest.chunkSize, job, local);
      assert SeekLooked(s, found, local)
          == RequestSeekAt(known, mxc, known.seekOnly[mxc].manifest.chunkSize, job, local);
    }
  }

  lemma {:induction false} EventKeepsPending(file: Mxc -> ServerFile, y: System, e: Event, id: HandlerId, x: Mxc)
    requires SysInv(file, y) && Possible(file, y, e) && Alive(y, id) && Pending(y.handlers[id], x)
    ensures id in After(file, y, e).handlers
    ensures var h2 := After(file, y, e).handlers[id]; Pending(h2, x) || Over(h2, x)
  {
    if e.Run? && e.id == id {
      RunMakes(file, y, id, e.move);
      MoveKeepsPending(WorldOf(file, y, id), At(y, id), e.move, x);
    } else if e.Abort? && e.id == id {
      AbortMakes(file, y, id);
    } else {
      OthersKeepPending(file, y, e, id, x);
    }
  }

  lemma {:induction false} OthersKeepPending(file: Mxc -> ServerFile, y: System, e: Event, id: HandlerId, x: Mxc)
    requires SysInv(file, y) && Possible(file, y, e) && id in y.handlers && !Actor(e, id) && Pending(y.handlers[id], x)
    ensures id in After(file, y, e).handlers && Pending(After(file, y, e).handlers[id], x)
  {
    OthersMake(file, y, e, id);
    BesideRuns(y, e, id);
  }

  // ---- a job ends here, or it is handed over ----

  lemma {:induction false} EndTailEnds(s: State, end: JobEnd, x: Mxc)
    requires s.h.task.Preparing? && JobHere(s.h, x)
    ensures var h2 := EndJob(SetStage(s, Tail), s.h.task.manifest.mxc, end).h;
            JobHere(h2, x) || EndsHere(s.h, h2, x)
  {
    LeaveTells(s.h.q, s.h.task.manifest.mxc, end);
  }

  lemma {:induction false} OpenedEnds(s: State, media: Result<MediaDownload, Error>, x: Mxc)
    requires s.h.task.Preparing? && JobHere(s.h, x)
    ensures JobHere(Opened(s, media).h, x) || EndsHere(s.h, Opened(s, media).h, x)
  {
    if media.Err? {
      assert Opened(s, media) == EndJob(SetStage(Unopened(s), Tail), s.h.task.manifest.mxc, Broken(media.error));
      EndTailEnds(Unopened(s), Broken(media.error), x);
    }
  }

  lemma {:induction false} StartEnds(s: State, disk: DiskResults, x: Mxc)
    requires s.h.task.Preparing? && s.h.task.manifest.mxc in s.h.open && JobHere(s.h, x)
    ensures JobHere(StartJob(s, disk).h, x) || EndsHere(s.h, StartJob(s, disk).h, x)
  {
    StartShrinks(s, disk);
    assert x in Started(s).h.q.downloading;
    var h2 := StartJob(s, disk).h;
    assert Started(s).h.q.waiters == s.h.q.waiters;
    assert TellsOne(Started(s).h.q, h2.q, x);
    if x !in h2.q.downloading {
      assert h2.task.Preparing? ==> h2.task.stage == Tail;
      assert WaitersOf(Started(s).h.q, x) == WaitersOf(s.h.q, x);
      assert AllTold(Started(s).h.q, h2.q, x);
    }
  }

  lemma {:induction false} CheckEnds(s: State, x: Mxc)
    requires s.h.task.Preparing? && JobHere(s.h, x)
    ensures JobHere(CancelCheck(s).h, x) || EndsHere(s.h, CancelCheck(s).h, x)
  {
    EndTailEnds(s, Cancelled, x);
  }

  lemma {:induction false} LookedEnds(s: State, found: bool, x: Mxc)
    requires s.h.task.Preparing? && s.h.task.stage == Looking && JobHere(s.h, x)
    ensures var next := if found then FoundComplete(s) else if ClaimedElsewhere(s) then GiveUpJob(s) else StartOpening(s);
            JobHere(next.h, x) || EndsHere(s.h, next.h, x)
  {
    if found { EndTailEnds(s, Complete, x); }
    else if ClaimedElsewhere(s) {
      EndTailEnds(s, if CancelledWhilePreparing(s.h.q, s.h.task.manifest.mxc) then Cancelled else Broken(AccountBusy), x);
    }
  }

  lemma {:induction false} PreparingEnds(w: World, s: State, move: Move, x: Mxc)
    requires Inv(w, s, None, multiset{}) && May(w, s, move) && IsPreparingMove(move) && JobHere(s.h, x)
    ensures JobHere(Act(w, s, move).h, x) || EndsHere(s.h, Act(w, s, move).h, x)
  {
    match move
    case LookedMove(found) => LookedEnds(s, found, x);
    case OpenedMove(media) => OpenedEnds(s, media, x);
    case CancelCheckMove => CheckEnds(s, x);
    case StartJobMove(disk) => StartEnds(s, disk, x);
    case _ =>
  }

  lemma {:induction false} WritingEnds(w: World, s: State, move: Move, x: Mxc)
    requires Inv(w, s, None, multiset{}) && May(w, s, move) && IsWritingMove(move) && JobHere(s.h, x)
    ensures JobHere(Act(w, s, move).h, x) || EndsHere(s.h, Act(w, s, move).h, x)
  {
    WritingShrinks(w, s, move);
    assert x in s.h.q.downloading;
    assert TellsOne(s.h.q, Act(w, s, move).h.q, x);
  }

  lemma {:induction false} MoveEnds(w: World, s: State, move: Move, x: Mxc)
    requires Inv(w, s, None, multiset{}) && May(w, s, move) && JobHere(s.h, x)
    ensures JobHere(Act(w, s, move).h, x) || EndsHere(s.h, Act(w, s, move).h, x)
  {
    if IsWritingMove(move) {
      WritingEnds(w, s, move, x);
    } else if IsPreparingMove(move) {
      PreparingEnds(w, s, move, x);
    } else if IsSeekMove(move) {
      SeekMoveKeepsFiles(w, s, move);
    } else {
      QuietKeepsJob(w, s, move, x);
    }
  }

  lemma {:induction false} QuietKeepsJob(w: World, s: State, move: Move, x: Mxc)
    requires Inv(w, s, None, multiset{}) && May(w, s, move) && JobHere(s.h, x)
    requires !IsWritingMove(move) && !IsPreparingMove(move) && !IsSeekMove(move)
    ensures JobHere(Act(w, s, move).h, x)
  {
    if move.FinishPreparingMove? { FinishKeepsJob(s.h, x); } else if move.CancelMove? { CancelKeepsJob(s.h, move.mxc, x); }
  }

  lemma {:induction false} FinishKeepsJob(h: Handler, x: Mxc)
    requires h.task.Preparing? && h.task.stage == Tail && JobHere(h, x)
    ensures JobHere(FinishPreparing(h), x)
  {
  }

  lemma {:induction false} CancelKeepsJob(h: Handler, mxc: Mxc, x: Mxc)
    requires JobHere(h, x)
    ensures JobHere(h.(q := Cancel(h.q, mxc)), x)
  {
  }

  lemma {:induction false} CloseEnds(s: State, x: Mxc)
    ensures EndsHere(s.h, Close(s).h, x)
  {
    forall w | w in WaitersOf(s.h.q, x) ensures exists outcome :: Told(w, x, outcome) in Close(s).h.q.outcomes {
      assert Told(w, x, Failed(Io)) in Close(s).h.q.outcomes;
    }
  }

  /** Jobs put in, handed over elsewhere, and what other handlers do leave the job at hand where it is. */
  lemma {:induction false} OthersKeepJob(file: Mxc -> ServerFile, y: System, e: Event, id: HandlerId, x: Mxc)
    requires SysInv(file, y) && Possible(file, y, e) && id in y.handlers && !Actor(e, id) && JobHere(y.handlers[id], x)
    requires HandsOver(e, id) ==> y.handlers[id].task.manifest.mxc != x
    ensures id in After(file, y, e).handlers && JobHere(After(file, y, e).handlers[id], x)
  {
    OthersMake(file, y, e, id);
    BesideRuns(y, e, id);
  }

  /** Whatever happens, a job is still here, has ended here, or was handed over by this very event. */
  lemma {:induction false} JobStaysOrEnds(file: Mxc -> ServerFile, y: System, e: Event, id: HandlerId, x: Mxc)
    requires SysInv(file, y) && Possible(file, y, e) && Alive(y, id) && JobHere(y.handlers[id], x)
    requires HandsOver(e, id) ==> y.handlers[id].task.manifest.mxc != x
    ensures id in After(file, y, e).handlers
    ensures var h2 := After(file, y, e).handlers[id]; JobHere(h2, x) || EndsHere(y.handlers[id], h2, x)
  {
    if e.Run? && e.id == id {
      RunMakes(file, y, id, e.move);
      MoveEnds(WorldOf(file, y, id), At(y, id), e.move, x);
    } else if e.Abort? && e.id == id {
      AbortMakes(file, y, id);
      CloseEnds(At(y, id), x);
    } else {
      OthersKeepJob(file, y, e, id, x);
    }
  }

  /** A job whose cancel is on record is never handed over. */
  lemma {:induction false} PendingIsNotHandedOver(file: Mxc -> ServerFile, y: System, e: Event, id: HandlerId, x: Mxc)
    requires SysInv(file, y) && Possible(file, y, e) && Alive(y, id) && Pending(y.handlers[id], x) && HandsOver(e, id)
    ensures y.handlers[id].task.manifest.mxc != x
  {
    assert OneInv(WorldOf(file, y, id), At(y, id));
  }

  /** In a whole run: on record in every state up to the one where the job has ended here. */
  ghost predicate PendingUntilEnded(file: Mxc -> ServerFile, y: System, events: seq<Event>, id: HandlerId, x: Mxc)
    requires SysInv(file, y) && DownloadRuns.IsRun(file, y, events)
    decreases |events|
  {
    && id in y.handlers && JobHere(y.handlers[id], x) && Pending(y.handlers[id], x)
    && (events != [] ==>
          var next := After(file, y, events[0]);
          DownloadShared.StepKeeps(file, y, events[0]);
          && id in next.handlers
          && (EndsHere(y.handlers[id], next.handlers[id], x) || PendingUntilEnded(file, next, events[1..], id, x)))
  }

  /** A cancel on record of a job at hand stays on record until the job has ended here and all its waiters were told. */
  lemma {:induction false} CancelNeverLost(file: Mxc -> ServerFile, y: System, events: seq<Event>, id: HandlerId, x: Mxc)
    requires SysInv(file, y) && DownloadRuns.IsRun(file, y, events) && Alive(y, id)
    requires JobHere(y.handlers[id], x) && Pending(y.handlers[id], x)
    ensures PendingUntilEnded(file, y, events, id, x)
    decreases |events|
  {
    if events != [] {
      var e := events[0];
      var next := After(file, y, e);
      DownloadShared.StepKeeps(file, y, e);
      if HandsOver(e, id) { PendingIsNotHandedOver(file, y, e, id, x); }
      JobStaysOrEnds(file, y, e, id, x);
      EventKeepsPending(file, y, e, id, x);
      if !EndsHere(y.handlers[id], next.handlers[id], x) {
        JobIsAtTheLiving(file, next, id, x);
        CancelNeverLost(file, next, events[1..], id, x);
      }
    }
  }

  /** A cancel of a job at hand is accepted, and is kept in whatever run follows. */
  lemma {:induction false} AcceptedCancelIsKept(file: Mxc -> ServerFile, y: System, events: seq<Event>, id: HandlerId, x: Mxc)
    requires SysInv(file, y) && Possible(file, y, Run(id, CancelMove(x))) && JobHere(y.handlers[id], x)
    requires SysInv(file, After(file, y, Run(id, CancelMove(x)))) && DownloadRuns.IsRun(file, After(file, y, Run(id, CancelMove(x))), events)
    ensures CancelAccepted(y.handlers[id].q, x)
    ensures PendingUntilEnded(file, After(file, y, Run(id, CancelMove(x))), events, id, x)
  {
    CancelAtHand(file, y, id, x);
    CancelNeverLost(file, After(file, y, Run(id, CancelMove(x))), events, id, x);
  }

  lemma {:induction false} CancelAtHand(file: Mxc -> ServerFile, y: System, id: HandlerId, x: Mxc)
    requires SysInv(file, y) && Possible(file, y, Run(id, CancelMove(x))) && JobHere(y.handlers[id], x)
    ensures CancelAccepted(y.handlers[id].q, x)
    ensures var y2 := After(file, y, Run(id, CancelMove(x)));
            Alive(y2, id) && JobHere(y2.handlers[id], x) && Pending(y2.handlers[id], x)
  {
    JobIsListed(file, y, id, x);
    CancelIsRecorded(y.handlers[id], x);
    CancelKeepsJob(y.handlers[id], x, x);
    assert After(file, y, Run(id, CancelMove(x))).handlers[id] == y.handlers[id].(q := Cancel(y.handlers[id].q, x));
  }

  lemma {:induction false} JobIsListed(file: Mxc -> ServerFile, y: System, id: HandlerId, x: Mxc)
    requires SysInv(file, y) && Alive(y, id) && JobHere(y.handlers[id], x)
    ensures x in y.handlers[id].q.preparing || x in y.handlers[id].q.downloading
    ensures y.handlers[id].id == id
  {
    assert OneInv(WorldOf(file, y, id), At(y, id));
    assert y.handlers[id].task.Preparing? ==> y.handlers[id].task.manifest.mxc in y.handlers[id].q.preparing.Keys;
  }

  lemma {:induction false} JobIsAtTheLiving(file: Mxc -> ServerFile, y: System, id: HandlerId, x: Mxc)
    requires SysInv(file, y) && id in y.handlers && JobHere(y.handlers[id], x)
    ensures Alive(y, id)
  {
    assert OneInv(WorldOf(file, y, id), At(y, id));
  }

  // ---- prompt ----

  /** What is kept of `x` (open, on disk, in the pool) is as it was. */
  ghost predicate Apart(s: State, s2: State, x: Mxc) {
    && s2.h.dir == s.h.dir
    && Look(s2.h.open, x) == Look(s.h.open, x)
    && Look(s2.d.disk, Key(s.h, x)) == Look(s.d.disk, Key(s.h, x))
    && Look(s2.d.pool, Key(s.h, x)) == Look(s.d.pool, Key(s.h, x))
  }

  /** Nothing of `x` beyond chunk `n` was written anywhere, and the pool did not get it. */
  ghost predicate AtMost(s: State, s2: State, x: Mxc, n: nat) {
    && s2.h.dir == s.h.dir
    && (x in s2.h.open ==> Next(s2.h.open[x]) <= n)
    && (Look(s2.d.disk, Key(s.h, x)) == Look(s.d.disk, Key(s.h, x))
        || (Key(s.h, x) in s2.d.disk ==> Next(s2.d.disk[Key(s.h, x)]) <= n))
    && Look(s2.d.pool, Key(s.h, x)) == Look(s.d.pool, Key(s.h, x))
  }

  predicate Flagged(h: Handler, x: Mxc) { x in h.q.downloading && h.q.downloading[x].cancelled && x in h.open }

  lemma {:induction false} EndApart(s: State, mxc: Mxc, end: JobEnd, x: Mxc)
    ensures mxc != x ==> Apart(s, EndJob(s, mxc, end), x)
    ensures x in s.h.open ==> AtMost(s, EndJob(s, mxc, end), x, Next(s.h.open[x]))
  {
  }

  lemma {:induction false} CloseApart(s: State, mxc: Mxc, discard: bool, x: Mxc)
    requires mxc in s.h.open
    ensures var closed := if discard then CloseDiscarding(s, mxc) else CloseKeeping(s, mxc);
            && (mxc != x ==> Apart(s, closed, x))
            && (x in s.h.open ==> AtMost(s, closed, x, Next(s.h.open[x])))
  {
  }

  lemma {:induction false} FailApart(s: State, mxc: Mxc, error: Error, discard: bool, x: Mxc)
    ensures mxc != x ==> Apart(s, FailMedia(s, mxc, error, discard), x)
    ensures x in s.h.open ==> AtMost(s, FailMedia(s, mxc, error, discard), x, Next(s.h.open[x]))
  {
    FailClosesOnly(s, mxc, error, discard);
    if mxc in s.h.open { CloseApart(s.(h := DropRequests(s.h, mxc)), mxc, discard, x); }
  }

  /** What a failure does to files is closing its own; the rest of it is requests and the end of the job. */
  lemma {:induction false} FailClosesOnly(s: State, mxc: Mxc, error: Error, discard: bool)
    ensures var next := FailMedia(s, mxc, error, discard);
            var dropped := s.(h := DropRequests(s.h, mxc));
            var closed := if mxc !in s.h.open then dropped
                          else if discard then CloseDiscarding(dropped, mxc) else CloseKeeping(dropped, mxc);
            next.d == closed.d && next.h.open == closed.h.open && next.h.dir == closed.h.dir
  {
  }

  lemma {:induction false} ContinueApart(s: State, mxc: Mxc, disk: DiskResults, x: Mxc)
    requires mxc != x
    ensures Apart(s, ContinueMain(s, mxc, disk), x)
    decreases if mxc in s.h.open then Total(s.h.open[mxc]) - Next(s.h.open[mxc]) else 0
  {
    var next := ContinueMain(s, mxc, disk);
    if mxc in s.h.q.downloading {
      if s.h.q.downloading[mxc].cancelled {
        EndApart(s, mxc, Cancelled, x);
      } else if mxc !in s.h.open {
        EndApart(s, mxc, Broken(Io), x);
      } else {
        var m := s.h.open[mxc];
        if !IsWritten(m) && !m.needsInfo && InStore(m, disk) && Next(m) in disk.unmovable {
          FailApart(s, mxc, disk.fault, true, x);
        } else if !IsWritten(m) && !m.needsInfo && InStore(m, disk) {
          var landed := s.(h := LandFromStore(s.h, mxc));
          assert next == ContinueMain(landed, mxc, disk);
          ContinueApart(landed, mxc, disk, x);
        }
      }
    }
  }

  /** A flagged file is not taken further: the job ends where it stands. */
  lemma {:induction false} ContinueFlagged(s: State, x: Mxc, disk: DiskResults)
    requires Flagged(s.h, x)
    ensures x !in ContinueMain(s, x, disk).h.q.downloading
    ensures AtMost(s, ContinueMain(s, x, disk), x, Next(s.h.open[x]))
  {
    EndApart(s, x, Cancelled, x);
  }

  /** The job of `x` goes no further than chunk `n`, and if it still runs its main file stands where it stood. */
  ghost predicate Prompt(s: State, s2: State, x: Mxc, n: nat)
    requires x in s.h.open
  {
    AtMost(s, s2, x, n) && (x in s2.h.q.downloading ==> x in s2.h.open && SameMain(s.h.open[x], s2.h.open[x]))
  }

  lemma {:induction false} FailPrompt(s: State, mxc: Mxc, error: Error, discard: bool, x: Mxc)
    requires Flagged(s.h, x)
    ensures Prompt(s, FailMedia(s, mxc, error, discard), x, Next(s.h.open[x]))
  {
    FailApart(s, mxc, error, discard, x);
    FailStill(s, mxc, error, discard, x);
  }

  lemma {:induction false} EndPrompt(s: State, mxc: Mxc, end: JobEnd, x: Mxc)
    requires Flagged(s.h, x)
    ensures Prompt(s, EndJob(s, mxc, end), x, Next(s.h.open[x]))
  {
    EndApart(s, mxc, end, x);
    EndStill(s, mxc, end, x);
  }

  lemma {:induction false} ContinuePrompt(s: State, mxc: Mxc, disk: DiskResults, x: Mxc)
    requires Flagged(s.h, x)
    ensures Prompt(s, ContinueMain(s, mxc, disk), x, Next(s.h.open[x]))
  {
    if mxc == x { ContinueFlagged(s, x, disk); } else { ContinueApart(s, mxc, disk, x); }
  }

  lemma {:induction false} FailedPrompt(s: State, r: Request, entry: InFlight, error: Error, x: Mxc)
    requires Flagged(s.h, x)
    ensures Prompt(s, RequestFailed(s, r, entry, error), x, Next(s.h.open[x]))
  {
    if !error.Network? && !(error.Timeout? && entry.retries.timeouts + 1 < TIMEOUT_ATTEMPTS)
       && !(IsBadReply(error) && entry.retries.badReplies == 0) {
      GivenUpPrompt(s, r, entry, error, x);
    }
  }

  lemma {:induction false} GivenUpPrompt(s: State, r: Request, entry: InFlight, error: Error, x: Mxc)
    requires Flagged(s.h, x)
    ensures Prompt(s, GiveUp(s, r, entry, error), x, Next(s.h.open[x]))
  {
    FailPrompt(s.(h := AnswerSeeks(s.h, entry.waiters)), r.mxc, error, IsPermanentRefusal(error), x);
  }

  lemma {:induction false} UnverifiedPrompt(s: State, mxc: Mxc, entry: InFlight, error: Error, x: Mxc)
    requires Flagged(s.h, x)
    ensures Prompt(s, Unverified(s, mxc, entry, error), x, Next(s.h.open[x]))
  {
    if mxc in s.h.open { FailPrompt(s.(h := AnswerSeeks(s.h, entry.waiters)), mxc, error, true, x); }
  }

  lemma {:induction false} InfoPrompt(s: State, mxc: Mxc, entry: InFlight, v: Verdict, local: LocalReads, x: Mxc)
    requires Flagged(s.h, x) && (mxc == x && s.h.open[x].needsInfo ==> HasMain(entry.waiters))
    ensures Prompt(s, InfoArrived(s, mxc, entry, v, local), x, Next(s.h.open[x]))
  {
    var next := InfoArrived(s, mxc, entry, v, local);
    if mxc !in s.h.open && mxc !in s.h.seekOnly {
    } else if v.refused.Some? {
      UnverifiedPrompt(s, mxc, entry, v.refused.value, x);
    } else {
      var accepted := AcceptInfo(s.h, mxc);
      var asked := s.(h := RequestSeekChunks(accepted, mxc, entry.waiters, local));
      SeekChunksFrame(accepted, mxc, entry.waiters, local);
      assert Flagged(asked.h, x) && Next(asked.h.open[x]) == Next(s.h.open[x]);
      if HasMain(entry.waiters) {
        assert next == ContinueMain(asked, mxc, v.disk);
        ContinuePrompt(asked, mxc, v.disk, x);
        if mxc == x { ContinueFlagged(asked, x, v.disk); }
      } else {
        assert next == asked;
      }
    }
  }

  lemma {:induction false} ChunkPrompt(s: State, mxc: Mxc, index: nat, entry: InFlight, v: Verdict, x: Mxc)
    requires Flagged(s.h, x)
    ensures Prompt(s, ChunkArrived(s, mxc, index, entry, v), x, Next(s.h.open[x]) + 1)
  {
    if mxc !in s.h.open && mxc !in s.h.seekOnly {
    } else if v.refused.Some? {
      UnverifiedPrompt(s, mxc, entry, v.refused.value, x);
    } else if mxc in s.h.open {
      ChunkOpenedPrompt(s, mxc, index, entry, v, x);
    }
  }

  lemma {:induction false} ChunkOpenedPrompt(s: State, mxc: Mxc, index: nat, entry: InFlight, v: Verdict, x: Mxc)
    requires Flagged(s.h, x) && mxc in s.h.open && v.refused.None?
    ensures Prompt(s, ChunkArrived(s, mxc, index, entry, v), x, Next(s.h.open[x]) + 1)
  {
    var m := s.h.open[mxc];
    var next := ChunkArrived(s, mxc, index, entry, v);
    var main := HasMain(entry.waiters);
    var lands := main && index == Next(m);
    var given := s.(h := GivePiece(s.h, entry.waiters, mxc, ChunkStart(index, m.manifest.chunkSize), v.plain));
    var kept := if v.unwritten.Some? then given
                else given.(h := if lands then LandArrived(given.h, mxc, v.plain) else StoreArrived(given.h, mxc, index, v.plain));
    KeptIsFlagged(given.h, mxc, index, v.plain, x);
    if v.unwritten.Some? && lands {
      assert next == FailMedia(given, mxc, v.unwritten.value, false);
      FailPrompt(given, mxc, v.unwritten.value, false, x);
    } else if main {
      assert next == ContinueMain(kept, mxc, v.disk);
      ContinuePrompt(kept, mxc, v.disk, x);
      if mxc == x { ContinueFlagged(kept, x, v.disk); }
    } else {
      assert next == kept;
    }
  }

  lemma {:induction false} KeptIsFlagged(h: Handler, mxc: Mxc, index: nat, plain: Bytes, x: Mxc)
    requires Flagged(h, x) && mxc in h.open
    ensures Flagged(LandArrived(h, mxc, plain), x) && Flagged(StoreArrived(h, mxc, index, plain), x)
    ensures Next(LandArrived(h, mxc, plain).open[x]) <= Next(h.open[x]) + 1
    ensures Next(StoreArrived(h, mxc, index, plain).open[x]) == Next(h.open[x])
  {
  }

  lemma {:induction false} ReplyPrompt(w: World, s: State, v: Verdict, local: LocalReads, x: Mxc)
    requires Inv(w, s, None, multiset{}) && s.h.line.replies != [] && Flagged(s.h, x)
    ensures Prompt(s, HandleReply(s, v, local), x, Next(s.h.open[x]) + 1)
  {
    var reply := s.h.line.replies[0];
    var r := reply.action;
    var h := s.h.(line := TakeReply(s.h.line));
    if r in h.inFlight {
      var entry := h.inFlight[r];
      var taken := s.(h := h.(inFlight := h.inFlight - {r}));
      CursorCarriesMain(s.h, x);
      match reply.result
      case Ack =>
        if r.Info? { InfoPrompt(taken, r.mxc, entry, v, local, x); } else { ChunkPrompt(taken, r.mxc, r.index, entry, v, x); }
      case Refused(error) => FailedPrompt(taken, r, entry, error, x);
    }
  }

  lemma {:induction false} CancelOnePrompt(s: State, mxc: Mxc, found: Option<Request>, x: Mxc)
    requires Flagged(s.h, x)
    requires found.Some? ==> MainOf(s.h, found.value, mxc)
    ensures Prompt(s, CancelOne(s, mxc, found), x, Next(s.h.open[x]))
  {
    if found.None? {
      EndPrompt(s, mxc, Cancelled, x);
    } else if found.value in s.h.line.queued {
      var r := found.value;
      var h := s.h.(inFlight := s.h.inFlight - {r}, line := Withdraw(s.h.line, {r}));
      var others := SeeksOnly(s.h.inFlight[r].waiters);
      var kept := s.(h := if others == [] then h else Resend(h, r, others, s.h.inFlight[r].retries));
      assert CancelOne(s, mxc, found) == EndJob(kept, mxc, Cancelled);
      EndPrompt(kept, mxc, Cancelled, x);
    }
  }

  lemma {:induction false} AnsweredPrompt(s: State, found: bool, unread: set<nat>, x: Mxc)
    requires s.h.finishing.Answering? && Flagged(s.h, x)
    requires found ==> Key(s.h, s.h.finishing.mxc) in s.d.pool
    ensures Prompt(s, FinishAnswered(s, found, unread), x, Next(s.h.open[x]))
  {
    var mxc := s.h.finishing.mxc;
    var pieces := if found then PiecesFromPool(s.d.pool[Key(s.h, mxc)], mxc, s.h.inFlight, RequestsOf(s.h, mxc), unread) else {};
    var ready := s.(h := DropRequests(s.h, mxc).(finishing := NotFinishing, pieces := s.h.pieces + pieces));
    assert FinishAnswered(s, found, unread) == EndJob(ready, mxc, s.h.finishing.end);
    EndPrompt(ready, mxc, s.h.finishing.end, x);
  }

  lemma {:induction false} PreparingPrompt(w: World, s: State, move: Move, x: Mxc)
    requires Inv(w, s, None, multiset{}) && May(w, s, move) && Flagged(s.h, x) && IsPreparingMove(move)
    ensures Prompt(s, Act(w, s, move), x, Next(s.h.open[x]))
  {
    OtherThanTask(w, s, move, x);
    if move.LookedMove? {
      LookedPrompt(s, move.found, x);
    } else if move.OpenedMove? {
      OpenedPrompt(s, move.media, x);
    } else if move.CancelCheckMove? {
      CheckPrompt(s, x);
    } else {
      StartPrompt(s, move.disk, x);
    }
  }

  lemma {:induction false} CheckPrompt(s: State, x: Mxc)
    requires s.h.task.Preparing? && Flagged(s.h, x)
    ensures Prompt(s, CancelCheck(s), x, Next(s.h.open[x]))
  {
    EndTailPrompt(s, Cancelled, x);
  }

  lemma {:induction false} StartPrompt(s: State, disk: DiskResults, x: Mxc)
    requires s.h.task.Preparing? && s.h.task.manifest.mxc in s.h.open && s.h.task.manifest.mxc != x && Flagged(s.h, x)
    ensures Prompt(s, StartJob(s, disk), x, Next(s.h.open[x]))
  {
    ContinuePrompt(Started(s), s.h.task.manifest.mxc, disk, x);
  }

  lemma {:induction false} EndTailPrompt(s: State, end: JobEnd, x: Mxc)
    requires s.h.task.Preparing? && Flagged(s.h, x)
    ensures Prompt(s, EndJob(SetStage(s, Tail), s.h.task.manifest.mxc, end), x, Next(s.h.open[x]))
  {
    EndPrompt(SetStage(s, Tail), s.h.task.manifest.mxc, end, x);
  }

  lemma {:induction false} LookedPrompt(s: State, found: bool, x: Mxc)
    requires s.h.task.Preparing? && Flagged(s.h, x) && (ClaimedElsewhere(s) || CanClaim(s.d, Key(s.h, s.h.task.manifest.mxc), s.h.id))
    ensures var next := if found then FoundComplete(s) else if ClaimedElsewhere(s) then GiveUpJob(s) else StartOpening(s);
            Prompt(s, next, x, Next(s.h.open[x]))
  {
    if found {
      EndTailPrompt(s, Complete, x);
    } else if ClaimedElsewhere(s) {
      EndTailPrompt(s, if CancelledWhilePreparing(s.h.q, s.h.task.manifest.mxc) then Cancelled else Broken(AccountBusy), x);
    }
  }

  lemma {:induction false} OpenedPrompt(s: State, media: Result<MediaDownload, Error>, x: Mxc)
    requires s.h.task.Preparing? && s.h.task.manifest.mxc != x && Flagged(s.h, x)
    ensures Prompt(s, Opened(s, media), x, Next(s.h.open[x]))
  {
    if media.Err? {
      var back := Unopened(s);
      assert Opened(s, media) == EndJob(SetStage(back, Tail), s.h.task.manifest.mxc, Broken(media.error));
      EndPrompt(SetStage(back, Tail), s.h.task.manifest.mxc, Broken(media.error), x);
    }
  }

  lemma {:induction false} QuietPrompt(w: World, s: State, move: Move, x: Mxc)
    requires Inv(w, s, None, multiset{}) && May(w, s, move) && Flagged(s.h, x) && !IsWritingMove(move) && !IsPreparingMove(move)
    ensures Prompt(s, Act(w, s, move), x, Next(s.h.open[x]))
  {
    if IsSeekMove(move) { SeekMoveKeepsFiles(w, s, move); } else { QuietKeepsFiles(w, s, move); }
    UntouchedPrompt(s, Act(w, s, move), x);
  }

  lemma {:induction false} QuietKeepsFiles(w: World, s: State, move: Move)
    requires Inv(w, s, None, multiset{}) && May(w, s, move)
    requires !IsWritingMove(move) && !IsPreparingMove(move) && !IsSeekMove(move)
    ensures var next := Act(w, s, move);
            next.d.disk == s.d.disk && next.d.pool == s.d.pool && next.h.open == s.h.open && next.h.dir == s.h.dir
  {
    match move
    case TakeJobMove => TakeJobKeepsFiles(s.h);
    case ForgetMove(mxc) => ForgetKeepsFiles(s.h, mxc);
    case FinishPreparingMove => FinishPreparingKeepsFiles(s.h);
    case RecordedMove(failed) => RecordedKeepsFiles(s, failed);
    case _ =>
  }

  lemma {:induction false} RecordedKeepsFiles(s: State, failed: Option<Error>)
    requires s.h.finishing.Recording?
    ensures var next := FinishRecorded(s, failed);
            next.d.disk == s.d.disk && next.d.pool == s.d.pool && next.h.open == s.h.open && next.h.dir == s.h.dir
  {
  }

  lemma {:induction false} TakeJobKeepsFiles(h: Handler)
    requires h.q.inbox != [] && h.task == Idle
    ensures TakeJob(h).open == h.open && TakeJob(h).dir == h.dir
  {
  }

  lemma {:induction false} ForgetKeepsFiles(h: Handler, mxc: Mxc)
    requires mxc in h.seekOnly
    ensures ForgetSeekOnly(h, mxc).open == h.open && ForgetSeekOnly(h, mxc).dir == h.dir
  {
  }

  lemma {:induction false} FinishPreparingKeepsFiles(h: Handler)
    requires h.task.Preparing?
    ensures FinishPreparing(h).open == h.open && FinishPreparing(h).dir == h.dir
  {
  }

  lemma {:induction false} UntouchedPrompt(s: State, s2: State, x: Mxc)
    requires s2.h.dir == s.h.dir && s2.h.open == s.h.open && s2.d.disk == s.d.disk && s2.d.pool == s.d.pool && x in s.h.open
    ensures Prompt(s, s2, x, Next(s.h.open[x]))
  {
  }

  /** Once a running job's flag is set: whatever happens next, either the job still runs and nothing landed, or it is over
      with at most one more chunk, and never in the pool. */
  lemma {:induction false} CancelIsPrompt(w: World, s: State, move: Move, x: Mxc)
    requires Inv(w, s, None, multiset{}) && May(w, s, move) && Flagged(s.h, x)
    ensures Prompt(s, Act(w, s, move), x, Next(s.h.open[x]) + 1)
  {
    if IsWritingMove(move) {
      WritingPrompt(w, s, move, x);
    } else if IsPreparingMove(move) {
      PreparingPrompt(w, s, move, x);
    } else {
      QuietPrompt(w, s, move, x);
    }
  }

  lemma {:induction false} WritingPrompt(w: World, s: State, move: Move, x: Mxc)
    requires Inv(w, s, None, multiset{}) && May(w, s, move) && Flagged(s.h, x) && IsWritingMove(move)
    ensures Prompt(s, Act(w, s, move), x, Next(s.h.open[x]) + 1)
  {
    if move.TakeReplyMove? {
      ReplyPrompt(w, s, move.v, move.local, x);
    } else if move.CancelOneMove? {
      CancelOnePrompt(s, move.mxc, move.main, x);
    } else if move.AnsweredMove? {
      AnsweredPrompt(s, move.found, move.unread, x);
    } else {
      ClosePrompt(s, move.mxc, x);
    }
  }

  lemma {:induction false} ClosePrompt(s: State, mxc: Mxc, x: Mxc)
    requires IsIdleFile(s.h, mxc) && Flagged(s.h, x)
    ensures Prompt(s, CloseIdle(s, mxc), x, Next(s.h.open[x]))
  {
  }

  /** A cancelled job that was not taken up yet is gone, and no other. */
  lemma {:induction false} WaitingIsTakenOut(w: World, s: State, mxc: Mxc, x: Mxc)
    requires Inv(w, s, None, multiset{}) && May(w, s, CancelMove(mxc))
    requires InInbox(s.h.q.inbox, mxc) && mxc !in s.h.q.preparing && mxc !in s.h.q.downloading
    ensures HasJob(Act(w, s, CancelMove(mxc)).h.q, x) <==> HasJob(s.h.q, x) && x != mxc
  {
    InboxWithoutHas(s.h.q.inbox, mxc, x);
  }
}
