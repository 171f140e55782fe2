/** A cancelled job over whole runs: while it still runs its file stands where it stood when the flag was raised, and when it
    is over at most one more chunk has landed and nothing has gone into the pool. */
module DownloadStops {
  import opened Files
  import opened Wrappers
  import opened JobQueue
  import opened Download
  import opened DownloadInv
  import DownloadJobs
  import opened DownloadFrame
  import opened DownloadMoves
  import opened DownloadSystem
  import DownloadShared
  import opened DownloadEvents
  import opened DownloadRuns
  import DownloadProgress
  import opened DownloadCancel

  /** If the job still runs its flag is still up. */
  predicate StillFlagged(q2: QueueState, x: Mxc) { x in q2.downloading ==> q2.downloading[x].cancelled }

  lemma {:induction false} PreparingKeepsFlag(w: World, s: State, move: Move, x: Mxc)
    requires Inv(w, s, None, multiset{}) && May(w, s, move) && IsPreparingMove(move) && Flagged(s.h, x)
    ensures StillFlagged(Act(w, s, move).h.q, x)
  {
    DownloadProgress.OtherThanTask(w, s, move, x);
    match move
    case LookedMove(found) =>
      if found { EndTailKeepsFlag(s, Complete, x); }
      else if ClaimedElsewhere(s) {
        EndTailKeepsFlag(s, if CancelledWhilePreparing(s.h.q, s.h.task.manifest.mxc) then Cancelled else Broken(AccountBusy), x);
      }
    case OpenedMove(media) => OpenedKeepsFlag(s, media, x);
    case CancelCheckMove => EndTailKeepsFlag(s, Cancelled, x);
    case StartJobMove(disk) => StartKeepsFlag(s, disk, x);
    case _ =>
  }

  lemma {:induction false} EndTailKeepsFlag(s: State, end: JobEnd, x: Mxc)
    requires s.h.task.Preparing? && StillFlagged(s.h.q, x)
    ensures StillFlagged(EndJob(SetStage(s, Tail), s.h.task.manifest.mxc, end).h.q, x)
  {
    EndTailShrinks(s, end);
  }

  lemma {:induction false} OpenedKeepsFlag(s: State, media: Result<MediaDownload, Error>, x: Mxc)
    requires s.h.task.Preparing? && StillFlagged(s.h.q, x)
    ensures StillFlagged(Opened(s, media).h.q, x)
  {
    if media.Err? {
      assert Opened(s, media) == EndJob(SetStage(DownloadJobs.Unopened(s), Tail), s.h.task.manifest.mxc, Broken(media.error));
      EndTailKeepsFlag(DownloadJobs.Unopened(s), Broken(media.error), x);
    }
  }

  lemma {:induction false} StartKeepsFlag(s: State, disk: DiskResults, x: Mxc)
    requires s.h.task.Preparing? && s.h.task.manifest.mxc in s.h.open && s.h.task.manifest.mxc != x && StillFlagged(s.h.q, x)
    ensures StillFlagged(StartJob(s, disk).h.q, x)
  {
    StartShrinks(s, disk);
  }

  lemma {:induction false} MoveKeepsFlag(w: World, s: State, move: Move, x: Mxc)
    requires Inv(w, s, None, multiset{}) && May(w, s, move) && Flagged(s.h, x)
    ensures StillFlagged(Act(w, s, move).h.q, x)
  {
    if IsWritingMove(move) {
      WritingShrinks(w, s, move);
    } else if IsPreparingMove(move) {
      PreparingKeepsFlag(w, s, move, x);
    } else if IsSeekMove(move) {
      SeekMoveKeepsFiles(w, s, move);
    } else {
      QuietKeepsFlag(w, s, move, x);
    }
  }

  lemma {:induction false} QuietKeepsFlag(w: World, s: State, move: Move, x: Mxc)
    requires Inv(w, s, None, multiset{}) && May(w, s, move) && Flagged(s.h, x)
    requires !IsWritingMove(move) && !IsPreparingMove(move) && !IsSeekMove(move)
    ensures StillFlagged(Act(w, s, move).h.q, x)
  {
    if move.FinishPreparingMove? {
      FinishKeepsFlag(s.h, x);
    } else if move.CancelMove? {
      CancelKeepsFlag(s.h.q, move.mxc, x);
    }
  }

  lemma {:induction false} FinishKeepsFlag(h: Handler, x: Mxc)
    requires h.task.Preparing? && StillFlagged(h.q, x)
    ensures StillFlagged(FinishPreparing(h).q, x)
  {
  }

  lemma {:induction false} CancelKeepsFlag(q: QueueState, mxc: Mxc, x: Mxc)
    requires StillFlagged(q, x)
    ensures StillFlagged(Cancel(q, mxc), x)
  {
  }

  /** Compared with `d`: at most chunk `n` more was written of the file, and it did not go into the pool. */
  ghost predicate Within(d: Shared, y: System, id: HandlerId, x: Mxc, n: nat)
    requires id in y.handlers
  {
    var h := y.handlers[id];
    var key := Key(h, x);
    && (x in h.open ==> Next(h.open[x]) <= n + 1)
    && (Look(y.d.disk, key) == Look(d.disk, key) || (key in y.d.disk ==> Next(y.d.disk[key]) <= n + 1))
    && Look(y.d.pool, key) == Look(d.pool, key)
  }

  /** The job runs, flagged, and its main file has `n` chunks. */
  predicate StandsAt(y: System, id: HandlerId, x: Mxc, n: nat) {
    id in y.handlers && Flagged(y.handlers[id], x) && Next(y.handlers[id].open[x]) == n
  }

  lemma {:induction false} EventStops(file: Mxc -> ServerFile, d: Shared, y: System, e: Event, id: HandlerId, x: Mxc, n: nat)
    requires SysInv(file, y) && Possible(file, y, e) && StandsAt(y, id, x, n) && Within(d, y, id, x, n)
    ensures var y2 := After(file, y, e);
            id in y2.handlers && Within(d, y2, id, x, n) && (x in y2.handlers[id].q.downloading ==> StandsAt(y2, id, x, n))
  {
    var y2 := After(file, y, e);
    if e.Run? && e.id == id {
      RunStops(file, d, y, e.move, id, x, n);
    } else if e.Abort? && e.id == id {
      AbortMakes(file, y, id);
      AbortKeepsWithin(At(y, id), x);
    } else {
      OthersMake(file, y, e, id);
      BesideRuns(y, e, id);
      OwnFileKept(file, y, e, id, x);
    }
  }

  lemma {:induction false} RunStops(file: Mxc -> ServerFile, d: Shared, y: System, move: Move, id: HandlerId, x: Mxc, n: nat)
    requires SysInv(file, y) && Possible(file, y, Run(id, move)) && StandsAt(y, id, x, n) && Within(d, y, id, x, n)
    ensures var y2 := After(file, y, Run(id, move));
            id in y2.handlers && Within(d, y2, id, x, n) && (x in y2.handlers[id].q.downloading ==> StandsAt(y2, id, x, n))
  {
    RunMakes(file, y, id, move);
    MoveStops(WorldOf(file, y, id), At(y, id), move, x);
  }

  lemma {:induction false} MoveStops(w: World, s: State, move: Move, x: Mxc)
    requires Inv(w, s, None, multiset{}) && May(w, s, move) && Flagged(s.h, x)
    ensures var s2 := Act(w, s, move);
            && AtMost(s, s2, x, Next(s.h.open[x]) + 1)
            && (x in s2.h.q.downloading ==> Flagged(s2.h, x) && Next(s2.h.open[x]) == Next(s.h.open[x]))
  {
    CancelIsPrompt(w, s, move, x);
    MoveKeepsFlag(w, s, move, x);
  }

  lemma {:induction false} AbortKeepsWithin(s: State, x: Mxc)
    requires x in s.h.open
    ensures var s2 := Close(s);
            && s2.h.open == map[] && s2.h.q.downloading == map[] && s2.d.pool == s.d.pool && s2.h.dir == s.h.dir
            && Look(s2.d.disk, Key(s.h, x)) == Some(s.h.open[x])
  {
    assert Key(s.h, x) in KeptOnDisk(s.h) && KeptOnDisk(s.h)[Key(s.h, x)] == s.h.open[x];
  }

  /** What others do leaves the files this handler has open alone, on disk and in the pool. */
  lemma {:induction false} OwnFileKept(file: Mxc -> ServerFile, y: System, e: Event, id: HandlerId, x: Mxc)
    requires SysInv(file, y) && Possible(file, y, e) && !Actor(e, id) && id in y.handlers && x in y.handlers[id].open
    ensures SameFile(y.d, After(file, y, e).d, Key(y.handlers[id], x))
  {
    var key := Key(y.handlers[id], x);
    assert OneInv(WorldOf(file, y, id), At(y, id));
    assert Holds(At(y, id), x);
    EventKeepsToOwn(file, y, e, key);
  }

  /** Up to the first state where the job is over: it stands where it stood; and there at most one chunk further. */
  ghost predicate StopsInRun(file: Mxc -> ServerFile, d: Shared, y: System, events: seq<Event>, id: HandlerId, x: Mxc, n: nat)
    requires SysInv(file, y) && IsRun(file, y, events)
    decreases |events|
  {
    && id in y.handlers && Within(d, y, id, x, n)
    && (x in y.handlers[id].q.downloading ==>
          StandsAt(y, id, x, n) &&
          (events != [] ==> (DownloadShared.StepKeeps(file, y, events[0]); StopsInRun(file, d, After(file, y, events[0]), events[1..], id, x, n))))
  }

  /** A running job whose flag is up, in any run: not one more chunk while it runs, at most one at its end, never the pool. */
  lemma {:induction false} CancelStops(file: Mxc -> ServerFile, y: System, events: seq<Event>, id: HandlerId, x: Mxc)
    requires SysInv(file, y) && IsRun(file, y, events) && id in y.handlers && Flagged(y.handlers[id], x)
    ensures StopsInRun(file, y.d, y, events, id, x, Next(y.handlers[id].open[x]))
  {
    StopsFrom(file, y.d, y, events, id, x, Next(y.handlers[id].open[x]));
  }

  lemma {:induction false} StopsFrom(file: Mxc -> ServerFile, d: Shared, y: System, events: seq<Event>, id: HandlerId, x: Mxc, n: nat)
    requires SysInv(file, y) && IsRun(file, y, events) && id in y.handlers && Within(d, y, id, x, n)
    requires x in y.handlers[id].q.downloading ==> StandsAt(y, id, x, n)
    ensures StopsInRun(file, d, y, events, id, x, n)
    decreases |events|
  {
    if events != [] && x in y.handlers[id].q.downloading {
      DownloadShared.StepKeeps(file, y, events[0]);
      EventStops(file, d, y, events[0], id, x, n);
      StopsFrom(file, d, After(file, y, events[0]), events[1..], id, x, n);
    }
  }
}
