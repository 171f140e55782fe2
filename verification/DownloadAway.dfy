/** A job that is handed over while a cancel comes: the one place where an accepted cancel stops nothing although the job
    runs on. */
module DownloadAway {
  import opened Files
  import opened Wrappers
  import opened JobQueue
  import opened Download
  import opened DownloadInv
  import opened DownloadMoves
  import opened DownloadSystem
  import DownloadShared
  import opened DownloadEvents
  import opened DownloadRuns
  import opened DownloadCancel

  /** The job being prepared at `id` is of this file and not running yet. */
  predicate PreparesHere(y: System, id: HandlerId, x: Mxc) {
    && Alive(y, id) && y.handlers[id].task.Preparing? && y.handlers[id].task.manifest.mxc == x
    && y.handlers[id].task.stage != Tail
  }

  /** The job is being wound up: not running, only its entry is still there. */
  predicate WoundUp(y: System, id: HandlerId, x: Mxc) {
    && Alive(y, id) && AtStage(y.handlers[id], Tail) && y.handlers[id].task.manifest.mxc == x
    && x !in y.handlers[id].q.downloading
  }

  /** The job and its waiters are at `target` now, with the cancel that was noted there before and no other. */
  ghost predicate GoesOnAt(y: System, y2: System, id: HandlerId, x: Mxc, target: HandlerId) {
    && id in y.handlers && target in y.handlers && target in y2.handlers && target != id
    && HasJob(y2.handlers[target].q, x)
    && WaitersOf(y2.handlers[target].q, x) == WaitersOf(y.handlers[target].q, x) + WaitersOf(y.handlers[id].q, x)
    && (Pending(y2.handlers[target], x) <==> Pending(y.handlers[target], x))
  }

  lemma {:induction false} EnqueueKeepsFlags(h: Handler, manifest: Manifest, waiters: seq<Waiter>, x: Mxc)
    ensures Pending(h.(q := EnqueueAt(h, manifest, waiters)), x) <==> Pending(h, x)
  {
  }

  lemma {:induction false} EnqueueGoesOn(h: Handler, manifest: Manifest, waiters: seq<Waiter>)
    ensures var h2 := h.(q := EnqueueAt(h, manifest, waiters));
            && HasJob(h2.q, manifest.mxc) && WaitersOf(h2.q, manifest.mxc) == WaitersOf(h.q, manifest.mxc) + waiters
            && (Pending(h2, manifest.mxc) <==> Pending(h, manifest.mxc))
  {
    var q2 := Enqueue(h.q, manifest, waiters);
    EnqueueKeepsFlags(h, manifest, waiters, manifest.mxc);
    if StatusIn(h.q, manifest.mxc).None? { assert q2.inbox[|h.q.inbox|] == manifest; }
    assert waiters == [] ==> WaitersOf(h.q, manifest.mxc) + waiters == WaitersOf(h.q, manifest.mxc);
  }

  /** Handing over puts the job there, with everyone who waited. */
  lemma {:induction false} HandedOverGoesOn(file: Mxc -> ServerFile, y: System, id: HandlerId, target: HandlerId)
    requires SysInv(file, y) && Possible(file, y, HandOver(id, target))
    ensures var x := y.handlers[id].task.manifest.mxc;
            var y2 := After(file, y, HandOver(id, target));
            GoesOnAt(y, y2, id, x, target) && WoundUp(y2, id, x)
  {
    var h := y.handlers[id];
    var x := h.task.manifest.mxc;
    OthersMake(file, y, HandOver(id, target), id);
    OthersMake(file, y, HandOver(id, target), target);
    EnqueueGoesOn(y.handlers[target], h.task.manifest, WaitersOf(h.q, x));
    SentAwayIsWoundUp(h);
    NotRunningYet(file, y, id);
  }

  lemma SentAwayIsWoundUp(h: Handler)
    requires AtStage(h, Looking)
    ensures var h2 := SendAway(h);
            AtStage(h2, Tail) && h2.task.manifest == h.task.manifest && h2.q.downloading == h.q.downloading && h2.closed == h.closed
  {
  }

  lemma {:induction false} NotRunningYet(file: Mxc -> ServerFile, y: System, id: HandlerId)
    requires SysInv(file, y) && Alive(y, id) && AtStage(y.handlers[id], Looking)
    ensures y.handlers[id].task.manifest.mxc !in y.handlers[id].q.downloading
  {
    assert OneInv(WorldOf(file, y, id), At(y, id));
  }

  lemma {:induction false} MarksAndDrops(h: Handler, x: Mxc)
    requires h.task.Preparing? && h.task.manifest.mxc == x && h.task.stage == Tail && x in h.q.preparing && x !in h.q.downloading
    ensures var h2 := h.(q := Cancel(h.q, x));
            && CancelAccepted(h.q, x) && Pending(h2, x) && h2.task == h.task && h2.finishing == h.finishing && h2.closed == h.closed
            && !Pending(FinishPreparing(h2), x) && Over(FinishPreparing(h2), x)
  {
  }

  lemma {:induction false} IsStillListed(file: Mxc -> ServerFile, y: System, id: HandlerId)
    requires SysInv(file, y) && Alive(y, id) && y.handlers[id].task.Preparing?
    ensures y.handlers[id].task.manifest.mxc in y.handlers[id].q.preparing
  {
    assert OneInv(WorldOf(file, y, id), At(y, id));
    assert y.handlers[id].task.manifest.mxc in y.handlers[id].q.preparing.Keys;
  }

  /** A cancel, or the end of the preparing: only this handler changes. */
  lemma {:induction false} OwnStep(file: Mxc -> ServerFile, y: System, id: HandlerId, move: Move) returns (next: System)
    requires SysInv(file, y) && Alive(y, id) && (move.CancelMove? || (move.FinishPreparingMove? && AtStage(y.handlers[id], Tail)))
    ensures Possible(file, y, Run(id, move)) && next == After(file, y, Run(id, move)) && SysInv(file, next)
    ensures var h := y.handlers[id];
            next.handlers == y.handlers[id := if move.CancelMove? then h.(q := Cancel(h.q, move.mxc)) else FinishPreparing(h)]
  {
    assert OneInv(WorldOf(file, y, id), At(y, id)) && y.handlers[id].id == id;
    next := After(file, y, Run(id, move));
    DownloadShared.StepKeeps(file, y, Run(id, move));
  }

  // ---- between the end of the job and the end of its entry ----

  /** The handler neither ends the preparing nor is dropped. */
  predicate StaysAtTail(events: seq<Event>, id: HandlerId) {
    forall e :: e in events ==> e != Run(id, FinishPreparingMove) && e != Abort(id)
  }

  lemma {:induction false} TailMoves(w: World, s: State, move: Move, x: Mxc)
    requires Inv(w, s, None, multiset{}) && May(w, s, move) && AtStage(s.h, Tail) && move != FinishPreparingMove
    ensures var h2 := Act(w, s, move).h;
            && h2.task == s.h.task && h2.finishing == s.h.finishing && h2.closed == s.h.closed
            && h2.q.downloading.Keys == s.h.q.downloading.Keys && (Pending(s.h, x) ==> Pending(h2, x))
            && (move == CancelMove(x) && s.h.task.manifest.mxc == x ==> Pending(h2, x))
  {
    assert move.CancelMove? || move.AskMove? || move.StopMove? || move.SenderMove?;
    if move.CancelMove? { MarksAtTail(s.h, move.mxc, x); }
  }

  lemma {:induction false} MarksAtTail(h: Handler, mxc: Mxc, x: Mxc)
    requires TaskShape(h) && AtStage(h, Tail)
    ensures var h2 := h.(q := Cancel(h.q, mxc));
            && h2.q.downloading.Keys == h.q.downloading.Keys && (Pending(h, x) ==> Pending(h2, x))
            && (mxc == x && h.task.manifest.mxc == x ==> Pending(h2, x))
  {
    assert h.task.manifest.mxc in h.q.preparing.Keys;
  }

  lemma {:induction false} TailEvent(file: Mxc -> ServerFile, y: System, e: Event, id: HandlerId, x: Mxc)
    requires SysInv(file, y) && Possible(file, y, e) && WoundUp(y, id, x) && e != Run(id, FinishPreparingMove) && e != Abort(id)
    ensures var y2 := After(file, y, e);
            && WoundUp(y2, id, x) && (Pending(y.handlers[id], x) || e == Run(id, CancelMove(x)) ==> Pending(y2.handlers[id], x))
  {
    if e.Run? && e.id == id {
      RunMakes(file, y, id, e.move);
      TailMoves(WorldOf(file, y, id), At(y, id), e.move, x);
      assert x in After(file, y, e).handlers[id].q.downloading <==> x in y.handlers[id].q.downloading.Keys;
    } else {
      OthersMake(file, y, e, id);
      BesideRuns(y, e, id);
    }
  }

  lemma {:induction false} TailRun(file: Mxc -> ServerFile, y: System, events: seq<Event>, id: HandlerId, x: Mxc)
    requires SysInv(file, y) && IsRun(file, y, events) && WoundUp(y, id, x) && StaysAtTail(events, id)
    ensures var end := EndOf(file, y, events);
            && SysInv(file, end) && WoundUp(end, id, x)
            && (Pending(y.handlers[id], x) || Run(id, CancelMove(x)) in events ==> Pending(end.handlers[id], x))
    decreases |events|
  {
    if events != [] {
      DownloadShared.StepKeeps(file, y, events[0]);
      FirstStays(events, id, Run(id, CancelMove(x)));
      TailEvent(file, y, events[0], id, x);
      TailRun(file, After(file, y, events[0]), events[1..], id, x);
    }
  }

  lemma FirstStays(events: seq<Event>, id: HandlerId, e: Event)
    requires events != [] && StaysAtTail(events, id)
    ensures events[0] != Run(id, FinishPreparingMove) && events[0] != Abort(id) && StaysAtTail(events[1..], id)
    ensures e in events ==> e == events[0] || e in events[1..]
  {
    assert events[0] in events;
    assert forall f :: f in events[1..] ==> f in events;
  }

  /** A cancel that comes now is accepted and noted, and nothing else happens. */
  ghost predicate TakesCancel(file: Mxc -> ServerFile, y: System, id: HandlerId, x: Mxc)
    requires SysInv(file, y) && WoundUp(y, id, x)
  {
    && CancelAccepted(y.handlers[id].q, x) && Possible(file, y, Run(id, CancelMove(x)))
    && var y2 := After(file, y, Run(id, CancelMove(x)));
       WoundUp(y2, id, x) && Pending(y2.handlers[id], x) && OthersAre(y, y2, id)
  }

  /** When the entry goes, the cancel noted on it goes too: the job is over here and the others are as they were. */
  ghost predicate DropsCancel(file: Mxc -> ServerFile, y: System, id: HandlerId, x: Mxc)
    requires SysInv(file, y) && WoundUp(y, id, x)
  {
    && Possible(file, y, Run(id, FinishPreparingMove))
    && var y2 := After(file, y, Run(id, FinishPreparingMove));
       id in y2.handlers && !Pending(y2.handlers[id], x) && Over(y2.handlers[id], x) && OthersAre(y, y2, id)
  }

  lemma {:induction false} WoundUpTakesAndDrops(file: Mxc -> ServerFile, y: System, id: HandlerId, x: Mxc)
    requires SysInv(file, y) && WoundUp(y, id, x)
    ensures TakesCancel(file, y, id, x) && DropsCancel(file, y, id, x)
  {
    TakesItNow(file, y, id, x);
    var finished := OwnStep(file, y, id, FinishPreparingMove);
    ForgetsMark(y.handlers[id], x);
  }

  lemma {:induction false} TakesItNow(file: Mxc -> ServerFile, y: System, id: HandlerId, x: Mxc)
    requires SysInv(file, y) && WoundUp(y, id, x)
    ensures TakesCancel(file, y, id, x)
  {
    IsStillListed(file, y, id);
    MarksAndDrops(y.handlers[id], x);
    var cancelled := OwnStep(file, y, id, CancelMove(x));
    TailEvent(file, y, Run(id, CancelMove(x)), id, x);
  }

  lemma {:induction false} ForgetsMark(h: Handler, x: Mxc)
    requires h.task.Preparing? && h.task.manifest.mxc == x && x !in h.q.downloading
    ensures !Pending(FinishPreparing(h), x) && Over(FinishPreparing(h), x)
  {
  }

  /** A job leaves its preparing without running: it was handed over, or it ended here and all its waiters were told. Whatever
      happens then until its entry goes, a cancel is accepted and noted at any moment, and the entry takes it along: the cancel
      stops nothing. The job runs on if and only if it was handed over. */
  lemma {:induction false} LateCancelStopsNothing(file: Mxc -> ServerFile, y: System, e: Event, events: seq<Event>,
      id: HandlerId, x: Mxc)
    requires SysInv(file, y) && Possible(file, y, e) && PreparesHere(y, id, x)
    requires SysInv(file, After(file, y, e)) && WoundUp(After(file, y, e), id, x)
    requires IsRun(file, After(file, y, e), events) && StaysAtTail(events, id)
    ensures var end := EndOf(file, After(file, y, e), events);
            && SysInv(file, end) && WoundUp(end, id, x)
            && TakesCancel(file, end, id, x) && DropsCancel(file, end, id, x)
            && (Run(id, CancelMove(x)) in events ==> Pending(end.handlers[id], x))
    ensures var y1 := After(file, y, e);
            && (HandsOver(e, id) ==> GoesOnAt(y, y1, id, x, e.target))
            && (!HandsOver(e, id) ==> EndsHere(y.handlers[id], y1.handlers[id], x))
            && (WaitersOf(y.handlers[id].q, x) != [] ==> ((exists target :: GoesOnAt(y, y1, id, x, target)) <==> HandsOver(e, id)))
  {
    var y1 := After(file, y, e);
    TailRun(file, y1, events, id, x);
    WoundUpTakesAndDrops(file, EndOf(file, y1, events), id, x);
    if HandsOver(e, id) {
      HandedOverGoesOn(file, y, id, e.target);
    } else {
      GoesOnNowhere(file, y, e, id, x);
    }
  }

  /** Nothing happened at the others. */
  ghost predicate OthersAre(y1: System, y3: System, id: HandlerId) {
    forall other :: other in y1.handlers && other != id ==> other in y3.handlers && y3.handlers[other] == y1.handlers[other]
  }

  lemma {:induction false} GoesOnNowhere(file: Mxc -> ServerFile, y: System, e: Event, id: HandlerId, x: Mxc)
    requires SysInv(file, y) && Possible(file, y, e) && PreparesHere(y, id, x) && !HandsOver(e, id)
    requires WoundUp(After(file, y, e), id, x)
    ensures EndsHere(y.handlers[id], After(file, y, e).handlers[id], x)
    ensures WaitersOf(y.handlers[id].q, x) != [] ==> forall target :: !GoesOnAt(y, After(file, y, e), id, x, target)
  {
    JobStaysOrEnds(file, y, e, id, x);
    OnlyItsOwn(file, y, e, id, x);
  }

  /** Such an event is the handler's own, and leaves the others alone. */
  lemma {:induction false} OnlyItsOwn(file: Mxc -> ServerFile, y: System, e: Event, id: HandlerId, x: Mxc)
    requires SysInv(file, y) && Possible(file, y, e) && PreparesHere(y, id, x) && !HandsOver(e, id)
    requires WoundUp(After(file, y, e), id, x)
    ensures OthersAre(y, After(file, y, e), id)
  {
    if Actor(e, id) {
      ActorAlone(file, y, e, id);
    } else {
      OthersMake(file, y, e, id);
      BesideRuns(y, e, id);
    }
  }

  lemma {:induction false} ActorAlone(file: Mxc -> ServerFile, y: System, e: Event, id: HandlerId)
    requires SysInv(file, y) && Possible(file, y, e) && Actor(e, id)
    ensures OthersAre(y, After(file, y, e), id)
  {
    if e.Run? { RunMakes(file, y, id, e.move); } else { AbortMakes(file, y, id); }
  }
}
