/** What one event makes of every handler, told without the machinery behind it. */
module DownloadEvents {
  import opened Files
  import opened Wrappers
  import opened JobQueue
  import opened Download
  import opened DownloadInv
  import opened DownloadMoves
  import opened DownloadSystem

  /** Who an event belongs to. */
  predicate PutsInto(e: Event, id: HandlerId) { (e.Put? || e.HandOver?) && e.target == id }

  predicate Actor(e: Event, id: HandlerId) { (e.Run? || e.Abort?) && e.id == id }

  predicate HandsOver(e: Event, id: HandlerId) { e.HandOver? && e.id == id }

  lemma {:induction false} ActKeepsId(w: World, s: State, move: Move)
    requires Inv(w, s, None, multiset{}) && May(w, s, move)
    ensures Act(w, s, move).h.id == s.h.id
  {
    ActTouches(w, s, move);
  }

  lemma {:induction false} RunMakes(file: Mxc -> ServerFile, y: System, id: HandlerId, move: Move)
    requires SysInv(file, y) && Possible(file, y, Run(id, move))
    ensures Inv(WorldOf(file, y, id), At(y, id), None, multiset{}) && FinishesOwn(y.handlers[id]) && y.handlers[id].id == id
    ensures var s2 := Act(WorldOf(file, y, id), At(y, id), move);
            After(file, y, Run(id, move)) == y.(handlers := y.handlers[id := s2.h], d := s2.d)
  {
    assert OneInv(WorldOf(file, y, id), At(y, id)) && y.handlers[id].id == id;
    ActKeepsId(WorldOf(file, y, id), At(y, id), move);
  }

  lemma {:induction false} AbortMakes(file: Mxc -> ServerFile, y: System, id: HandlerId)
    requires SysInv(file, y) && Possible(file, y, Abort(id))
    ensures Inv(WorldOf(file, y, id), At(y, id), None, multiset{}) && FinishesOwn(y.handlers[id]) && y.handlers[id].id == id
    ensures var s2 := Close(At(y, id));
            After(file, y, Abort(id)) == y.(handlers := y.handlers[id := s2.h], d := s2.d)
  {
    assert OneInv(WorldOf(file, y, id), At(y, id)) && y.handlers[id].id == id;
  }

  /** What an event that is not the handler's own makes of it: jobs come into its queue, or its job at hand is sent away. */
  function Beside(y: System, e: Event, id: HandlerId): Handler
    requires id in y.handlers
    requires e.HandOver? ==> e.id in y.handlers && y.handlers[e.id].task.Preparing?
  {
    var h := y.handlers[id];
    match e
    case Put(target, manifest, waiters) => if target == id then h.(q := EnqueueAt(h, manifest, waiters)) else h
    case HandOver(leaving, target) =>
      var job := y.handlers[leaving];
      if leaving == id then SendAway(h)
      else if target == id then h.(q := EnqueueAt(h, job.task.manifest, WaitersOf(job.q, job.task.manifest.mxc)))
      else h
    case _ => h
  }

  lemma {:induction false} OthersMake(file: Mxc -> ServerFile, y: System, e: Event, id: HandlerId)
    requires SysInv(file, y) && Possible(file, y, e) && id in y.handlers && !Actor(e, id)
    ensures id in After(file, y, e).handlers && After(file, y, e).handlers[id] == Beside(y, e, id)
  {
    if e.Run? { RunMakes(file, y, e.id, e.move); }
    else if e.Abort? { AbortMakes(file, y, e.id); }
    else if e.HandOver? { HandOverMakes(y, e.id, e.target, id); }
    else { PutMakes(file, y, e, id); }
  }

  lemma {:induction false} PutMakes(file: Mxc -> ServerFile, y: System, e: Event, id: HandlerId)
    requires SysInv(file, y) && Possible(file, y, e) && id in y.handlers && (e.Begin? || e.Put? || e.RecordLands?)
    ensures id in After(file, y, e).handlers && After(file, y, e).handlers[id] == Beside(y, e, id)
  {
  }

  lemma {:induction false} HandOverMakes(y: System, leaving: HandlerId, target: HandlerId, id: HandlerId)
    requires y.dues.Keys == y.handlers.Keys && leaving in y.handlers && target in y.handlers && leaving != target
    requires y.handlers[leaving].task.Preparing? && id in y.handlers
    ensures var h := y.handlers[leaving];
            var y2 := Give(Part(y, leaving), target, h.task.manifest, WaitersOf(h.q, h.task.manifest.mxc));
            id in y2.handlers && y2.handlers[id] == Beside(y, HandOver(leaving, target), id)
  {
  }

  /** Only `Begin` makes a handler, and none goes. */
  lemma {:induction false} OnlyBeginMakes(file: Mxc -> ServerFile, y: System, e: Event)
    requires SysInv(file, y) && Possible(file, y, e)
    ensures After(file, y, e).handlers.Keys == y.handlers.Keys + if e.Begin? then {e.id} else {}
  {
    if e.Run? { RunMakes(file, y, e.id, e.move); } else if e.Abort? { AbortMakes(file, y, e.id); }
  }

  lemma {:induction false} NewOnesBegin(file: Mxc -> ServerFile, y: System, e: Event, id: HandlerId)
    requires SysInv(file, y) && Possible(file, y, e) && id in After(file, y, e).handlers && id !in y.handlers
    ensures e.Begin? && e.id == id && After(file, y, e).handlers[id] == NewHandler(id, e.dir)
  {
    OnlyBeginMakes(file, y, e);
    assert id in After(file, y, e).handlers.Keys;
  }

  /** What runs, what is open and what is in flight at a handler: no other's event touches it. */
  predicate SameWork(h: Handler, h2: Handler) {
    && h2 == h.(q := h2.q, task := h2.task) && h2.q.downloading == h.q.downloading && h2.q.preparing == h.q.preparing
  }

  lemma {:induction false} BesideRuns(y: System, e: Event, id: HandlerId)
    requires id in y.handlers
    requires e.HandOver? ==> e.id in y.handlers && y.handlers[e.id].task.Preparing?
    ensures SameWork(y.handlers[id], Beside(y, e, id))
    ensures !HandsOver(e, id) ==> Beside(y, e, id).task == y.handlers[id].task
    ensures !HandsOver(e, id) && !PutsInto(e, id) ==> Beside(y, e, id) == y.handlers[id]
  {
    match e
    case Put(_, manifest, waiters) => EnqueueRuns(y.handlers[id], manifest, waiters);
    case HandOver(leaving, _) =>
      var job := y.handlers[leaving];
      EnqueueRuns(y.handlers[id], job.task.manifest, WaitersOf(job.q, job.task.manifest.mxc));
    case _ =>
  }

  lemma {:induction false} EnqueueRuns(h: Handler, manifest: Manifest, waiters: seq<Waiter>)
    ensures SameWork(h, h.(q := EnqueueAt(h, manifest, waiters)))
  {
  }
}
