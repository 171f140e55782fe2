/** Whole runs: every reachable state of any number of handlers, from any sound disk and pool left by an earlier process. */
module DownloadRuns {
  import opened Files
  import opened Wrappers
  import opened Tally
  import opened JobQueue
  import opened Download
  import opened DownloadInv
  import opened DownloadFrame
  import opened DownloadMoves
  import opened DownloadSystem
  import opened DownloadShared
  import opened DownloadEvents

  /** A process that starts: no handler, no claim; disk and pool as earlier processes left them. */
  ghost predicate Starting(file: Mxc -> ServerFile, y: System) {
    && y.handlers == map[] && y.dues == map[] && y.issued == multiset{} && y.d.claims == map[]
    && SharedSound(World(file, multiset{}), y.d)
  }

  lemma {:induction false} StartingInv(file: Mxc -> ServerFile, y: System)
    requires Starting(file, y)
    ensures SysInv(file, y)
  {
  }

  ghost predicate IsRun(file: Mxc -> ServerFile, y: System, events: seq<Event>)
    requires SysInv(file, y)
    decreases |events|
  {
    events == [] || (Possible(file, y, events[0]) && (StepKeeps(file, y, events[0]); IsRun(file, After(file, y, events[0]), events[1..])))
  }

  /** Where a run ends. */
  ghost function EndOf(file: Mxc -> ServerFile, y: System, events: seq<Event>): System
    requires SysInv(file, y) && IsRun(file, y, events)
    decreases |events|
  {
    if events == [] then y
    else
      StepKeeps(file, y, events[0]);
      EndOf(file, After(file, y, events[0]), events[1..])
  }

  /** No run leaves the invariant. */
  lemma {:induction false} RunKeepsInv(file: Mxc -> ServerFile, y: System, events: seq<Event>)
    requires SysInv(file, y) && IsRun(file, y, events)
    ensures SysInv(file, EndOf(file, y, events))
    decreases |events|
  {
    if events != [] {
      StepKeeps(file, y, events[0]);
      RunKeepsInv(file, After(file, y, events[0]), events[1..]);
    }
  }

  /** `y` can be reached. */
  ghost predicate Reachable(file: Mxc -> ServerFile, y: System) {
    exists start: System, events: seq<Event> ::
      Starting(file, start) && SysInv(file, start) && IsRun(file, start, events) && y == EndOf(file, start, events)
  }

  lemma {:induction false} ReachableInv(file: Mxc -> ServerFile, y: System)
    requires Reachable(file, y)
    ensures SysInv(file, y)
  {
    var start: System, events: seq<Event> :|
      Starting(file, start) && SysInv(file, start) && IsRun(file, start, events) && y == EndOf(file, start, events);
    RunKeepsInv(file, start, events);
  }

  // ---- one writer ----

  /** Two handlers of one server directory never hold the same file, alive or not: one of them would have no claim. */
  lemma {:induction false} OneWriter(file: Mxc -> ServerFile, y: System, a: HandlerId, b: HandlerId, mxc: Mxc)
    requires Reachable(file, y) && a in y.handlers && b in y.handlers && y.handlers[a].dir == y.handlers[b].dir
    requires Holding(y.handlers[a], mxc) && Holding(y.handlers[b], mxc)
    ensures a == b
  {
    ReachableInv(file, y);
    assert OneInv(WorldOf(file, y, a), At(y, a)) && OneInv(WorldOf(file, y, b), At(y, b));
    assert Holds(At(y, a), mxc) && Holds(At(y, b), mxc);
  }

  /** The claim table says who holds a file, exactly. */
  lemma {:induction false} ClaimIsHolding(file: Mxc -> ServerFile, y: System, id: HandlerId, mxc: Mxc)
    requires Reachable(file, y) && id in y.handlers
    ensures Look(y.d.claims, Key(y.handlers[id], mxc)) == Some(id) <==> Holding(y.handlers[id], mxc)
  {
    ReachableInv(file, y);
    assert OneInv(WorldOf(file, y, id), At(y, id));
    assert Holds(At(y, id), mxc) <==> Holding(At(y, id).h, mxc);
  }

  ghost predicate SameFile(d: Shared, d2: Shared, key: FileKey) {
    Look(d2.disk, key) == Look(d.disk, key) && Look(d2.pool, key) == Look(d.pool, key)
  }

  /** Other events touch no claim and no file. */
  lemma {:induction false} OthersKeepFiles(file: Mxc -> ServerFile, y: System, e: Event)
    requires SysInv(file, y) && Possible(file, y, e) && !e.Run? && !e.Abort?
    ensures var d2 := After(file, y, e).d; d2.claims == y.d.claims && d2.disk == y.d.disk && d2.pool == y.d.pool
  {
  }

  /** Whatever an event changes on disk or in the pool was claimed by the handler that did it; nobody gives up or takes
      over another's claim. */
  lemma {:induction false} WritesOnlyOwn(file: Mxc -> ServerFile, y: System, e: Event, key: FileKey)
    requires Reachable(file, y) && SysInv(file, y) && Possible(file, y, e)
    ensures !SameFile(y.d, After(file, y, e).d, key) ==> key in y.d.claims && Actor(e, y.d.claims[key])
    ensures key in y.d.claims && !Actor(e, y.d.claims[key]) ==> Look(After(file, y, e).d.claims, key) == Look(y.d.claims, key)
    ensures key in After(file, y, e).d.claims && key !in y.d.claims ==> Actor(e, After(file, y, e).d.claims[key])
  {
    EventKeepsToOwn(file, y, e, key);
  }

  lemma {:induction false} EventKeepsToOwn(file: Mxc -> ServerFile, y: System, e: Event, key: FileKey)
    requires SysInv(file, y) && Possible(file, y, e)
    ensures var d2 := After(file, y, e).d;
            && (!SameFile(y.d, d2, key) ==> key in y.d.claims && Actor(e, y.d.claims[key]))
            && (key in y.d.claims && !Actor(e, y.d.claims[key]) ==> Look(d2.claims, key) == Look(y.d.claims, key))
            && (key in d2.claims && key !in y.d.claims ==> Actor(e, d2.claims[key]))
  {
    if e.Run? {
      var w, s := WorldOf(file, y, e.id), At(y, e.id);
      RunMakes(file, y, e.id, e.move);
      MoveKeepsToOwn(w, s, e.move, key);
    } else if e.Abort? {
      AbortMakes(file, y, e.id);
      CloseTouches(At(y, e.id));
      TouchesKey(At(y, e.id), Close(At(y, e.id)), key);
    } else {
      OthersKeepFiles(file, y, e);
    }
  }

  lemma {:induction false} MoveKeepsToOwn(w: World, s: State, move: Move, key: FileKey)
    requires Inv(w, s, None, multiset{}) && May(w, s, move)
    ensures var s2 := Act(w, s, move);
            && (!SameFile(s.d, s2.d, key) ==> Look(s.d.claims, key) == Some(s.h.id))
            && (key in s.d.claims && s.d.claims[key] != s.h.id ==> Look(s2.d.claims, key) == Look(s.d.claims, key))
            && (key in s2.d.claims && key !in s.d.claims ==> s2.d.claims[key] == s.h.id)
  {
    ActTouches(w, s, move);
    TouchesKey(s, Act(w, s, move), key);
  }

  lemma {:induction false} TouchesKey(s: State, s2: State, key: FileKey)
    requires Touches(s, s2)
    ensures !SameFile(s.d, s2.d, key) ==> Look(s.d.claims, key) == Some(s.h.id)
    ensures key in s.d.claims && s.d.claims[key] != s.h.id ==> Look(s2.d.claims, key) == Look(s.d.claims, key)
    ensures key in s2.d.claims && key !in s.d.claims ==> s2.d.claims[key] == s.h.id
  {
    assert ClaimMoves(s, s2, key);
  }

  // ---- the claim that stays ----

  /** What a dropped handler leaves behind in the claim table: the one file that is in the pool and not yet recorded. */
  lemma {:induction false} LeakedExactly(file: Mxc -> ServerFile, y: System, id: HandlerId, key: FileKey)
    requires Reachable(file, y) && id in y.handlers && y.handlers[id].closed && key.dir == y.handlers[id].dir
    ensures Look(y.d.claims, key) == Some(id) <==> y.handlers[id].finishing == Recording(key.mxc)
  {
    ClaimIsHolding(file, y, id, key.mxc);
    ReachableInv(file, y);
    assert OneInv(WorldOf(file, y, id), At(y, id));
    assert Key(y.handlers[id], key.mxc) == key;
  }

  /** Dropping a handler gives up every claim if and only if it was not between the pool and the record. */
  lemma {:induction false} AbortReleasesUnlessRecording(file: Mxc -> ServerFile, y: System, id: HandlerId)
    requires Reachable(file, y) && SysInv(file, y) && Possible(file, y, Abort(id))
    ensures (forall key :: Look(After(file, y, Abort(id)).d.claims, key) != Some(id)) <==> !y.handlers[id].finishing.Recording?
  {
    var y2 := After(file, y, Abort(id));
    StepKeeps(file, y, Abort(id));
    AbortMakes(file, y, id);
    ClaimsOfClosed(file, y2, id);
  }

  /** The claims a handler that is gone still has: none unless it was recording. */
  lemma {:induction false} ClaimsOfClosed(file: Mxc -> ServerFile, y: System, id: HandlerId)
    requires SysInv(file, y) && id in y.handlers && y.handlers[id].closed
    ensures (forall key :: Look(y.d.claims, key) != Some(id)) <==> !y.handlers[id].finishing.Recording?
  {
    var h := y.handlers[id];
    assert OneInv(WorldOf(file, y, id), At(y, id)) && h.id == id;
    if h.finishing.Recording? {
      assert Holding(h, h.finishing.mxc) && Holds(At(y, id), h.finishing.mxc);
      assert Look(y.d.claims, Key(h, h.finishing.mxc)) == Some(id);
    } else {
      forall key ensures Look(y.d.claims, key) != Some(id) {
        if key in y.d.claims && y.d.claims[key] == id {
          assert h.dir == key.dir && Holds(At(y, id), key.mxc);
        }
      }
    }
  }

  /** Once left behind, such a claim never goes: whatever happens later, no handler gets the file. */
  lemma {:induction false} LeakStays(file: Mxc -> ServerFile, y: System, events: seq<Event>, id: HandlerId, key: FileKey)
    requires SysInv(file, y) && IsRun(file, y, events)
    requires id in y.handlers && y.handlers[id].closed && Look(y.d.claims, key) == Some(id)
    ensures id in EndOf(file, y, events).handlers && EndOf(file, y, events).handlers[id].closed
    ensures Look(EndOf(file, y, events).d.claims, key) == Some(id)
    decreases |events|
  {
    if events != [] {
      var e := events[0];
      StepKeeps(file, y, e);
      LeakStep(file, y, e, id, key);
      LeakStays(file, After(file, y, e), events[1..], id, key);
    }
  }

  /** So nobody else ever holds the file, also if its row was recorded after all and it can be read from the pool. */
  lemma {:induction false} LeakedFileIsNobodys(file: Mxc -> ServerFile, y: System, events: seq<Event>, id: HandlerId, mxc: Mxc,
      other: HandlerId)
    requires SysInv(file, y) && IsRun(file, y, events)
    requires id in y.handlers && y.handlers[id].closed && Look(y.d.claims, Key(y.handlers[id], mxc)) == Some(id)
    requires other in EndOf(file, y, events).handlers && EndOf(file, y, events).handlers[other].dir == y.handlers[id].dir
    ensures Holding(EndOf(file, y, events).handlers[other], mxc) ==> other == id
  {
    var end := EndOf(file, y, events);
    var key := Key(y.handlers[id], mxc);
    LeakStays(file, y, events, id, key);
    RunKeepsInv(file, y, events);
    assert OneInv(WorldOf(file, end, other), At(end, other));
    assert Holds(At(end, other), mxc) <==> Holding(At(end, other).h, mxc);
  }

  lemma {:induction false} LeakStep(file: Mxc -> ServerFile, y: System, e: Event, id: HandlerId, key: FileKey)
    requires SysInv(file, y) && Possible(file, y, e)
    requires id in y.handlers && y.handlers[id].closed && Look(y.d.claims, key) == Some(id)
    ensures id in After(file, y, e).handlers && After(file, y, e).handlers[id].closed
    ensures Look(After(file, y, e).d.claims, key) == Some(id)
  {
    DroppedRests(file, y, e, id);
    EventKeepsToOwn(file, y, e, key);
  }

  /** Nothing happens at a dropped handler any more, except that jobs still get into its queue. */
  lemma {:induction false} DroppedRests(file: Mxc -> ServerFile, y: System, e: Event, id: HandlerId)
    requires SysInv(file, y) && Possible(file, y, e) && id in y.handlers && y.handlers[id].closed
    ensures id in After(file, y, e).handlers && !Actor(e, id)
    ensures After(file, y, e).handlers[id] == y.handlers[id].(q := After(file, y, e).handlers[id].q)
    ensures !PutsInto(e, id) ==> After(file, y, e).handlers[id].q == y.handlers[id].q
  {
    OthersMake(file, y, e, id);
    BesideRuns(y, e, id);
  }

  // ---- waiters ----

  ghost function ToldBy(y: System): map<HandlerId, multiset<Waiter>> { map id | id in y.handlers :: y.handlers[id].q.told }

  ghost function WaitingAt(y: System): map<HandlerId, multiset<Waiter>> {
    map id | id in y.handlers :: AllWaiting(y.handlers[id].q.waiters)
  }

  lemma {:induction false} SumTwo(total: map<HandlerId, multiset<Waiter>>, a: map<HandlerId, multiset<Waiter>>,
      b: map<HandlerId, multiset<Waiter>>, x: Waiter)
    requires a.Keys == total.Keys && b.Keys == total.Keys
    requires forall id :: id in total ==> total[id][x] == a[id][x] + b[id][x]
    ensures Sum(total)[x] == Sum(a)[x] + Sum(b)[x]
    decreases |total|
  {
    if total.Keys == {} {
      assert total == map[] && a == map[] && b == map[];
    } else {
      var id := SomeKey(total);
      SumRemove(total, id);
      SumRemove(a, id);
      SumRemove(b, id);
      SumTwo(total - {id}, a - {id}, b - {id}, x);
    }
  }

  /** Every waiter ever given to a handler has been told once, or still waits once, wherever its job was handed over to. */
  lemma {:induction false} WaitersConserved(file: Mxc -> ServerFile, y: System, x: Waiter)
    requires Reachable(file, y)
    ensures y.issued[x] == Sum(ToldBy(y))[x] + Sum(WaitingAt(y))[x]
  {
    ReachableInv(file, y);
    forall id | id in y.dues ensures y.dues[id][x] == ToldBy(y)[id][x] + WaitingAt(y)[id][x] {
      assert OneInv(WorldOf(file, y, id), At(y, id));
    }
    SumTwo(y.dues, ToldBy(y), WaitingAt(y), x);
  }

  lemma {:induction false} SumNothing(m: map<HandlerId, multiset<Waiter>>)
    requires forall id :: id in m ==> m[id] == multiset{}
    ensures Sum(m) == multiset{}
    decreases |m|
  {
    if m.Keys == {} {
      assert m == map[];
    } else {
      var id := SomeKey(m);
      SumRemove(m, id);
      SumNothing(m - {id});
    }
  }

  // ---- a queue that is closed already ----

  /** Waiters get into the queue of a handler that is gone: it was found before it went. */
  predicate TooLate(y: System, e: Event) {
    || (e.Put? && e.waiters != [] && e.target in y.handlers && y.handlers[e.target].closed)
    || (e.HandOver? && e.id in y.handlers && e.target in y.handlers && y.handlers[e.target].closed
        && y.handlers[e.id].task.Preparing? && WaitersOf(y.handlers[e.id].q, y.handlers[e.id].task.manifest.mxc) != [])
  }

  ghost predicate NeverTooLate(file: Mxc -> ServerFile, y: System, events: seq<Event>)
    requires SysInv(file, y) && IsRun(file, y, events)
    decreases |events|
  {
    events == [] ||
    (!TooLate(y, events[0]) && (StepKeeps(file, y, events[0]); NeverTooLate(file, After(file, y, events[0]), events[1..])))
  }

  ghost predicate NobodyWaitsAt(y: System, id: HandlerId)
    requires id in y.handlers
  {
    AllWaiting(y.handlers[id].q.waiters) == multiset{}
  }

  /** Nobody waits at a handler that is gone. */
  ghost predicate GoneAreEmpty(y: System) {
    forall id :: id in y.handlers && y.handlers[id].closed ==> NobodyWaitsAt(y, id)
  }

  lemma {:induction false} EnqueueAddsWaiters(h: Handler, manifest: Manifest, waiters: seq<Waiter>)
    ensures AllWaiting(EnqueueAt(h, manifest, waiters).waiters) == AllWaiting(h.q.waiters) + multiset(waiters)
  {
    var due := h.q.told + AllWaiting(h.q.waiters);
    var q2 := Enqueue(h.q, manifest, waiters);
    assert WaiterBalance(h.q, due);
    EnqueueBalances(h.q, manifest, waiters, due);
    forall x: Waiter ensures AllWaiting(q2.waiters)[x] == (AllWaiting(h.q.waiters) + multiset(waiters))[x] {
      assert (due + multiset(waiters))[x] == q2.told[x] + AllWaiting(q2.waiters)[x];
    }
  }

  /** What an event does to the queue of a handler that is gone. */
  lemma {:induction false} GoneQueue(file: Mxc -> ServerFile, y: System, e: Event, id: HandlerId)
    requires SysInv(file, y) && Possible(file, y, e) && id in y.handlers && y.handlers[id].closed
    ensures id in After(file, y, e).handlers && After(file, y, e).handlers[id].closed
    ensures NobodyWaitsAt(After(file, y, e), id) <==> NobodyWaitsAt(y, id) && !(TooLate(y, e) && e.target == id)
  {
    DroppedRests(file, y, e, id);
    if e.Put? && e.target == id {
      EnqueueAddsWaiters(y.handlers[id], e.manifest, e.waiters);
      assert e.waiters != [] ==> e.waiters[0] in multiset(e.waiters);
    } else if e.HandOver? && e.target == id {
      var h := y.handlers[e.id];
      var waiters := WaitersOf(h.q, h.task.manifest.mxc);
      EnqueueAddsWaiters(y.handlers[id], h.task.manifest, waiters);
      assert waiters != [] ==> waiters[0] in multiset(waiters);
    }
  }

  lemma {:induction false} GoneStep(file: Mxc -> ServerFile, y: System, e: Event)
    requires SysInv(file, y) && Possible(file, y, e)
    ensures GoneAreEmpty(After(file, y, e)) <==> GoneAreEmpty(y) && !TooLate(y, e)
  {
    var y2 := After(file, y, e);
    forall id | id in y.handlers && y.handlers[id].closed
      ensures id in y2.handlers && y2.handlers[id].closed
      ensures NobodyWaitsAt(y2, id) <==> NobodyWaitsAt(y, id) && !(TooLate(y, e) && e.target == id)
    {
      GoneQueue(file, y, e, id);
    }
    forall id | id in y2.handlers && y2.handlers[id].closed && !(id in y.handlers && y.handlers[id].closed)
      ensures NobodyWaitsAt(y2, id)
    {
      NewlyGone(file, y, e, id);
    }
  }

  /** A handler that goes now leaves nobody waiting. */
  lemma {:induction false} NewlyGone(file: Mxc -> ServerFile, y: System, e: Event, id: HandlerId)
    requires SysInv(file, y) && Possible(file, y, e)
    requires id in After(file, y, e).handlers && After(file, y, e).handlers[id].closed
    requires !(id in y.handlers && y.handlers[id].closed)
    ensures NobodyWaitsAt(After(file, y, e), id)
  {
    if e.Abort? { AbortLeavesNobody(file, y, e.id); }
    else if e.Run? { RunStaysOpen(file, y, e.id, e.move); }
    else { OthersCloseNone(file, y, e, id); }
  }

  lemma {:induction false} OthersCloseNone(file: Mxc -> ServerFile, y: System, e: Event, id: HandlerId)
    requires SysInv(file, y) && Possible(file, y, e) && !e.Abort? && !e.Run? && id in After(file, y, e).handlers
    ensures After(file, y, e).handlers[id].closed ==> id in y.handlers && y.handlers[id].closed
  {
    if id in y.handlers {
      OthersMake(file, y, e, id);
      BesideRuns(y, e, id);
    } else {
      NewOnesBegin(file, y, e, id);
    }
  }

  lemma {:induction false} AbortLeavesNobody(file: Mxc -> ServerFile, y: System, id: HandlerId)
    requires SysInv(file, y) && Possible(file, y, Abort(id))
    ensures After(file, y, Abort(id)).handlers == y.handlers[id := Close(At(y, id)).h]
    ensures AllWaiting(Close(At(y, id)).h.q.waiters) == multiset{}
  {
    AbortMakes(file, y, id);
    NobodyWaitsAfterClose(At(y, id));
  }

  lemma {:induction false} RunStaysOpen(file: Mxc -> ServerFile, y: System, id: HandlerId, move: Move)
    requires SysInv(file, y) && Possible(file, y, Run(id, move))
    ensures var y2 := After(file, y, Run(id, move));
            id in y2.handlers && !y2.handlers[id].closed && y2.handlers == y.handlers[id := y2.handlers[id]]
  {
    RunMakes(file, y, id, move);
    StaysOpen(WorldOf(file, y, id), At(y, id), move);
  }

  lemma {:induction false} NobodyWaitsAfterClose(s: State)
    ensures AllWaiting(Close(s).h.q.waiters) == multiset{}
  {
    assert WaiterCounts(map[]) == map[];
  }

  lemma {:induction false} StaysOpen(w: World, s: State, move: Move)
    requires Inv(w, s, None, multiset{}) && FinishesOwn(s.h) && May(w, s, move)
    ensures !Act(w, s, move).h.closed
  {
    ActFinishesOwn(w, s, move);
  }

  lemma {:induction false} GoneRun(file: Mxc -> ServerFile, y: System, events: seq<Event>)
    requires SysInv(file, y) && IsRun(file, y, events)
    ensures GoneAreEmpty(EndOf(file, y, events)) <==> GoneAreEmpty(y) && NeverTooLate(file, y, events)
    decreases |events|
  {
    if events != [] {
      StepKeeps(file, y, events[0]);
      GoneStep(file, y, events[0]);
      GoneRun(file, After(file, y, events[0]), events[1..]);
    }
  }

  /** When every handler is gone: every waiter ever put in was answered exactly once, if and only if none was put into the
      queue of a handler that had gone since it was looked up. */
  lemma {:induction false} AllAnsweredIff(file: Mxc -> ServerFile, start: System, events: seq<Event>)
    requires Starting(file, start) && SysInv(file, start) && IsRun(file, start, events)
    requires var y := EndOf(file, start, events); forall id :: id in y.handlers ==> y.handlers[id].closed
    ensures var y := EndOf(file, start, events); y.issued == Sum(ToldBy(y)) <==> NeverTooLate(file, start, events)
  {
    var y := EndOf(file, start, events);
    assert Reachable(file, y);
    GoneRun(file, start, events);
    if GoneAreEmpty(y) {
      SumNothing(WaitingAt(y));
      forall x: Waiter ensures y.issued[x] == Sum(ToldBy(y))[x] { WaitersConserved(file, y, x); }
    } else {
      var id :| id in y.handlers && y.handlers[id].closed && !NobodyWaitsAt(y, id);
      var waiting := AllWaiting(y.handlers[id].q.waiters);
      var x := SomeOf(waiting);
      SumHas(WaitingAt(y), id);
      WaitersConserved(file, y, x);
      assert x in Sum(WaitingAt(y));
    }
  }

  /** Whoever waits at a living handler waits for a job that handler has, unless the job slipped in at the very end of its last
      run. */
  lemma {:induction false} WaiterHasJob(file: Mxc -> ServerFile, y: System, id: HandlerId, mxc: Mxc)
    requires Reachable(file, y) && Alive(y, id) && WaitersOf(y.handlers[id].q, mxc) != []
    ensures HasJob(y.handlers[id].q, mxc) || mxc in y.handlers[id].q.slipped
  {
    ReachableInv(file, y);
    assert OneInv(WorldOf(file, y, id), At(y, id));
  }

  /** Between two awaits of the handler itself nothing can slip in: at every await a job past its end is no longer
      being prepared. */
  lemma {:induction false} NothingSlipsInAtAwait(file: Mxc -> ServerFile, y: System, id: HandlerId, mxc: Mxc)
    requires Reachable(file, y) && Alive(y, id) && AtAwait(y.handlers[id])
    ensures !SlipsIn(y.handlers[id], mxc)
  {
    ReachableInv(file, y);
    assert OneInv(WorldOf(file, y, id), At(y, id));
  }

  /** With single locks as steps it can: what is put in while a job is wound up leaves no job behind if and only if it is the
      same file and that job is over. */
  lemma {:induction false} LostJobExactly(file: Mxc -> ServerFile, y: System, id: HandlerId, manifest: Manifest, waiters: seq<Waiter>)
    requires Reachable(file, y) && Alive(y, id) && AtStage(y.handlers[id], Tail)
    ensures var h := y.handlers[id];
            HasJob(FinishPreparing(h.(q := EnqueueAt(h, manifest, waiters))).q, manifest.mxc) <==> !SlipsIn(h, manifest.mxc)
  {
    ReachableInv(file, y);
    var h := y.handlers[id];
    assert OneInv(WorldOf(file, y, id), At(y, id));
    if SlipsIn(h, manifest.mxc) { LostJob(h, manifest, waiters); } else { JobStays(h, manifest, waiters); }
  }

  lemma {:induction false} LostJob(h: Handler, manifest: Manifest, waiters: seq<Waiter>)
    requires InboxShape(h.q) && TaskShape(h) && SlipsIn(h, manifest.mxc)
    ensures !HasJob(FinishPreparing(h.(q := EnqueueAt(h, manifest, waiters))).q, manifest.mxc)
  {
    var mxc := manifest.mxc;
    var q2 := FinishPreparing(h.(q := EnqueueAt(h, manifest, waiters))).q;
    assert q2.inbox == h.q.inbox && mxc in h.q.preparing;
    assert !InInbox(q2.inbox, mxc);
  }

  lemma {:induction false} JobStays(h: Handler, manifest: Manifest, waiters: seq<Waiter>)
    requires InboxShape(h.q) && TaskShape(h) && WaiterInv(h.q) && h.task.Preparing? && h.task.stage == Tail
    requires !SlipsIn(h, manifest.mxc)
    ensures HasJob(FinishPreparing(h.(q := EnqueueAt(h, manifest, waiters))).q, manifest.mxc)
  {
    var q2 := EnqueueAt(h, manifest, waiters);
    EnqueueKeepsShape(h.q, manifest, waiters);
    assert HasJob(q2, manifest.mxc);
    assert q2.preparing == h.q.preparing && q2.downloading == h.q.downloading;
  }

  // ---- requests, GETs, files ----

  /** A running job's file is open, unless it is the one being finished, and exactly one request in flight carries its main
      file, once: `Info` while the block still needs it, otherwise the next chunk. No other request carries a main file. */
  lemma {:induction false} OneCursor(file: Mxc -> ServerFile, y: System, id: HandlerId, r: Request)
    requires Reachable(file, y) && Alive(y, id)
    ensures var h := y.handlers[id];
            && (r.mxc in h.q.downloading ==> (r.mxc in h.open <==> FinishingFile(h) != Some(r.mxc)))
            && (r.mxc in h.q.downloading && r.mxc in h.open ==> Cursor(r.mxc, h.open[r.mxc]) in h.inFlight)
            && (r in h.inFlight ==>
                  MainCount(h.inFlight[r].waiters)
                  == if r.mxc in h.q.downloading && r.mxc in h.open && r == Cursor(r.mxc, h.open[r.mxc]) then 1 else 0)
  {
    ReachableInv(file, y);
    assert OneInv(WorldOf(file, y, id), At(y, id));
  }

  /** Every GET ever asked is answered or still attached somewhere, once; at a handler that is gone it is answered. */
  lemma {:induction false} EveryGetAccounted(file: Mxc -> ServerFile, y: System, id: HandlerId, seek: SeekId)
    requires Reachable(file, y) && id in y.handlers
    ensures var h := y.handlers[id];
            && h.asked[seek] == h.answered[seek] + Attached(h.inFlight)[seek] + ChannelIds(h.seeks)[seek] + TaskIds(h.task)[seek]
            && (h.closed ==> h.asked[seek] == h.answered[seek])
  {
    ReachableInv(file, y);
    assert OneInv(WorldOf(file, y, id), At(y, id));
    var h := y.handlers[id];
    assert SeekBalance(h, multiset{}, seek);
    if h.closed {
      assert Seekers(map[]) == map[];
    }
  }

  /** No request was sent again more than twice for timeouts and once for a bad reply, and none is in flight for nobody. */
  lemma {:induction false} ResentAtMost(file: Mxc -> ServerFile, y: System, id: HandlerId, r: Request)
    requires Reachable(file, y) && Alive(y, id) && r in y.handlers[id].inFlight
    ensures var entry := y.handlers[id].inFlight[r];
            entry.retries.timeouts <= 2 && entry.retries.badReplies <= 1 && entry.waiters != []
  {
    ReachableInv(file, y);
    assert OneInv(WorldOf(file, y, id), At(y, id));
  }

  /** An open main file is the plain text of its first chunks, in order; what is in the pool is the whole file; whoever
      was told "finished" finds it there. */
  lemma {:induction false} FilesAreRight(file: Mxc -> ServerFile, y: System, id: HandlerId, mxc: Mxc)
    requires Reachable(file, y) && id in y.handlers
    ensures var h := y.handlers[id];
            var key := Key(h, mxc);
            && (mxc in h.open ==> Next(h.open[mxc]) <= |Chunks(file(mxc))|
                                  && h.open[mxc].main == Chunks(file(mxc))[..Next(h.open[mxc])])
            && (key in y.d.pool ==> y.d.pool[key] == file(mxc))
            && (forall waiter :: Told(waiter, mxc, Finished) in h.q.outcomes ==> key in y.d.pool && y.d.pool[key] == file(mxc))
  {
    ReachableInv(file, y);
    assert OneInv(WorldOf(file, y, id), At(y, id));
    var h := y.handlers[id];
    if mxc in h.open {
      assert MediaSound(WorldOf(file, y, id), mxc, h.open[mxc]);
    }
    forall waiter | Told(waiter, mxc, Finished) in h.q.outcomes ensures Key(h, mxc) in y.d.pool {
      var t := Told(waiter, mxc, Finished);
      assert t.outcome == Finished && Key(h, t.mxc) in y.d.complete;
    }
  }

  /** Every piece a GET was given is of the file it asked for: the chunk whose number the handler worked out for its position,
      with the very bytes of that place. It covers the position if and only if that is in the file and the chunk size at hand
      then gave the number the file's own gives. */
  lemma {:induction false} PiecesAreRight(file: Mxc -> ServerFile, y: System, id: HandlerId, p: Piece)
    requires Reachable(file, y) && id in y.handlers && p in y.handlers[id].pieces
    ensures p.to.Seek? && p.to.id.manifest.mxc == p.mxc
    ensures var f, position := file(p.mxc), p.to.id.position;
            && ChunkIndexAt(position, p.to.cut) == Index(p.to.index) && p.start == ChunkStart(p.to.index, f.chunkSize)
            && p.start + |p.plain| <= |f.plain| && |p.plain| > 0 && p.plain == f.plain[p.start..p.start + |p.plain|]
            && (p.start <= position < p.start + |p.plain| <==>
                  position < |f.plain| && ChunkIndexAt(position, p.to.cut) == ChunkIndexAt(position, f.chunkSize))
  {
    ReachableInv(file, y);
    var w := WorldOf(file, y, id);
    assert OneInv(w, At(y, id)) && PieceSound(w, p);
    PieceIsSlice(file(p.mxc), p.to.index);
    PieceCovers(file(p.mxc), p.to.index, p.to.id.position);
  }

  lemma {:induction false} PieceCovers(f: ServerFile, index: nat, position: nat)
    requires index < |Chunks(f)| && index <= U32_MAX
    ensures var start := ChunkStart(index, f.chunkSize);
            start <= position < start + |Chunks(f)[index]| <==> position < |f.plain| && ChunkIndexAt(position, f.chunkSize) == Index(index)
  {
    CutNeedsSize(f.plain, f.chunkSize);
    CutIsSlice(f.plain, f.chunkSize, index);
    var start := ChunkStart(index, f.chunkSize);
    if start <= position < start + f.chunkSize {
      DivUnique(position, f.chunkSize, index, position - start);
    } else {
      assert position == position / f.chunkSize * f.chunkSize + position % f.chunkSize;
    }
  }

  lemma {:induction false} PieceIsSlice(f: ServerFile, index: nat)
    requires index < |Chunks(f)|
    ensures var start := ChunkStart(index, f.chunkSize);
            var plain := Chunks(f)[index];
            && |plain| > 0 && start + |plain| <= |f.plain| && plain == f.plain[start..start + |plain|]
  {
    CutIsSlice(f.plain, f.chunkSize, index);
    CutNeedsSize(f.plain, f.chunkSize);
  }

  lemma {:induction false} CutNeedsSize(plain: Bytes, chunkSize: nat)
    requires |Cut(plain, chunkSize)| > 0
    ensures chunkSize > 0
  {
  }
}
