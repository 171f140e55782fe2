/** Three concrete runs, each from a process that starts: a handler that goes and leaves its claim behind, a cancel that is
    accepted and stops nothing, and a waiter left without a job. */
module DownloadWitness {
  import opened Wrappers
  import opened Files
  import Tally
  import opened JobQueue
  import opened Download
  import opened DownloadInv
  import DownloadSteps
  import DownloadJobs
  import DownloadFrame
  import opened DownloadMoves
  import opened DownloadSystem
  import opened DownloadShared
  import DownloadEvents
  import opened DownloadRuns
  import opened DownloadCancel
  import opened DownloadAway

  const MXC := Mxc(1)
  const FILE := ServerFile(1, [7])
  const MANIFEST := Manifest(MXC, 1, 1)
  const KEY := FileKey(0, MXC)
  const FIRST: Waiter := 5
  const SECOND: Waiter := 6

  function OneFile(mxc: Mxc): ServerFile { FILE }

  // ---- one event more ----

  lemma {:induction false} RunMore(file: Mxc -> ServerFile, start: System, events: seq<Event>, e: Event)
    requires SysInv(file, start) && IsRun(file, start, events)
    requires SysInv(file, EndOf(file, start, events)) && Possible(file, EndOf(file, start, events), e)
    ensures IsRun(file, start, events + [e])
    ensures EndOf(file, start, events + [e]) == After(file, EndOf(file, start, events), e)
    decreases |events|
  {
    if events == [] {
      StepKeeps(file, start, e);
      Tally.AppendedOne(e);
    } else {
      StepKeeps(file, start, events[0]);
      Tally.AppendedRest(events, e);
      RunMore(file, After(file, start, events[0]), events[1..], e);
    }
  }

  /** What is possible in a reachable state leads to a reachable state. */
  lemma {:induction false} ReachesNext(file: Mxc -> ServerFile, y: System, e: Event)
    requires Reachable(file, y) && SysInv(file, y) && Possible(file, y, e)
    ensures Reachable(file, After(file, y, e)) && SysInv(file, After(file, y, e))
  {
    var start: System, events: seq<Event> :|
      Starting(file, start) && SysInv(file, start) && IsRun(file, start, events) && y == EndOf(file, start, events);
    RunMore(file, start, events, e);
    StepKeeps(file, y, e);
  }

  lemma {:induction false} ReachesStart(file: Mxc -> ServerFile, y: System)
    requires Starting(file, y)
    ensures Reachable(file, y) && SysInv(file, y)
  {
    StartingInv(file, y);
    assert IsRun(file, y, []) && EndOf(file, y, []) == y;
  }

  /** A handler's own move, in a reachable state. */
  lemma {:induction false} MovesOn(file: Mxc -> ServerFile, y: System, id: HandlerId, move: Move) returns (next: System)
    requires Reachable(file, y) && SysInv(file, y) && Possible(file, y, Run(id, move))
    ensures Inv(WorldOf(file, y, id), At(y, id), None, multiset{}) && y.handlers[id].id == id
    ensures next == After(file, y, Run(id, move)) && Reachable(file, next) && SysInv(file, next)
    ensures next.handlers == y.handlers[id := Act(WorldOf(file, y, id), At(y, id), move).h]
    ensures next.d == Act(WorldOf(file, y, id), At(y, id), move).d
  {
    next := After(file, y, Run(id, move));
    ReachesNext(file, y, Run(id, move));
    DownloadEvents.RunMakes(file, y, id, move);
  }

  // ---- the moves these runs are made of ----

  lemma {:induction false} TakesJob(file: Mxc -> ServerFile, y: System, id: HandlerId) returns (next: System)
    requires Reachable(file, y) && SysInv(file, y) && id in y.handlers
    requires DownloadSteps.AtEvent(y.handlers[id]) && y.handlers[id].q.inbox != []
    ensures Reachable(file, next) && SysInv(file, next)
    ensures next.d == y.d && next.handlers == y.handlers[id := TakeJob(y.handlers[id])]
  {
    next := MovesOn(file, y, id, TakeJobMove);
  }

  lemma {:induction false} Looks(file: Mxc -> ServerFile, y: System, id: HandlerId, found: bool) returns (next: System)
    requires Reachable(file, y) && SysInv(file, y) && Alive(y, id) && AtStage(y.handlers[id], Looking)
    requires if found then Key(y.handlers[id], y.handlers[id].task.manifest.mxc) in y.d.complete else !ClaimedElsewhere(At(y, id))
    ensures Reachable(file, next) && SysInv(file, next)
    ensures var s := if found then FoundComplete(At(y, id)) else StartOpening(At(y, id));
            next.d == s.d && next.handlers == y.handlers[id := s.h]
  {
    next := MovesOn(file, y, id, LookedMove(found));
  }

  lemma {:induction false} OpensFile(file: Mxc -> ServerFile, y: System, id: HandlerId, m: MediaDownload) returns (next: System)
    requires Reachable(file, y) && SysInv(file, y) && Alive(y, id) && AtStage(y.handlers[id], Opening)
    requires DownloadJobs.OpenContract(At(y, id), Ok(m))
    ensures Reachable(file, next) && SysInv(file, next)
    ensures next.d == y.d && next.handlers == y.handlers[id := Opened(At(y, id), Ok(m)).h]
  {
    next := MovesOn(file, y, id, OpenedMove(Ok(m)));
  }

  lemma {:induction false} ChecksFlag(file: Mxc -> ServerFile, y: System, id: HandlerId) returns (next: System)
    requires Reachable(file, y) && SysInv(file, y) && Alive(y, id) && AtStage(y.handlers[id], Ready)
    requires !CancelledWhilePreparing(y.handlers[id].q, y.handlers[id].task.manifest.mxc)
    ensures Reachable(file, next) && SysInv(file, next)
    ensures next.d == y.d && next.handlers == y.handlers[id := SetStage(At(y, id), Checked).h]
  {
    next := MovesOn(file, y, id, CancelCheckMove);
  }

  // ---- beginnings ----

  /** A new handler with its first job waiting. */
  function Waits(id: HandlerId, waiter: Waiter): Handler {
    NewHandler(id, 0).(q := NO_JOBS.(inbox := [MANIFEST], waiters := map[MXC := [waiter]]))
  }

  /** The handler at this stage of that job, with the file open or being opened. */
  function Works(id: HandlerId, waiter: Waiter, stage: Stage, open: map<Mxc, MediaDownload>, opening: set<Mxc>): Handler {
    NewHandler(id, 0).(q := NO_JOBS.(preparing := map[MXC := false], waiters := map[MXC := [waiter]]),
                       task := Preparing(MANIFEST, stage), open := open, opening := opening)
  }

  function Takes(id: HandlerId, waiter: Waiter): Handler { Works(id, waiter, Looking, map[], {}) }

  lemma {:induction false} Begins(file: Mxc -> ServerFile, y: System, id: HandlerId) returns (next: System)
    requires Reachable(file, y) && SysInv(file, y) && id !in y.handlers
    ensures Reachable(file, next) && SysInv(file, next)
    ensures next.d == y.d && next.handlers == y.handlers[id := NewHandler(id, 0)]
  {
    next := After(file, y, Begin(id, 0));
    ReachesNext(file, y, Begin(id, 0));
  }

  lemma {:induction false} Gets(file: Mxc -> ServerFile, y: System, id: HandlerId, waiter: Waiter) returns (next: System)
    requires Reachable(file, y) && SysInv(file, y) && id in y.handlers && y.handlers[id] == NewHandler(id, 0)
    ensures Reachable(file, next) && SysInv(file, next) && next.d == y.d && next.handlers == y.handlers[id := Waits(id, waiter)]
  {
    next := After(file, y, Put(id, MANIFEST, [waiter]));
    ReachesNext(file, y, Put(id, MANIFEST, [waiter]));
    PutFirst(id, waiter);
  }

  lemma PutFirst(id: HandlerId, waiter: Waiter)
    ensures EnqueueAt(NewHandler(id, 0), MANIFEST, [waiter]) == Waits(id, waiter).q
  {
    assert StatusIn(NO_JOBS, MXC).None?;
    assert WaitersOf(NO_JOBS, MXC) + [waiter] == [waiter] && NO_JOBS.inbox + [MANIFEST] == [MANIFEST];
  }

  lemma UpdateTwice<K, V>(m: map<K, V>, k: K, a: V, b: V)
    ensures m[k := a][k := b] == m[k := b]
  {
  }

  /** A new handler gets its first job and takes it up. */
  lemma {:induction false} TakesFirstJob(file: Mxc -> ServerFile, y: System, id: HandlerId, waiter: Waiter) returns (next: System)
    requires Reachable(file, y) && SysInv(file, y) && id !in y.handlers
    ensures Reachable(file, next) && SysInv(file, next) && next.d == y.d && next.handlers == y.handlers[id := Takes(id, waiter)]
  {
    var y1 := Begins(file, y, id);
    var y2 := Gets(file, y1, id, waiter);
    next := TakesUp(file, y2, id, waiter);
    UpdateTwice(y.handlers, id, NewHandler(id, 0), Waits(id, waiter));
    UpdateTwice(y.handlers, id, Waits(id, waiter), Takes(id, waiter));
  }

  lemma {:induction false} TakesUp(file: Mxc -> ServerFile, y: System, id: HandlerId, waiter: Waiter) returns (next: System)
    requires Reachable(file, y) && SysInv(file, y) && id in y.handlers && y.handlers[id] == Waits(id, waiter)
    ensures Reachable(file, next) && SysInv(file, next) && next.d == y.d && next.handlers == y.handlers[id := Takes(id, waiter)]
  {
    Waiting(id, waiter);
    next := TakesJob(file, y, id);
  }

  lemma Waiting(id: HandlerId, waiter: Waiter)
    ensures TakeJob(Waits(id, waiter)) == Takes(id, waiter) && DownloadSteps.AtEvent(Waits(id, waiter))
  {
  }

  /** Nothing in the database and nobody has the file: the handler claims it and begins to open it. */
  lemma {:induction false} BeginsToOpen(y: System) returns (next: System)
    requires Reachable(OneFile, y) && SysInv(OneFile, y) && y.handlers == map[0 := Takes(0, FIRST)] && y.d.claims == map[]
    ensures Reachable(OneFile, next) && SysInv(OneFile, next) && next.d == y.d.(claims := map[KEY := 0])
    ensures next.handlers == map[0 := Works(0, FIRST, Opening, map[], {MXC})]
  {
    assert !ClaimedElsewhere(At(y, 0));
    next := Looks(OneFile, y, 0, false);
    ToOpening(y.d);
    UpdateTwice(map[], 0, Takes(0, FIRST), Works(0, FIRST, Opening, map[], {MXC}));
  }

  lemma ToOpening(d: Shared)
    requires d.claims == map[]
    ensures StartOpening(State(Takes(0, FIRST), d)) == State(Works(0, FIRST, Opening, map[], {MXC}), d.(claims := map[KEY := 0]))
  {
  }

  function Disk(left: map<FileKey, MediaDownload>, whole: map<FileKey, ServerFile>): Shared { Shared(map[], left, whole, whole.Keys) }

  lemma {:induction false} Starts(left: map<FileKey, MediaDownload>, whole: map<FileKey, ServerFile>) returns (y: System)
    requires left == map[] || left == map[KEY := LEFT]
    requires whole == map[] || whole == map[KEY := FILE]
    ensures y == System(map[], map[], Disk(left, whole), multiset{}) && Reachable(OneFile, y) && SysInv(OneFile, y)
  {
    y := System(map[], map[], Disk(left, whole), multiset{});
    CutOne();
    assert MediaSound(World(OneFile, multiset{}), MXC, LEFT);
    ReachesStart(OneFile, y);
  }

  lemma {:induction false} CutOne()
    ensures Chunks(FILE) == [[7]] && Concat([[7]]) == [7] && ChunkCount(1, 1) == 1
  {
    assert Concat([[7]]) == [7] + Concat([]);
  }

  // ---- the claim that stays ----

  /** The file as an earlier process left it: its only chunk landed, not yet finished. */
  const LEFT := MediaDownload(MANIFEST, true, [[7]], map[])

  /** The file with nothing of it landed yet. */
  const NEW := MediaDownload(MANIFEST, true, [], map[])

  const ADOPTS := DiskResults({}, {}, true, Io)

  /** The file opens as it was left, or anew, and no cancel was noted. */
  lemma {:induction false} OpensAndChecks(y: System, m: MediaDownload) returns (next: System)
    requires Reachable(OneFile, y) && SysInv(OneFile, y) && y.handlers == map[0 := Works(0, FIRST, Opening, map[], {MXC})]
    requires (y.d.disk == map[KEY := LEFT] && m == LEFT) || (y.d.disk == map[] && m == NEW)
    ensures Reachable(OneFile, next) && SysInv(OneFile, next)
    ensures next.handlers == map[0 := Works(0, FIRST, Checked, map[MXC := m], {})]
  {
    var ready := Opens(y, m);
    next := ChecksFlag(OneFile, ready, 0);
    UpdateTwice(map[], 0, Works(0, FIRST, Ready, map[MXC := m], {}), Works(0, FIRST, Checked, map[MXC := m], {}));
  }

  lemma {:induction false} Opens(y: System, m: MediaDownload) returns (next: System)
    requires Reachable(OneFile, y) && SysInv(OneFile, y) && y.handlers == map[0 := Works(0, FIRST, Opening, map[], {MXC})]
    requires (y.d.disk == map[KEY := LEFT] && m == LEFT) || (y.d.disk == map[] && m == NEW)
    ensures Reachable(OneFile, next) && SysInv(OneFile, next)
    ensures next.handlers == map[0 := Works(0, FIRST, Ready, map[MXC := m], {})]
  {
    ToReady(y.d, m);
    next := OpensFile(OneFile, y, 0, m);
    UpdateTwice(map[], 0, Works(0, FIRST, Opening, map[], {MXC}), Works(0, FIRST, Ready, map[MXC := m], {}));
  }

  lemma ToReady(d: Shared, m: MediaDownload)
    requires (d.disk == map[KEY := LEFT] && m == LEFT) || (d.disk == map[] && m == NEW)
    ensures DownloadJobs.OpenContract(State(Works(0, FIRST, Opening, map[], {MXC}), d), Ok(m))
    ensures Opened(State(Works(0, FIRST, Opening, map[], {MXC}), d), Ok(m)).h == Works(0, FIRST, Ready, map[MXC := m], {})
  {
    CutOne();
  }

  lemma {:induction false} StartFinishes(d: Shared)
    ensures StartJob(State(Works(0, FIRST, Checked, map[MXC := LEFT], {}), d), ADOPTS).h.finishing == Recording(MXC)
  {
    CutOne();
    var started := Started(State(Works(0, FIRST, Checked, map[MXC := LEFT], {}), d));
    var m := started.h.open[MXC];
    assert IsWritten(m) && Total(m) == 1;
    var done := started.(h := started.h.(q := SetDone(started.h.q, MXC, Total(m))));
    assert ContinueMain(started, MXC, ADOPTS) == FinishJob(done, MXC, ADOPTS);
  }

  /** The handler starts the job, which is at its end at once, and is dropped while the row is recorded. */
  lemma {:induction false} FinishesAndGoes(y: System) returns (next: System)
    requires Reachable(OneFile, y) && SysInv(OneFile, y) && y.handlers == map[0 := Works(0, FIRST, Checked, map[MXC := LEFT], {})]
    ensures Reachable(OneFile, next) && 0 in next.handlers
    ensures next.handlers[0].closed && next.handlers[0].dir == 0 && next.handlers[0].finishing == Recording(MXC)
  {
    StartFinishes(y.d);
    var y1 := MovesOn(OneFile, y, 0, StartJobMove(ADOPTS));
    assert y1.handlers[0].finishing == Recording(MXC);
    assert OneInv(WorldOf(OneFile, y1, 0), At(y1, 0));
    StaysOpen(WorldOf(OneFile, y, 0), At(y, 0), StartJobMove(ADOPTS));
    StartKeepsDir(y.d);
    DownloadEvents.AbortMakes(OneFile, y1, 0);
    ReachesNext(OneFile, y1, Abort(0));
    next := After(OneFile, y1, Abort(0));
  }

  lemma {:induction false} StartKeepsDir(d: Shared)
    ensures StartJob(State(Works(0, FIRST, Checked, map[MXC := LEFT], {}), d), ADOPTS).h.dir == 0
  {
    DownloadFrame.StartShrinks(State(Works(0, FIRST, Checked, map[MXC := LEFT], {}), d), ADOPTS);
  }

  /** A handler dropped while it records its finished file: the claim stays, and the handler is gone. */
  lemma {:induction false} ClaimLeaks() returns (y: System)
    ensures Reachable(OneFile, y) && 0 in y.handlers && y.handlers[0].closed && DownloadFrame.Look(y.d.claims, KEY) == Some(0)
  {
    var y0 := Starts(map[KEY := LEFT], map[]);
    var y1 := TakesFirstJob(OneFile, y0, 0, FIRST);
    assert y1.handlers == map[0 := Takes(0, FIRST)];
    var y2 := BeginsToOpen(y1);
    var y3 := OpensAndChecks(y2, LEFT);
    y := FinishesAndGoes(y3);
    LeakedExactly(OneFile, y, 0, KEY);
  }

  // ---- the cancel that stops nothing ----

  /** Two handlers, one file: the second hands its job over to the first; a cancel at the second is accepted before the entry
      goes; and then the job runs on at the first with the waiter of the second, and no cancel is on record anywhere. */
  lemma {:induction false} CancelIsLost() returns (before: System, after: System)
    ensures Reachable(OneFile, before) && LosesCancel(before, after)
  {
    var y := BothBegin();
    before, after := HandsOverAndCancels(y);
  }

  lemma {:induction false} FirstOpens() returns (y: System)
    ensures Reachable(OneFile, y) && SysInv(OneFile, y) && y.d.claims == map[KEY := 0]
    ensures y.handlers == map[0 := Works(0, FIRST, Opening, map[], {MXC})]
  {
    var y0 := Starts(map[], map[]);
    var y1 := TakesFirstJob(OneFile, y0, 0, FIRST);
    y := BeginsToOpen(y1);
  }

  /** The first handler opens the file when the second gets to its own job for it. */
  lemma {:induction false} BothBegin() returns (y: System)
    ensures Reachable(OneFile, y) && SysInv(OneFile, y) && y.d.claims == map[KEY := 0]
    ensures y.handlers == map[0 := Works(0, FIRST, Opening, map[], {MXC}), 1 := Takes(1, SECOND)]
  {
    var y0 := FirstOpens();
    y := TakesFirstJob(OneFile, y0, 1, SECOND);
    TwoOf(0, Works(0, FIRST, Opening, map[], {MXC}), 1, Takes(1, SECOND));
  }

  lemma TwoOf<V>(a: HandlerId, u: V, b: HandlerId, v: V)
    requires a != b
    ensures map[a := u][b := v] == map[a := u, b := v]
  {
  }

  /** The second handler's job is at the first; its cancel is accepted between `before` and `after` and is nowhere in the end. */
  ghost predicate LosesCancel(before: System, after: System) {
    && SysInv(OneFile, before) && Possible(OneFile, before, Run(1, CancelMove(MXC))) && CancelAccepted(before.handlers[1].q, MXC)
    && RunsOnUncancelled(after)
    && var cancelled := After(OneFile, before, Run(1, CancelMove(MXC)));
       && SysInv(OneFile, cancelled) && Possible(OneFile, cancelled, Run(1, FinishPreparingMove))
       && after == After(OneFile, cancelled, Run(1, FinishPreparingMove))
  }

  ghost predicate RunsOnUncancelled(y: System) {
    && Alive(y, 0) && JobHere(y.handlers[0], MXC) && SECOND in WaitersOf(y.handlers[0].q, MXC) && !Pending(y.handlers[0], MXC)
    && 1 in y.handlers && !Pending(y.handlers[1], MXC)
  }

  lemma {:induction false} HandsOverAndCancels(y: System) returns (before: System, after: System)
    requires Reachable(OneFile, y) && SysInv(OneFile, y) && y.d.claims == map[KEY := 0]
    requires y.handlers == map[0 := Works(0, FIRST, Opening, map[], {MXC}), 1 := Takes(1, SECOND)]
    ensures Reachable(OneFile, before) && LosesCancel(before, after)
  {
    CanHandOver(y);
    ReachesNext(OneFile, y, HandOver(1, 0));
    HandedOverGoesOn(OneFile, y, 1, 0);
    before := After(OneFile, y, HandOver(1, 0));
    KeepsPreparing(y);
    after := Cancels(before);
  }

  lemma CanHandOver(y: System)
    requires y.d.claims == map[KEY := 0]
    requires y.handlers == map[0 := Works(0, FIRST, Opening, map[], {MXC}), 1 := Takes(1, SECOND)]
    ensures Alive(y, 1) && MayHandOver(y, 1, 0) && y.handlers[1].task.manifest.mxc == MXC
  {
    assert Key(y.handlers[1], MXC) == KEY;
  }

  lemma {:induction false} Cancels(before: System) returns (after: System)
    requires SysInv(OneFile, before) && WoundUp(before, 1, MXC) && 0 in before.handlers
    requires var h := before.handlers[0]; !h.closed && JobHere(h, MXC) && !Pending(h, MXC) && SECOND in WaitersOf(h.q, MXC)
    ensures LosesCancel(before, after)
  {
    WoundUpTakesAndDrops(OneFile, before, 1, MXC);
    var cancelled := After(OneFile, before, Run(1, CancelMove(MXC)));
    StepKeeps(OneFile, before, Run(1, CancelMove(MXC)));
    WoundUpTakesAndDrops(OneFile, cancelled, 1, MXC);
    after := After(OneFile, cancelled, Run(1, FinishPreparingMove));
    assert after.handlers[0] == cancelled.handlers[0] == before.handlers[0];
  }

  /** Handed a job, the first handler is where it was, with the other waiter. */
  lemma {:induction false} KeepsPreparing(y: System)
    requires SysInv(OneFile, y) && Possible(OneFile, y, HandOver(1, 0))
    requires y.handlers == map[0 := Works(0, FIRST, Opening, map[], {MXC}), 1 := Takes(1, SECOND)]
    requires GoesOnAt(y, After(OneFile, y, HandOver(1, 0)), 1, MXC, 0)
    ensures var h := After(OneFile, y, HandOver(1, 0)).handlers[0];
            !h.closed && JobHere(h, MXC) && !Pending(h, MXC) && SECOND in WaitersOf(h.q, MXC)
  {
    assert SECOND in WaitersOf(y.handlers[1].q, MXC);
  }

  // ---- the waiter without a job ----

  /** A job whose file is complete is being wound up when the same file is put in again: the waiter hangs on to nothing. */
  lemma {:induction false} WaiterIsLeft() returns (y: System)
    ensures Reachable(OneFile, y) && Alive(y, 0)
    ensures SECOND in WaitersOf(y.handlers[0].q, MXC) && !HasJob(y.handlers[0].q, MXC)
  {
    var y0 := Starts(map[], map[KEY := FILE]);
    var y1 := TakesFirstJob(OneFile, y0, 0, FIRST);
    assert y1.handlers == map[0 := Takes(0, FIRST)];
    var y2, h := FindsWhole(y1);
    var y3 := PutsAgain(y2, h);
    y := WindsUp(y3, h);
  }

  predicate IsWoundUp(h: Handler) {
    && h.id == 0 && !h.closed && h.finishing == NotFinishing && h.task == Preparing(MANIFEST, Tail)
    && h.q.inbox == [] && h.q.preparing == map[MXC := false] && h.q.downloading == map[]
    && h.open == map[] && h.opening == {}
  }

  lemma WoundUpThen(d: Shared)
    ensures IsWoundUp(FoundComplete(State(Takes(0, FIRST), d)).h)
  {
  }

  lemma {:induction false} FindsWhole(y: System) returns (next: System, h: Handler)
    requires Reachable(OneFile, y) && SysInv(OneFile, y) && y.handlers == map[0 := Takes(0, FIRST)] && KEY in y.d.complete
    ensures Reachable(OneFile, next) && SysInv(OneFile, next) && next.handlers == map[0 := h] && IsWoundUp(h)
  {
    assert Alive(y, 0) && At(y, 0) == State(Takes(0, FIRST), y.d);
    next := Looks(OneFile, y, 0, true);
    h := FoundComplete(State(Takes(0, FIRST), y.d)).h;
    UpdateTwice(map[], 0, Takes(0, FIRST), h);
    WoundUpThen(y.d);
  }

  function PutInto(h: Handler): Handler { h.(q := EnqueueAt(h, MANIFEST, [SECOND])) }

  lemma {:induction false} PutsAgain(y: System, h: Handler) returns (next: System)
    requires Reachable(OneFile, y) && SysInv(OneFile, y) && y.handlers == map[0 := h]
    ensures Reachable(OneFile, next) && SysInv(OneFile, next) && next.handlers == map[0 := PutInto(h)]
  {
    next := After(OneFile, y, Put(0, MANIFEST, [SECOND]));
    ReachesNext(OneFile, y, Put(0, MANIFEST, [SECOND]));
    GivesIt(y, h);
  }

  lemma GivesIt(y: System, h: Handler)
    requires y.handlers == map[0 := h] && 0 in y.dues
    ensures Give(y, 0, MANIFEST, [SECOND]).handlers == map[0 := PutInto(h)]
  {
  }

  lemma {:induction false} WindsUp(y: System, h: Handler) returns (next: System)
    requires Reachable(OneFile, y) && SysInv(OneFile, y) && y.handlers == map[0 := PutInto(h)] && IsWoundUp(h)
    ensures Reachable(OneFile, next) && Alive(next, 0)
    ensures SECOND in WaitersOf(next.handlers[0].q, MXC) && !HasJob(next.handlers[0].q, MXC)
  {
    assert AtStage(PutInto(h), Tail);
    LeftAlone(h);
    next := MovesOn(OneFile, y, 0, FinishPreparingMove);
  }

  lemma {:induction false} LeftAlone(h: Handler)
    requires IsWoundUp(h)
    ensures var h2 := FinishPreparing(PutInto(h));
            !h2.closed && SECOND in WaitersOf(h2.q, MXC) && !HasJob(h2.q, MXC)
  {
    EnqueueGoesOn(h, MANIFEST, [SECOND]);
    LostJob(h, MANIFEST, [SECOND]);
  }
}
