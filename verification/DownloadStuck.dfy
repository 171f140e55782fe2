/** A fourth concrete run from a process that starts: the main request of a running job loses its only copy when a new link hands
    out a number the wire table still has. */
module DownloadStuck {
  import opened Wrappers
  import opened Files
  import opened Lines
  import opened JobQueue
  import opened Download
  import opened DownloadInv
  import DownloadCopies
  import opened DownloadMoves
  import opened DownloadSystem
  import opened DownloadRuns
  import DownloadLost
  import opened DownloadWitness

  const OTHER := Mxc(2)
  const GET := SeekJob(Manifest(OTHER, 1, 1), 0, 9)
  const MAIN := Info(MXC)
  const ASIDE := Info(OTHER)
  const NOTHING_STORED := DiskResults({}, {}, true, Io)
  const ALL_THERE := LocalReads({}, {})

  /** The job runs; its main request is in flight, its line is `line`. */
  function Running(task: Task, preparing: map<Mxc, bool>, line: Line<Request>): Handler {
    NewHandler(0, 0).(
      q := NO_JOBS.(preparing := preparing, downloading := map[MXC := Downloading(false, 0, 1)], waiters := map[MXC := [FIRST]]),
      open := map[MXC := NEW], inFlight := map[MAIN := InFlight([Main], NO_RETRIES)], line := line, task := task)
  }

  const QUEUED: Line<Request> := Fresh().(queued := [MAIN])
  const SENT: Line<Request> := Fresh().(wire := map[1 := MAIN], waits := {Wait(0, 1)}, link := 1)

  /** The only handler makes a move. */
  lemma {:induction false} OneMoves(y: System, h: Handler, move: Move) returns (next: System)
    requires Reachable(OneFile, y) && SysInv(OneFile, y) && y.handlers == map[0 := h] && !h.closed
    requires May(WorldOf(OneFile, y, 0), State(h, y.d), move)
    ensures Inv(WorldOf(OneFile, y, 0), State(h, y.d), None, multiset{})
    ensures Reachable(OneFile, next) && SysInv(OneFile, next)
    ensures next.handlers == map[0 := Act(WorldOf(OneFile, y, 0), State(h, y.d), move).h]
  {
    assert At(y, 0) == State(h, y.d);
    next := MovesOn(OneFile, y, 0, move);
    UpdateTwice(map[], 0, h, Act(WorldOf(OneFile, y, 0), State(h, y.d), move).h);
  }

  // ---- the job starts ----

  lemma {:induction false} StartWants(d: Shared)
    ensures StartJob(State(Works(0, FIRST, Checked, map[MXC := NEW], {}), d), NOTHING_STORED).h
         == Running(Preparing(MANIFEST, Tail), map[MXC := false], QUEUED)
  {
    CutOne();
    var started := Started(State(Works(0, FIRST, Checked, map[MXC := NEW], {}), d));
    assert Total(NEW) == 1 && Next(NEW) == 0;
    assert started.h.line.queued + [MAIN] == [MAIN];
    assert ContinueMain(started, MXC, NOTHING_STORED) == started.(h := Want(started.h, MAIN, Main, false));
  }

  lemma {:induction false} Starts(y: System) returns (next: System)
    requires Reachable(OneFile, y) && SysInv(OneFile, y) && y.handlers == map[0 := Works(0, FIRST, Checked, map[MXC := NEW], {})]
    ensures Reachable(OneFile, next) && SysInv(OneFile, next)
    ensures next.handlers == map[0 := Running(Preparing(MANIFEST, Tail), map[MXC := false], QUEUED)]
  {
    StartWants(y.d);
    next := OneMoves(y, Works(0, FIRST, Checked, map[MXC := NEW], {}), StartJobMove(NOTHING_STORED));
  }

  lemma {:induction false} IsReady(y: System) returns (next: System)
    requires Reachable(OneFile, y) && SysInv(OneFile, y)
    requires y.handlers == map[0 := Running(Preparing(MANIFEST, Tail), map[MXC := false], QUEUED)]
    ensures Reachable(OneFile, next) && SysInv(OneFile, next) && next.handlers == map[0 := Running(Idle, map[], QUEUED)]
  {
    var h := Running(Preparing(MANIFEST, Tail), map[MXC := false], QUEUED);
    EntryGoes();
    next := OneMoves(y, h, FinishPreparingMove);
  }

  lemma EntryGoes()
    ensures FinishPreparing(Running(Preparing(MANIFEST, Tail), map[MXC := false], QUEUED)) == Running(Idle, map[], QUEUED)
  {
  }

  // ---- it is sent, and the link is replaced ----

  lemma {:induction false} SenderSteps(y: System, h: Handler, step: SenderStep) returns (next: System)
    requires Reachable(OneFile, y) && SysInv(OneFile, y) && y.handlers == map[0 := h] && !h.closed && Enabled(h.line, step, 0)
    ensures Reachable(OneFile, next) && SysInv(OneFile, next) && next.handlers == map[0 := h.(line := Apply(h.line, step, 0))]
  {
    next := OneMoves(y, h, SenderMove(step, 0));
  }

  lemma {:induction false} IsSent(y: System) returns (next: System)
    requires Reachable(OneFile, y) && SysInv(OneFile, y) && y.handlers == map[0 := Running(Idle, map[], QUEUED)]
    ensures Reachable(OneFile, next) && SysInv(OneFile, next) && next.handlers == map[0 := Running(Idle, map[], SENT)]
  {
    var inHand: Line<Request> := Fresh().(hand := Some(MAIN));
    var onWire: Line<Request> := Fresh().(wire := map[1 := MAIN], waits := {Wait(0, 1)});
    SendsIt();
    var y1 := SenderSteps(y, Running(Idle, map[], QUEUED), Take);
    var y2 := SenderSteps(y1, Running(Idle, map[], inHand), Send(1));
    next := SenderSteps(y2, Running(Idle, map[], onWire), NewLink);
  }

  lemma SendsIt()
    ensures var inHand: Line<Request> := Fresh().(hand := Some(MAIN));
            var onWire: Line<Request> := Fresh().(wire := map[1 := MAIN], waits := {Wait(0, 1)});
            && Apply(QUEUED, Take, 0) == inHand && Apply(inHand, Send(1), 0) == onWire && Apply(onWire, NewLink, 0) == SENT
  {
    var inHand: Line<Request> := Fresh().(hand := Some(MAIN));
    assert [MAIN][1..] == [];
    assert inHand.lost + Overwritten(inHand, Send(1)) == multiset{};
  }

  // ---- a GET wants something else ----

  /** The GET's request is in flight too. */
  function AlsoAsked(line: Line<Request>): Handler {
    Running(Idle, map[], line).(
      seekOnly := map[OTHER := SeekOnly(GET.manifest, false, 0)], asked := multiset{GET},
      inFlight := map[MAIN := InFlight([Main], NO_RETRIES), ASIDE := InFlight([Seek(0, GET, 1)], NO_RETRIES)])
  }

  function Asked(seeks: seq<SeekJob>, task: Task): Handler {
    Running(task, map[], SENT).(seeks := seeks, asked := multiset{GET})
  }

  lemma {:induction false} IsAsked(y: System) returns (next: System)
    requires Reachable(OneFile, y) && SysInv(OneFile, y) && y.handlers == map[0 := Running(Idle, map[], SENT)]
    ensures Reachable(OneFile, next) && SysInv(OneFile, next) && next.handlers == map[0 := Asked([], SeekLooking(GET))]
  {
    Comes();
    var y1 := OneMoves(y, Running(Idle, map[], SENT), AskMove(GET));
    next := OneMoves(y1, Asked([GET], Idle), TakeSeekMove(ALL_THERE));
  }

  lemma Comes()
    ensures var h := Running(Idle, map[], SENT);
            h.(seeks := h.seeks + [GET], asked := h.asked + multiset{GET}) == Asked([GET], Idle)
    ensures TakeSeek(Asked([GET], Idle), ALL_THERE) == Asked([], SeekLooking(GET))
  {
    var h := Running(Idle, map[], SENT);
    assert h.seeks + [GET] == [GET] && h.asked + multiset{GET} == multiset{GET} && [GET][1..] == [];
    assert OTHER !in Asked([GET], Idle).open;
  }

  lemma {:induction false} Hangs(d: Shared)
    ensures SeekLooked(State(Asked([], SeekLooking(GET)), d), false, ALL_THERE) == AlsoAsked(SENT.(queued := [ASIDE]))
  {
    var h := Asked([], Idle);
    var known := h.(seekOnly := Remember(h.seekOnly, GET, 0));
    assert ChunkIndexAt(0, 1) == Index(0);
    assert [ASIDE] + known.line.queued == [ASIDE];
    assert SeekLooked(State(Asked([], SeekLooking(GET)), d), false, ALL_THERE) == Want(known, ASIDE, Seek(0, GET, 1), true);
  }

  lemma {:induction false} IsLooked(y: System) returns (next: System)
    requires Reachable(OneFile, y) && SysInv(OneFile, y) && y.handlers == map[0 := Asked([], SeekLooking(GET))]
    ensures Reachable(OneFile, next) && SysInv(OneFile, next) && next.handlers == map[0 := AlsoAsked(SENT.(queued := [ASIDE]))]
  {
    Hangs(y.d);
    next := OneMoves(y, Asked([], SeekLooking(GET)), SeekLookedMove(false, ALL_THERE));
  }

  // ---- the same number again ----

  lemma {:induction false} IsOverwritten(y: System) returns (next: System)
    requires Reachable(OneFile, y) && SysInv(OneFile, y) && y.handlers == map[0 := AlsoAsked(SENT.(queued := [ASIDE]))]
    ensures Reachable(OneFile, next)
    ensures next.handlers == map[0 := AlsoAsked(Apply(SENT.(hand := Some(ASIDE)), Send(1), 0))]
  {
    assert [ASIDE][1..] == [];
    var y1 := SenderSteps(y, AlsoAsked(SENT.(queued := [ASIDE])), Take);
    next := SenderSteps(y1, AlsoAsked(SENT.(hand := Some(ASIDE))), Send(1));
  }

  lemma {:induction false} NoCopyLeft()
    ensures Copies(Apply(SENT.(hand := Some(ASIDE)), Send(1), 0), MAIN) == 0
  {
    var line := SENT.(hand := Some(ASIDE));
    EmptyWire<Request>();
    OnWirePut(map[], 1, MAIN);
    assert SENT.wire == map[][1 := MAIN];
    assert Copies(line, MAIN) == 1;
    SenderKeepsCopies(line, Send(1), 0, MAIN);
  }

  lemma {:induction false} NothingWillCome()
    ensures var h := AlsoAsked(Apply(SENT.(hand := Some(ASIDE)), Send(1), 0));
            !h.closed && DownloadCopies.Stuck(h, MAIN) && HasMain(h.inFlight[MAIN].waiters) && MXC in h.q.downloading
  {
    NoCopyLeft();
    assert Main in [Main];
  }

  /** A reachable state in which a running job's main request is in flight and no copy of it is left. */
  lemma {:induction false} LastCopyIsLost() returns (y: System)
    ensures Reachable(OneFile, y) && Alive(y, 0) && DownloadLost.StuckAt(y, 0, MAIN)
    ensures HasMain(y.handlers[0].inFlight[MAIN].waiters) && MXC in y.handlers[0].q.downloading
  {
    var y0 := IsChecked();
    var y1 := Starts(y0);
    y := LosesItsRequest(y1);
    NothingWillCome();
  }

  lemma {:induction false} IsChecked() returns (y: System)
    ensures Reachable(OneFile, y) && SysInv(OneFile, y) && y.handlers == map[0 := Works(0, FIRST, Checked, map[MXC := NEW], {})]
  {
    var y0 := DownloadWitness.Starts(map[], map[]);
    var y1 := TakesFirstJob(OneFile, y0, 0, FIRST);
    assert y1.handlers == map[0 := Takes(0, FIRST)];
    var y2 := BeginsToOpen(y1);
    y := OpensAndChecks(y2, NEW);
  }

  lemma {:induction false} LosesItsRequest(y: System) returns (next: System)
    requires Reachable(OneFile, y) && SysInv(OneFile, y)
    requires y.handlers == map[0 := Running(Preparing(MANIFEST, Tail), map[MXC := false], QUEUED)]
    ensures Reachable(OneFile, next)
    ensures next.handlers == map[0 := AlsoAsked(Apply(SENT.(hand := Some(ASIDE)), Send(1), 0))]
  {
    var y1 := IsReady(y);
    var y2 := IsSent(y1);
    var y3 := IsAsked(y2);
    var y4 := IsLooked(y3);
    next := IsOverwritten(y4);
  }
}
