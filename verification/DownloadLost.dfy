/** Requests that never get an answer: over whole runs, exactly those in flight whose last copy a reused number pushed off the
    wire table. A job whose main request is one of them stands still. */
module DownloadLost {
  import opened Files
  import opened Wrappers
  import opened Lines
  import opened Download
  import opened DownloadInv
  import DownloadTable
  import opened DownloadCopies
  import opened DownloadMoves
  import opened DownloadSystem
  import opened DownloadShared
  import opened DownloadEvents
  import opened DownloadRuns

  // ---- one move ----

  lemma {:induction false} ActKeepsCopies(w: World, s: State, move: Move)
    requires Inv(w, s, None, multiset{}) && May(w, s, move) && !move.SenderMove?
    ensures KeepsCopies(s.h, Act(w, s, move).h)
  {
    if IsPreparingMove(move) { PreparingKeeps(w, s, move); }
    else if IsWritingMove(move) { WritingKeeps(w, s, move); }
    else if IsFromOutside(move) { OutsideKeeps(w, s, move); }
    else { QuietKeeps(w, s, move); }
  }

  lemma {:induction false} WritingKeeps(w: World, s: State, move: Move)
    requires Inv(w, s, None, multiset{}) && May(w, s, move) && IsWritingMove(move)
    ensures KeepsCopies(s.h, Act(w, s, move).h)
  {
    match move
    case TakeReplyMove(v, local) => ReplyKeeps(s, v, local);
    case CancelOneMove(mxc, found) => CancelOneKeeps(s, mxc, found);
    case CloseIdleMove(mxc) => SameLineKeeps(s.h, CloseIdle(s, mxc).h);
    case AnsweredMove(found, unread) => AnsweredKeeps(s, found, unread);
    case _ =>
  }

  lemma {:induction false} QuietKeeps(w: World, s: State, move: Move)
    requires Inv(w, s, None, multiset{}) && May(w, s, move)
    requires !IsPreparingMove(move) && !IsWritingMove(move) && !move.SenderMove? && !IsFromOutside(move)
    ensures KeepsCopies(s.h, Act(w, s, move).h)
  {
    match move
    case TakeSeekMove(local) => TakeSeekKeeps(s.h, local);
    case SeekLookedMove(found, local) => SeekLookedKeeps(s, found, local);
    case RecordedMove(failed) => SameLineKeeps(s.h, FinishRecorded(s, failed).h);
    case TakeJobMove => SameLineKeeps(s.h, TakeJob(s.h));
    case FinishPreparingMove => SameLineKeeps(s.h, FinishPreparing(s.h));
    case ForgetMove(mxc) => SameLineKeeps(s.h, ForgetSeekOnly(s.h, mxc));
    case _ =>
  }

  predicate IsFromOutside(move: Move) { move.CancelMove? || move.AskMove? || move.StopMove? }

  lemma {:induction false} OutsideKeeps(w: World, s: State, move: Move)
    requires Inv(w, s, None, multiset{}) && May(w, s, move) && IsFromOutside(move)
    ensures KeepsCopies(s.h, Act(w, s, move).h)
  {
    SameLineKeeps(s.h, Act(w, s, move).h);
  }

  lemma {:induction false} PreparingKeeps(w: World, s: State, move: Move)
    requires Inv(w, s, None, multiset{}) && May(w, s, move) && IsPreparingMove(move)
    ensures KeepsCopies(s.h, Act(w, s, move).h)
  {
    match move
    case LookedMove(found) => LookedKeeps(s, found);
    case OpenedMove(media) => OpenedKeeps(s, media);
    case CancelCheckMove => CheckKeeps(s);
    case StartJobMove(disk) => StartKeeps(s, disk);
    case _ =>
  }

  lemma {:induction false} TailKeeps(s: State, end: JobEnd)
    requires s.h.task.Preparing?
    ensures KeepsCopies(s.h, EndJob(SetStage(s, Tail), s.h.task.manifest.mxc, end).h)
  {
    EndKeeps(SetStage(s, Tail), s.h.task.manifest.mxc, end);
    SameLineKeeps(s.h, EndJob(SetStage(s, Tail), s.h.task.manifest.mxc, end).h);
  }

  lemma {:induction false} LookedKeeps(s: State, found: bool)
    requires s.h.task.Preparing?
    ensures KeepsCopies(s.h, FoundComplete(s).h) && KeepsCopies(s.h, GiveUpJob(s).h)
    ensures !ClaimedElsewhere(s) ==> KeepsCopies(s.h, StartOpening(s).h)
  {
    TailKeeps(s, Complete);
    TailKeeps(s, if CancelledWhilePreparing(s.h.q, s.h.task.manifest.mxc) then Cancelled else Broken(AccountBusy));
    if !ClaimedElsewhere(s) { SameLineKeeps(s.h, StartOpening(s).h); }
  }

  lemma {:induction false} CheckKeeps(s: State)
    requires s.h.task.Preparing?
    ensures KeepsCopies(s.h, CancelCheck(s).h)
  {
    TailKeeps(s, Cancelled);
    SameLineKeeps(s.h, SetStage(s, Checked).h);
  }

  lemma {:induction false} OpenedKeeps(s: State, media: Result<MediaDownload, Error>)
    requires s.h.task.Preparing?
    ensures KeepsCopies(s.h, Opened(s, media).h)
  {
    var mxc := s.h.task.manifest.mxc;
    var h := s.h.(opening := s.h.opening - {mxc});
    if media.Err? { EndKeeps(SetStage(State(h, Release(s.d, Key(h, mxc), h.id)), Tail), mxc, Broken(media.error)); }
    SameLineKeeps(s.h, Opened(s, media).h);
  }

  lemma {:induction false} StartKeeps(s: State, disk: DiskResults)
    requires s.h.task.Preparing? && s.h.task.manifest.mxc in s.h.open
    ensures KeepsCopies(s.h, StartJob(s, disk).h)
  {
    SameLineKeeps(s.h, Started(s).h);
    ContinueKeeps(Started(s), s.h.task.manifest.mxc, disk);
    KeepsTwice(s.h, Started(s).h, StartJob(s, disk).h);
  }

  lemma {:induction false} AnsweredKeeps(s: State, found: bool, unread: set<nat>)
    requires s.h.finishing.Answering?
    requires found ==> Key(s.h, s.h.finishing.mxc) in s.d.pool
    ensures KeepsCopies(s.h, FinishAnswered(s, found, unread).h)
  {
    var mxc := s.h.finishing.mxc;
    var pieces := if found then PiecesFromPool(s.d.pool[Key(s.h, mxc)], mxc, s.h.inFlight, RequestsOf(s.h, mxc), unread) else {};
    var ready := s.(h := DropRequests(s.h, mxc).(finishing := NotFinishing, pieces := s.h.pieces + pieces));
    OutKeeps(s.h, ready.h, RequestsOf(s.h, mxc));
    EndKeeps(ready, mxc, s.h.finishing.end);
    KeepsTwice(s.h, ready.h, EndJob(ready, mxc, s.h.finishing.end).h);
  }

  // ---- one event ----

  ghost predicate InFlightAt(y: System, id: HandlerId, r: Request) { id in y.handlers && r in y.handlers[id].inFlight }

  ghost predicate StuckAt(y: System, id: HandlerId, r: Request) { id in y.handlers && Stuck(y.handlers[id], r) }

  /** A sender's step of this handler, for which the wire table has its number still. */
  predicate SendsAt(e: Event, id: HandlerId) { e.Run? && e.id == id && e.move.SenderMove? }

  /** The event pushes the last copy of a request in flight off the wire table: its number is on it already. */
  ghost predicate TakesLastAt(y: System, e: Event, id: HandlerId, r: Request) {
    SendsAt(e, id) && InFlightAt(y, id, r) && TakesLast(y.handlers[id].line, e.move.step, r)
  }

  /** A move of the handler: no request in flight loses its last copy but by a reused number, and none gets one back. */
  lemma {:induction false} MoveKeepsOne(w: World, s: State, move: Move, r: Request)
    requires Inv(w, s, None, multiset{}) && May(w, s, move) && r in Act(w, s, move).h.inFlight
    ensures var h2 := Act(w, s, move).h;
            && (Stuck(h2, r) <==> Stuck(s.h, r) || (move.SenderMove? && r in s.h.inFlight && TakesLast(s.h.line, move.step, r)))
            && (Stuck(s.h, r) ==> s.h.inFlight[r].waiters <= h2.inFlight[r].waiters)
  {
    if move.SenderMove? {
      GoneOnlyByReuse(s.h.line, move.step, move.silence, r);
    } else {
      ActKeepsCopies(w, s, move);
      assert KeepsOne(s.h, Act(w, s, move).h, r);
    }
  }

  /** What an event does to the requests in flight of a handler. */
  lemma {:induction false} EventKeepsCopies(file: Mxc -> ServerFile, y: System, e: Event, id: HandlerId, r: Request)
    requires SysInv(file, y) && Possible(file, y, e) && InFlightAt(After(file, y, e), id, r)
    ensures StuckAt(After(file, y, e), id, r) <==> StuckAt(y, id, r) || TakesLastAt(y, e, id, r)
    ensures StuckAt(y, id, r) ==> y.handlers[id].inFlight[r].waiters <= After(file, y, e).handlers[id].inFlight[r].waiters
  {
    if e.Run? && e.id == id {
      RunKeepsCopies(file, y, id, e.move, r);
    } else if e.Abort? && e.id == id {
      AbortMakes(file, y, id);
    } else {
      OthersKeepTable(file, y, e, id);
    }
  }

  lemma {:induction false} RunKeepsCopies(file: Mxc -> ServerFile, y: System, id: HandlerId, move: Move, r: Request)
    requires SysInv(file, y) && Possible(file, y, Run(id, move)) && InFlightAt(After(file, y, Run(id, move)), id, r)
    ensures var y2 := After(file, y, Run(id, move));
            && (StuckAt(y2, id, r) <==> StuckAt(y, id, r) || TakesLastAt(y, Run(id, move), id, r))
            && (StuckAt(y, id, r) ==> y.handlers[id].inFlight[r].waiters <= y2.handlers[id].inFlight[r].waiters)
  {
    RunMakes(file, y, id, move);
    MoveKeepsOne(WorldOf(file, y, id), At(y, id), move, r);
  }

  /** Other events leave a handler's table and line alone; a new handler's are empty. */
  lemma {:induction false} OthersKeepTable(file: Mxc -> ServerFile, y: System, e: Event, id: HandlerId)
    requires SysInv(file, y) && Possible(file, y, e) && id in After(file, y, e).handlers && !Actor(e, id)
    ensures var h2 := After(file, y, e).handlers[id];
            if id in y.handlers then h2.inFlight == y.handlers[id].inFlight && h2.line == y.handlers[id].line
            else h2.inFlight == map[] && h2.line == Fresh()
  {
    if id in y.handlers {
      OthersMake(file, y, e, id);
      BesideRuns(y, e, id);
    } else {
      NewOnesBegin(file, y, e, id);
    }
  }

  // ---- whole runs ----

  /** The request is in flight in every state of the run. */
  ghost predicate InFlightThroughout(file: Mxc -> ServerFile, y: System, events: seq<Event>, id: HandlerId, r: Request)
    requires SysInv(file, y) && IsRun(file, y, events)
    decreases |events|
  {
    InFlightAt(y, id, r) &&
    (events != [] ==>
       (StepKeeps(file, y, events[0]); InFlightThroughout(file, After(file, y, events[0]), events[1..], id, r)))
  }

  /** Somewhere in the run the last copy of the request is pushed off the wire table, and it is in flight ever after. */
  ghost predicate LosesLastCopy(file: Mxc -> ServerFile, y: System, events: seq<Event>, id: HandlerId, r: Request)
    requires SysInv(file, y) && IsRun(file, y, events)
    decreases |events|
  {
    events != [] &&
    (StepKeeps(file, y, events[0]);
     var next := After(file, y, events[0]);
     || (TakesLastAt(y, events[0], id, r) && InFlightThroughout(file, next, events[1..], id, r))
     || LosesLastCopy(file, next, events[1..], id, r))
  }

  /** Over any run: a request in flight at its end has no copy if and only if it had none and was in flight all along, or the run
      took the last one. */
  lemma {:induction false} StuckInRun(file: Mxc -> ServerFile, y: System, events: seq<Event>, id: HandlerId, r: Request)
    requires SysInv(file, y) && IsRun(file, y, events) && InFlightAt(EndOf(file, y, events), id, r)
    ensures StuckAt(EndOf(file, y, events), id, r) <==>
            || (StuckAt(y, id, r) && InFlightThroughout(file, y, events, id, r))
            || LosesLastCopy(file, y, events, id, r)
    decreases |events|
  {
    if events != [] {
      var next := After(file, y, events[0]);
      StepKeeps(file, y, events[0]);
      StuckInRun(file, next, events[1..], id, r);
      if InFlightAt(next, id, r) { EventKeepsCopies(file, y, events[0], id, r); }
    }
  }

  /** From the start of a process: a request in flight has a copy in the line (queued, in the sender's hand, on the wire or
      answered) unless a reused number pushed its last one off the wire table, and then it has none as long as it is in flight. */
  lemma {:induction false} NothingLost(file: Mxc -> ServerFile, start: System, events: seq<Event>, id: HandlerId, r: Request)
    requires Starting(file, start) && SysInv(file, start) && IsRun(file, start, events)
    requires InFlightAt(EndOf(file, start, events), id, r)
    ensures Copies(EndOf(file, start, events).handlers[id].line, r) == 0 <==> LosesLastCopy(file, start, events, id, r)
  {
    StuckInRun(file, start, events, id, r);
  }

  // ---- runs that reuse no number ----

  /** The event sends a request under a number that is on the wire table still. */
  ghost predicate ReusesAt(y: System, e: Event) {
    e.Run? && e.move.SenderMove? && e.id in y.handlers && Overwritten(y.handlers[e.id].line, e.move.step) != multiset{}
  }

  ghost predicate NeverReused(file: Mxc -> ServerFile, y: System, events: seq<Event>)
    requires SysInv(file, y) && IsRun(file, y, events)
    decreases |events|
  {
    events == [] ||
    (!ReusesAt(y, events[0]) && (StepKeeps(file, y, events[0]); NeverReused(file, After(file, y, events[0]), events[1..])))
  }

  /** No line has lost anything. */
  ghost predicate NoneLost(y: System) { forall id :: id in y.handlers ==> y.handlers[id].line.lost == multiset{} }

  lemma {:induction false} MoveLoses(w: World, s: State, move: Move)
    requires Inv(w, s, None, multiset{}) && May(w, s, move)
    ensures Act(w, s, move).h.line.lost == s.h.line.lost + if move.SenderMove? then Overwritten(s.h.line, move.step) else multiset{}
  {
    if move.SenderMove? {
      SenderKeepsCopies(s.h.line, move.step, move.silence, Info(Mxc(0)));
    } else {
      ActKeepsCopies(w, s, move);
    }
  }

  lemma {:induction false} EventLoses(file: Mxc -> ServerFile, y: System, e: Event)
    requires SysInv(file, y) && Possible(file, y, e)
    ensures NoneLost(After(file, y, e)) <==> NoneLost(y) && !ReusesAt(y, e)
  {
    var y2 := After(file, y, e);
    forall id | id in y2.handlers
      ensures id !in y.handlers ==> y2.handlers[id].line.lost == multiset{}
      ensures id in y.handlers ==>
                (y2.handlers[id].line.lost == multiset{} <==> y.handlers[id].line.lost == multiset{} && !(ReusesAt(y, e) && e.id == id))
    {
      LineLoses(file, y, e, id);
    }
    forall id | id in y.handlers ensures id in y2.handlers { StaysThere(file, y, e, id); }
  }

  lemma {:induction false} StaysThere(file: Mxc -> ServerFile, y: System, e: Event, id: HandlerId)
    requires SysInv(file, y) && Possible(file, y, e) && id in y.handlers
    ensures id in After(file, y, e).handlers
  {
    OnlyBeginMakes(file, y, e);
    assert id in y.handlers.Keys;
  }

  lemma {:induction false} LineLoses(file: Mxc -> ServerFile, y: System, e: Event, id: HandlerId)
    requires SysInv(file, y) && Possible(file, y, e) && id in After(file, y, e).handlers
    ensures var lost := After(file, y, e).handlers[id].line.lost;
            && (id !in y.handlers ==> lost == multiset{})
            && (id in y.handlers ==>
                  (lost == multiset{} <==> y.handlers[id].line.lost == multiset{} && !(ReusesAt(y, e) && e.id == id)))
  {
    if e.Run? && e.id == id {
      RunMakes(file, y, id, e.move);
      MoveLoses(WorldOf(file, y, id), At(y, id), e.move);
    } else if e.Abort? && e.id == id {
      AbortMakes(file, y, id);
    } else {
      OthersKeepTable(file, y, e, id);
    }
  }

  lemma {:induction false} NoneLostInRun(file: Mxc -> ServerFile, y: System, events: seq<Event>)
    requires SysInv(file, y) && IsRun(file, y, events)
    ensures NoneLost(EndOf(file, y, events)) <==> NoneLost(y) && NeverReused(file, y, events)
    decreases |events|
  {
    if events != [] {
      StepKeeps(file, y, events[0]);
      EventLoses(file, y, events[0]);
      NoneLostInRun(file, After(file, y, events[0]), events[1..]);
    }
  }

  lemma {:induction false} ReuseTakesLast(file: Mxc -> ServerFile, y: System, events: seq<Event>, id: HandlerId, r: Request)
    requires SysInv(file, y) && IsRun(file, y, events) && NeverReused(file, y, events)
    ensures !LosesLastCopy(file, y, events, id, r)
    decreases |events|
  {
    if events != [] {
      StepKeeps(file, y, events[0]);
      ReuseTakesLast(file, After(file, y, events[0]), events[1..], id, r);
      assert TakesLastAt(y, events[0], id, r) ==> ReusesAt(y, events[0]);
    }
  }

  /** A run from the start of a process reuses no number on the wire if and only if no line has pushed off anything; and then
      every request in flight has a copy in its line. */
  lemma {:induction false} NoReuseLosesNothing(file: Mxc -> ServerFile, start: System, events: seq<Event>)
    requires Starting(file, start) && SysInv(file, start) && IsRun(file, start, events)
    ensures var y := EndOf(file, start, events);
            && (NeverReused(file, start, events) <==> NoneLost(y))
            && (NoneLost(y) ==> forall id, r :: InFlightAt(y, id, r) ==> Copies(y.handlers[id].line, r) > 0)
  {
    NoneLostInRun(file, start, events);
    var y := EndOf(file, start, events);
    if NoneLost(y) {
      forall id, r | InFlightAt(y, id, r) ensures Copies(y.handlers[id].line, r) > 0 {
        ReuseTakesLast(file, start, events, id, r);
        NothingLost(file, start, events, id, r);
      }
    }
  }

  // ---- a job that stands still ----

  lemma {:induction false} StillWaits(file: Mxc -> ServerFile, y: System, events: seq<Event>, id: HandlerId, r: Request)
    requires SysInv(file, y) && IsRun(file, y, events) && InFlightThroughout(file, y, events, id, r) && StuckAt(y, id, r)
    ensures InFlightAt(EndOf(file, y, events), id, r) && StuckAt(EndOf(file, y, events), id, r)
    ensures y.handlers[id].inFlight[r].waiters <= EndOf(file, y, events).handlers[id].inFlight[r].waiters
    decreases |events|
  {
    if events != [] {
      StepKeeps(file, y, events[0]);
      EventKeepsCopies(file, y, events[0], id, r);
      StillWaits(file, After(file, y, events[0]), events[1..], id, r);
    }
  }

  /** A job whose main request lost its last copy hangs: cancelled or not, it runs on and its main file waits for that very
      request, in every state of every further run in which the request is in flight. */
  lemma {:induction false} StuckJobHangs(file: Mxc -> ServerFile, y: System, events: seq<Event>, id: HandlerId, r: Request)
    requires SysInv(file, y) && IsRun(file, y, events) && InFlightThroughout(file, y, events, id, r)
    requires Alive(y, id) && StuckAt(y, id, r) && HasMain(y.handlers[id].inFlight[r].waiters)
    ensures StuckAt(EndOf(file, y, events), id, r)
    ensures var h2 := EndOf(file, y, events).handlers[id];
            r.mxc in h2.q.downloading && r.mxc in h2.open && r == Cursor(r.mxc, h2.open[r.mxc])
  {
    StillWaits(file, y, events, id, r);
    RunKeepsInv(file, y, events);
    MainIsAtCursor(file, EndOf(file, y, events), id, r);
  }

  lemma {:induction false} MainIsAtCursor(file: Mxc -> ServerFile, y: System, id: HandlerId, r: Request)
    requires SysInv(file, y) && InFlightAt(y, id, r) && HasMain(y.handlers[id].inFlight[r].waiters)
    ensures IsCursor(y.handlers[id], r)
  {
    assert OneInv(WorldOf(file, y, id), At(y, id));
    DownloadTable.MainIsCounted(y.handlers[id].inFlight[r].waiters);
  }
}
