/** Every job that is put in is taken up, and every GET in its turn. `TaskAfter` and what follows it say where each move leaves
    the handler; over whole runs a job that waits has only so many turns before it, and some step towards them can always be taken. */
module DownloadTaken {
  import opened Files
  import opened Wrappers
  import opened JobQueue
  import opened Download
  import opened DownloadInv
  import DownloadJobs
  import opened DownloadFrame
  import opened DownloadMoves
  import opened DownloadSystem
  import opened DownloadShared
  import opened DownloadEvents
  import opened DownloadRuns
  import Outcomes = DownloadOutcomes
  import Told = DownloadTold

  // ---- where a move leaves the handler ----

  /** Complete, or claimed by another. */
  predicate IsLost(s: State, found: bool)
    requires s.h.task.Preparing?
  {
    found || ClaimedElsewhere(s)
  }

  /** The step at hand: a job goes from one stage to the next, or straight to the tail once it is clear that it does not run
      through them; a GET waits for the database only if its file is not open. */
  ghost function TaskAfter(w: World, s: State, move: Move): Task
    requires May(w, s, move)
  {
    match move
    case TakeJobMove =>
      var manifest := s.h.q.inbox[0];
      Preparing(manifest, if manifest.mxc in s.h.open then Ready else Looking)
    case LookedMove(found) => Preparing(s.h.task.manifest, if IsLost(s, found) then Tail else Opening)
    case OpenedMove(media) => Preparing(s.h.task.manifest, if media.Ok? then Ready else Tail)
    case CancelCheckMove =>
      Preparing(s.h.task.manifest, if CancelledWhilePreparing(s.h.q, s.h.task.manifest.mxc) then Tail else Checked)
    case StartJobMove(_) => Preparing(s.h.task.manifest, Tail)
    case FinishPreparingMove => Idle
    case TakeSeekMove(_) => if s.h.seeks[0].manifest.mxc in s.h.open then Idle else SeekLooking(s.h.seeks[0])
    case SeekLookedMove(_, _) => Idle
    case _ => s.h.task
  }

  /** Only the job that is taken up leaves the inbox, or one that is cancelled there. */
  ghost function InboxAfter(w: World, s: State, move: Move): seq<Manifest>
    requires May(w, s, move)
  {
    match move
    case TakeJobMove => s.h.q.inbox[1..]
    case CancelMove(mxc) => InboxWithout(s.h.q.inbox, mxc)
    case _ => s.h.q.inbox
  }

  ghost function SeeksAfter(w: World, s: State, move: Move): seq<SeekJob>
    requires May(w, s, move)
  {
    match move
    case TakeSeekMove(_) => s.h.seeks[1..]
    case AskMove(job) => s.h.seeks + [job]
    case _ => s.h.seeks
  }

  /** A job runs from its start until it ends. */
  ghost function RunningAfter(w: World, s: State, move: Move): set<Mxc>
    requires Inv(w, s, None, multiset{}) && May(w, s, move)
  {
    match Outcomes.EndingOf(w, s, move)
    case Some(ending) => s.h.q.downloading.Keys - {ending.mxc}
    case None => if move.StartJobMove? then s.h.q.downloading.Keys + {s.h.task.manifest.mxc} else s.h.q.downloading.Keys
  }

  ghost predicate Leaves(h2: Handler, task: Task, inbox: seq<Manifest>, seeks: seq<SeekJob>, running: set<Mxc>) {
    h2.task == task && h2.q.inbox == inbox && h2.seeks == seeks && h2.q.downloading.Keys == running
  }

  /** Whatever a handler does: its step at hand, its inbox, its channel and what runs are as said above. */
  lemma {:induction false} MoveTakes(w: World, s: State, move: Move)
    requires Inv(w, s, None, multiset{}) && May(w, s, move)
    ensures Leaves(Act(w, s, move).h, TaskAfter(w, s, move), InboxAfter(w, s, move), SeeksAfter(w, s, move), RunningAfter(w, s, move))
  {
    if IsWritingMove(move) {
      WritingTakes(w, s, move);
    } else if IsPreparingMove(move) {
      PreparingTakes(w, s, move);
    } else if move.TakeSeekMove? {
      TakeSeekTakes(s.h, move.local);
    } else if move.SeekLookedMove? {
      SeekLookedTakes(s, move.found, move.local);
    } else if move.CancelMove? {
      CancelTakes(w, s, move.mxc);
    } else {
      OthersTake(w, s, move);
    }
  }

  lemma {:induction false} WritingTakes(w: World, s: State, move: Move)
    requires Inv(w, s, None, multiset{}) && May(w, s, move) && IsWritingMove(move)
    ensures Leaves(Act(w, s, move).h, s.h.task, s.h.q.inbox, s.h.seeks, RunningAfter(w, s, move))
  {
    WritingShrinks(w, s, move);
    Outcomes.MoveTells(w, s, move);
    SameRunning(s.h.q, Act(w, s, move).h.q, Outcomes.EndingOf(w, s, move));
  }

  lemma {:induction false} SameRunning(q: QueueState, q2: QueueState, ending: Option<Outcomes.Ending>)
    requires Flags(q, q2) && Outcomes.Tells(q, q2, ending)
    ensures q2.downloading.Keys == if ending.Some? then q.downloading.Keys - {ending.value.mxc} else q.downloading.Keys
  {
  }

  lemma {:induction false} PreparingTakes(w: World, s: State, move: Move)
    requires Inv(w, s, None, multiset{}) && May(w, s, move) && IsPreparingMove(move)
    ensures Leaves(Act(w, s, move).h, TaskAfter(w, s, move), s.h.q.inbox, s.h.seeks, RunningAfter(w, s, move))
  {
    if move.LookedMove? {
      LookedMoveTakes(w, s, move.found);
    } else if move.OpenedMove? {
      OpenedMoveTakes(w, s, move.media);
    } else if move.CancelCheckMove? {
      CheckMoveTakes(w, s);
    } else {
      StartMoveTakes(w, s, move.disk);
    }
  }

  lemma {:induction false} LookedMoveTakes(w: World, s: State, found: bool)
    requires Inv(w, s, None, multiset{}) && May(w, s, LookedMove(found))
    ensures Leaves(Act(w, s, LookedMove(found)).h, TaskAfter(w, s, LookedMove(found)), s.h.q.inbox, s.h.seeks,
                   RunningAfter(w, s, LookedMove(found)))
  {
    LookedTakes(s, found);
  }

  lemma {:induction false} OpenedMoveTakes(w: World, s: State, media: Result<MediaDownload, Error>)
    requires Inv(w, s, None, multiset{}) && May(w, s, OpenedMove(media))
    ensures Leaves(Act(w, s, OpenedMove(media)).h, TaskAfter(w, s, OpenedMove(media)), s.h.q.inbox, s.h.seeks,
                   RunningAfter(w, s, OpenedMove(media)))
  {
    OpenedTakes(s, media);
  }

  lemma {:induction false} CheckMoveTakes(w: World, s: State)
    requires Inv(w, s, None, multiset{}) && May(w, s, CancelCheckMove)
    ensures Leaves(Act(w, s, CancelCheckMove).h, TaskAfter(w, s, CancelCheckMove), s.h.q.inbox, s.h.seeks,
                   RunningAfter(w, s, CancelCheckMove))
  {
    CheckTakes(s);
  }

  lemma {:induction false} StartMoveTakes(w: World, s: State, disk: DiskResults)
    requires Inv(w, s, None, multiset{}) && May(w, s, StartJobMove(disk))
    ensures Leaves(Act(w, s, StartJobMove(disk)).h, TaskAfter(w, s, StartJobMove(disk)), s.h.q.inbox, s.h.seeks,
                   RunningAfter(w, s, StartJobMove(disk)))
  {
    StartTakes(s, disk);
  }

  lemma {:induction false} TailTakes(s: State, end: JobEnd)
    requires s.h.task.Preparing?
    ensures var mxc := s.h.task.manifest.mxc;
            Leaves(EndJob(SetStage(s, Tail), mxc, end).h, Preparing(s.h.task.manifest, Tail), s.h.q.inbox, s.h.seeks,
                   s.h.q.downloading.Keys - {mxc})
  {
    EndTakes(SetStage(s, Tail), s.h.task.manifest.mxc, end);
  }

  lemma {:induction false} EndTakes(s: State, mxc: Mxc, end: JobEnd)
    ensures Leaves(EndJob(s, mxc, end).h, s.h.task, s.h.q.inbox, s.h.seeks, s.h.q.downloading.Keys - {mxc})
  {
    assert LeaveQueue(s.h.q, mxc, end).downloading == s.h.q.downloading - {mxc};
    assert LeaveQueue(s.h.q, mxc, end).inbox == s.h.q.inbox;
  }

  lemma {:induction false} LookedTakes(s: State, found: bool)
    requires s.h.task.Preparing?
    ensures var mxc := s.h.task.manifest.mxc;
            Leaves((if found then FoundComplete(s) else if ClaimedElsewhere(s) then GiveUpJob(s) else StartOpening(s)).h,
                   Preparing(s.h.task.manifest, if IsLost(s, found) then Tail else Opening), s.h.q.inbox, s.h.seeks,
                   if IsLost(s, found) then s.h.q.downloading.Keys - {mxc} else s.h.q.downloading.Keys)
  {
    TailTakes(s, Complete);
    TailTakes(s, if CancelledWhilePreparing(s.h.q, s.h.task.manifest.mxc) then Cancelled else Broken(AccountBusy));
  }

  lemma {:induction false} CheckTakes(s: State)
    requires s.h.task.Preparing?
    ensures var mxc := s.h.task.manifest.mxc;
            var cancelled := CancelledWhilePreparing(s.h.q, mxc);
            Leaves(CancelCheck(s).h, Preparing(s.h.task.manifest, if cancelled then Tail else Checked), s.h.q.inbox, s.h.seeks,
                   if cancelled then s.h.q.downloading.Keys - {mxc} else s.h.q.downloading.Keys)
  {
    TailTakes(s, Cancelled);
  }

  lemma {:induction false} OpenedTakes(s: State, media: Result<MediaDownload, Error>)
    requires s.h.task.Preparing?
    ensures Leaves(Opened(s, media).h, Preparing(s.h.task.manifest, if media.Ok? then Ready else Tail), s.h.q.inbox, s.h.seeks,
                   if media.Err? then s.h.q.downloading.Keys - {s.h.task.manifest.mxc} else s.h.q.downloading.Keys)
  {
    if media.Err? {
      var back := DownloadJobs.Unopened(s);
      assert Opened(s, media) == EndJob(SetStage(back, Tail), s.h.task.manifest.mxc, Broken(media.error));
      TailTakes(back, Broken(media.error));
    }
  }

  lemma {:induction false} StartTakes(s: State, disk: DiskResults)
    requires s.h.task.Preparing? && s.h.task.manifest.mxc in s.h.open && s.h.task.manifest.mxc !in s.h.q.downloading
    ensures var mxc := s.h.task.manifest.mxc;
            Leaves(StartJob(s, disk).h, Preparing(s.h.task.manifest, Tail), s.h.q.inbox, s.h.seeks,
                   if Outcomes.Sticks(s.h.open[mxc], disk) then s.h.q.downloading.Keys - {mxc} else s.h.q.downloading.Keys + {mxc})
  {
    var mxc := s.h.task.manifest.mxc;
    StartShrinks(s, disk);
    Outcomes.ContinueTells(Started(s), mxc, disk);
    assert StartJob(s, disk) == ContinueMain(Started(s), mxc, disk);
    SameRunning(Started(s).h.q, StartJob(s, disk).h.q, Outcomes.MovedOn(Started(s).h.q, mxc, s.h.open[mxc], disk));
  }

  lemma {:induction false} TakeSeekTakes(h: Handler, local: LocalReads)
    requires h.seeks != [] && h.task.Idle?
    ensures Leaves(TakeSeek(h, local), if h.seeks[0].manifest.mxc in h.open then Idle else SeekLooking(h.seeks[0]),
                   h.q.inbox, h.seeks[1..], h.q.downloading.Keys)
  {
    var mxc := h.seeks[0].manifest.mxc;
    if mxc in h.open { SeekAtOnly(h.(seeks := h.seeks[1..]), mxc, h.open[mxc].manifest.chunkSize, h.seeks[0], local); }
  }

  lemma {:induction false} SeekLookedTakes(s: State, found: bool, local: LocalReads)
    requires s.h.task.SeekLooking?
    requires found ==> Key(s.h, s.h.task.job.manifest.mxc) in s.d.pool
    ensures Leaves(SeekLooked(s, found, local), Idle, s.h.q.inbox, s.h.seeks, s.h.q.downloading.Keys)
  {
    var job := s.h.task.job;
    var mxc := job.manifest.mxc;
    if found {
      SeekFoundFrame(s, local);
    } else {
      var known := s.h.(task := Idle, seekOnly := Remember(s.h.seekOnly, job, s.h.line.now));
      SeekAtOnly(known, mxc, known.seekOnly[mxc].manifest.chunkSize, job, local);
    }
  }

  lemma {:induction false} WithoutIt(inbox: seq<Manifest>, mxc: Mxc)
    requires !InInbox(inbox, mxc)
    ensures InboxWithout(inbox, mxc) == inbox
  {
    if inbox != [] {
      assert inbox == [inbox[0]] + inbox[1..];
      InInboxStep(inbox[1..], inbox[0], mxc);
      WithoutIt(inbox[1..], mxc);
    }
  }

  lemma {:induction false} CancelTakes(w: World, s: State, mxc: Mxc)
    requires Inv(w, s, None, multiset{}) && May(w, s, CancelMove(mxc))
    ensures Leaves(Act(w, s, CancelMove(mxc)).h, s.h.task, InboxWithout(s.h.q.inbox, mxc), s.h.seeks, RunningAfter(w, s, CancelMove(mxc)))
  {
    CancelKeepsRunning(s.h.q, mxc);
  }

  lemma {:induction false} CancelKeepsRunning(q: QueueState, mxc: Mxc)
    requires InboxShape(q)
    ensures Cancel(q, mxc).inbox == InboxWithout(q.inbox, mxc) && Cancel(q, mxc).downloading.Keys == q.downloading.Keys
  {
    if !InInbox(q.inbox, mxc) { WithoutIt(q.inbox, mxc); }
  }

  lemma {:induction false} OthersTake(w: World, s: State, move: Move)
    requires Inv(w, s, None, multiset{}) && May(w, s, move) && !IsPreparingMove(move) && !IsWritingMove(move)
    requires !move.TakeSeekMove? && !move.SeekLookedMove? && !move.CancelMove?
    ensures Leaves(Act(w, s, move).h, TaskAfter(w, s, move), InboxAfter(w, s, move), SeeksAfter(w, s, move), RunningAfter(w, s, move))
  {
    if move.TakeJobMove? {
      TakeJobTakes(s.h);
    } else if move.FinishPreparingMove? {
      FinishTakes(s.h);
    }
  }

  lemma {:induction false} TakeJobTakes(h: Handler)
    requires InboxShape(h.q) && h.q.inbox != []
    ensures var manifest := h.q.inbox[0];
            Leaves(TakeJob(h), Preparing(manifest, if manifest.mxc in h.open then Ready else Looking), h.q.inbox[1..], h.seeks,
                   h.q.downloading.Keys)
  {
  }

  lemma {:induction false} FinishTakes(h: Handler)
    requires h.task.Preparing?
    ensures Leaves(FinishPreparing(h), Idle, h.q.inbox, h.seeks, h.q.downloading.Keys)
  {
  }

  // ---- the turns before a job ----

  /** A job waits to run: in the inbox, or on its way from there. */
  predicate Waits(h: Handler, x: Mxc) {
    InInbox(h.q.inbox, x) || (h.task.Preparing? && h.task.manifest.mxc == x && h.task.stage != Tail)
  }

  /** How many jobs are before it. */
  function Place(inbox: seq<Manifest>, x: Mxc): nat {
    if inbox == [] || inbox[0].mxc == x then 0 else 1 + Place(inbox[1..], x)
  }

  function TaskTurns(task: Task): nat {
    match task
    case Preparing(_, stage) =>
      (match stage case Looking => 5 case Opening => 4 case Ready => 3 case Checked => 2 case Tail => 1)
    case _ => 0
  }

  /** No job takes more than six turns on its way. */
  ghost function Turns(h: Handler, x: Mxc): nat {
    TaskTurns(h.task) + if InInbox(h.q.inbox, x) then 6 * (Place(h.q.inbox, x) + 1) else 0
  }

  /** The handler takes a job up or brings it a stage on. */
  predicate IsTurn(move: Move) { IsPreparingMove(move) || move.TakeJobMove? || move.FinishPreparingMove? }

  lemma {:induction false} PlaceWithout(inbox: seq<Manifest>, mxc: Mxc, x: Mxc)
    requires mxc != x
    ensures Place(InboxWithout(inbox, mxc), x) <= Place(inbox, x)
    ensures InInbox(InboxWithout(inbox, mxc), x) <==> InInbox(inbox, x)
  {
    InboxWithoutHas(inbox, mxc, x);
    if inbox != [] && inbox[0].mxc != x {
      PlaceWithout(inbox[1..], mxc, x);
      if inbox[0].mxc != mxc { assert InboxWithout(inbox, mxc)[1..] == InboxWithout(inbox[1..], mxc); }
    }
  }

  lemma {:induction false} PlaceAppend(inbox: seq<Manifest>, more: Manifest, x: Mxc)
    requires InInbox(inbox, x)
    ensures Place(inbox + [more], x) == Place(inbox, x) && InInbox(inbox + [more], x)
  {
    var i :| 0 <= i < |inbox| && inbox[i].mxc == x;
    assert (inbox + [more])[i].mxc == x;
    if inbox[0].mxc != x {
      assert inbox[1..][i - 1].mxc == x;
      PlaceAppend(inbox[1..], more, x);
      assert (inbox + [more])[1..] == inbox[1..] + [more];
    }
  }

  lemma {:induction false} FirstIsTaken(inbox: seq<Manifest>, x: Mxc)
    requires inbox != [] && inbox[0].mxc != x
    ensures InInbox(inbox[1..], x) <==> InInbox(inbox, x)
    ensures Place(inbox, x) == 1 + Place(inbox[1..], x)
  {
    assert inbox == [inbox[0]] + inbox[1..];
    InInboxStep(inbox[1..], inbox[0], x);
  }

  /** No move brings more turns before a job that still waits afterwards, and each turn is one of them. */
  lemma {:induction false} MoveTurns(w: World, s: State, move: Move, x: Mxc)
    requires Inv(w, s, None, multiset{}) && May(w, s, move) && Waits(s.h, x) && Waits(Act(w, s, move).h, x)
    ensures Turns(Act(w, s, move).h, x) + (if IsTurn(move) then 1 else 0) <= Turns(s.h, x)
  {
    var h2 := Act(w, s, move).h;
    MoveTakes(w, s, move);
    assert InboxShape(s.h.q) && TaskShape(s.h);
    TurnsAfter(w, s, move, h2, x);
  }

  lemma {:induction false} TurnsAfter(w: World, s: State, move: Move, h2: Handler, x: Mxc)
    requires May(w, s, move) && InboxShape(s.h.q) && TaskShape(s.h) && Waits(s.h, x) && Waits(h2, x)
    requires h2.task == TaskAfter(w, s, move) && h2.q.inbox == InboxAfter(w, s, move)
    ensures Turns(h2, x) + (if IsTurn(move) then 1 else 0) <= Turns(s.h, x)
  {
    if move.TakeJobMove? {
      TakeJobTurns(s.h, h2, x);
    } else if move.CancelMove? {
      CancelTurns(s.h.q, move.mxc, x);
    } else if IsTurn(move) {
      StageTurns(w, s, move);
    } else {
      NoTurn(w, s, move);
    }
  }

  /** Each stage is a turn. */
  lemma {:induction false} StageTurns(w: World, s: State, move: Move)
    requires May(w, s, move) && IsTurn(move) && !move.TakeJobMove?
    ensures InboxAfter(w, s, move) == s.h.q.inbox && TaskTurns(TaskAfter(w, s, move)) < TaskTurns(s.h.task)
  {
  }

  lemma {:induction false} NoTurn(w: World, s: State, move: Move)
    requires May(w, s, move) && !IsTurn(move) && !move.CancelMove?
    ensures InboxAfter(w, s, move) == s.h.q.inbox && TaskTurns(TaskAfter(w, s, move)) == TaskTurns(s.h.task)
  {
  }

  lemma {:induction false} TakeJobTurns(h: Handler, h2: Handler, x: Mxc)
    requires InboxShape(h.q) && h.task.Idle? && h.q.inbox != [] && Waits(h, x)
    requires h2.task.Preparing? && h2.q.inbox == h.q.inbox[1..]
    ensures Turns(h2, x) < Turns(h, x)
  {
    if h.q.inbox[0].mxc != x {
      FirstIsTaken(h.q.inbox, x);
    } else {
      OnlyFirst(h.q, x);
    }
  }

  lemma {:induction false} OnlyFirst(q: QueueState, x: Mxc)
    requires InboxShape(q) && q.inbox != [] && q.inbox[0].mxc == x
    ensures !InInbox(q.inbox[1..], x)
  {
    forall i | 0 <= i < |q.inbox[1..]| ensures q.inbox[1..][i].mxc != x {
      assert q.inbox[1..][i] == q.inbox[i + 1];
    }
  }

  lemma {:induction false} CancelTurns(q: QueueState, mxc: Mxc, x: Mxc)
    ensures InInbox(InboxWithout(q.inbox, mxc), x) ==>
              InInbox(q.inbox, x) && Place(InboxWithout(q.inbox, mxc), x) <= Place(q.inbox, x)
  {
    InboxWithoutHas(q.inbox, mxc, x);
    if mxc != x { PlaceWithout(q.inbox, mxc, x); }
  }

  // ---- over whole runs ----

  predicate WaitsAtHandler(y: System, id: HandlerId, x: Mxc) { id in y.handlers && Waits(y.handlers[id], x) }

  /** A turn at this handler: its own, or it hands the job at hand over. */
  predicate IsTurnAt(e: Event, id: HandlerId) { (e.Run? && e.id == id && IsTurn(e.move)) || HandsOver(e, id) }

  lemma {:induction false} EnqueueTurns(h: Handler, manifest: Manifest, waiters: seq<Waiter>, x: Mxc)
    requires Waits(h, x) && (h.task.Preparing? ==> h.task.manifest.mxc in h.q.preparing)
    ensures Turns(h.(q := EnqueueAt(h, manifest, waiters)), x) == Turns(h, x)
  {
    var q2 := EnqueueAt(h, manifest, waiters);
    if InInbox(h.q.inbox, x) {
      if q2.inbox != h.q.inbox { PlaceAppend(h.q.inbox, manifest, x); }
    } else {
      assert StatusIn(h.q, x).Some?;
      forall i | 0 <= i < |q2.inbox| ensures q2.inbox[i].mxc != x {
        assert i < |h.q.inbox| ==> q2.inbox[i] == h.q.inbox[i];
      }
    }
  }

  lemma {:induction false} BesideTurns(y: System, e: Event, id: HandlerId, x: Mxc)
    requires id in y.handlers && Waits(y.handlers[id], x) && TaskShape(y.handlers[id])
    requires e.HandOver? ==> e.id in y.handlers && y.handlers[e.id].task.Preparing?
    requires HandsOver(e, id) ==> y.handlers[id].task.stage == Looking
    ensures Turns(Beside(y, e, id), x) + (if HandsOver(e, id) then 1 else 0) <= Turns(y.handlers[id], x)
  {
    match e
    case Put(_, manifest, waiters) => EnqueueTurns(y.handlers[id], manifest, waiters, x);
    case HandOver(leaving, _) =>
      var job := y.handlers[leaving];
      EnqueueTurns(y.handlers[id], job.task.manifest, WaitersOf(job.q, job.task.manifest.mxc), x);
    case _ =>
  }

  /** A handler that is gone takes nothing up. */
  lemma {:induction false} GoneTurns(h: Handler, x: Mxc)
    requires h.task == Idle && h.q.inbox == []
    ensures !Waits(h, x)
  {
  }

  lemma {:induction false} EventTurns(file: Mxc -> ServerFile, y: System, e: Event, id: HandlerId, x: Mxc)
    requires SysInv(file, y) && Possible(file, y, e) && Alive(y, id)
    requires WaitsAtHandler(y, id, x) && WaitsAtHandler(After(file, y, e), id, x)
    ensures Turns(After(file, y, e).handlers[id], x) + (if IsTurnAt(e, id) then 1 else 0) <= Turns(y.handlers[id], x)
  {
    if !Actor(e, id) {
      assert OneInv(WorldOf(file, y, id), At(y, id));
      OthersMake(file, y, e, id);
      BesideTurns(y, e, id, x);
    } else if e.Run? {
      RunMakes(file, y, id, e.move);
      MoveTurns(WorldOf(file, y, id), At(y, id), e.move, x);
    } else {
      AbortMakes(file, y, id);
      GoneTurns(After(file, y, e).handlers[id], x);
    }
  }

  /** The job waits at this handler in every state of the run, and the handler lives. */
  ghost predicate WaitsThroughout(file: Mxc -> ServerFile, y: System, events: seq<Event>, id: HandlerId, x: Mxc)
    requires SysInv(file, y) && IsRun(file, y, events)
    decreases |events|
  {
    Alive(y, id) && Waits(y.handlers[id], x) &&
    (events != [] ==> (StepKeeps(file, y, events[0]); WaitsThroughout(file, After(file, y, events[0]), events[1..], id, x)))
  }

  function TurnsIn(events: seq<Event>, id: HandlerId): nat {
    if events == [] then 0 else (if IsTurnAt(events[0], id) then 1 else 0) + TurnsIn(events[1..], id)
  }

  /** In any run through which a job waits at a handler, be it in the inbox or on its way from there, the handler takes no more
      turns than six for each job before it, six for its own and five for the one at hand. */
  lemma {:induction false} JobIsTakenUp(file: Mxc -> ServerFile, y: System, events: seq<Event>, id: HandlerId, x: Mxc)
    requires SysInv(file, y) && IsRun(file, y, events) && WaitsThroughout(file, y, events, id, x)
    ensures TurnsIn(events, id) <= Turns(y.handlers[id], x) <= 6 * |y.handlers[id].q.inbox| + 5
    decreases |events|
  {
    PlaceBound(y.handlers[id].q.inbox, x);
    if events != [] {
      StepKeeps(file, y, events[0]);
      EventTurns(file, y, events[0], id, x);
      JobIsTakenUp(file, After(file, y, events[0]), events[1..], id, x);
    }
  }

  lemma {:induction false} PlaceBound(inbox: seq<Manifest>, x: Mxc)
    ensures InInbox(inbox, x) ==> Place(inbox, x) < |inbox|
  {
    if inbox != [] && inbox[0].mxc != x {
      FirstIsTaken(inbox, x);
      PlaceBound(inbox[1..], x);
    }
  }

  // ---- and there is always a next step ----

  /** What the handler does next: it finishes what it is at, brings the job at hand a stage on, or takes up the next. */
  function NextMove(h: Handler): Move {
    match h.finishing
    case Recording(_) => RecordedMove(None)
    case Answering(_, _) => AnsweredMove(false, {})
    case NotFinishing =>
      match h.task
      case SeekLooking(_) => SeekLookedMove(false, LocalReads({}, {}))
      case Idle => TakeJobMove
      case Preparing(_, stage) =>
        match stage
        case Looking => LookedMove(false)
        case Opening => OpenedMove(Err(Io))
        case Ready => CancelCheckMove
        case Checked => StartJobMove(DiskResults({}, {}, true, Io))
        case Tail => FinishPreparingMove
  }

  /** In every reachable state: a living handler at which a job waits can go on, with a turn or with what comes before one: the
      database's answer to a GET, or that of a file just finished. */
  lemma {:induction false} SomeTurnIsPossible(file: Mxc -> ServerFile, y: System, id: HandlerId, x: Mxc)
    requires SysInv(file, y) && Alive(y, id) && Waits(y.handlers[id], x)
    ensures Possible(file, y, Run(id, NextMove(y.handlers[id])))
    ensures IsTurn(NextMove(y.handlers[id])) <==> y.handlers[id].finishing == NotFinishing && !y.handlers[id].task.SeekLooking?
  {
    assert OneInv(WorldOf(file, y, id), At(y, id));
    NextIsPossible(WorldOf(file, y, id), At(y, id), x);
  }

  lemma {:induction false} NextIsPossible(w: World, s: State, x: Mxc)
    requires TaskShape(s.h) && !s.h.closed && Waits(s.h, x)
    ensures May(w, s, NextMove(s.h))
  {
    if s.h.finishing == NotFinishing && s.h.task.Idle? {
      assert s.h.q.inbox != [];
    }
  }

  // ---- GETs ----

  function AskedIn(events: seq<Event>, id: HandlerId): seq<SeekJob> {
    if events == [] then []
    else
      (if events[0].Run? && events[0].id == id && events[0].move.AskMove? then [events[0].move.job] else [])
      + AskedIn(events[1..], id)
  }

  function TakenIn(events: seq<Event>, id: HandlerId): nat {
    if events == [] then 0
    else (if TakesSeek(events[0], id) then 1 else 0) + TakenIn(events[1..], id)
  }

  predicate TakesSeek(e: Event, id: HandlerId) { e.Run? && e.id == id && e.move.TakeSeekMove? }

  lemma {:induction false} EventSeeks(file: Mxc -> ServerFile, y: System, e: Event, id: HandlerId)
    requires SysInv(file, y) && Possible(file, y, e) && Alive(y, id) && e != Abort(id)
    ensures id in After(file, y, e).handlers && (TakesSeek(e, id) ==> y.handlers[id].seeks != [])
    ensures After(file, y, e).handlers[id].seeks
         == if TakesSeek(e, id) then y.handlers[id].seeks[1..] else y.handlers[id].seeks + AskedIn([e], id)
  {
    if e.Run? && e.id == id {
      RunMakes(file, y, id, e.move);
      MoveSeeks(WorldOf(file, y, id), At(y, id), e.move, id);
    } else {
      OthersMake(file, y, e, id);
      BesideSeeks(y, e, id);
    }
  }

  lemma {:induction false} BesideSeeks(y: System, e: Event, id: HandlerId)
    requires id in y.handlers && !Actor(e, id)
    requires e.HandOver? ==> e.id in y.handlers && y.handlers[e.id].task.Preparing?
    ensures Beside(y, e, id).seeks == y.handlers[id].seeks + AskedIn([e], id)
  {
    BesideRuns(y, e, id);
  }

  lemma {:induction false} MoveSeeks(w: World, s: State, move: Move, id: HandlerId)
    requires Inv(w, s, None, multiset{}) && May(w, s, move)
    ensures Act(w, s, move).h.seeks == if move.TakeSeekMove? then s.h.seeks[1..] else s.h.seeks + AskedIn([Run(id, move)], id)
  {
    MoveTakes(w, s, move);
    SeeksAsAsked(w, s, move, id);
  }

  lemma {:induction false} SeeksAsAsked(w: World, s: State, move: Move, id: HandlerId)
    requires May(w, s, move)
    ensures SeeksAfter(w, s, move) == if move.TakeSeekMove? then s.h.seeks[1..] else s.h.seeks + AskedIn([Run(id, move)], id)
  {
    assert AskedIn([Run(id, move)][1..], id) == [];
  }

  /** GETs are taken in the order in which they came: after any run in which the handler is not dropped, the channel holds what
      was in it and what was asked since, less as many from the front as were taken. */
  lemma {:induction false} GetsAreTakenInTurn(file: Mxc -> ServerFile, y: System, events: seq<Event>, id: HandlerId)
    requires SysInv(file, y) && IsRun(file, y, events) && Alive(y, id) && Abort(id) !in events
    ensures id in EndOf(file, y, events).handlers
    ensures var all := y.handlers[id].seeks + AskedIn(events, id);
            TakenIn(events, id) <= |all| && EndOf(file, y, events).handlers[id].seeks == all[TakenIn(events, id)..]
    decreases |events|
  {
    if events != [] {
      var next := After(file, y, events[0]);
      StepKeeps(file, y, events[0]);
      EventSeeks(file, y, events[0], id);
      Told.StaysAlive(file, y, events[0], id);
      assert Abort(id) !in events[1..];
      GetsAreTakenInTurn(file, next, events[1..], id);
      TakenFurther(y.handlers[id].seeks, events, id, next.handlers[id].seeks);
    }
  }

  lemma {:induction false} TakenFurther(seeks: seq<SeekJob>, events: seq<Event>, id: HandlerId, seeks2: seq<SeekJob>)
    requires events != [] && (TakesSeek(events[0], id) ==> seeks != [])
    requires seeks2 == if TakesSeek(events[0], id) then seeks[1..] else seeks + AskedIn([events[0]], id)
    requires TakenIn(events[1..], id) <= |seeks2 + AskedIn(events[1..], id)|
    ensures var all := seeks + AskedIn(events, id);
            && TakenIn(events, id) <= |all|
            && (seeks2 + AskedIn(events[1..], id))[TakenIn(events[1..], id)..] == all[TakenIn(events, id)..]
  {
    var asked := AskedIn(events[1..], id);
    FirstAsked(events, id);
    if TakesSeek(events[0], id) {
      assert AskedIn(events, id) == asked;
      FirstOff(seeks, asked, TakenIn(events[1..], id));
    } else {
      assert seeks2 + asked == seeks + AskedIn(events, id);
    }
  }

  lemma {:induction false} FirstAsked(events: seq<Event>, id: HandlerId)
    requires events != []
    ensures AskedIn(events, id) == AskedIn([events[0]], id) + AskedIn(events[1..], id)
  {
    assert [events[0]][1..] == [];
  }

  lemma {:induction false} FirstOff(a: seq<SeekJob>, b: seq<SeekJob>, k: nat)
    requires a != [] && k <= |a[1..] + b|
    ensures (a[1..] + b)[k..] == (a + b)[k + 1..]
  {
    assert a + b == [a[0]] + (a[1..] + b);
  }
}
