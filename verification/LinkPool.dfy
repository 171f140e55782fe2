/** One slot of the line pool (link_pool.rs) as a state machine: any number of commands take the read lock to use the line,
    one at a time opens it under the `opening` mutex and the write lock, and closing waits for the write lock too. A step is
    what happens between two awaits. */
module LinkPool {
  import opened Wrappers

  datatype Command = Command(number: int)
  type LineId = nat

  datatype LinkEvent = Opened | Closed

  /** Where a command stands. `Using` holds the read lock with a client of this line. */
  datatype Stage =
    | Arrived            // `acquire` begins
    | WantsOpening       // found no living line, waits for the mutex
    | LooksAgain         // holds the mutex
    | WantsWriting       // holds the mutex, waits for the write lock
    | Opening            // holds the mutex and the write lock, `open` is running
    | JustOpened         // holds the mutex, the write lock became a read lock
    | Using(line: LineId)
    | WantsClosing       // waits for the write lock to close
    | Done

  datatype Slot = Slot(
    line: Option<LineId>,
    alive: bool,
    readers: set<Command>,
    writer: Option<Command>,
    mutex: Option<Command>,
    stage: map<Command, Stage>,
    events: seq<LinkEvent>,
    opens: nat,
    nextLine: LineId)

  const EMPTY: Slot := Slot(None, false, {}, None, None, map[], [], 0, 0)

  datatype Step =
    | Arrive(c: Command)          // a command calls `acquire`
    | Reuse(c: Command)           // a background task calls `reuse`
    | FirstLook(c: Command)
    | TakeMutex(c: Command)
    | SecondLook(c: Command)
    | TakeWrite(c: Command)       // drops a dead line, and calls `open` if there is none
    | OpenFails(c: Command)
    | OpenWorks(c: Command)
    | LastLook(c: Command)
    | Finish(c: Command)          // the client is dropped
    | AskClose(c: Command)
    | CloseLine(c: Command)
    | GiveUp(c: Command)          // the command's future is dropped
    | LineDies

  predicate IsAlive(s: Slot) { s.line.Some? && s.alive }

  predicate At(s: Slot, c: Command, stage: Stage) { c in s.stage && s.stage[c] == stage }

  predicate Enabled(s: Slot, step: Step) {
    match step
    case Arrive(c) => c !in s.stage
    case Reuse(c) => c !in s.stage && s.writer.None?
    case FirstLook(c) => At(s, c, Arrived) && s.writer.None?
    case TakeMutex(c) => At(s, c, WantsOpening) && s.mutex.None?
    case SecondLook(c) => At(s, c, LooksAgain) && s.writer.None?
    case TakeWrite(c) => At(s, c, WantsWriting) && s.writer.None? && s.readers == {}
    case OpenFails(c) => At(s, c, Opening)
    case OpenWorks(c) => At(s, c, Opening)
    case LastLook(c) => At(s, c, JustOpened)
    case Finish(c) => c in s.stage && s.stage[c].Using?
    case AskClose(c) => c !in s.stage
    case CloseLine(c) => At(s, c, WantsClosing) && s.writer.None? && s.readers == {}
    case GiveUp(c) => c in s.stage && s.stage[c] != Done
    case LineDies => IsAlive(s)
  }

  function Move(s: Slot, c: Command, stage: Stage): Slot { s.(stage := s.stage[c := stage]) }

  /** Whatever locks the command holds are given back. */
  function LetGo(s: Slot, c: Command): Slot {
    s.(readers := s.readers - {c},
       writer := if s.writer == Some(c) then None else s.writer,
       mutex := if s.mutex == Some(c) then None else s.mutex)
  }

  function Next(s: Slot, step: Step): Slot
    requires Enabled(s, step)
  {
    match step
    case Arrive(c) => Move(s, c, Arrived)
    case Reuse(c) => if IsAlive(s) then Move(s.(readers := s.readers + {c}), c, Using(s.line.value)) else Move(s, c, Done)
    case FirstLook(c) =>
      if IsAlive(s) then Move(s.(readers := s.readers + {c}), c, Using(s.line.value)) else Move(s, c, WantsOpening)
    case TakeMutex(c) => Move(s.(mutex := Some(c)), c, LooksAgain)
    case SecondLook(c) =>
      if IsAlive(s) then Move(s.(readers := s.readers + {c}, mutex := None), c, Using(s.line.value)) else Move(s, c, WantsWriting)
    case TakeWrite(c) =>
      if IsAlive(s) then Move(s.(writer := None, readers := s.readers + {c}), c, JustOpened)
      else
        var dropped := if s.line.Some? then s.(line := None, events := s.events + [Closed]) else s;
        Move(dropped.(writer := Some(c), opens := s.opens + 1), c, Opening)
    case OpenFails(c) => Move(LetGo(s, c), c, Done)
    case OpenWorks(c) =>
      Move(s.(line := Some(s.nextLine), alive := true, nextLine := s.nextLine + 1, events := s.events + [Opened],
              writer := None, readers := s.readers + {c}), c, JustOpened)
    case LastLook(c) =>
      if IsAlive(s) then Move(s.(mutex := None), c, Using(s.line.value)) else Move(LetGo(s, c), c, Done)
    case Finish(c) => Move(LetGo(s, c), c, Done)
    case AskClose(c) => Move(s, c, WantsClosing)
    case CloseLine(c) =>
      Move(if s.line.Some? then s.(line := None, alive := false, events := s.events + [Closed]) else s, c, Done)
    case GiveUp(c) => Move(LetGo(s, c), c, Done)
    case LineDies => s.(alive := false)
  }

  // ---- what always holds ----

  /** `Opened` and `Closed` take turns, and the last one says whether there is a line. */
  predicate EventsRight(s: Slot) {
    && (forall i :: 0 <= i < |s.events| ==> s.events[i] == if i % 2 == 0 then Opened else Closed)
    && (s.line.Some? <==> |s.events| % 2 == 1)
  }

  /** Who holds the locks stands where it says. */
  ghost predicate LocksRight(s: Slot) {
    && (s.writer.Some? ==> s.readers == {} && At(s, s.writer.value, Opening))
    && (forall c :: c in s.stage && s.stage[c].Opening? ==> s.writer == Some(c))
    && (forall c :: c in s.readers <==> c in s.stage && (s.stage[c].Using? || s.stage[c].JustOpened?))
    && (forall c :: c in s.stage && HoldsMutex(s.stage[c]) <==> s.mutex == Some(c))
  }

  predicate HoldsMutex(stage: Stage) { stage.LooksAgain? || stage.WantsWriting? || stage.Opening? || stage.JustOpened? }

  /** Every client is of the line the slot has; a line being opened is not there yet. */
  ghost predicate UsersRight(s: Slot) {
    && (forall c :: c in s.stage && s.stage[c].Using? ==> s.line == Some(s.stage[c].line))
    && (forall c :: c in s.stage && s.stage[c].JustOpened? ==> s.line.Some?)
    && (s.writer.Some? ==> s.line.None?)
    && (s.line.Some? ==> s.line.value < s.nextLine)
  }

  ghost predicate Inv(s: Slot) { EventsRight(s) && LocksRight(s) && UsersRight(s) }

  lemma {:induction false} EventsKeep(s: Slot, step: Step)
    requires EventsRight(s) && UsersRight(s) && LocksRight(s) && Enabled(s, step)
    ensures EventsRight(Next(s, step))
  {
    if step.OpenWorks? {
      assert s.line.None?;
    }
  }

  lemma {:induction false} UsersKeep(s: Slot, step: Step)
    requires UsersRight(s) && LocksRight(s) && Enabled(s, step)
    ensures UsersRight(Next(s, step))
  {
    match step
    case TakeWrite(c) => assert forall d :: d in s.stage ==> !s.stage[d].Using? && !s.stage[d].JustOpened?;
    case CloseLine(c) => assert forall d :: d in s.stage ==> !s.stage[d].Using? && !s.stage[d].JustOpened?;
    case OpenWorks(c) => assert s.readers == {} && forall d :: d in s.stage ==> !s.stage[d].Using? && !s.stage[d].JustOpened?;
    case _ =>
  }

  /** A step of one command leaves the others where they stand. */
  lemma {:induction false} LocksKeep(s: Slot, step: Step)
    requires LocksRight(s) && UsersRight(s) && Enabled(s, step)
    ensures LocksRight(Next(s, step))
  {
    match step
    case TakeWrite(c) => TakeWriteKeepsLocks(s, c);
    case GiveUp(c) => LetGoKeepsLocks(s, c);
    case Finish(c) => LetGoKeepsLocks(s, c);
    case OpenFails(c) => LetGoKeepsLocks(s, c);
    case OpenWorks(c) => OpenWorksKeepsLocks(s, c);
    case LastLook(c) => LastLookKeepsLocks(s, c);
    case SecondLook(c) => SecondLookKeepsLocks(s, c);
    case TakeMutex(c) => TakeMutexKeepsLocks(s, c);
    case _ => QuietKeepsLocks(s, step);
  }

  lemma {:induction false} TakeWriteKeepsLocks(s: Slot, c: Command)
    requires LocksRight(s) && Enabled(s, TakeWrite(c))
    ensures LocksRight(Next(s, TakeWrite(c)))
  {
  }

  lemma {:induction false} LetGoKeepsLocks(s: Slot, c: Command)
    requires LocksRight(s) && c in s.stage
    ensures LocksRight(Move(LetGo(s, c), c, Done))
  {
  }

  lemma {:induction false} OpenWorksKeepsLocks(s: Slot, c: Command)
    requires LocksRight(s) && Enabled(s, OpenWorks(c))
    ensures LocksRight(Next(s, OpenWorks(c)))
  {
  }

  lemma {:induction false} LastLookKeepsLocks(s: Slot, c: Command)
    requires LocksRight(s) && Enabled(s, LastLook(c))
    ensures LocksRight(Next(s, LastLook(c)))
  {
    LetGoKeepsLocks(s, c);
  }

  lemma {:induction false} SecondLookKeepsLocks(s: Slot, c: Command)
    requires LocksRight(s) && Enabled(s, SecondLook(c))
    ensures LocksRight(Next(s, SecondLook(c)))
  {
  }

  lemma {:induction false} TakeMutexKeepsLocks(s: Slot, c: Command)
    requires LocksRight(s) && Enabled(s, TakeMutex(c))
    ensures LocksRight(Next(s, TakeMutex(c)))
  {
  }

  lemma {:induction false} QuietKeepsLocks(s: Slot, step: Step)
    requires LocksRight(s) && Enabled(s, step) && !step.TakeMutex?
    requires !step.TakeWrite? && !step.GiveUp? && !step.Finish? && !step.OpenFails? && !step.OpenWorks? && !step.LastLook? && !step.SecondLook?
    ensures LocksRight(Next(s, step))
  {
  }

  lemma {:induction false} StepKeepsInv(s: Slot, step: Step)
    requires Inv(s) && Enabled(s, step)
    ensures Inv(Next(s, step))
  {
    EventsKeep(s, step);
    LocksKeep(s, step);
    UsersKeep(s, step);
  }

  // ---- whole runs ----

  ghost predicate IsRun(s: Slot, steps: seq<Step>)
    decreases |steps|
  {
    steps == [] || (Enabled(s, steps[0]) && IsRun(Next(s, steps[0]), steps[1..]))
  }

  ghost function EndOf(s: Slot, steps: seq<Step>): Slot
    requires IsRun(s, steps)
    decreases |steps|
  {
    if steps == [] then s else EndOf(Next(s, steps[0]), steps[1..])
  }

  lemma {:induction false} RunKeepsInv(s: Slot, steps: seq<Step>)
    requires Inv(s) && IsRun(s, steps)
    ensures Inv(EndOf(s, steps))
    decreases |steps|
  {
    if steps != [] {
      StepKeepsInv(s, steps[0]);
      RunKeepsInv(Next(s, steps[0]), steps[1..]);
    }
  }

  /** Whatever the commands do: the slot's events are `Opened`, `Closed`, `Opened`, and so on, and the last one says whether
      there is a line. */
  lemma {:induction false} EventsAlternate(steps: seq<Step>)
    requires IsRun(EMPTY, steps)
    ensures EventsRight(EndOf(EMPTY, steps))
  {
    RunKeepsInv(EMPTY, steps);
  }

  /** A line goes only when no command uses it; and who uses one uses the line that is there. */
  lemma {:induction false} LineGoesUnused(steps: seq<Step>, step: Step, c: Command)
    requires IsRun(EMPTY, steps) && Enabled(EndOf(EMPTY, steps), step)
    ensures var s := EndOf(EMPTY, steps);
            && (s.line.Some? && Next(s, step).line != s.line ==> !(c in s.stage && s.stage[c].Using?))
            && (c in s.stage && s.stage[c].Using? ==> s.line == Some(s.stage[c].line))
  {
    var s := EndOf(EMPTY, steps);
    RunKeepsInv(EMPTY, steps);
    if s.line.Some? && Next(s, step).line != s.line {
      assert step.TakeWrite? || step.CloseLine? || step.OpenWorks?;
      assert s.readers == {} || s.writer.Some?;
    }
  }

  /** Nothing goes wrong and nobody closes or walks away. */
  predicate IsCalm(step: Step) { !step.OpenFails? && !step.LineDies? && !step.CloseLine? && !step.GiveUp? }

  /** A living line is there, or one command is opening it. */
  predicate OpensNoMore(s: Slot) { IsAlive(s) || s.writer.Some? }

  lemma {:induction false} CalmStep(s: Slot, step: Step)
    requires Inv(s) && Enabled(s, step) && IsCalm(step)
    ensures OpensNoMore(s) ==> OpensNoMore(Next(s, step)) && Next(s, step).opens == s.opens
    ensures !OpensNoMore(s) ==> Next(s, step).opens == s.opens || (Next(s, step).opens == s.opens + 1 && OpensNoMore(Next(s, step)))
  {
    if step.TakeWrite? && OpensNoMore(s) {
      assert s.writer.None? && IsAlive(s);
    }
  }

  /** Any number of commands arriving on an empty slot open it once, as long as that works and the line lives. */
  lemma {:induction false} OpenedOnce(s: Slot, steps: seq<Step>)
    requires Inv(s) && IsRun(s, steps) && forall i :: 0 <= i < |steps| ==> IsCalm(steps[i])
    ensures EndOf(s, steps).opens <= s.opens + 1
    ensures OpensNoMore(s) ==> EndOf(s, steps).opens == s.opens
    decreases |steps|
  {
    if steps != [] {
      var next := Next(s, steps[0]);
      StepKeepsInv(s, steps[0]);
      CalmStep(s, steps[0]);
      assert forall i :: 0 <= i < |steps[1..]| ==> steps[1..][i] == steps[i + 1];
      OpenedOnce(next, steps[1..]);
    }
  }

  // ---- a command that opened a line gets it ----

  /** The step by which a command looks whether there is a line it can have, and gets it. */
  predicate IsLook(step: Step) { step.Reuse? || step.FirstLook? || step.SecondLook? || step.LastLook? }

  /** In any run: a command that looks has a client afterwards if and only if a living line is there at that moment, and then it is
      of this line. */
  lemma {:induction false} LookGivesIff(steps: seq<Step>, step: Step)
    requires IsRun(EMPTY, steps) && Enabled(EndOf(EMPTY, steps), step) && IsLook(step)
    ensures var s := EndOf(EMPTY, steps);
            var s2 := Next(s, step);
            && step.c in s2.stage && (s2.stage[step.c].Using? <==> s.line.Some? && s.alive)
            && (s2.stage[step.c].Using? ==> s2.line == s.line == Some(s2.stage[step.c].line) && step.c in s2.readers)
  {
    RunKeepsInv(EMPTY, steps);
    StepKeepsInv(EndOf(EMPTY, steps), step);
  }

  /** On its way through `acquire`. */
  predicate IsAcquiring(stage: Stage) {
    stage.Arrived? || stage.WantsOpening? || stage.LooksAgain? || stage.WantsWriting? || stage.Opening? || stage.JustOpened?
  }

  /** A line that is there lives. */
  predicate Lives(s: Slot) { s.line.Some? ==> s.alive }

  /** The command acquires, uses the living line, or was done with it. */
  ghost predicate IsServed(s: Slot, c: Command, finished: bool) {
    c in s.stage && (IsAcquiring(s.stage[c]) || (IsAlive(s) && s.stage[c] == Using(s.line.value)) || (finished && s.stage[c] == Done))
  }

  lemma {:induction false} CalmServes(s: Slot, step: Step, c: Command, finished: bool)
    requires Inv(s) && Lives(s) && Enabled(s, step) && IsCalm(step) && (IsServed(s, c, finished) || step == Arrive(c))
    ensures Lives(Next(s, step)) && IsServed(Next(s, step), c, finished || step == Finish(c))
  {
    if step == Arrive(c) {
      assert At(Next(s, step), c, Arrived);
    } else if step.TakeWrite? || step.OpenWorks? {
      WriterServes(s, step, c, finished);
    }
  }

  /** Nobody uses the line while the write lock is taken, and a living one is left alone. */
  lemma {:induction false} WriterServes(s: Slot, step: Step, c: Command, finished: bool)
    requires Inv(s) && Lives(s) && Enabled(s, step) && (step.TakeWrite? || step.OpenWorks?) && IsServed(s, c, finished)
    ensures Lives(Next(s, step)) && IsServed(Next(s, step), c, finished)
  {
    assert s.stage[c].Using? ==> c in s.readers;
  }

  lemma {:induction false} CalmLives(s: Slot, step: Step)
    requires Inv(s) && Lives(s) && Enabled(s, step) && IsCalm(step)
    ensures Lives(Next(s, step))
  {
  }

  lemma {:induction false} ServedInRun(s: Slot, steps: seq<Step>, c: Command, finished: bool)
    requires Inv(s) && Lives(s) && IsRun(s, steps) && (forall i :: 0 <= i < |steps| ==> IsCalm(steps[i]))
    requires IsServed(s, c, finished) || Arrive(c) in steps
    ensures Lives(EndOf(s, steps)) && IsServed(EndOf(s, steps), c, finished || Finish(c) in steps)
    decreases |steps|
  {
    if steps != [] {
      var next := Next(s, steps[0]);
      StepKeepsInv(s, steps[0]);
      CalmLives(s, steps[0]);
      assert steps == [steps[0]] + steps[1..];
      assert forall i :: 0 <= i < |steps[1..]| ==> steps[1..][i] == steps[i + 1];
      if IsServed(s, c, finished) || steps[0] == Arrive(c) {
        CalmServes(s, steps[0], c, finished);
        ServedInRun(next, steps[1..], c, finished || steps[0] == Finish(c));
      } else {
        ServedInRun(next, steps[1..], c, false);
        assert steps[0] != Finish(c) || Finish(c) in steps;
      }
    }
  }

  /** As long as opening works, lines live and nobody closes or walks away: a command that began to acquire and has come to the end
      of it has a client of the line that is there, which lives, unless it gave that back itself. */
  lemma {:induction false} CalmIsServed(steps: seq<Step>, c: Command)
    requires IsRun(EMPTY, steps) && (forall i :: 0 <= i < |steps| ==> IsCalm(steps[i]))
    requires Arrive(c) in steps && Finish(c) !in steps
    ensures var s := EndOf(EMPTY, steps);
            c in s.stage && (!IsAcquiring(s.stage[c]) ==> s.line.Some? && s.alive && s.stage[c] == Using(s.line.value))
  {
    ServedInRun(EMPTY, steps, c, false);
  }

  // ---- and every command comes to the end of it ----

  /** A step of `acquire`, or a client given back. */
  predicate GoesOn(step: Step) {
    || step.FirstLook? || step.TakeMutex? || step.SecondLook? || step.TakeWrite? || step.OpenWorks? || step.LastLook?
    || step.Finish?
  }

  /** Nobody waits for ever: in any run, as long as some command acquires, some command can go on. */
  lemma {:induction false} NoDeadlock(steps: seq<Step>, c: Command) returns (step: Step)
    requires IsRun(EMPTY, steps) && c in EndOf(EMPTY, steps).stage && IsAcquiring(EndOf(EMPTY, steps).stage[c])
    ensures Enabled(EndOf(EMPTY, steps), step) && GoesOn(step)
  {
    var s := EndOf(EMPTY, steps);
    RunKeepsInv(EMPTY, steps);
    if s.writer.Some? {
      step := OpenWorks(s.writer.value);
    } else if s.stage[c].Arrived? {
      step := FirstLook(c);
    } else if s.stage[c].WantsOpening? && s.mutex.None? {
      step := TakeMutex(c);
    } else {
      var d := if s.stage[c].WantsOpening? then s.mutex.value else c;
      step := HolderGoesOn(s, d);
    }
  }

  /** Whoever holds the mutex can go on, or somebody who uses the line can. */
  lemma {:induction false} HolderGoesOn(s: Slot, d: Command) returns (step: Step)
    requires Inv(s) && s.writer.None? && d in s.stage && HoldsMutex(s.stage[d])
    ensures Enabled(s, step) && GoesOn(step)
  {
    if s.stage[d].LooksAgain? {
      step := SecondLook(d);
    } else if s.stage[d].JustOpened? {
      step := LastLook(d);
    } else if s.readers == {} {
      step := TakeWrite(d);
    } else {
      var e :| e in s.readers;
      step := if s.stage[e].Using? then Finish(e) else LastLook(e);
    }
  }

  /** How many steps a command has still before it, at most. */
  function StepsLeft(stage: Stage): nat {
    match stage
    case Arrived => 7
    case WantsOpening => 6
    case LooksAgain => 5
    case WantsWriting => 4
    case Opening => 3
    case JustOpened => 2
    case Using(_) => 1
    case WantsClosing => 1
    case Done => 0
  }

  function LeftOf(s: Slot, c: Command): nat { if c in s.stage then StepsLeft(s.stage[c]) else 8 }

  predicate IsStepOf(step: Step, c: Command) { !step.LineDies? && step.c == c }

  function StepsOf(steps: seq<Step>, c: Command): nat {
    if steps == [] then 0 else (if IsStepOf(steps[0], c) then 1 else 0) + StepsOf(steps[1..], c)
  }

  lemma {:induction false} StepBringsOn(s: Slot, step: Step, c: Command)
    requires Inv(s) && Enabled(s, step)
    ensures LeftOf(Next(s, step), c) + (if IsStepOf(step, c) then 1 else 0) <= LeftOf(s, c)
  {
  }

  lemma {:induction false} StepsBound(s: Slot, steps: seq<Step>, c: Command)
    requires Inv(s) && IsRun(s, steps)
    ensures StepsOf(steps, c) + LeftOf(EndOf(s, steps), c) <= LeftOf(s, c)
    decreases |steps|
  {
    if steps != [] {
      StepKeepsInv(s, steps[0]);
      StepBringsOn(s, steps[0], c);
      StepsBound(Next(s, steps[0]), steps[1..], c);
    }
  }

  /** No command takes more than eight steps, in any run; so, as some command can always go on, each comes to its end. */
  lemma {:induction false} EightStepsAtMost(steps: seq<Step>, c: Command)
    requires IsRun(EMPTY, steps)
    ensures StepsOf(steps, c) <= 8
  {
    StepsBound(EMPTY, steps, c);
  }
}
