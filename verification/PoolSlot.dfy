/** One slot of the line pool as the repository keeps it: the line behind a read-write lock, the `opening` mutex beside it,
    updated in place. Each method is what a command does between two awaits and does exactly the step of `LinkPool`. */
module PoolSlots {
  import opened Wrappers
  import opened LinkPool

  class PoolSlot {
    var line: Option<LineId>
    var alive: bool
    var readers: set<Command>
    var writer: Option<Command>
    var mutex: Option<Command>
    var stage: map<Command, Stage>
    var events: seq<LinkEvent>
    var opens: nat
    var nextLine: LineId

    ghost function View(): Slot
      reads this
    {
      Slot(line, alive, readers, writer, mutex, stage, events, opens, nextLine)
    }

    constructor ()
      ensures View() == EMPTY
    {
      line, alive, readers, writer, mutex := None, false, {}, None, None;
      stage, events, opens, nextLine := map[], [], 0, 0;
    }

    /** With the read lock in hand: a living line gives the command a client and the lock stays with it; otherwise the lock
        goes back. */
    method PooledIfAlive(c: Command) returns (pooled: bool)
      modifies this`readers, this`stage
      ensures pooled == IsAlive(old(View()))
      ensures View() == if pooled then Move(old(View()).(readers := old(readers) + {c}), c, Using(line.value)) else old(View())
    {
      pooled := line.Some? && alive;
      if pooled {
        readers := readers + {c};
        stage := stage[c := Using(line.value)];
      }
    }

    /** The first look of `acquire`, and all of `reuse` with `background`. */
    method Look(c: Command, background: bool) returns (pooled: bool)
      requires Enabled(View(), if background then Reuse(c) else FirstLook(c))
      modifies this`readers, this`stage
      ensures View() == Next(old(View()), if background then Reuse(c) else FirstLook(c))
      ensures pooled <==> stage[c].Using?
      ensures pooled <==> old(line).Some? && old(alive)
    {
      pooled := PooledIfAlive(c);
      if !pooled { stage := stage[c := if background then Done else WantsOpening]; }
    }

    method HoldOpening(c: Command)
      requires Enabled(View(), TakeMutex(c))
      modifies this`mutex, this`stage
      ensures View() == Next(old(View()), TakeMutex(c))
    {
      mutex, stage := Some(c), stage[c := LooksAgain];
    }

    /** Somebody else may have opened it while this command waited. */
    method LookAgain(c: Command) returns (pooled: bool)
      requires Enabled(View(), SecondLook(c))
      modifies this`readers, this`stage, this`mutex
      ensures View() == Next(old(View()), SecondLook(c))
      ensures pooled <==> stage[c].Using?
      ensures pooled <==> old(line).Some? && old(alive)
    {
      pooled := PooledIfAlive(c);
      if pooled { mutex := None; } else { stage := stage[c := WantsWriting]; }
    }

    /** With the write lock in hand: a dead line goes, and if there is none `open` is called; true if it was. */
    method DropDeadLine(c: Command) returns (opening: bool)
      requires Inv(View()) && Enabled(View(), TakeWrite(c))
      modifies this
      ensures View() == Next(old(View()), TakeWrite(c))
      ensures opening <==> !IsAlive(old(View()))
    {
      writer := Some(c);
      var foundDead := line.Some? && !alive;
      if foundDead {
        line := None;
        events := events + [Closed];
      }
      opening := line.None?;
      if opening {
        opens := opens + 1;
        stage := stage[c := Opening];
      } else {
        Downgrade(c);
      }
    }

    /** The write lock becomes a read lock, with nobody else getting in between. */
    method Downgrade(c: Command)
      modifies this`writer, this`readers, this`stage
      ensures writer == None && readers == old(readers) + {c} && stage == old(stage)[c := JustOpened]
    {
      writer, readers, stage := None, readers + {c}, stage[c := JustOpened];
    }

    /** `open` came back. */
    method OpenReturns(c: Command, works: bool)
      requires Inv(View()) && Enabled(View(), if works then OpenWorks(c) else OpenFails(c))
      modifies this
      ensures View() == Next(old(View()), if works then OpenWorks(c) else OpenFails(c))
    {
      if works {
        line, alive, nextLine := Some(nextLine), true, nextLine + 1;
        events := events + [Opened];
        Downgrade(c);
      } else {
        Leave(c);
      }
    }

    /** The line may be dead right after it was opened: that is an error. */
    method LookLast(c: Command) returns (pooled: bool)
      requires Inv(View()) && Enabled(View(), LastLook(c))
      modifies this`readers, this`writer, this`mutex, this`stage
      ensures View() == Next(old(View()), LastLook(c))
      ensures pooled <==> stage[c].Using?
      ensures pooled <==> old(line).Some? && old(alive)
    {
      assert c in readers;
      assert readers + {c} == readers;
      pooled := PooledIfAlive(c);
      if pooled { mutex := None; } else { Leave(c); }
    }

    /** The command is done with its client, failed, or was dropped where it stood: its locks go. */
    method Leave(c: Command)
      modifies this`readers, this`writer, this`mutex, this`stage
      ensures View() == Move(LetGo(old(View()), c), c, Done)
    {
      readers := readers - {c};
      if writer == Some(c) { writer := None; }
      if mutex == Some(c) { mutex := None; }
      stage := stage[c := Done];
    }

    /** With the write lock in hand, so that no command uses the line: it goes, if there is one. */
    method Close(c: Command) returns (closed: bool)
      requires Enabled(View(), CloseLine(c))
      modifies this`line, this`alive, this`events, this`stage
      ensures View() == Next(old(View()), CloseLine(c))
      ensures closed == old(line).Some?
    {
      closed := line.Some?;
      if closed {
        line, alive := None, false;
        events := events + [Closed];
      }
      stage := stage[c := Done];
    }

    // ---- whole runs ----

    /** A command begins, or the line dies. */
    method Begin(step: Step)
      requires Enabled(View(), step) && (step.Arrive? || step.AskClose? || step.LineDies?)
      modifies this`stage, this`alive
      ensures View() == Next(old(View()), step)
    {
      match step
      case Arrive(c) => stage := stage[c := Arrived];
      case AskClose(c) => stage := stage[c := WantsClosing];
      case LineDies => alive := false;
      case _ =>
    }

    /** One step of one command. */
    method Do(step: Step)
      requires Inv(View()) && Enabled(View(), step)
      modifies this
      ensures View() == Next(old(View()), step) && Inv(View())
    {
      ghost var s := View();
      match step {
        case Reuse(c) => { var pooled := Look(c, true); }
        case FirstLook(c) => { var pooled := Look(c, false); }
        case TakeMutex(c) => HoldOpening(c);
        case SecondLook(c) => { var pooled := LookAgain(c); }
        case TakeWrite(c) => { var opening := DropDeadLine(c); }
        case OpenFails(c) => OpenReturns(c, false);
        case OpenWorks(c) => OpenReturns(c, true);
        case LastLook(c) => { var pooled := LookLast(c); }
        case Finish(c) => Leave(c);
        case GiveUp(c) => Leave(c);
        case CloseLine(c) => { var closed := Close(c); }
        case _ => Begin(step);
      }
      StepKeepsInv(s, step);
    }

    /** The slot's whole life: any commands in any interleaving, and it is where the state machine is, with what always holds. */
    method DoAll(steps: seq<Step>)
      requires Inv(View()) && IsRun(View(), steps)
      modifies this
      ensures View() == EndOf(old(View()), steps) && Inv(View())
    {
      var rest := steps;
      while rest != []
        invariant Inv(View()) && IsRun(View(), rest) && EndOf(View(), rest) == EndOf(old(View()), steps)
        decreases |rest|
      {
        Do(rest[0]);
        rest := rest[1..];
      }
    }
  }
}
