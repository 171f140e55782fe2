/** Over whole runs: what was written of a file stays, open at one handler or kept on disk for the next, until one of the reasons
    to delete it comes in or it is whole. */
module DownloadWritten {
  import opened Files
  import opened Wrappers
  import Lines
  import opened Download
  import opened DownloadInv
  import DownloadJobs
  import opened DownloadFrame
  import opened DownloadMoves
  import opened DownloadSystem
  import opened DownloadShared
  import opened DownloadEvents
  import opened DownloadRuns
  import DownloadCancel
  import opened DownloadKept

  predicate IsOpenAt(y: System, id: HandlerId, key: FileKey) {
    id in y.handlers && y.handlers[id].dir == key.dir && key.mxc in y.handlers[id].open
  }

  /** At least this is there of the file: in the open file if some handler has it open, otherwise on disk. */
  ghost predicate Holds(y: System, key: FileKey, m: MediaDownload) {
    && (forall id :: IsOpenAt(y, id, key) ==> Has(y.handlers[id].open[key.mxc], m))
    && ((forall id :: !IsOpenAt(y, id, key)) ==> key in y.d.disk && Has(y.d.disk[key], m))
  }

  // ---- a move touches only what is open ----

  /** Files that are not open are left alone, and none is opened. */
  ghost predicate LeavesOthers(s: State, s2: State, x: Mxc) {
    s2.h.dir == s.h.dir
    && (x !in s.h.open ==> x !in s2.h.open && Look(s2.d.disk, Key(s.h, x)) == Look(s.d.disk, Key(s.h, x)))
  }

  predicate OpensIt(s: State, move: Move, x: Mxc) {
    move.OpenedMove? && move.media.Ok? && s.h.task.Preparing? && s.h.task.manifest.mxc == x
  }

  lemma {:induction false} ShrinksLeaves(s: State, s2: State, x: Mxc)
    requires Shrinks(s, s2)
    ensures LeavesOthers(s, s2, x)
  {
    assert Key(s.h, x).mxc == x;
  }

  lemma {:induction false} PreparingLeaves(w: World, s: State, move: Move, x: Mxc)
    requires Inv(w, s, None, multiset{}) && May(w, s, move) && IsPreparingMove(move) && !OpensIt(s, move, x)
    ensures LeavesOthers(s, Act(w, s, move), x)
  {
    match move
    case LookedMove(found) => LookedLeaves(s, x);
    case OpenedMove(media) => OpenedLeaves(s, media, x);
    case CancelCheckMove => TailLeaves(s, Cancelled, x);
    case StartJobMove(disk) => StartLeaves(s, disk, x);
    case _ =>
  }

  lemma {:induction false} TailLeaves(s: State, end: JobEnd, x: Mxc)
    requires s.h.task.Preparing?
    ensures LeavesOthers(s, EndJob(SetStage(s, Tail), s.h.task.manifest.mxc, end), x)
  {
    EndTailShrinks(s, end);
    ShrinksLeaves(s, EndJob(SetStage(s, Tail), s.h.task.manifest.mxc, end), x);
  }

  lemma {:induction false} LookedLeaves(s: State, x: Mxc)
    requires s.h.task.Preparing?
    ensures LeavesOthers(s, FoundComplete(s), x) && LeavesOthers(s, GiveUpJob(s), x)
    ensures !ClaimedElsewhere(s) ==> LeavesOthers(s, StartOpening(s), x)
  {
    TailLeaves(s, Complete, x);
    TailLeaves(s, if CancelledWhilePreparing(s.h.q, s.h.task.manifest.mxc) then Cancelled else Broken(AccountBusy), x);
  }

  lemma {:induction false} OpenedLeaves(s: State, media: Result<MediaDownload, Error>, x: Mxc)
    requires s.h.task.Preparing? && (media.Ok? ==> s.h.task.manifest.mxc != x)
    ensures LeavesOthers(s, Opened(s, media), x)
  {
    if media.Err? {
      var back := DownloadJobs.Unopened(s);
      assert Opened(s, media) == EndJob(SetStage(back, Tail), s.h.task.manifest.mxc, Broken(media.error));
      TailLeaves(back, Broken(media.error), x);
    }
  }

  lemma {:induction false} StartLeaves(s: State, disk: DiskResults, x: Mxc)
    requires s.h.task.Preparing? && s.h.task.manifest.mxc in s.h.open
    ensures LeavesOthers(s, StartJob(s, disk), x)
  {
    StartShrinks(s, disk);
    ShrinksLeaves(Started(s), StartJob(s, disk), x);
  }

  lemma {:induction false} MoveLeaves(w: World, s: State, move: Move, x: Mxc)
    requires Inv(w, s, None, multiset{}) && May(w, s, move) && !OpensIt(s, move, x)
    ensures LeavesOthers(s, Act(w, s, move), x)
  {
    if IsWritingMove(move) {
      WritingShrinks(w, s, move);
      ShrinksLeaves(s, Act(w, s, move), x);
    } else if IsPreparingMove(move) {
      PreparingLeaves(w, s, move, x);
    } else if DownloadCancel.IsSeekMove(move) {
      DownloadCancel.SeekMoveKeepsFiles(w, s, move);
    } else {
      DownloadCancel.QuietKeepsFiles(w, s, move);
    }
  }

  // ---- one event ----

  /** The handler that has the file open deletes it or finishes it, or one that opens it finds less of it on disk than that. */
  ghost predicate BreaksAt(file: Mxc -> ServerFile, y: System, e: Event, key: FileKey, m: MediaDownload)
    requires SysInv(file, y) && Possible(file, y, e)
  {
    && e.Run? && y.handlers[e.id].dir == key.dir
    && (RunMakes(file, y, e.id, e.move);
        var s := At(y, e.id);
        if key.mxc in s.h.open then !FateOf(WorldOf(file, y, e.id), s, e.move, key.mxc).Kept?
        else OpensIt(s, e.move, key.mxc) && !Has(e.move.media.value, m))
  }

  /** What the actor makes of the file. */
  ghost predicate ActorKeeps(s2: State, key: FileKey, m: MediaDownload) {
    if key.mxc in s2.h.open then Has(s2.h.open[key.mxc], m) else key in s2.d.disk && Has(s2.d.disk[key], m)
  }

  lemma {:induction false} MoveWrites(w: World, s: State, move: Move, key: FileKey, m: MediaDownload)
    requires Inv(w, s, None, multiset{}) && May(w, s, move) && key.dir == s.h.dir
    requires if key.mxc in s.h.open then FateOf(w, s, move, key.mxc).Kept? && Has(s.h.open[key.mxc], m)
             else OpensIt(s, move, key.mxc) ==> Has(move.media.value, m)
    requires key.mxc !in s.h.open ==> key in s.d.disk && Has(s.d.disk[key], m)
    ensures ActorKeeps(Act(w, s, move), key, m)
  {
    assert Key(s.h, key.mxc) == key;
    if key.mxc in s.h.open {
      MoveMeets(w, s, move, key.mxc);
      ActTouches(w, s, move);
      FateGrows(w, s, move, key.mxc);
      HasMore(s.h.open[key.mxc], FateOf(w, s, move, key.mxc).m, m);
    } else if !OpensIt(s, move, key.mxc) {
      MoveLeaves(w, s, move, key.mxc);
    }
  }

  lemma {:induction false} HasMore(b: MediaDownload, c: MediaDownload, a: MediaDownload)
    requires Has(b, a) && Has(c, b)
    ensures Has(c, a) && forall d :: Has(d, c) ==> Has(d, a)
  {
    forall d | Has(d, c) ensures Has(d, a) { HasTwice(c, d, a, b); }
  }

  lemma HasTwice(c: MediaDownload, d: MediaDownload, a: MediaDownload, b: MediaDownload)
    requires Has(b, a) && Has(c, b) && Has(d, c)
    ensures Has(c, a) && Has(d, a)
  {
    forall i | i in a.store ensures LocalChunk(c, i).Some? && LocalChunk(d, i).Some? {
      assert LocalChunk(b, i).Some?;
      assert LocalChunk(c, i).Some?;
    }
  }

  /** What is kept is at least what was there. */
  lemma {:induction false} FateGrows(w: World, s: State, move: Move, x: Mxc)
    requires Inv(w, s, None, multiset{}) && May(w, s, move) && x in s.h.open && FateOf(w, s, move, x).Kept?
    ensures Has(FateOf(w, s, move, x).m, s.h.open[x])
  {
    if move.TakeReplyMove? {
      var reply := s.h.line.replies[0];
      if reply.action.mxc == x && reply.action in s.h.inFlight {
        ReplyFateGrows(s.h, reply, s.h.inFlight[reply.action], move.v);
      }
    }
  }

  lemma {:induction false} ReplyFateGrows(h: Handler, reply: Lines.LineReply<Request>, entry: InFlight, v: Verdict)
    requires reply.action.mxc in h.open && ReplyFate(h, reply, entry, v).Kept?
    ensures Has(ReplyFate(h, reply, entry, v).m, h.open[reply.action.mxc])
  {
  }

  /** A handler goes on to `s2`: what it had open is as it leaves it, what another had open is untouched. */
  lemma {:induction false} ActorHolds(y: System, y2: System, id: HandlerId, s2: State, key: FileKey, m: MediaDownload)
    requires Holds(y, key, m) && id in y.handlers && y.handlers[id].dir == key.dir && s2.h.dir == key.dir
    requires y2 == y.(handlers := y.handlers[id := s2.h], d := s2.d)
    requires (forall other :: IsOpenAt(y, other, key) ==> other == id) ==> ActorKeeps(s2, key, m)
    requires (exists other :: IsOpenAt(y, other, key) && other != id) ==> key.mxc !in s2.h.open
    ensures Holds(y2, key, m)
  {
    forall other | IsOpenAt(y2, other, key) ensures Has(y2.handlers[other].open[key.mxc], m) {
      OpenAfter(y, y2, id, s2, key, m, other);
    }
    if forall other :: !IsOpenAt(y2, other, key) {
      assert !IsOpenAt(y2, id, key);
      forall other | IsOpenAt(y, other, key) ensures other == id {
        if other != id { assert IsOpenAt(y2, other, key); }
      }
    }
  }

  lemma {:induction false} OpenAfter(y: System, y2: System, id: HandlerId, s2: State, key: FileKey, m: MediaDownload, other: HandlerId)
    requires Holds(y, key, m) && id in y.handlers && IsOpenAt(y2, other, key)
    requires y2 == y.(handlers := y.handlers[id := s2.h], d := s2.d)
    requires (forall x :: IsOpenAt(y, x, key) ==> x == id) ==> ActorKeeps(s2, key, m)
    requires (exists x :: IsOpenAt(y, x, key) && x != id) ==> key.mxc !in s2.h.open
    ensures Has(y2.handlers[other].open[key.mxc], m)
  {
    if other != id {
      assert IsOpenAt(y, other, key);
    } else {
      assert forall x :: IsOpenAt(y, x, key) ==> x == id;
    }
  }

  /** Whoever opens a file has claimed it, so nobody else has it open. */
  lemma {:induction false} OpensAlone(file: Mxc -> ServerFile, y: System, id: HandlerId, move: Move, key: FileKey, other: HandlerId)
    requires SysInv(file, y) && Possible(file, y, Run(id, move)) && y.handlers[id].dir == key.dir
    requires IsOpenAt(y, other, key) && other != id
    ensures key.mxc !in y.handlers[id].open && !OpensIt(At(y, id), move, key.mxc)
  {
    assert OneInv(WorldOf(file, y, id), At(y, id)) && OneInv(WorldOf(file, y, other), At(y, other));
    assert DownloadInv.Holds(At(y, other), key.mxc);
    assert DownloadInv.Holds(At(y, id), key.mxc) <==> Holding(y.handlers[id], key.mxc);
  }

  lemma {:induction false} RunHolds(file: Mxc -> ServerFile, y: System, id: HandlerId, move: Move, key: FileKey, m: MediaDownload)
    requires SysInv(file, y) && Possible(file, y, Run(id, move)) && Holds(y, key, m) && y.handlers[id].dir == key.dir
    requires !BreaksAt(file, y, Run(id, move), key, m)
    ensures Holds(After(file, y, Run(id, move)), key, m)
  {
    var w, s := WorldOf(file, y, id), At(y, id);
    RunMakes(file, y, id, move);
    var s2 := Act(w, s, move);
    ActTouches(w, s, move);
    if other :| IsOpenAt(y, other, key) && other != id {
      OpensAlone(file, y, id, move, key, other);
      MoveLeaves(w, s, move, key.mxc);
    } else {
      assert key.mxc in s.h.open ==> IsOpenAt(y, id, key);
      MoveWrites(w, s, move, key, m);
    }
    ActorHolds(y, After(file, y, Run(id, move)), id, s2, key, m);
  }

  lemma {:induction false} AbortHolds(file: Mxc -> ServerFile, y: System, id: HandlerId, key: FileKey, m: MediaDownload)
    requires SysInv(file, y) && Possible(file, y, Abort(id)) && Holds(y, key, m) && y.handlers[id].dir == key.dir
    ensures Holds(After(file, y, Abort(id)), key, m)
  {
    var s := At(y, id);
    AbortMakes(file, y, id);
    CloseWrites(s, key, m);
    assert key.mxc in s.h.open ==> IsOpenAt(y, id, key);
    ActorHolds(y, After(file, y, Abort(id)), id, Close(s), key, m);
  }

  lemma {:induction false} CloseWrites(s: State, key: FileKey, m: MediaDownload)
    requires key.dir == s.h.dir
    ensures key.mxc !in Close(s).h.open && Close(s).h.dir == s.h.dir
    ensures key.mxc in s.h.open && Has(s.h.open[key.mxc], m) ==> ActorKeeps(Close(s), key, m)
    ensures key.mxc !in s.h.open && key in s.d.disk && Has(s.d.disk[key], m) ==> ActorKeeps(Close(s), key, m)
  {
    assert key.mxc in s.h.open ==> key in KeptOnDisk(s.h);
  }

  /** An actor of another directory has nothing to do with the file. */
  lemma {:induction false} ElsewhereHolds(file: Mxc -> ServerFile, y: System, e: Event, key: FileKey, m: MediaDownload)
    requires SysInv(file, y) && Possible(file, y, e) && Holds(y, key, m)
    requires (e.Run? || e.Abort?) && y.handlers[e.id].dir != key.dir
    ensures Holds(After(file, y, e), key, m)
  {
    ActorElsewhere(file, y, e, key);
    BesideHolds(y, After(file, y, e), e.id, key, m);
  }

  lemma {:induction false} BesideHolds(y: System, y2: System, id: HandlerId, key: FileKey, m: MediaDownload)
    requires Holds(y, key, m) && SameFile(y.d, y2.d, key) && id in y.handlers && id in y2.handlers
    requires y.handlers[id].dir != key.dir && y2.handlers[id].dir != key.dir && y2.handlers == y.handlers[id := y2.handlers[id]]
    ensures Holds(y2, key, m)
  {
    forall x ensures IsOpenAt(y2, x, key) <==> IsOpenAt(y, x, key) {
    }
    SameOpen(y, y2, key, m);
  }

  lemma {:induction false} ActorElsewhere(file: Mxc -> ServerFile, y: System, e: Event, key: FileKey)
    requires SysInv(file, y) && Possible(file, y, e)
    requires (e.Run? || e.Abort?) && y.handlers[e.id].dir != key.dir
    ensures var y2 := After(file, y, e);
            && e.id in y2.handlers && y2.handlers[e.id].dir != key.dir && y2.handlers == y.handlers[e.id := y2.handlers[e.id]]
    ensures SameFile(y.d, After(file, y, e).d, key)
  {
    EventKeepsToOwn(file, y, e, key);
    if e.Run? { RunMakes(file, y, e.id, e.move); ActTouches(WorldOf(file, y, e.id), At(y, e.id), e.move); }
    else { AbortMakes(file, y, e.id); }
  }

  lemma {:induction false} SameOpen(y: System, y2: System, key: FileKey, m: MediaDownload)
    requires Holds(y, key, m) && SameFile(y.d, y2.d, key)
    requires forall id :: IsOpenAt(y2, id, key) <==> IsOpenAt(y, id, key)
    requires forall id :: IsOpenAt(y2, id, key) ==> y2.handlers[id].open == y.handlers[id].open
    ensures Holds(y2, key, m)
  {
  }

  lemma {:induction false} OthersHold(file: Mxc -> ServerFile, y: System, e: Event, key: FileKey, m: MediaDownload)
    requires SysInv(file, y) && Possible(file, y, e) && Holds(y, key, m) && !e.Run? && !e.Abort?
    ensures Holds(After(file, y, e), key, m)
  {
    var y2 := After(file, y, e);
    OthersKeepFiles(file, y, e);
    forall id ensures IsOpenAt(y2, id, key) <==> IsOpenAt(y, id, key)
              ensures IsOpenAt(y2, id, key) ==> y2.handlers[id].open == y.handlers[id].open
    {
      OpenStays(file, y, e, id, key);
    }
    SameOpen(y, y2, key, m);
  }

  lemma {:induction false} OpenStays(file: Mxc -> ServerFile, y: System, e: Event, id: HandlerId, key: FileKey)
    requires SysInv(file, y) && Possible(file, y, e) && !e.Run? && !e.Abort?
    ensures IsOpenAt(After(file, y, e), id, key) <==> IsOpenAt(y, id, key)
    ensures IsOpenAt(y, id, key) ==> After(file, y, e).handlers[id].open == y.handlers[id].open
  {
    if id in y.handlers {
      OthersMake(file, y, e, id);
      BesideRuns(y, e, id);
    } else if id in After(file, y, e).handlers {
      NewOnesBegin(file, y, e, id);
    }
  }

  lemma {:induction false} EventHolds(file: Mxc -> ServerFile, y: System, e: Event, key: FileKey, m: MediaDownload)
    requires SysInv(file, y) && Possible(file, y, e) && Holds(y, key, m) && !BreaksAt(file, y, e, key, m)
    ensures Holds(After(file, y, e), key, m)
  {
    if !e.Run? && !e.Abort? { OthersHold(file, y, e, key, m); }
    else if y.handlers[e.id].dir != key.dir { ElsewhereHolds(file, y, e, key, m); }
    else if e.Run? { RunHolds(file, y, e.id, e.move, key, m); }
    else { AbortHolds(file, y, e.id, key, m); }
  }

  // ---- whole runs ----

  ghost predicate NeverBroken(file: Mxc -> ServerFile, y: System, events: seq<Event>, key: FileKey, m: MediaDownload)
    requires SysInv(file, y) && IsRun(file, y, events)
    decreases |events|
  {
    events == [] ||
    (!BreaksAt(file, y, events[0], key, m)
     && (StepKeeps(file, y, events[0]); NeverBroken(file, After(file, y, events[0]), events[1..], key, m)))
  }

  /** What was written of a file stays written through any run of any number of handlers: cancels, timeouts, lost links, full disks,
      hand-overs, handlers dropped and begun anew. It goes only when the handler that has it open is told that the file is not to
      be had or does not verify, or has the whole of it; or when less of it is found on disk than was left there. */
  lemma {:induction false} WrittenStays(file: Mxc -> ServerFile, y: System, events: seq<Event>, key: FileKey, m: MediaDownload)
    requires SysInv(file, y) && IsRun(file, y, events) && Holds(y, key, m) && NeverBroken(file, y, events, key, m)
    ensures Holds(EndOf(file, y, events), key, m)
    decreases |events|
  {
    if events != [] {
      StepKeeps(file, y, events[0]);
      EventHolds(file, y, events[0], key, m);
      WrittenStays(file, After(file, y, events[0]), events[1..], key, m);
    }
  }
}
