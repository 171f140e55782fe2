/** What becomes of a file that is being written. `FateOf` says for every move whether it is kept, and how much of it, deleted, or
    handed to the pool; so nothing written is lost but for the reasons named there. */
module DownloadKept {
  import opened Files
  import opened Wrappers
  import opened Lines
  import opened JobQueue
  import opened Download
  import opened DownloadInv
  import DownloadJobs
  import opened DownloadMoves
  import opened DownloadSystem
  import DownloadCancel
  import Outcomes = DownloadOutcomes
  import Told = DownloadTold

  /** Kept with at least these chunks, in the open file or on disk; deleted; or taken out of there for the pool. */
  datatype Fate = Kept(m: MediaDownload) | Deleted | Pooled | NotPooled

  /** The main file is as long at least, and what was at hand out of order still is. */
  predicate Has(m2: MediaDownload, m: MediaDownload) {
    m.main <= m2.main && forall i :: i in m.store ==> LocalChunk(m2, i).Some?
  }

  ghost predicate Meets(s2: State, x: Mxc, fate: Fate) {
    var key := Key(s2.h, x);
    match fate
    case Kept(m) => if x in s2.h.open then Has(s2.h.open[x], m) else key in s2.d.disk && Has(s2.d.disk[key], m)
    case Pooled => x !in s2.h.open && key !in s2.d.disk && key in s2.d.pool
    case _ => x !in s2.h.open && key !in s2.d.disk
  }

  function AtItsEnd(disk: DiskResults): Fate { if disk.adopts then Pooled else NotPooled }

  /** Of a running job's file whose main file is moved on. */
  function MovedFate(q: QueueState, x: Mxc, m: MediaDownload, disk: DiskResults): Fate {
    if x !in q.downloading || q.downloading[x].cancelled then Kept(m)
    else if Outcomes.Sticks(m, disk) then Deleted
    else if Told.ComesToItsEnd(m, disk) then AtItsEnd(disk)
    else Kept(m)
  }

  /** A server that has not got the file, or will not give it, ends it; any other refusal leaves it as it is. What does not verify
      ends it. What arrives for the main file is written to it, what arrives for a GET alone is put aside. */
  function ReplyFate(h: Handler, reply: LineReply<Request>, entry: InFlight, v: Verdict): Fate
    requires reply.action.mxc in h.open
  {
    var r := reply.action;
    var m := h.open[r.mxc];
    match reply.result
    case Refused(error) => if error.NotFound? || error.Forbidden? then Deleted else Kept(m)
    case Ack =>
      if v.refused.Some? then
        if Outcomes.IsBroken(r, v.refused.value, entry.retries) then Deleted else Kept(m)
      else if r.Chunk? && v.unwritten.Some? then Kept(m)
      else if Main !in entry.waiters then Kept(if r.Chunk? then m.(store := m.store[r.index := v.plain]) else m)
      else MovedFate(h.q, r.mxc, Outcomes.Landed(m, r, v), v.disk)
  }

  ghost function FateOf(w: World, s: State, move: Move, x: Mxc): Fate
    requires Inv(w, s, None, multiset{}) && May(w, s, move) && x in s.h.open
  {
    match move
    case TakeReplyMove(v, _) =>
      var reply := s.h.line.replies[0];
      if reply.action.mxc == x && reply.action in s.h.inFlight then ReplyFate(s.h, reply, s.h.inFlight[reply.action], v)
      else Kept(s.h.open[x])
    case StartJobMove(disk) =>
      if s.h.task.manifest.mxc != x then Kept(s.h.open[x])
      else if Outcomes.Sticks(s.h.open[x], disk) then Deleted
      else if Told.ComesToItsEnd(s.h.open[x], disk) then AtItsEnd(disk)
      else Kept(s.h.open[x])
    case _ => Kept(s.h.open[x])
  }

  // ---- ending and stopping ----

  lemma ApartKeeps(s: State, s2: State, x: Mxc)
    requires x in s.h.open && DownloadCancel.Apart(s, s2, x)
    ensures Meets(s2, x, Kept(s.h.open[x]))
  {
  }

  lemma {:induction false} EndKeeps(s: State, mxc: Mxc, end: JobEnd, x: Mxc)
    requires x in s.h.open
    ensures Meets(EndJob(s, mxc, end), x, Kept(s.h.open[x]))
  {
    DownloadCancel.EndApart(s, mxc, end, x);
  }

  lemma {:induction false} FailFate(s: State, mxc: Mxc, error: Error, discard: bool, x: Mxc)
    requires x in s.h.open
    ensures Meets(FailMedia(s, mxc, error, discard), x, if mxc == x && discard then Deleted else Kept(s.h.open[x]))
  {
    if mxc == x {
      var dropped := s.(h := DropRequests(s.h, mxc));
      var closed := if discard then CloseDiscarding(dropped, mxc) else CloseKeeping(dropped, mxc);
      ClosedStays(closed, mxc, Broken(error));
    } else {
      DownloadCancel.FailApart(s, mxc, error, discard, x);
      ApartKeeps(s, FailMedia(s, mxc, error, discard), x);
    }
  }

  lemma {:induction false} ClosedStays(s: State, mxc: Mxc, end: JobEnd)
    requires mxc !in s.h.open
    ensures EndJob(s, mxc, end).h.open == s.h.open && EndJob(s, mxc, end).d == s.d && EndJob(s, mxc, end).h.dir == s.h.dir
  {
  }

  lemma {:induction false} ContinueFate(s: State, mxc: Mxc, disk: DiskResults, x: Mxc)
    requires x in s.h.open && mxc in s.h.open
    ensures Meets(ContinueMain(s, mxc, disk), x, if mxc == x then MovedFate(s.h.q, x, s.h.open[x], disk) else Kept(s.h.open[x]))
    decreases Total(s.h.open[mxc]) - Next(s.h.open[mxc])
  {
    if mxc != x {
      DownloadCancel.ContinueApart(s, mxc, disk, x);
      ApartKeeps(s, ContinueMain(s, mxc, disk), x);
    } else if x in s.h.q.downloading {
      if s.h.q.downloading[x].cancelled {
        EndKeeps(s, x, Cancelled, x);
      } else {
        ContinueOwnFate(s, x, disk);
      }
    }
  }

  lemma {:induction false} ContinueOwnFate(s: State, x: Mxc, disk: DiskResults)
    requires x in s.h.open && x in s.h.q.downloading && !s.h.q.downloading[x].cancelled
    ensures Meets(ContinueMain(s, x, disk), x, MovedFate(s.h.q, x, s.h.open[x], disk))
    decreases Total(s.h.open[x]) - Next(s.h.open[x]), 0
  {
    var m := s.h.open[x];
    if IsWritten(m) {
      WrittenFate(s, x, disk);
    } else {
      Outcomes.SticksHere(m, disk);
      if !m.needsInfo && InStore(m, disk) && Next(m) in disk.unmovable {
        FailFate(s, x, disk.fault, true, x);
      } else if !m.needsInfo && InStore(m, disk) {
        var landed := s.(h := LandFromStore(s.h, x));
        assert ContinueMain(s, x, disk) == ContinueMain(landed, x, disk);
        ContinueFate(landed, x, disk, x);
        StoredFate(s, x, disk);
      } else {
        WantedFate(s, x, disk);
      }
    }
  }

  lemma {:induction false} WrittenFate(s: State, x: Mxc, disk: DiskResults)
    requires x in s.h.open && x in s.h.q.downloading && !s.h.q.downloading[x].cancelled && IsWritten(s.h.open[x])
    ensures Meets(ContinueMain(s, x, disk), x, AtItsEnd(disk)) && MovedFate(s.h.q, x, s.h.open[x], disk) == AtItsEnd(disk)
  {
  }

  lemma {:induction false} StoredFate(s: State, x: Mxc, disk: DiskResults)
    requires x in s.h.open && x in s.h.q.downloading && !s.h.q.downloading[x].cancelled && !IsWritten(s.h.open[x])
    requires var m := s.h.open[x]; !m.needsInfo && InStore(m, disk) && Next(m) !in disk.unmovable
    requires var h2 := LandFromStore(s.h, x);
             Meets(ContinueMain(s, x, disk), x, MovedFate(h2.q, x, h2.open[x], disk))
    ensures Meets(ContinueMain(s, x, disk), x, MovedFate(s.h.q, x, s.h.open[x], disk))
  {
    var m := s.h.open[x];
    Outcomes.SticksFurther(m, disk);
    Told.EndsFurther(m, disk);
    assert Has(Land(m, m.store[Next(m)]), m);
  }

  lemma {:induction false} WantedFate(s: State, x: Mxc, disk: DiskResults)
    requires x in s.h.open && x in s.h.q.downloading && !s.h.q.downloading[x].cancelled && !IsWritten(s.h.open[x])
    requires s.h.open[x].needsInfo || !InStore(s.h.open[x], disk)
    ensures Meets(ContinueMain(s, x, disk), x, MovedFate(s.h.q, x, s.h.open[x], disk))
  {
    var m := s.h.open[x];
    Outcomes.SticksHere(m, disk);
    assert !m.needsInfo ==> !Outcomes.StoredUpTo(m, disk, Total(m) - 1);
    assert Meets(ContinueMain(s, x, disk), x, Kept(m));
  }

  // ---- a reply ----

  lemma {:induction false} FailedFate(s: State, r: Request, entry: InFlight, error: Error, x: Mxc)
    requires x in s.h.open && Bounded(r, entry)
    ensures Meets(RequestFailed(s, r, entry, error), x,
                  if r.mxc == x && (error.NotFound? || error.Forbidden?) then Deleted else Kept(s.h.open[x]))
  {
    if Outcomes.IsFinal(error, entry.retries) {
      assert RequestFailed(s, r, entry, error) == GiveUp(s, r, entry, error);
      GivenUpFate(s, r, entry, error, x);
    } else {
      TriedAgainFate(s, r, entry, error);
    }
  }

  lemma {:induction false} TriedAgainFate(s: State, r: Request, entry: InFlight, error: Error)
    requires Bounded(r, entry) && !Outcomes.IsFinal(error, entry.retries)
    ensures var next := RequestFailed(s, r, entry, error); next.h.open == s.h.open && next.d == s.d && next.h.dir == s.h.dir
  {
  }

  lemma {:induction false} GivenUpFate(s: State, r: Request, entry: InFlight, error: Error, x: Mxc)
    requires x in s.h.open
    ensures Meets(GiveUp(s, r, entry, error), x,
                  if r.mxc == x && (error.NotFound? || error.Forbidden?) then Deleted else Kept(s.h.open[x]))
  {
    FailFate(s.(h := AnswerSeeks(s.h, entry.waiters)), r.mxc, error, IsPermanentRefusal(error), x);
  }

  lemma {:induction false} UnverifiedFate(s: State, mxc: Mxc, entry: InFlight, error: Error, x: Mxc)
    requires x in s.h.open
    ensures Meets(Unverified(s, mxc, entry, error), x, if mxc == x then Deleted else Kept(s.h.open[x]))
  {
    if mxc in s.h.open { FailFate(s.(h := AnswerSeeks(s.h, entry.waiters)), mxc, error, true, x); }
  }

  /** What becomes of the file of an acknowledged request. */
  function AckFate(h: Handler, r: Request, entry: InFlight, v: Verdict, x: Mxc): Fate
    requires x in h.open
  {
    if r.mxc != x then Kept(h.open[x]) else ReplyFate(h, LineReply(r, Ack), entry, v)
  }

  lemma {:induction false} InfoFate(s: State, mxc: Mxc, entry: InFlight, v: Verdict, local: LocalReads, x: Mxc)
    requires x in s.h.open && Bounded(Info(mxc), entry) && (Main in entry.waiters ==> mxc in s.h.open)
    ensures Meets(InfoArrived(s, mxc, entry, v, local), x, AckFate(s.h, Info(mxc), entry, v, x))
  {
    if mxc !in s.h.open && mxc !in s.h.seekOnly {
    } else if v.refused.Some? {
      RefusedInfoFate(s, mxc, entry, v, local, x);
    } else {
      var accepted := AcceptInfo(s.h, mxc);
      var asked := s.(h := RequestSeekChunks(accepted, mxc, entry.waiters, local));
      Outcomes.SeekChunksSame(accepted, mxc, entry.waiters, local);
      if Main in entry.waiters { ContinueFate(asked, mxc, v.disk, x); }
    }
  }

  lemma {:induction false} RefusedInfoFate(s: State, mxc: Mxc, entry: InFlight, v: Verdict, local: LocalReads, x: Mxc)
    requires x in s.h.open && Bounded(Info(mxc), entry) && v.refused.Some? && (mxc in s.h.open || mxc in s.h.seekOnly)
    ensures Meets(InfoArrived(s, mxc, entry, v, local), x, AckFate(s.h, Info(mxc), entry, v, x))
  {
    if Outcomes.IsBroken(Info(mxc), v.refused.value, entry.retries) { UnverifiedFate(s, mxc, entry, v.refused.value, x); }
  }

  lemma {:induction false} ChunkFate(s: State, mxc: Mxc, index: nat, entry: InFlight, v: Verdict, x: Mxc)
    requires x in s.h.open && Bounded(Chunk(mxc, index), entry)
    requires Main in entry.waiters ==> mxc in s.h.open && mxc in s.h.q.downloading && index == Next(s.h.open[mxc])
    ensures Meets(ChunkArrived(s, mxc, index, entry, v), x, AckFate(s.h, Chunk(mxc, index), entry, v, x))
  {
    if mxc !in s.h.open && mxc !in s.h.seekOnly {
    } else if v.refused.Some? {
      RefusedChunkFate(s, mxc, index, entry, v, x);
    } else if Main in entry.waiters {
      MainChunkFate(s, mxc, index, entry, v, x);
    } else {
      SeekChunkFate(s, mxc, index, entry, v, x);
    }
  }

  lemma {:induction false} RefusedChunkFate(s: State, mxc: Mxc, index: nat, entry: InFlight, v: Verdict, x: Mxc)
    requires x in s.h.open && Bounded(Chunk(mxc, index), entry) && v.refused.Some? && (mxc in s.h.open || mxc in s.h.seekOnly)
    ensures Meets(ChunkArrived(s, mxc, index, entry, v), x, AckFate(s.h, Chunk(mxc, index), entry, v, x))
  {
    if Outcomes.IsBroken(Chunk(mxc, index), v.refused.value, entry.retries) {
      assert ChunkArrived(s, mxc, index, entry, v) == Unverified(s, mxc, entry, v.refused.value);
      UnverifiedFate(s, mxc, entry, v.refused.value, x);
    } else {
      ResentFate(s, Chunk(mxc, index), entry, x);
    }
  }

  lemma {:induction false} ResentFate(s: State, r: Request, entry: InFlight, x: Mxc)
    requires x in s.h.open
    ensures Meets(s.(h := Resend(s.h, r, entry.waiters, entry.retries.(badReplies := 1))), x, Kept(s.h.open[x]))
  {
  }

  lemma {:induction false} SeekChunkFate(s: State, mxc: Mxc, index: nat, entry: InFlight, v: Verdict, x: Mxc)
    requires x in s.h.open && v.refused.None? && !HasMain(entry.waiters) && (mxc in s.h.open || mxc in s.h.seekOnly)
    ensures Meets(ChunkArrived(s, mxc, index, entry, v), x, AckFate(s.h, Chunk(mxc, index), entry, v, x))
  {
  }

  lemma {:induction false} MainChunkFate(s: State, mxc: Mxc, index: nat, entry: InFlight, v: Verdict, x: Mxc)
    requires x in s.h.open && v.refused.None? && Main in entry.waiters
    requires mxc in s.h.open && mxc in s.h.q.downloading && index == Next(s.h.open[mxc])
    ensures Meets(ChunkArrived(s, mxc, index, entry, v), x, AckFate(s.h, Chunk(mxc, index), entry, v, x))
  {
    var m := s.h.open[mxc];
    var given := s.(h := GivePiece(s.h, entry.waiters, mxc, ChunkStart(index, m.manifest.chunkSize), v.plain));
    if v.unwritten.Some? {
      assert ChunkArrived(s, mxc, index, entry, v) == FailMedia(given, mxc, v.unwritten.value, false);
      FailFate(given, mxc, v.unwritten.value, false, x);
    } else {
      var landed := given.(h := LandArrived(given.h, mxc, v.plain));
      assert ChunkArrived(s, mxc, index, entry, v) == ContinueMain(landed, mxc, v.disk);
      assert landed.h.open[mxc] == Outcomes.Landed(m, Chunk(mxc, index), v);
      ContinueFate(landed, mxc, v.disk, x);
    }
  }

  lemma {:induction false} ReplyMeets(w: World, s: State, v: Verdict, local: LocalReads, x: Mxc)
    requires Inv(w, s, None, multiset{}) && May(w, s, TakeReplyMove(v, local)) && x in s.h.open
    ensures Meets(HandleReply(s, v, local), x, FateOf(w, s, TakeReplyMove(v, local), x))
  {
    var r := s.h.line.replies[0].action;
    if r in s.h.inFlight {
      Told.MainOfFits(w, s, r);
      EntryFate(s, r, v, local, x);
    }
  }

  lemma {:induction false} EntryFate(s: State, r: Request, v: Verdict, local: LocalReads, x: Mxc)
    requires s.h.line.replies != [] && r == s.h.line.replies[0].action && r in s.h.inFlight && x in s.h.open
    requires Bounded(r, s.h.inFlight[r]) && Told.MainFits(s.h, r, s.h.inFlight[r])
    ensures Meets(HandleReply(s, v, local), x,
                  if r.mxc == x then ReplyFate(s.h, s.h.line.replies[0], s.h.inFlight[r], v) else Kept(s.h.open[x]))
  {
    var reply := s.h.line.replies[0];
    var entry := s.h.inFlight[r];
    var taken := s.(h := s.h.(line := TakeReply(s.h.line), inFlight := s.h.inFlight - {r}));
    match reply.result
    case Ack =>
      assert HandleReply(s, v, local)
          == if r.Info? then InfoArrived(taken, r.mxc, entry, v, local) else ChunkArrived(taken, r.mxc, r.index, entry, v);
      if r.Info? { InfoFate(taken, r.mxc, entry, v, local, x); } else { ChunkFate(taken, r.mxc, r.index, entry, v, x); }
    case Refused(error) =>
      assert HandleReply(s, v, local) == RequestFailed(taken, r, entry, error);
      FailedFate(taken, r, entry, error, x);
  }

  // ---- any move ----

  lemma {:induction false} TailFate(s: State, end: JobEnd, x: Mxc)
    requires s.h.task.Preparing? && x in s.h.open
    ensures Meets(EndJob(SetStage(s, Tail), s.h.task.manifest.mxc, end), x, Kept(s.h.open[x]))
  {
    EndKeeps(SetStage(s, Tail), s.h.task.manifest.mxc, end, x);
  }

  lemma {:induction false} LookedFate(s: State, x: Mxc)
    requires s.h.task.Preparing? && x in s.h.open
    ensures Meets(FoundComplete(s), x, Kept(s.h.open[x])) && Meets(GiveUpJob(s), x, Kept(s.h.open[x]))
    ensures !ClaimedElsewhere(s) ==> Meets(StartOpening(s), x, Kept(s.h.open[x]))
  {
    TailFate(s, Complete, x);
    TailFate(s, if CancelledWhilePreparing(s.h.q, s.h.task.manifest.mxc) then Cancelled else Broken(AccountBusy), x);
  }

  lemma {:induction false} LookedMeets(s: State, found: bool, x: Mxc)
    requires s.h.task.Preparing? && x in s.h.open && (ClaimedElsewhere(s) || CanClaim(s.d, Key(s.h, s.h.task.manifest.mxc), s.h.id))
    ensures Meets(if found then FoundComplete(s) else if ClaimedElsewhere(s) then GiveUpJob(s) else StartOpening(s), x,
                  Kept(s.h.open[x]))
  {
    LookedFate(s, x);
  }

  lemma {:induction false} OpenedFate(s: State, media: Result<MediaDownload, Error>, x: Mxc)
    requires s.h.task.Preparing? && x in s.h.open && s.h.task.manifest.mxc !in s.h.open
    ensures Meets(Opened(s, media), x, Kept(s.h.open[x]))
  {
    if media.Err? {
      var back := DownloadJobs.Unopened(s);
      assert Opened(s, media) == EndJob(SetStage(back, Tail), s.h.task.manifest.mxc, Broken(media.error));
      TailFate(back, Broken(media.error), x);
    }
  }

  lemma {:induction false} StartFate(s: State, disk: DiskResults, x: Mxc)
    requires s.h.task.Preparing? && x in s.h.open && s.h.task.manifest.mxc in s.h.open
    ensures Meets(StartJob(s, disk), x,
                  if s.h.task.manifest.mxc != x then Kept(s.h.open[x])
                  else if Outcomes.Sticks(s.h.open[x], disk) then Deleted
                  else if Told.ComesToItsEnd(s.h.open[x], disk) then AtItsEnd(disk)
                  else Kept(s.h.open[x]))
  {
    assert StartJob(s, disk) == ContinueMain(Started(s), s.h.task.manifest.mxc, disk);
    ContinueFate(Started(s), s.h.task.manifest.mxc, disk, x);
  }

  lemma {:induction false} PreparingFate(w: World, s: State, move: Move, x: Mxc)
    requires Inv(w, s, None, multiset{}) && May(w, s, move) && IsPreparingMove(move) && x in s.h.open
    ensures Meets(Act(w, s, move), x, FateOf(w, s, move, x))
  {
    if move.StartJobMove? { StartMeets(w, s, move.disk, x); } else { UnstartedFate(w, s, move, x); }
  }

  lemma {:induction false} StartMeets(w: World, s: State, disk: DiskResults, x: Mxc)
    requires Inv(w, s, None, multiset{}) && May(w, s, StartJobMove(disk)) && x in s.h.open
    ensures Meets(Act(w, s, StartJobMove(disk)), x, FateOf(w, s, StartJobMove(disk), x))
  {
    StartFate(s, disk, x);
  }

  lemma {:induction false} UnstartedFate(w: World, s: State, move: Move, x: Mxc)
    requires Inv(w, s, None, multiset{}) && May(w, s, move) && IsPreparingMove(move) && !move.StartJobMove? && x in s.h.open
    ensures Meets(Act(w, s, move), x, Kept(s.h.open[x]))
  {
    if move.LookedMove? { LookedMeets(s, move.found, x); }
    else if move.OpenedMove? { OpenedFate(s, move.media, x); }
    else { CheckFate(s, x); }
  }

  lemma {:induction false} CheckFate(s: State, x: Mxc)
    requires s.h.task.Preparing? && x in s.h.open
    ensures Meets(CancelCheck(s), x, Kept(s.h.open[x]))
  {
    TailFate(s, Cancelled, x);
  }

  lemma {:induction false} CancelOneFate(s: State, mxc: Mxc, found: Option<Request>, x: Mxc)
    requires x in s.h.open && (found.Some? ==> MainOf(s.h, found.value, mxc))
    ensures Meets(CancelOne(s, mxc, found), x, Kept(s.h.open[x]))
  {
    if found.None? {
      EndKeeps(s, mxc, Cancelled, x);
    } else if found.value in s.h.line.queued {
      var r := found.value;
      var others := SeeksOnly(s.h.inFlight[r].waiters);
      var h := s.h.(inFlight := s.h.inFlight - {r}, line := Withdraw(s.h.line, {r}));
      var kept := s.(h := if others == [] then h else Resend(h, r, others, s.h.inFlight[r].retries));
      assert CancelOne(s, mxc, found) == EndJob(kept, mxc, Cancelled);
      EndKeeps(kept, mxc, Cancelled, x);
    }
  }

  lemma {:induction false} AnsweredFate(s: State, found: bool, unread: set<nat>, x: Mxc)
    requires s.h.finishing.Answering? && x in s.h.open
    requires found ==> Key(s.h, s.h.finishing.mxc) in s.d.pool
    ensures Meets(FinishAnswered(s, found, unread), x, Kept(s.h.open[x]))
  {
    var mxc := s.h.finishing.mxc;
    var pieces := if found then PiecesFromPool(s.d.pool[Key(s.h, mxc)], mxc, s.h.inFlight, RequestsOf(s.h, mxc), unread) else {};
    var ready := s.(h := DropRequests(s.h, mxc).(finishing := NotFinishing, pieces := s.h.pieces + pieces));
    assert FinishAnswered(s, found, unread) == EndJob(ready, mxc, s.h.finishing.end);
    EndKeeps(ready, mxc, s.h.finishing.end, x);
  }

  lemma {:induction false} WritingFate(w: World, s: State, move: Move, x: Mxc)
    requires Inv(w, s, None, multiset{}) && May(w, s, move) && IsWritingMove(move) && x in s.h.open
    ensures Meets(Act(w, s, move), x, FateOf(w, s, move, x))
  {
    if move.TakeReplyMove? { ReplyMeets(w, s, move.v, move.local, x); }
    else if move.CancelOneMove? { CancelOneFate(s, move.mxc, move.main, x); }
    else if move.AnsweredMove? { AnsweredFate(s, move.found, move.unread, x); }
    else { CloseFate(s, move.mxc, x); }
  }

  lemma {:induction false} CloseFate(s: State, mxc: Mxc, x: Mxc)
    requires mxc in s.h.open && x in s.h.open
    ensures Meets(CloseIdle(s, mxc), x, Kept(s.h.open[x]))
  {
  }

  /** Whatever a handler does: a file it has open is kept with all that was written, and what arrived for it added, unless a reason
      to delete it came in or it is whole. A cancel, timeouts, a lost link, a disk that is full, another file: all of them keep it. */
  lemma {:induction false} MoveMeets(w: World, s: State, move: Move, x: Mxc)
    requires Inv(w, s, None, multiset{}) && May(w, s, move) && x in s.h.open
    ensures Meets(Act(w, s, move), x, FateOf(w, s, move, x))
  {
    if IsPreparingMove(move) {
      PreparingFate(w, s, move, x);
    } else if IsWritingMove(move) {
      WritingFate(w, s, move, x);
    } else {
      QuietFate(w, s, move, x);
    }
  }

  lemma {:induction false} QuietFate(w: World, s: State, move: Move, x: Mxc)
    requires Inv(w, s, None, multiset{}) && May(w, s, move) && !IsPreparingMove(move) && !IsWritingMove(move) && x in s.h.open
    ensures Meets(Act(w, s, move), x, Kept(s.h.open[x]))
  {
    if DownloadCancel.IsSeekMove(move) {
      DownloadCancel.SeekMoveKeepsFiles(w, s, move);
    } else {
      DownloadCancel.QuietKeepsFiles(w, s, move);
    }
  }
}
