/** A download ends: every answer to a main request that is not a lost link brings the file on or uses up a retry. */
module DownloadProgress {
  import opened Files
  import opened Wrappers
  import opened Lines
  import opened Download
  import opened DownloadInv
  import DownloadTable
  import DownloadJobs
  import DownloadFrame
  import opened DownloadMoves
  import opened DownloadSystem

  // ---- the measure ----

  /** What is left of a file: its chunks first, then whether the block is verified. */
  function Left(m: MediaDownload): int { 8 * (Total(m) - Next(m)) + if m.needsInfo then 4 else 0 }

  /** Resends left to a request: two for timeouts, one for a bad reply. */
  function Spare(retries: Retries): int { (TIMEOUT_ATTEMPTS - 1 - retries.timeouts) + (1 - retries.badReplies) }

  function Rank(h: Handler, x: Mxc): int
    requires x in h.open
  {
    var r := Cursor(x, h.open[x]);
    Left(h.open[x]) + if r in h.inFlight then Spare(h.inFlight[r].retries) else 3
  }

  predicate IsRunning(h: Handler, x: Mxc) { x in h.q.downloading && x in h.open }

  lemma {:induction false} RankBounds(w: World, s: State, x: Mxc)
    requires Inv(w, s, None, multiset{}) && IsRunning(s.h, x)
    ensures Cursor(x, s.h.open[x]) in s.h.inFlight
    ensures Left(s.h.open[x]) <= Rank(s.h, x) <= Left(s.h.open[x]) + 3 && 0 <= Rank(s.h, x)
  {
    assert MediaSound(w, x, s.h.open[x]);
  }

  // ---- what steps on other files and other requests leave alone ----

  /** If `x` still runs it ran before, its main file stands where it stood and its main request is still in flight with
      the same retries. */
  ghost predicate Still(h: Handler, h2: Handler, x: Mxc) {
    IsRunning(h2, x) ==>
      && IsRunning(h, x)
      && SameMain(h.open[x], h2.open[x])
      && KeepsCount(h, h2, Cursor(x, h.open[x]))
  }

  predicate SameMain(m: MediaDownload, m2: MediaDownload) {
    m2.manifest == m.manifest && m2.main == m.main && m2.needsInfo == m.needsInfo
  }

  predicate KeepsCount(h: Handler, h2: Handler, r: Request) {
    r in h.inFlight ==> r in h2.inFlight && h2.inFlight[r].retries == h.inFlight[r].retries
  }

  lemma {:induction false} StillTwice(a: Handler, b: Handler, c: Handler, x: Mxc)
    requires Still(a, b, x) && Still(b, c, x)
    ensures Still(a, c, x)
  {
  }

  lemma {:induction false} SameIsStill(h: Handler, h2: Handler, x: Mxc)
    requires h2.q.downloading == h.q.downloading && h2.open == h.open && h2.inFlight == h.inFlight
    ensures Still(h, h2, x)
  {
  }

  lemma {:induction false} WantStill(h: Handler, r: Request, waiting: Waiting, atFront: bool, x: Mxc)
    ensures Still(h, Want(h, r, waiting, atFront), x)
  {
  }

  /** A request of another file, or one that does not carry the main file. */
  predicate NotCursor(h: Handler, r: Request, x: Mxc) { IsRunning(h, x) ==> r != Cursor(x, h.open[x]) }

  lemma {:induction false} ResendStill(h: Handler, r: Request, waiters: seq<Waiting>, retries: Retries, x: Mxc)
    requires NotCursor(h, r, x)
    ensures Still(h, Resend(h, r, waiters, retries), x)
  {
  }

  lemma {:induction false} TakeStill(h: Handler, h2: Handler, r: Request, x: Mxc)
    requires NotCursor(h, r, x) && h2 == h.(line := h2.line, inFlight := h.inFlight - {r})
    ensures Still(h, h2, x)
  {
  }

  lemma {:induction false} DropStill(h: Handler, mxc: Mxc, x: Mxc)
    requires mxc != x
    ensures Still(h, DropRequests(h, mxc), x)
  {
    var gone := RequestsOf(h, mxc);
    if IsRunning(h, x) {
      var r := Cursor(x, h.open[x]);
      assert r.mxc == x && r !in gone;
    }
  }

  lemma {:induction false} CloseStill(s: State, mxc: Mxc, x: Mxc)
    requires mxc in s.h.open
    ensures Still(s.h, CloseKeeping(s, mxc).h, x) && Still(s.h, CloseDiscarding(s, mxc).h, x)
  {
  }

  lemma {:induction false} EndStill(s: State, mxc: Mxc, end: JobEnd, x: Mxc)
    ensures Still(s.h, EndJob(s, mxc, end).h, x) && mxc !in EndJob(s, mxc, end).h.q.downloading
  {
  }

  /** A stopped file's job is over; the others go on. */
  lemma {:induction false} FailStill(s: State, mxc: Mxc, error: Error, discard: bool, x: Mxc)
    ensures Still(s.h, FailMedia(s, mxc, error, discard).h, x)
    ensures mxc !in FailMedia(s, mxc, error, discard).h.q.downloading && mxc !in FailMedia(s, mxc, error, discard).h.open
  {
    var closed := Stopped(s, mxc, discard);
    assert FailMedia(s, mxc, error, discard)
        == if mxc in closed.h.q.downloading then EndJob(closed, mxc, Broken(error)) else closed;
    if mxc in closed.h.q.downloading { EndStill(closed, mxc, Broken(error), x); }
    if mxc != x {
      StoppedStill(s, mxc, discard, x);
      StillTwice(s.h, closed.h, FailMedia(s, mxc, error, discard).h, x);
    }
  }

  /** Its requests dropped, the file closed. */
  ghost function Stopped(s: State, mxc: Mxc, discard: bool): State {
    var dropped := s.(h := DropRequests(s.h, mxc));
    if mxc !in s.h.open then dropped
    else if discard then CloseDiscarding(dropped, mxc) else CloseKeeping(dropped, mxc)
  }

  lemma {:induction false} StoppedStill(s: State, mxc: Mxc, discard: bool, x: Mxc)
    requires mxc != x
    ensures Still(s.h, Stopped(s, mxc, discard).h, x)
  {
    var dropped := s.(h := DropRequests(s.h, mxc));
    DropStill(s.h, mxc, x);
    if mxc in s.h.open { CloseStill(dropped, mxc, x); }
    StillTwice(s.h, dropped.h, Stopped(s, mxc, discard).h, x);
  }

  lemma {:induction false} ContinueStill(s: State, mxc: Mxc, disk: DiskResults, x: Mxc)
    requires mxc != x
    ensures Still(s.h, ContinueMain(s, mxc, disk).h, x)
    decreases if mxc in s.h.open then Total(s.h.open[mxc]) - Next(s.h.open[mxc]) else 0
  {
    var next := ContinueMain(s, mxc, disk);
    if mxc in s.h.q.downloading {
      if s.h.q.downloading[mxc].cancelled {
        EndStill(s, mxc, Cancelled, x);
      } else if mxc !in s.h.open {
        EndStill(s, mxc, Broken(Io), x);
      } else {
        ContinueOpenStill(s, mxc, disk, x);
      }
    }
  }

  lemma {:induction false} WrittenStill(s: State, mxc: Mxc, disk: DiskResults, x: Mxc)
    requires mxc != x && mxc in s.h.q.downloading && mxc in s.h.open
    ensures Still(s.h, FinishJob(s.(h := s.h.(q := SetDone(s.h.q, mxc, Total(s.h.open[mxc])))), mxc, disk).h, x)
  {
  }

  lemma {:induction false} ContinueOpenStill(s: State, mxc: Mxc, disk: DiskResults, x: Mxc)
    requires mxc != x && mxc in s.h.q.downloading && !s.h.q.downloading[mxc].cancelled && mxc in s.h.open
    ensures Still(s.h, ContinueMain(s, mxc, disk).h, x)
    decreases Total(s.h.open[mxc]) - Next(s.h.open[mxc]), 0
  {
    var next := ContinueMain(s, mxc, disk);
    var m := s.h.open[mxc];
    if IsWritten(m) {
      WrittenStill(s, mxc, disk, x);
    } else if m.needsInfo {
      WantStill(s.h, Info(mxc), Main, false, x);
    } else if InStore(m, disk) && Next(m) in disk.unmovable {
      FailStill(s, mxc, disk.fault, true, x);
    } else if InStore(m, disk) {
      var landed := s.(h := LandFromStore(s.h, mxc));
      assert next == ContinueMain(landed, mxc, disk);
      ContinueStill(landed, mxc, disk, x);
      StillTwice(s.h, landed.h, next.h, x);
    } else {
      WantStill(s.h, Chunk(mxc, Next(m)), Main, false, x);
    }
  }

  lemma {:induction false} SeekChunkStill(h: Handler, mxc: Mxc, waiting: Waiting, local: LocalReads, x: Mxc)
    requires waiting.Seek?
    ensures Still(h, RequestSeekChunk(h, mxc, waiting, local), x)
  {
    if mxc in h.open {
      var m := h.open[mxc];
      if waiting.index !in local.fails && !(LocalChunk(m, waiting.index).Some? && waiting.index !in local.missing) {
        WantStill(h, if m.needsInfo then Info(mxc) else Chunk(mxc, waiting.index), waiting, true, x);
      }
    } else if mxc in h.seekOnly {
      WantStill(h, if h.seekOnly[mxc].verified then Chunk(mxc, waiting.index) else Info(mxc), waiting, true, x);
    }
  }

  lemma {:induction false} SeekChunksStill(h: Handler, mxc: Mxc, waiters: seq<Waiting>, local: LocalReads, x: Mxc)
    ensures Still(h, RequestSeekChunks(h, mxc, waiters, local), x)
    decreases |waiters|
  {
    if waiters != [] {
      var first := if waiters[0].Seek? then RequestSeekChunk(h, mxc, waiters[0], local) else h;
      if waiters[0].Seek? { SeekChunkStill(h, mxc, waiters[0], local, x); }
      SeekChunksStill(first, mxc, waiters[1..], local, x);
      StillTwice(h, first, RequestSeekChunks(first, mxc, waiters[1..], local), x);
    }
  }

  // ---- a reply that is not about the main file of `x` ----

  lemma {:induction false} UnverifiedStill(s: State, mxc: Mxc, entry: InFlight, error: Error, x: Mxc)
    ensures Still(s.h, Unverified(s, mxc, entry, error).h, x)
    ensures mxc in s.h.open ==> mxc !in Unverified(s, mxc, entry, error).h.q.downloading
  {
    if mxc in s.h.open { FailStill(s.(h := AnswerSeeks(s.h, entry.waiters)), mxc, error, true, x); }
  }

  lemma {:induction false} FailedStill(s: State, r: Request, entry: InFlight, error: Error, x: Mxc)
    requires NotCursor(s.h, r, x)
    ensures Still(s.h, RequestFailed(s, r, entry, error).h, x)
  {
    if error.Network? {
      ResendStill(AnswerSeeks(s.h, entry.waiters), r, [Main], entry.retries, x);
    } else if error.Timeout? && entry.retries.timeouts + 1 < TIMEOUT_ATTEMPTS {
      ResendStill(s.h, r, entry.waiters, entry.retries.(timeouts := entry.retries.timeouts + 1), x);
    } else if IsBadReply(error) && entry.retries.badReplies == 0 {
      ResendStill(s.h, r, entry.waiters, entry.retries.(badReplies := 1), x);
    } else {
      GivenUpStill(s, r, entry, error, x);
    }
  }

  lemma {:induction false} GivenUpStill(s: State, r: Request, entry: InFlight, error: Error, x: Mxc)
    ensures Still(s.h, GiveUp(s, r, entry, error).h, x)
  {
    FailStill(s.(h := AnswerSeeks(s.h, entry.waiters)), r.mxc, error, IsPermanentRefusal(error), x);
  }

  /** The main file of `mxc`, if it is open, goes on only when its main request hangs on the reply. */
  lemma {:induction false} InfoStill(s: State, mxc: Mxc, entry: InFlight, v: Verdict, local: LocalReads, x: Mxc)
    requires NotCursor(s.h, Info(mxc), x) && (mxc == x && IsRunning(s.h, x) ==> !HasMain(entry.waiters))
    ensures Still(s.h, InfoArrived(s, mxc, entry, v, local).h, x)
  {
    var next := InfoArrived(s, mxc, entry, v, local);
    if mxc !in s.h.open && mxc !in s.h.seekOnly {
    } else if v.refused.Some? {
      ResendStill(s.h, Info(mxc), entry.waiters, entry.retries.(badReplies := 1), x);
      UnverifiedStill(s, mxc, entry, v.refused.value, x);
    } else {
      var accepted := AcceptInfo(s.h, mxc);
      var asked := s.(h := RequestSeekChunks(accepted, mxc, entry.waiters, local));
      SeekChunksStill(accepted, mxc, entry.waiters, local, x);
      DownloadFrame.SeekChunksFrame(accepted, mxc, entry.waiters, local);
      assert Still(s.h, accepted, x);
      StillTwice(s.h, accepted, asked.h, x);
      if HasMain(entry.waiters) {
        if mxc != x {
          ContinueStill(asked, mxc, v.disk, x);
          StillTwice(s.h, asked.h, next.h, x);
        } else {
          assert !IsRunning(s.h, x) && !IsRunning(asked.h, x);
          NotRunningStays(asked, x, v.disk);
        }
      }
    }
  }

  lemma {:induction false} NotRunningStays(s: State, x: Mxc, disk: DiskResults)
    requires !IsRunning(s.h, x)
    ensures !IsRunning(ContinueMain(s, x, disk).h, x)
  {
    if x in s.h.q.downloading {
      EndStill(s, x, Cancelled, x);
      EndStill(s, x, Broken(Io), x);
    }
  }

  lemma {:induction false} ChunkStill(s: State, mxc: Mxc, index: nat, entry: InFlight, v: Verdict, x: Mxc)
    requires NotCursor(s.h, Chunk(mxc, index), x) && (mxc == x && IsRunning(s.h, x) ==> !HasMain(entry.waiters))
    ensures Still(s.h, ChunkArrived(s, mxc, index, entry, v).h, x)
  {
    if mxc !in s.h.open && mxc !in s.h.seekOnly {
    } else if v.refused.Some? {
      ResendStill(s.h, Chunk(mxc, index), entry.waiters, entry.retries.(badReplies := 1), x);
      UnverifiedStill(s, mxc, entry, v.refused.value, x);
    } else if mxc in s.h.open {
      ChunkOpenedStill(s, mxc, index, entry, v, x);
    }
  }

  lemma {:induction false} ChunkOpenedStill(s: State, mxc: Mxc, index: nat, entry: InFlight, v: Verdict, x: Mxc)
    requires mxc in s.h.open && v.refused.None? && (mxc == x && IsRunning(s.h, x) ==> !HasMain(entry.waiters))
    ensures Still(s.h, ChunkArrived(s, mxc, index, entry, v).h, x)
  {
    var m := s.h.open[mxc];
    var next := ChunkArrived(s, mxc, index, entry, v);
    var main := HasMain(entry.waiters);
    var lands := main && index == Next(m);
    var given := s.(h := GivePiece(s.h, entry.waiters, mxc, ChunkStart(index, m.manifest.chunkSize), v.plain));
    var kept := if v.unwritten.Some? then given
                else given.(h := if lands then LandArrived(given.h, mxc, v.plain) else StoreArrived(given.h, mxc, index, v.plain));
    assert Still(s.h, kept.h, x);
    if v.unwritten.Some? && lands {
      assert next == FailMedia(given, mxc, v.unwritten.value, false);
      FailStill(given, mxc, v.unwritten.value, false, x);
    } else if main {
      assert next == ContinueMain(kept, mxc, v.disk);
      if mxc != x {
        ContinueStill(kept, mxc, v.disk, x);
        StillTwice(s.h, kept.h, next.h, x);
      } else {
        NotRunningStays(kept, x, v.disk);
      }
    } else {
      assert next == kept;
    }
  }

  /** The next reply answers the main request of `x`. */
  predicate MainReply(h: Handler, x: Mxc) {
    h.line.replies != [] && IsRunning(h, x) && h.line.replies[0].action == Cursor(x, h.open[x])
  }

  lemma {:induction false} OtherReplyStill(w: World, s: State, v: Verdict, local: LocalReads, x: Mxc)
    requires Inv(w, s, None, multiset{}) && s.h.line.replies != [] && !MainReply(s.h, x)
    ensures Still(s.h, HandleReply(s, v, local).h, x)
  {
    var reply := s.h.line.replies[0];
    var r := reply.action;
    var h := s.h.(line := TakeReply(s.h.line));
    var next := HandleReply(s, v, local);
    SameIsStill(s.h, h, x);
    if r !in h.inFlight {
      assert next == s.(h := h);
    } else {
      var entry := h.inFlight[r];
      var taken := s.(h := h.(inFlight := h.inFlight - {r}));
      TakeStill(s.h, taken.h, r, x);
      NoMainElsewhere(s.h, r, x);
      match reply.result {
        case Ack =>
          if r.Info? { InfoStill(taken, r.mxc, entry, v, local, x); } else { ChunkStill(taken, r.mxc, r.index, entry, v, x); }
        case Refused(error) => FailedStill(taken, r, entry, error, x);
      }
      StillTwice(s.h, taken.h, next.h, x);
    }
  }

  lemma {:induction false} NoMainElsewhere(h: Handler, r: Request, x: Mxc)
    requires CursorInv(h, None) && r in h.inFlight && NotCursor(h, r, x)
    ensures r.mxc == x && IsRunning(h, x) ==> !HasMain(h.inFlight[r].waiters)
  {
    DownloadTable.MainIsCounted(h.inFlight[r].waiters);
  }

  // ---- the reply to the main request ----

  /** Going on never adds work. */
  lemma {:induction false} ContinueLeft(s: State, x: Mxc, disk: DiskResults)
    ensures var next := ContinueMain(s, x, disk);
            IsRunning(next.h, x) ==> IsRunning(s.h, x) && Left(next.h.open[x]) <= Left(s.h.open[x])
    decreases if x in s.h.open then Total(s.h.open[x]) - Next(s.h.open[x]) else 0
  {
    var next := ContinueMain(s, x, disk);
    if x !in s.h.q.downloading || s.h.q.downloading[x].cancelled || x !in s.h.open {
      if x in s.h.q.downloading {
        EndStill(s, x, Cancelled, x);
        EndStill(s, x, Broken(Io), x);
      }
    } else {
      var m := s.h.open[x];
      if !IsWritten(m) && !m.needsInfo && InStore(m, disk) && Next(m) in disk.unmovable {
        FailStill(s, x, Integrity, true, x);
      } else if !IsWritten(m) && !m.needsInfo && InStore(m, disk) {
        var landed := s.(h := LandFromStore(s.h, x));
        assert next == ContinueMain(landed, x, disk);
        ContinueLeft(landed, x, disk);
      } else {
        assert IsRunning(next.h, x) ==> next.h.open == s.h.open;
      }
    }
  }

  /** What the reply to the main request does: the job is over, or a resend was used up, or the file came on. */
  ghost predicate Advances(h: Handler, h2: Handler, x: Mxc)
    requires x in h.open
  {
    IsRunning(h2, x) ==>
      var r := Cursor(x, h.open[x]);
      || Left(h2.open[x]) <= Left(h.open[x]) - 4
      || (SameMain(h.open[x], h2.open[x]) && r in h.inFlight && r in h2.inFlight
          && Spare(h2.inFlight[r].retries) < Spare(h.inFlight[r].retries))
  }

  lemma {:induction false} MainInfoAdvances(h: Handler, s: State, x: Mxc, entry: InFlight, v: Verdict, local: LocalReads)
    requires IsRunning(h, x) && h.open[x].needsInfo && s.h.open == h.open && s.h.q == h.q
    requires Info(x) in h.inFlight && h.inFlight[Info(x)] == entry && HasMain(entry.waiters)
    ensures Advances(h, InfoArrived(s, x, entry, v, local).h, x)
  {
    if v.refused.Some? { UnverifiedStill(s, x, entry, v.refused.value, x); } else { MainInfoGoesOn(s, x, entry, v, local); }
  }

  lemma {:induction false} MainInfoGoesOn(s: State, x: Mxc, entry: InFlight, v: Verdict, local: LocalReads)
    requires IsRunning(s.h, x) && s.h.open[x].needsInfo && HasMain(entry.waiters) && v.refused.None?
    ensures var next := InfoArrived(s, x, entry, v, local);
            IsRunning(next.h, x) ==> Left(next.h.open[x]) <= Left(s.h.open[x].(needsInfo := false))
  {
    var next := InfoArrived(s, x, entry, v, local);
    var accepted := AcceptInfo(s.h, x);
    var asked := s.(h := RequestSeekChunks(accepted, x, entry.waiters, local));
    DownloadFrame.SeekChunksFrame(accepted, x, entry.waiters, local);
    assert next == ContinueMain(asked, x, v.disk);
    ContinueLeft(asked, x, v.disk);
  }

  lemma {:induction false} MainChunkAdvances(h: Handler, s: State, x: Mxc, index: nat, entry: InFlight, v: Verdict)
    requires IsRunning(h, x) && Cursor(x, h.open[x]) == Chunk(x, index) && s.h.open == h.open && s.h.q == h.q
    requires Chunk(x, index) in h.inFlight && h.inFlight[Chunk(x, index)] == entry && HasMain(entry.waiters)
    ensures Advances(h, ChunkArrived(s, x, index, entry, v).h, x)
  {
    if v.refused.Some? {
      UnverifiedStill(s, x, entry, v.refused.value, x);
    } else {
      MainChunkLands(s, x, index, entry, v);
    }
  }

  lemma {:induction false} MainChunkLands(s: State, x: Mxc, index: nat, entry: InFlight, v: Verdict)
    requires IsRunning(s.h, x) && Cursor(x, s.h.open[x]) == Chunk(x, index) && HasMain(entry.waiters) && v.refused.None?
    ensures var next := ChunkArrived(s, x, index, entry, v);
            IsRunning(next.h, x) ==> Left(next.h.open[x]) <= Left(s.h.open[x]) - 4
  {
    var m := s.h.open[x];
    var next := ChunkArrived(s, x, index, entry, v);
    var given := s.(h := GivePiece(s.h, entry.waiters, x, ChunkStart(index, m.manifest.chunkSize), v.plain));
    if v.unwritten.Some? {
      assert next == FailMedia(given, x, v.unwritten.value, false);
      FailStill(given, x, v.unwritten.value, false, x);
    } else {
      var landed := given.(h := LandArrived(given.h, x, v.plain));
      assert next == ContinueMain(landed, x, v.disk);
      ContinueLeft(landed, x, v.disk);
    }
  }

  lemma {:induction false} MainFailedAdvances(h: Handler, s: State, r: Request, x: Mxc, entry: InFlight, error: Error)
    requires IsRunning(h, x) && Cursor(x, h.open[x]) == r && s.h.open == h.open && s.h.q == h.q
    requires r in h.inFlight && h.inFlight[r] == entry && HasMain(entry.waiters) && !error.Network?
    ensures Advances(h, RequestFailed(s, r, entry, error).h, x)
  {
    var next := RequestFailed(s, r, entry, error);
    if !(error.Timeout? && entry.retries.timeouts + 1 < TIMEOUT_ATTEMPTS) && !(IsBadReply(error) && entry.retries.badReplies == 0) {
      var told := s.(h := AnswerSeeks(s.h, entry.waiters));
      assert next == FailMedia(told, x, error, IsPermanentRefusal(error));
      FailStill(told, x, error, IsPermanentRefusal(error), x);
    }
  }

  /** The link was lost: the main request goes back to the front, nothing gained, nothing used up. */
  lemma {:induction false} MainLostStays(h: Handler, s: State, r: Request, x: Mxc, entry: InFlight)
    requires IsRunning(h, x) && Cursor(x, h.open[x]) == r && s.h.open == h.open && s.h.q == h.q
    requires r in h.inFlight && h.inFlight[r] == entry && HasMain(entry.waiters)
    ensures Still(h, RequestFailed(s, r, entry, Network).h, x)
  {
  }

  lemma {:induction false} MainReplyAdvances(w: World, s: State, v: Verdict, local: LocalReads, x: Mxc)
    requires Inv(w, s, None, multiset{}) && MainReply(s.h, x)
    ensures var next := HandleReply(s, v, local);
            if s.h.line.replies[0].result == Refused(Network) then Still(s.h, next.h, x) else Advances(s.h, next.h, x)
  {
    var reply := s.h.line.replies[0];
    var r := reply.action;
    var h := s.h.(line := TakeReply(s.h.line));
    var next := HandleReply(s, v, local);
    CursorCarriesMain(s.h, x);
    var entry := h.inFlight[r];
    var taken := s.(h := h.(inFlight := h.inFlight - {r}));
    match reply.result
    case Ack =>
      if r.Info? { MainInfoAdvances(s.h, taken, x, entry, v, local); }
      else { MainChunkAdvances(s.h, taken, x, r.index, entry, v); }
    case Refused(error) =>
      if error.Network? { MainLostStays(s.h, taken, r, x, entry); } else { MainFailedAdvances(s.h, taken, r, x, entry, error); }
  }

  lemma {:induction false} CursorCarriesMain(h: Handler, x: Mxc)
    requires CursorInv(h, None) && IsRunning(h, x)
    ensures Cursor(x, h.open[x]) in h.inFlight && HasMain(h.inFlight[Cursor(x, h.open[x])].waiters)
  {
    DownloadTable.MainIsCounted(h.inFlight[Cursor(x, h.open[x])].waiters);
  }

  // ---- every other move ----

  lemma {:induction false} CancelOneStill(s: State, mxc: Mxc, found: Option<Request>, x: Mxc)
    requires found.Some? ==> MainOf(s.h, found.value, mxc)
    ensures Still(s.h, CancelOne(s, mxc, found).h, x)
  {
    if found.None? {
      EndStill(s, mxc, Cancelled, x);
    } else if found.value in s.h.line.queued {
      var r := found.value;
      var entry := s.h.inFlight[r];
      var h := s.h.(inFlight := s.h.inFlight - {r}, line := Withdraw(s.h.line, {r}));
      var others := SeeksOnly(entry.waiters);
      var kept := if others == [] then h else Resend(h, r, others, entry.retries);
      var next := EndJob(s.(h := kept), mxc, Cancelled);
      assert CancelOne(s, mxc, found) == next;
      EndStill(s.(h := kept), mxc, Cancelled, x);
      if mxc != x {
        assert Still(s.h, kept, x);
        StillTwice(s.h, kept, next.h, x);
      }
    }
  }

  lemma {:induction false} AnsweredStill(s: State, found: bool, unread: set<nat>, x: Mxc)
    requires s.h.finishing.Answering?
    requires found ==> Key(s.h, s.h.finishing.mxc) in s.d.pool
    ensures Still(s.h, FinishAnswered(s, found, unread).h, x)
  {
    var mxc := s.h.finishing.mxc;
    var pieces := if found then PiecesFromPool(s.d.pool[Key(s.h, mxc)], mxc, s.h.inFlight, RequestsOf(s.h, mxc), unread) else {};
    var ready := s.(h := DropRequests(s.h, mxc).(finishing := NotFinishing, pieces := s.h.pieces + pieces));
    EndStill(ready, mxc, s.h.finishing.end, x);
    assert FinishAnswered(s, found, unread) == EndJob(ready, mxc, s.h.finishing.end);
    if mxc != x {
      DropStill(s.h, mxc, x);
      SameIsStill(DropRequests(s.h, mxc), ready.h, x);
      StillTwice(s.h, DropRequests(s.h, mxc), ready.h, x);
      StillTwice(s.h, ready.h, FinishAnswered(s, found, unread).h, x);
    }
  }

  lemma {:induction false} SeekAtStill(h: Handler, mxc: Mxc, chunkSize: nat, id: SeekId, local: LocalReads, x: Mxc)
    ensures Still(h, RequestSeekAt(h, mxc, chunkSize, id, local), x)
  {
    if ChunkIndexAt(id.position, chunkSize).Index? {
      SeekChunkStill(h, mxc, Seek(ChunkIndexAt(id.position, chunkSize).index, id, chunkSize), local, x);
    }
  }

  lemma {:induction false} TakeSeekStill(h: Handler, local: LocalReads, x: Mxc)
    requires h.seeks != []
    ensures Still(h, TakeSeek(h, local), x)
  {
    var job := h.seeks[0];
    var mxc := job.manifest.mxc;
    var taken := h.(seeks := h.seeks[1..]);
    SameIsStill(h, taken, x);
    if mxc in h.open {
      SeekAtStill(taken, mxc, h.open[mxc].manifest.chunkSize, job, local, x);
      StillTwice(h, taken, TakeSeek(h, local), x);
    }
  }

  lemma {:induction false} SeekLookedStill(s: State, found: bool, local: LocalReads, x: Mxc)
    requires s.h.task.SeekLooking?
    requires found ==> Key(s.h, s.h.task.job.manifest.mxc) in s.d.pool
    ensures Still(s.h, SeekLooked(s, found, local), x)
  {
    if found {
      SeekFoundFrame(s, local);
    } else {
      var job := s.h.task.job;
      var mxc := job.manifest.mxc;
      var h := s.h.(task := Idle);
      var known := h.(seekOnly := Remember(h.seekOnly, job, h.line.now));
      SameIsStill(s.h, known, x);
      SeekAtStill(known, mxc, known.seekOnly[mxc].manifest.chunkSize, job, local, x);
      assert SeekLooked(s, found, local)
          == RequestSeekAt(known, mxc, known.seekOnly[mxc].manifest.chunkSize, job, local);
      StillTwice(s.h, known, SeekLooked(s, found, local), x);
    }
  }

  /** The job being prepared is not a running one. */
  lemma {:induction false} OtherThanTask(w: World, s: State, move: Move, x: Mxc)
    requires Inv(w, s, None, multiset{}) && May(w, s, move) && IsPreparingMove(move) && IsRunning(s.h, x)
    ensures s.h.task.Preparing? && s.h.task.manifest.mxc != x && s.h.task.manifest.mxc !in s.h.q.downloading
    ensures move.StartJobMove? ==> s.h.task.manifest.mxc in s.h.open
  {
  }

  lemma {:induction false} PreparingStill(w: World, s: State, move: Move, x: Mxc)
    requires Inv(w, s, None, multiset{}) && May(w, s, move) && IsPreparingMove(move) && IsRunning(s.h, x)
    ensures Still(s.h, Act(w, s, move).h, x)
  {
    OtherThanTask(w, s, move, x);
    if move.LookedMove? {
      LookedStill(s, move.found, x);
    } else if move.OpenedMove? {
      OpenedStill(s, move.media, x);
    } else if move.CancelCheckMove? {
      CheckStill(s, x);
    } else {
      StartStill(s, move.disk, x);
    }
  }

  lemma {:induction false} LookedStill(s: State, found: bool, x: Mxc)
    requires s.h.task.Preparing? && (ClaimedElsewhere(s) || CanClaim(s.d, Key(s.h, s.h.task.manifest.mxc), s.h.id))
    ensures var next := if found then FoundComplete(s) else if ClaimedElsewhere(s) then GiveUpJob(s) else StartOpening(s);
            Still(s.h, next.h, x)
  {
    if found { EndTailStill(s, Complete, x); } else if ClaimedElsewhere(s) { GiveUpStill(s, x); }
  }

  lemma {:induction false} CheckStill(s: State, x: Mxc)
    requires s.h.task.Preparing?
    ensures Still(s.h, CancelCheck(s).h, x)
  {
    EndTailStill(s, Cancelled, x);
  }

  lemma {:induction false} EndTailStill(s: State, end: JobEnd, x: Mxc)
    requires s.h.task.Preparing?
    ensures Still(s.h, EndJob(SetStage(s, Tail), s.h.task.manifest.mxc, end).h, x)
  {
    EndStill(SetStage(s, Tail), s.h.task.manifest.mxc, end, x);
  }

  lemma {:induction false} GiveUpStill(s: State, x: Mxc)
    requires s.h.task.Preparing?
    ensures Still(s.h, GiveUpJob(s).h, x)
  {
    EndTailStill(s, if CancelledWhilePreparing(s.h.q, s.h.task.manifest.mxc) then Cancelled else Broken(AccountBusy), x);
  }

  lemma {:induction false} StartStill(s: State, disk: DiskResults, x: Mxc)
    requires s.h.task.Preparing? && s.h.task.manifest.mxc in s.h.open && s.h.task.manifest.mxc != x
    ensures Still(s.h, StartJob(s, disk).h, x)
  {
    ContinueStill(Started(s), s.h.task.manifest.mxc, disk, x);
    StillTwice(s.h, Started(s).h, StartJob(s, disk).h, x);
  }

  lemma {:induction false} OpenedStill(s: State, media: Result<MediaDownload, Error>, x: Mxc)
    requires s.h.task.Preparing? && s.h.task.manifest.mxc !in s.h.q.downloading
    ensures Still(s.h, Opened(s, media).h, x)
  {
    if media.Err? {
      var back := DownloadJobs.Unopened(s);
      assert Opened(s, media) == EndJob(SetStage(back, Tail), s.h.task.manifest.mxc, Broken(media.error));
      EndStill(SetStage(back, Tail), s.h.task.manifest.mxc, Broken(media.error), x);
    }
  }

  lemma {:induction false} ActStill(w: World, s: State, move: Move, x: Mxc)
    requires Inv(w, s, None, multiset{}) && May(w, s, move) && IsRunning(s.h, x)
    requires !(move.TakeReplyMove? && MainReply(s.h, x))
    ensures Still(s.h, Act(w, s, move).h, x)
  {
    if IsWritingMove(move) {
      WritingStill(w, s, move, x);
    } else if IsPreparingMove(move) {
      PreparingStill(w, s, move, x);
    } else if move.SeekLookedMove? {
      SeekLookedStill(s, move.found, move.local, x);
    } else if move.TakeSeekMove? {
      TakeSeekStill(s.h, move.local, x);
    } else {
      QuietStill(w, s, move, x);
    }
  }

  lemma {:induction false} WritingStill(w: World, s: State, move: Move, x: Mxc)
    requires Inv(w, s, None, multiset{}) && May(w, s, move) && IsWritingMove(move)
    requires !(move.TakeReplyMove? && MainReply(s.h, x))
    ensures Still(s.h, Act(w, s, move).h, x)
  {
    match move
    case TakeReplyMove(v, local) => OtherReplyStill(w, s, v, local, x);
    case CancelOneMove(mxc, main) => CancelOneStill(s, mxc, main, x);
    case CloseIdleMove(mxc) => CloseStill(s, mxc, x);
    case AnsweredMove(found, unread) => AnsweredStill(s, found, unread, x);
    case _ =>
  }

  lemma {:induction false} QuietStill(w: World, s: State, move: Move, x: Mxc)
    requires Inv(w, s, None, multiset{}) && May(w, s, move) && IsRunning(s.h, x)
    requires !IsPreparingMove(move) && !IsWritingMove(move) && !move.SeekLookedMove? && !move.TakeSeekMove?
    ensures Still(s.h, Act(w, s, move).h, x)
  {
  }

  // ---- the measure goes down ----

  /** An answer that counts: to the main request of `x`, and not "the link was lost". */
  predicate Counts(h: Handler, move: Move, x: Mxc) {
    move.TakeReplyMove? && MainReply(h, x) && h.line.replies[0].result != Refused(Network)
  }

  /** While a job runs no move adds to its measure, and every answer that counts takes something off it. */
  lemma {:induction false} RankStep(w: World, s: State, move: Move, x: Mxc)
    requires Inv(w, s, None, multiset{}) && May(w, s, move)
    requires IsRunning(s.h, x) && IsRunning(Act(w, s, move).h, x)
    ensures Rank(Act(w, s, move).h, x) + (if Counts(s.h, move, x) then 1 else 0) <= Rank(s.h, x)
  {
    var next := Act(w, s, move);
    ActKeepsInv(w, s, move);
    RankBounds(w, s, x);
    RankBounds(w, next, x);
    if move.TakeReplyMove? && MainReply(s.h, x) {
      assert next == HandleReply(s, move.v, move.local);
      MainReplyAdvances(w, s, move.v, move.local, x);
      AdvancesRank(s.h, next.h, x, s.h.line.replies[0].result == Refused(Network));
    } else {
      ActStill(w, s, move, x);
      AdvancesRank(s.h, next.h, x, true);
    }
  }

  lemma {:induction false} AdvancesRank(h: Handler, h2: Handler, x: Mxc, still: bool)
    requires IsRunning(h, x) && IsRunning(h2, x)
    requires Cursor(x, h.open[x]) in h.inFlight && Rank(h2, x) <= Left(h2.open[x]) + 3 && Left(h.open[x]) <= Rank(h, x)
    requires if still then Still(h, h2, x) else Advances(h, h2, x)
    ensures Rank(h2, x) + (if still then 0 else 1) <= Rank(h, x)
  {
  }
}
