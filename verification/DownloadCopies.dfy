/** What each step of the handler does to the copies its send queue has of the requests in flight: none appears for a request
    that has none left, and none goes while somebody waits for it. */
module DownloadCopies {
  import opened Files
  import opened Wrappers
  import opened Lines
  import opened Download

  /** In flight, and the line has no copy left: no answer to it can come. */
  ghost predicate Stuck(h: Handler, r: Request) { r in h.inFlight && Copies(h.line, r) == 0 }

  ghost predicate KeepsOne(h: Handler, h2: Handler, r: Request) {
    && (Stuck(h2, r) <==> Stuck(h, r))
    && (Stuck(h, r) && r in h2.inFlight ==> h.inFlight[r].waiters <= h2.inFlight[r].waiters)
  }

  /** What is still in flight is stuck if and only if it was, and whoever waited for it then still does. */
  ghost predicate KeepsCopies(h: Handler, h2: Handler) {
    h2.line.lost == h.line.lost && forall r :: r in h2.inFlight ==> KeepsOne(h, h2, r)
  }

  /** Nothing stuck leaves the table. */
  ghost predicate StuckStays(h: Handler, h2: Handler) { forall r :: Stuck(h, r) ==> r in h2.inFlight }

  lemma {:induction false} KeepsTwice(a: Handler, b: Handler, c: Handler)
    requires KeepsCopies(a, b) && KeepsCopies(b, c)
    requires StuckStays(a, b) || c.inFlight.Keys <= b.inFlight.Keys
    ensures KeepsCopies(a, c)
    ensures StuckStays(a, b) && StuckStays(b, c) ==> StuckStays(a, c)
  {
    forall r | r in c.inFlight ensures KeepsOne(a, c, r) {
      assert KeepsOne(b, c, r);
      assert r in b.inFlight ==> KeepsOne(a, b, r);
    }
  }

  lemma {:induction false} SameLineKeeps(h: Handler, h2: Handler)
    requires h2.inFlight == h.inFlight && h2.line == h.line
    ensures KeepsCopies(h, h2) && StuckStays(h, h2)
  {
  }

  // ---- wanting, resending, dropping ----

  lemma {:induction false} WantKeeps(h: Handler, r: Request, waiting: Waiting, atFront: bool)
    ensures KeepsCopies(h, Want(h, r, waiting, atFront)) && StuckStays(h, Want(h, r, waiting, atFront))
  {
    var h2 := Want(h, r, waiting, atFront);
    if r !in h.inFlight {
      PutKeeps(h, h2, r, h2.inFlight[r], atFront);
    } else if atFront && r in h.line.queued {
      ToFrontKeeps(h, h2, r, waiting);
    } else {
      HangOnKeeps(h, h2, r, waiting);
    }
  }

  /** A request goes into the table and onto the queue. */
  lemma {:induction false} PutKeeps(h: Handler, h2: Handler, r: Request, entry: InFlight, atFront: bool)
    requires r !in h.inFlight && h2.inFlight == h.inFlight[r := entry] && h2.line == Push(h.line, r, atFront)
    ensures KeepsCopies(h, h2) && StuckStays(h, h2)
  {
    forall a | a in h2.inFlight ensures KeepsOne(h, h2, a) { PushCounts(h.line, r, a); }
  }

  /** One more waits for a request in flight. */
  lemma {:induction false} HangOnKeeps(h: Handler, h2: Handler, r: Request, waiting: Waiting)
    requires r in h.inFlight && h2.line == h.line
    requires h2.inFlight == h.inFlight[r := h.inFlight[r].(waiters := h.inFlight[r].waiters + [waiting])]
    ensures KeepsCopies(h, h2) && StuckStays(h, h2)
  {
  }

  /** And brings its queued copies to the front. */
  lemma {:induction false} ToFrontKeeps(h: Handler, h2: Handler, r: Request, waiting: Waiting)
    requires r in h.inFlight && r in h.line.queued && h2.line == PushFront(Withdraw(h.line, {r}), r)
    requires h2.inFlight == h.inFlight[r := h.inFlight[r].(waiters := h.inFlight[r].waiters + [waiting])]
    ensures KeepsCopies(h, h2) && StuckStays(h, h2)
  {
    forall a | a in h2.inFlight ensures KeepsOne(h, h2, a) { ToFrontCounts(h.line, r, a); }
  }

  lemma {:induction false} ToFrontCounts(line: Line<Request>, r: Request, a: Request)
    requires r in line.queued
    ensures Copies(PushFront(Withdraw(line, {r}), r), a) == 0 <==> Copies(line, a) == 0
  {
    WithdrawCounts(line, {r}, a);
    PushCounts(Withdraw(line, {r}), r, a);
    assert r in multiset(line.queued);
  }

  /** The request is not in the table; it is pushed and put back. */
  lemma {:induction false} ResendKeeps(h: Handler, r: Request, waiters: seq<Waiting>, retries: Retries)
    requires r !in h.inFlight
    ensures KeepsCopies(h, Resend(h, r, waiters, retries)) && StuckStays(h, Resend(h, r, waiters, retries))
  {
    PutKeeps(h, Resend(h, r, waiters, retries), r, InFlight(waiters, retries), true);
  }

  /** Requests leave the table and the queue together. */
  lemma {:induction false} OutKeeps(h: Handler, h2: Handler, gone: set<Request>)
    requires h2.inFlight == h.inFlight - gone && h2.line == Withdraw(h.line, gone)
    ensures KeepsCopies(h, h2)
  {
    forall a | a in h2.inFlight ensures KeepsOne(h, h2, a) {
      WithdrawCounts(h.line, gone, a);
    }
  }

  lemma {:induction false} EndKeeps(s: State, mxc: Mxc, end: JobEnd)
    ensures KeepsCopies(s.h, EndJob(s, mxc, end).h) && StuckStays(s.h, EndJob(s, mxc, end).h)
    ensures EndJob(s, mxc, end).h.inFlight == s.h.inFlight && EndJob(s, mxc, end).h.line == s.h.line
  {
    SameLineKeeps(s.h, EndJob(s, mxc, end).h);
  }

  lemma {:induction false} FailKeeps(s: State, mxc: Mxc, error: Error, discard: bool)
    ensures KeepsCopies(s.h, FailMedia(s, mxc, error, discard).h)
    ensures FailMedia(s, mxc, error, discard).h.inFlight.Keys <= s.h.inFlight.Keys
  {
    FailDrops(s, mxc, error, discard);
    OutKeeps(s.h, FailMedia(s, mxc, error, discard).h, RequestsOf(s.h, mxc));
  }

  lemma FailDrops(s: State, mxc: Mxc, error: Error, discard: bool)
    ensures var h2 := FailMedia(s, mxc, error, discard).h;
            h2.inFlight == s.h.inFlight - RequestsOf(s.h, mxc) && h2.line == Withdraw(s.h.line, RequestsOf(s.h, mxc))
  {
    var dropped := s.(h := DropRequests(s.h, mxc));
    var closed := if mxc !in s.h.open then dropped
                  else if discard then CloseDiscarding(dropped, mxc) else CloseKeeping(dropped, mxc);
    assert closed.h.inFlight == dropped.h.inFlight && closed.h.line == dropped.h.line;
    EndKeeps(closed, mxc, Broken(error));
  }

  // ---- the main file ----

  lemma {:induction false} ContinueKeeps(s: State, mxc: Mxc, disk: DiskResults)
    ensures KeepsCopies(s.h, ContinueMain(s, mxc, disk).h)
    decreases if mxc in s.h.open then Total(s.h.open[mxc]) - Next(s.h.open[mxc]) else 0
  {
    var next := ContinueMain(s, mxc, disk);
    if mxc !in s.h.q.downloading {
      SameLineKeeps(s.h, next.h);
    } else if s.h.q.downloading[mxc].cancelled {
      EndKeeps(s, mxc, Cancelled);
    } else if mxc !in s.h.open {
      EndKeeps(s, mxc, Broken(Io));
    } else {
      var m := s.h.open[mxc];
      if IsWritten(m) {
        SameLineKeeps(s.h, next.h);
      } else if m.needsInfo {
        WantKeeps(s.h, Info(mxc), Main, false);
      } else if InStore(m, disk) && Next(m) in disk.unmovable {
        FailKeeps(s, mxc, disk.fault, true);
      } else if InStore(m, disk) {
        var landed := s.(h := LandFromStore(s.h, mxc));
        SameLineKeeps(s.h, landed.h);
        ContinueKeeps(landed, mxc, disk);
        KeepsTwice(s.h, landed.h, next.h);
      } else {
        WantKeeps(s.h, Chunk(mxc, Next(m)), Main, false);
      }
    }
  }

  // ---- GETs ----

  lemma {:induction false} SeekChunkKeeps(h: Handler, mxc: Mxc, waiting: Waiting, local: LocalReads)
    requires waiting.Seek?
    ensures KeepsCopies(h, RequestSeekChunk(h, mxc, waiting, local)) && StuckStays(h, RequestSeekChunk(h, mxc, waiting, local))
  {
    var h2 := RequestSeekChunk(h, mxc, waiting, local);
    if mxc in h.open {
      var m := h.open[mxc];
      if waiting.index in local.fails || (LocalChunk(m, waiting.index).Some? && waiting.index !in local.missing) {
        SameLineKeeps(h, h2);
      } else {
        WantKeeps(h, if m.needsInfo then Info(mxc) else Chunk(mxc, waiting.index), waiting, true);
      }
    } else if mxc in h.seekOnly {
      WantKeeps(h, if h.seekOnly[mxc].verified then Chunk(mxc, waiting.index) else Info(mxc), waiting, true);
    } else {
      SameLineKeeps(h, h2);
    }
  }

  lemma {:induction false} SeekChunksKeep(h: Handler, mxc: Mxc, waiters: seq<Waiting>, local: LocalReads)
    ensures KeepsCopies(h, RequestSeekChunks(h, mxc, waiters, local)) && StuckStays(h, RequestSeekChunks(h, mxc, waiters, local))
    decreases |waiters|
  {
    if waiters == [] {
      SameLineKeeps(h, h);
    } else {
      var first := if waiters[0].Seek? then RequestSeekChunk(h, mxc, waiters[0], local) else h;
      if waiters[0].Seek? { SeekChunkKeeps(h, mxc, waiters[0], local); } else { SameLineKeeps(h, h); }
      SeekChunksKeep(first, mxc, waiters[1..], local);
      KeepsTwice(h, first, RequestSeekChunks(first, mxc, waiters[1..], local));
    }
  }

  lemma {:induction false} SeekAtKeeps(h: Handler, mxc: Mxc, chunkSize: nat, id: SeekId, local: LocalReads)
    ensures KeepsCopies(h, RequestSeekAt(h, mxc, chunkSize, id, local))
  {
    match ChunkIndexAt(id.position, chunkSize)
    case NoChunk => SameLineKeeps(h, RequestSeekAt(h, mxc, chunkSize, id, local));
    case Index(index) => SeekChunkKeeps(h, mxc, Seek(index, id, chunkSize), local);
  }

  lemma {:induction false} TakeSeekKeeps(h: Handler, local: LocalReads)
    requires h.seeks != []
    ensures KeepsCopies(h, TakeSeek(h, local))
  {
    var job := h.seeks[0];
    var taken := h.(seeks := h.seeks[1..]);
    SameLineKeeps(h, taken);
    if job.manifest.mxc in h.open {
      SeekAtKeeps(taken, job.manifest.mxc, h.open[job.manifest.mxc].manifest.chunkSize, job, local);
      KeepsTwice(h, taken, TakeSeek(h, local));
    } else {
      SameLineKeeps(h, TakeSeek(h, local));
    }
  }

  lemma {:induction false} SeekLookedKeeps(s: State, found: bool, local: LocalReads)
    requires s.h.task.SeekLooking?
    requires found ==> Key(s.h, s.h.task.job.manifest.mxc) in s.d.pool
    ensures KeepsCopies(s.h, SeekLooked(s, found, local))
  {
    var job := s.h.task.job;
    var mxc := job.manifest.mxc;
    var h := s.h.(task := Idle);
    if found {
      SameLineKeeps(s.h, SeekLooked(s, found, local));
    } else {
      var known := h.(seekOnly := Remember(h.seekOnly, job, h.line.now));
      SameLineKeeps(s.h, known);
      SeekAtKeeps(known, mxc, known.seekOnly[mxc].manifest.chunkSize, job, local);
      KeepsTwice(s.h, known, RequestSeekAt(known, mxc, known.seekOnly[mxc].manifest.chunkSize, job, local));
    }
  }

  // ---- replies ----

  lemma {:induction false} UnverifiedKeeps(s: State, mxc: Mxc, entry: InFlight, error: Error)
    ensures KeepsCopies(s.h, Unverified(s, mxc, entry, error).h)
  {
    var told := s.(h := AnswerSeeks(s.h, entry.waiters));
    SameLineKeeps(s.h, told.h);
    if mxc in s.h.open {
      FailKeeps(told, mxc, error, true);
      KeepsTwice(s.h, told.h, FailMedia(told, mxc, error, true).h);
    } else {
      SameLineKeeps(s.h, Unverified(s, mxc, entry, error).h);
    }
  }

  lemma {:induction false} FailedKeeps(s: State, r: Request, entry: InFlight, error: Error)
    requires r !in s.h.inFlight
    ensures KeepsCopies(s.h, RequestFailed(s, r, entry, error).h)
  {
    if error.Network? {
      CutOffKeeps(s.h, r, entry);
    } else if error.Timeout? && entry.retries.timeouts + 1 < TIMEOUT_ATTEMPTS {
      ResendKeeps(s.h, r, entry.waiters, entry.retries.(timeouts := entry.retries.timeouts + 1));
    } else if IsBadReply(error) && entry.retries.badReplies == 0 {
      ResendKeeps(s.h, r, entry.waiters, entry.retries.(badReplies := 1));
    } else {
      GiveUpKeeps(s, r, entry, error);
    }
  }

  /** The link is down: only the main request goes back. */
  lemma {:induction false} CutOffKeeps(h: Handler, r: Request, entry: InFlight)
    requires r !in h.inFlight
    ensures var told := AnswerSeeks(h, entry.waiters);
            KeepsCopies(h, told) && KeepsCopies(h, Resend(told, r, [Main], entry.retries))
  {
    var told := AnswerSeeks(h, entry.waiters);
    SameLineKeeps(h, told);
    ResendKeeps(told, r, [Main], entry.retries);
    KeepsTwice(h, told, Resend(told, r, [Main], entry.retries));
  }

  lemma {:induction false} GiveUpKeeps(s: State, r: Request, entry: InFlight, error: Error)
    ensures KeepsCopies(s.h, GiveUp(s, r, entry, error).h)
  {
    var told := s.(h := AnswerSeeks(s.h, entry.waiters));
    SameLineKeeps(s.h, told.h);
    if HasMain(entry.waiters) || IsPermanentRefusal(error) {
      FailKeeps(told, r.mxc, error, IsPermanentRefusal(error));
      KeepsTwice(s.h, told.h, FailMedia(told, r.mxc, error, IsPermanentRefusal(error)).h);
    }
  }

  lemma {:induction false} InfoKeeps(s: State, mxc: Mxc, entry: InFlight, v: Verdict, local: LocalReads)
    requires Info(mxc) !in s.h.inFlight
    ensures KeepsCopies(s.h, InfoArrived(s, mxc, entry, v, local).h)
  {
    if mxc !in s.h.open && mxc !in s.h.seekOnly {
      SameLineKeeps(s.h, InfoArrived(s, mxc, entry, v, local).h);
    } else if v.refused.Some? {
      ResendKeeps(s.h, Info(mxc), entry.waiters, entry.retries.(badReplies := 1));
      UnverifiedKeeps(s, mxc, entry, v.refused.value);
    } else {
      var accepted := AcceptInfo(s.h, mxc);
      var asked := s.(h := RequestSeekChunks(accepted, mxc, entry.waiters, local));
      SameLineKeeps(s.h, accepted);
      SeekChunksKeep(accepted, mxc, entry.waiters, local);
      KeepsTwice(s.h, accepted, asked.h);
      ContinueKeeps(asked, mxc, v.disk);
      KeepsTwice(s.h, asked.h, ContinueMain(asked, mxc, v.disk).h);
    }
  }

  lemma {:induction false} ChunkKeeps(s: State, mxc: Mxc, index: nat, entry: InFlight, v: Verdict)
    requires Chunk(mxc, index) !in s.h.inFlight
    ensures KeepsCopies(s.h, ChunkArrived(s, mxc, index, entry, v).h)
  {
    if mxc !in s.h.open && mxc !in s.h.seekOnly {
      SameLineKeeps(s.h, ChunkArrived(s, mxc, index, entry, v).h);
    } else if v.refused.Some? {
      ResendKeeps(s.h, Chunk(mxc, index), entry.waiters, entry.retries.(badReplies := 1));
      UnverifiedKeeps(s, mxc, entry, v.refused.value);
    } else if mxc !in s.h.open {
      SameLineKeeps(s.h, ChunkArrived(s, mxc, index, entry, v).h);
    } else {
      ChunkOpenedKeeps(s, mxc, index, entry, v);
    }
  }

  lemma {:induction false} ChunkOpenedKeeps(s: State, mxc: Mxc, index: nat, entry: InFlight, v: Verdict)
    requires mxc in s.h.open && v.refused.None?
    ensures KeepsCopies(s.h, ChunkArrived(s, mxc, index, entry, v).h)
  {
    var m := s.h.open[mxc];
    var next := ChunkArrived(s, mxc, index, entry, v);
    var main := HasMain(entry.waiters);
    var lands := main && index == Next(m);
    var given := s.(h := GivePiece(s.h, entry.waiters, mxc, ChunkStart(index, m.manifest.chunkSize), v.plain));
    var kept := if v.unwritten.Some? then given
                else given.(h := if lands then LandArrived(given.h, mxc, v.plain) else StoreArrived(given.h, mxc, index, v.plain));
    SameLineKeeps(s.h, given.h);
    SameLineKeeps(s.h, kept.h);
    if v.unwritten.Some? && lands {
      assert next == FailMedia(given, mxc, v.unwritten.value, false);
      FailKeeps(given, mxc, v.unwritten.value, false);
      KeepsTwice(s.h, given.h, next.h);
    } else if main {
      assert next == ContinueMain(kept, mxc, v.disk);
      ContinueKeeps(kept, mxc, v.disk);
      KeepsTwice(s.h, kept.h, next.h);
    } else {
      assert next == kept;
    }
  }

  /** The reply leaves the line, and its entry, if any, the table. */
  lemma {:induction false} TakenKeeps(h: Handler)
    requires h.line.replies != []
    ensures var r := h.line.replies[0].action;
            var taken := h.(line := TakeReply(h.line), inFlight := h.inFlight - {r});
            KeepsCopies(h, taken) && StuckStays(h, taken)
  {
    var r := h.line.replies[0].action;
    var taken := h.(line := TakeReply(h.line), inFlight := h.inFlight - {r});
    DeliverCounts(h.line, r);
    forall a | a in taken.inFlight ensures KeepsOne(h, taken, a) { DeliverCounts(h.line, a); }
  }

  lemma {:induction false} ReplyKeeps(s: State, v: Verdict, local: LocalReads)
    requires s.h.line.replies != []
    ensures KeepsCopies(s.h, HandleReply(s, v, local).h)
  {
    var reply := s.h.line.replies[0];
    var r := reply.action;
    var taken := s.(h := s.h.(line := TakeReply(s.h.line), inFlight := s.h.inFlight - {r}));
    var next := HandleReply(s, v, local);
    TakenKeeps(s.h);
    if r !in s.h.inFlight {
      assert taken.h.inFlight == s.h.inFlight;
      SameLineKeeps(taken.h, next.h);
    } else {
      var entry := s.h.inFlight[r];
      match reply.result
      case Ack =>
        if r.Info? { InfoKeeps(taken, r.mxc, entry, v, local); } else { ChunkKeeps(taken, r.mxc, r.index, entry, v); }
      case Refused(error) => FailedKeeps(taken, r, entry, error);
    }
    KeepsTwice(s.h, taken.h, next.h);
  }

  // ---- cancels ----

  lemma {:induction false} CancelOneKeeps(s: State, mxc: Mxc, found: Option<Request>)
    requires found.Some? ==> MainOf(s.h, found.value, mxc)
    ensures KeepsCopies(s.h, CancelOne(s, mxc, found).h)
  {
    if found.None? {
      EndKeeps(s, mxc, Cancelled);
    } else if found.value !in s.h.line.queued {
      SameLineKeeps(s.h, s.h);
    } else {
      var r := found.value;
      var others := SeeksOnly(s.h.inFlight[r].waiters);
      var h := s.h.(inFlight := s.h.inFlight - {r}, line := Withdraw(s.h.line, {r}));
      var kept := s.(h := if others == [] then h else Resend(h, r, others, s.h.inFlight[r].retries));
      OutKeeps(s.h, h, {r});
      if others == [] { SameLineKeeps(h, h); } else { ResendKeeps(h, r, others, s.h.inFlight[r].retries); }
      KeepsTwice(s.h, h, kept.h);
      EndKeeps(kept, mxc, Cancelled);
      KeepsTwice(s.h, kept.h, EndJob(kept, mxc, Cancelled).h);
    }
  }
}
