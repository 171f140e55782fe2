/** What a step of one handler may touch of what all handlers share: only its own claims, only files it has open. */
module DownloadFrame {
  import opened Files
  import opened Wrappers
  import opened Lines
  import opened JobQueue
  import opened Download

  function Look<K, V>(m: map<K, V>, k: K): Option<V> { if k in m then Some(m[k]) else None }

  /** Only `TakeJob` takes up a new job; a step like this may bring the one at hand to its tail. */
  predicate TaskFrom(task: Task, task2: Task) {
    task2 == task || (task.Preparing? && task2 == Preparing(task.manifest, Tail))
  }

  /** The main file only gets longer, and a verified block stays verified. */
  predicate Onward(m: MediaDownload, m2: MediaDownload) {
    m2.manifest == m.manifest && m.main <= m2.main && (m2.needsInfo ==> m.needsInfo)
  }

  ghost predicate Grows(h: Handler, h2: Handler) {
    forall mxc :: mxc in h2.open ==> mxc in h.open && Onward(h.open[mxc], h2.open[mxc])
  }

  /** Everyone who waited for the file was told something about it. */
  ghost predicate AllTold(q: QueueState, q2: QueueState, mxc: Mxc) {
    forall w :: w in WaitersOf(q, mxc) ==> exists outcome :: Told(w, mxc, outcome) in q2.outcomes
  }

  /** The waiters of the file stay where they are while its job does, or all of them are told and gone. */
  ghost predicate TellsOne(q: QueueState, q2: QueueState, mxc: Mxc) {
    || (WaitersOf(q2, mxc) == WaitersOf(q, mxc) && (mxc in q.downloading ==> mxc in q2.downloading))
    || (WaitersOf(q2, mxc) == [] && AllTold(q, q2, mxc))
  }

  ghost predicate Tells(q: QueueState, q2: QueueState) {
    q.outcomes <= q2.outcomes && forall mxc :: TellsOne(q, q2, mxc)
  }

  lemma {:induction false} TellsTwice(a: QueueState, b: QueueState, c: QueueState)
    requires Tells(a, b) && Tells(b, c)
    ensures Tells(a, c)
  {
    forall mxc ensures TellsOne(a, c, mxc) {
      assert TellsOne(a, b, mxc) && TellsOne(b, c, mxc);
    }
  }

  /** Leaving the queue tells the waiters of the one file. */
  lemma {:induction false} LeaveTells(q: QueueState, mxc: Mxc, end: JobEnd)
    ensures Tells(q, LeaveQueue(q, mxc, end))
    ensures WaitersOf(LeaveQueue(q, mxc, end), mxc) == [] && AllTold(q, LeaveQueue(q, mxc, end), mxc)
  {
    var q2 := LeaveQueue(q, mxc, end);
    forall w | w in WaitersOf(q, mxc) ensures exists outcome :: Told(w, mxc, outcome) in q2.outcomes {
      assert Told(w, mxc, OutcomeOf(end)) in q2.outcomes;
    }
    forall x ensures TellsOne(q, q2, x) {
    }
  }

  /** No job comes, starts or is taken up, no cancel flag changes, and no waiter is lost. */
  ghost predicate Flags(q: QueueState, q2: QueueState) {
    && q2.inbox == q.inbox && q2.preparing == q.preparing && Tells(q, q2)
    && forall mxc :: mxc in q2.downloading ==> mxc in q.downloading && q2.downloading[mxc].cancelled == q.downloading[mxc].cancelled
  }

  /** The step works on files already open: it opens nothing, gives up only own claims, and touches the disk and the
      pool only under files it has open. */
  ghost predicate Shrinks(s: State, s2: State) {
    && s2.h.id == s.h.id && s2.h.dir == s.h.dir && s2.h.closed == s.h.closed && s2.h.seeks == s.h.seeks
    && TaskFrom(s.h.task, s2.h.task) && Flags(s.h.q, s2.h.q) && Grows(s.h, s2.h)
    && s2.d.complete == s.d.complete && s.d.pool.Keys <= s2.d.pool.Keys
    && (forall key :: Look(s2.d.claims, key) == Look(s.d.claims, key)
                      || (Look(s.d.claims, key) == Some(s.h.id) && Look(s2.d.claims, key) == None))
    && (forall key :: Look(s2.d.disk, key) == Look(s.d.disk, key) || (key.dir == s.h.dir && key.mxc in s.h.open))
    && (forall key :: Look(s2.d.pool, key) == Look(s.d.pool, key) || (key.dir == s.h.dir && key.mxc in s.h.open))
  }

  lemma {:induction false} ShrinksTwice(a: State, b: State, c: State)
    requires Shrinks(a, b) && Shrinks(b, c)
    ensures Shrinks(a, c)
  {
    TellsTwice(a.h.q, b.h.q, c.h.q);
    forall key ensures Look(c.d.claims, key) == Look(a.d.claims, key)
                       || (Look(a.d.claims, key) == Some(a.h.id) && Look(c.d.claims, key) == None)
    {
      assert Look(b.d.claims, key) == Look(a.d.claims, key) || (Look(a.d.claims, key) == Some(a.h.id) && Look(b.d.claims, key) == None);
    }
    forall key ensures Look(c.d.disk, key) == Look(a.d.disk, key) || (key.dir == a.h.dir && key.mxc in a.h.open)
               ensures Look(c.d.pool, key) == Look(a.d.pool, key) || (key.dir == a.h.dir && key.mxc in a.h.open)
    {
      assert key.mxc in b.h.open ==> key.mxc in a.h.open;
    }
  }

  lemma {:induction false} CloseShrinks(s: State, mxc: Mxc)
    requires mxc in s.h.open
    ensures Shrinks(s, CloseKeeping(s, mxc)) && Shrinks(s, CloseDiscarding(s, mxc))
  {
  }

  lemma {:induction false} EndShrinks(s: State, mxc: Mxc, end: JobEnd)
    ensures Shrinks(s, EndJob(s, mxc, end))
  {
    var left := s.(h := s.h.(q := LeaveQueue(s.h.q, mxc, end)));
    LeaveTells(s.h.q, mxc, end);
    if mxc in s.h.open {
      CloseShrinks(left, mxc);
      ShrinksTwice(s, left, CloseKeeping(left, mxc));
    }
  }

  lemma {:induction false} FailShrinks(s: State, mxc: Mxc, error: Error, discard: bool)
    ensures Shrinks(s, FailMedia(s, mxc, error, discard))
  {
    var dropped := s.(h := DropRequests(s.h, mxc));
    var closed := if mxc !in s.h.open then dropped
                  else if discard then CloseDiscarding(dropped, mxc) else CloseKeeping(dropped, mxc);
    assert Shrinks(s, dropped);
    if mxc in s.h.open { CloseShrinks(dropped, mxc); }
    ShrinksTwice(s, dropped, closed);
    EndShrinks(closed, mxc, Broken(error));
    ShrinksTwice(s, closed, EndJob(closed, mxc, Broken(error)));
  }

  lemma {:induction false} FinishShrinks(s: State, mxc: Mxc, disk: DiskResults)
    requires mxc in s.h.open
    ensures Shrinks(s, FinishJob(s, mxc, disk))
  {
  }

  lemma {:induction false} ContinueShrinks(s: State, mxc: Mxc, disk: DiskResults)
    ensures Shrinks(s, ContinueMain(s, mxc, disk))
    decreases if mxc in s.h.open then Total(s.h.open[mxc]) - Next(s.h.open[mxc]) else 0
  {
    var next := ContinueMain(s, mxc, disk);
    if mxc in s.h.q.downloading {
      if s.h.q.downloading[mxc].cancelled {
        assert next == EndJob(s, mxc, Cancelled);
        EndShrinks(s, mxc, Cancelled);
      } else if mxc !in s.h.open {
        assert next == EndJob(s, mxc, Broken(Io));
        EndShrinks(s, mxc, Broken(Io));
      } else {
        ContinueOpenShrinks(s, mxc, disk);
      }
    }
  }

  lemma {:induction false} ContinueOpenShrinks(s: State, mxc: Mxc, disk: DiskResults)
    requires mxc in s.h.q.downloading && !s.h.q.downloading[mxc].cancelled && mxc in s.h.open
    ensures Shrinks(s, ContinueMain(s, mxc, disk))
    decreases Total(s.h.open[mxc]) - Next(s.h.open[mxc]), 0
  {
    var m := s.h.open[mxc];
    var next := ContinueMain(s, mxc, disk);
    if IsWritten(m) {
      WrittenShrinks(s, mxc, disk);
    } else if !m.needsInfo && InStore(m, disk) && Next(m) in disk.unmovable {
      assert next == FailMedia(s, mxc, disk.fault, true);
      FailShrinks(s, mxc, disk.fault, true);
    } else if !m.needsInfo && InStore(m, disk) {
      var landed := s.(h := LandFromStore(s.h, mxc));
      assert next == ContinueMain(landed, mxc, disk);
      LandShrinks(s, mxc);
      ContinueShrinks(landed, mxc, disk);
      ShrinksTwice(s, landed, next);
    } else {
      WantShrinks(s, if m.needsInfo then Info(mxc) else Chunk(mxc, Next(m)), Main, false);
    }
  }

  lemma {:induction false} WrittenShrinks(s: State, mxc: Mxc, disk: DiskResults)
    requires mxc in s.h.q.downloading && mxc in s.h.open
    ensures var done := s.(h := s.h.(q := SetDone(s.h.q, mxc, Total(s.h.open[mxc]))));
            Shrinks(s, FinishJob(done, mxc, disk))
  {
    var done := s.(h := s.h.(q := SetDone(s.h.q, mxc, Total(s.h.open[mxc]))));
    TableShrinks(s, done.h);
    FinishShrinks(done, mxc, disk);
    ShrinksTwice(s, done, FinishJob(done, mxc, disk));
  }

  lemma {:induction false} LandShrinks(s: State, mxc: Mxc)
    requires mxc in s.h.open && mxc in s.h.q.downloading && Next(s.h.open[mxc]) in s.h.open[mxc].store
    ensures Shrinks(s, s.(h := LandFromStore(s.h, mxc)))
    ensures Next(LandFromStore(s.h, mxc).open[mxc]) == Next(s.h.open[mxc]) + 1
  {
  }

  lemma {:induction false} WantShrinks(s: State, r: Request, waiting: Waiting, atFront: bool)
    ensures Shrinks(s, s.(h := Want(s.h, r, waiting, atFront)))
  {
  }

  /** Anything done to the in-flight table, the line and the GETs alone. */
  lemma {:induction false} TableShrinks(s: State, h2: Handler)
    requires h2.id == s.h.id && h2.dir == s.h.dir && h2.closed == s.h.closed
    requires h2.seeks == s.h.seeks && TaskFrom(s.h.task, h2.task) && Flags(s.h.q, h2.q) && Grows(s.h, h2)
    ensures Shrinks(s, State(h2, s.d))
  {
  }

  lemma {:induction false} SeekChunksFrame(h: Handler, mxc: Mxc, waiters: seq<Waiting>, local: LocalReads)
    ensures var h2 := RequestSeekChunks(h, mxc, waiters, local);
            h2 == h.(inFlight := h2.inFlight, line := h2.line, answered := h2.answered, pieces := h2.pieces)
    decreases |waiters|
  {
    if waiters != [] {
      if waiters[0].Seek? {
        SeekChunkOnly(h, mxc, waiters[0], local);
        SeekChunksFrame(RequestSeekChunk(h, mxc, waiters[0], local), mxc, waiters[1..], local);
      } else {
        SeekChunksFrame(h, mxc, waiters[1..], local);
      }
    }
  }

  lemma {:induction false} SeekChunkOnly(h: Handler, mxc: Mxc, waiting: Waiting, local: LocalReads)
    requires waiting.Seek?
    ensures var h2 := RequestSeekChunk(h, mxc, waiting, local);
            h2 == h.(inFlight := h2.inFlight, line := h2.line, answered := h2.answered, pieces := h2.pieces)
  {
    if mxc in h.open {
      var m := h.open[mxc];
      if waiting.index !in local.fails && !(LocalChunk(m, waiting.index).Some? && waiting.index !in local.missing) {
        WantOnly(h, if m.needsInfo then Info(mxc) else Chunk(mxc, waiting.index), waiting);
      }
    } else if mxc in h.seekOnly {
      WantOnly(h, if h.seekOnly[mxc].verified then Chunk(mxc, waiting.index) else Info(mxc), waiting);
    }
  }

  lemma WantOnly(h: Handler, r: Request, waiting: Waiting)
    ensures var h2 := Want(h, r, waiting, true);
            h2 == h.(inFlight := h2.inFlight, line := h2.line)
  {
  }

  /** A step that shrinks, and then the main file goes on, or the file fails. */
  lemma {:induction false} ThenContinueShrinks(s: State, kept: State, mxc: Mxc, disk: DiskResults)
    requires Shrinks(s, kept)
    ensures Shrinks(s, ContinueMain(kept, mxc, disk))
  {
    ContinueShrinks(kept, mxc, disk);
    ShrinksTwice(s, kept, ContinueMain(kept, mxc, disk));
  }

  lemma {:induction false} ThenFailShrinks(s: State, told: State, mxc: Mxc, error: Error, discard: bool)
    requires Shrinks(s, told)
    ensures Shrinks(s, FailMedia(told, mxc, error, discard))
  {
    FailShrinks(told, mxc, error, discard);
    ShrinksTwice(s, told, FailMedia(told, mxc, error, discard));
  }

  lemma {:induction false} FailedShrinks(s: State, r: Request, entry: InFlight, error: Error)
    ensures Shrinks(s, RequestFailed(s, r, entry, error))
  {
    var next := RequestFailed(s, r, entry, error);
    if !error.Network? && !(error.Timeout? && entry.retries.timeouts + 1 < TIMEOUT_ATTEMPTS)
       && !(IsBadReply(error) && entry.retries.badReplies == 0)
    {
      assert next == GiveUp(s, r, entry, error);
      var told := s.(h := AnswerSeeks(s.h, entry.waiters));
      TableShrinks(s, told.h);
      ThenFailShrinks(s, told, r.mxc, error, IsPermanentRefusal(error));
    } else {
      TableShrinks(s, next.h);
    }
  }

  lemma {:induction false} UnverifiedShrinks(s: State, mxc: Mxc, entry: InFlight, error: Error)
    ensures Shrinks(s, Unverified(s, mxc, entry, error))
  {
    var told := s.(h := AnswerSeeks(s.h, entry.waiters));
    TableShrinks(s, told.h);
    if mxc in s.h.open {
      ThenFailShrinks(s, told, mxc, error, true);
    } else {
      TableShrinks(s, Unverified(s, mxc, entry, error).h);
    }
  }

  lemma {:induction false} InfoShrinks(s: State, mxc: Mxc, entry: InFlight, v: Verdict, local: LocalReads)
    ensures Shrinks(s, InfoArrived(s, mxc, entry, v, local))
  {
    var next := InfoArrived(s, mxc, entry, v, local);
    if (mxc in s.h.open || mxc in s.h.seekOnly) && v.refused.None? {
      var asked := s.(h := RequestSeekChunks(AcceptInfo(s.h, mxc), mxc, entry.waiters, local));
      SeekChunksFrame(AcceptInfo(s.h, mxc), mxc, entry.waiters, local);
      TableShrinks(s, asked.h);
      ThenContinueShrinks(s, asked, mxc, v.disk);
    } else if v.refused.Some? && (mxc in s.h.open || mxc in s.h.seekOnly)
              && !(IsBadReply(v.refused.value) && entry.retries.badReplies == 0) {
      assert next == Unverified(s, mxc, entry, v.refused.value);
      UnverifiedShrinks(s, mxc, entry, v.refused.value);
    } else {
      TableShrinks(s, next.h);
    }
  }

  lemma {:induction false} ChunkShrinks(s: State, mxc: Mxc, index: nat, entry: InFlight, v: Verdict)
    ensures Shrinks(s, ChunkArrived(s, mxc, index, entry, v))
  {
    var next := ChunkArrived(s, mxc, index, entry, v);
    if mxc !in s.h.open && mxc !in s.h.seekOnly {
      TableShrinks(s, next.h);
    } else if v.refused.Some? {
      if (v.refused.value.Integrity? || v.refused.value.Protocol?) && entry.retries.badReplies == 0 {
        TableShrinks(s, next.h);
      } else {
        assert next == Unverified(s, mxc, entry, v.refused.value);
        UnverifiedShrinks(s, mxc, entry, v.refused.value);
      }
    } else if mxc !in s.h.open {
      TableShrinks(s, next.h);
    } else {
      ChunkOpenedShrinks(s, mxc, index, entry, v);
    }
  }

  lemma {:induction false} LandKeepsFlags(h: Handler, mxc: Mxc, plain: Bytes)
    requires mxc in h.open
    ensures Flags(h.q, LandArrived(h, mxc, plain).q) && Flags(h.q, h.q)
  {
  }

  lemma {:induction false} ChunkOpenedShrinks(s: State, mxc: Mxc, index: nat, entry: InFlight, v: Verdict)
    requires mxc in s.h.open && v.refused.None?
    ensures Shrinks(s, ChunkArrived(s, mxc, index, entry, v))
  {
    if v.unwritten.Some? {
      UnwrittenChunkShrinks(s, mxc, index, entry, v);
    } else {
      WrittenChunkShrinks(s, mxc, index, entry, v);
    }
  }

  lemma {:induction false} UnwrittenChunkShrinks(s: State, mxc: Mxc, index: nat, entry: InFlight, v: Verdict)
    requires mxc in s.h.open && v.refused.None? && v.unwritten.Some?
    ensures Shrinks(s, ChunkArrived(s, mxc, index, entry, v))
  {
    var m := s.h.open[mxc];
    var next := ChunkArrived(s, mxc, index, entry, v);
    var given := s.(h := GivePiece(s.h, entry.waiters, mxc, ChunkStart(index, m.manifest.chunkSize), v.plain));
    TableShrinks(s, given.h);
    if HasMain(entry.waiters) && index == Next(m) {
      assert next == FailMedia(given, mxc, v.unwritten.value, false);
      ThenFailShrinks(s, given, mxc, v.unwritten.value, false);
    } else if HasMain(entry.waiters) {
      assert next == ContinueMain(given, mxc, v.disk);
      ThenContinueShrinks(s, given, mxc, v.disk);
    } else {
      assert next == given;
    }
  }

  lemma {:induction false} WrittenChunkShrinks(s: State, mxc: Mxc, index: nat, entry: InFlight, v: Verdict)
    requires mxc in s.h.open && v.refused.None? && v.unwritten.None?
    ensures Shrinks(s, ChunkArrived(s, mxc, index, entry, v))
  {
    var m := s.h.open[mxc];
    var next := ChunkArrived(s, mxc, index, entry, v);
    var given := s.(h := GivePiece(s.h, entry.waiters, mxc, ChunkStart(index, m.manifest.chunkSize), v.plain));
    var kept := given.(h := if HasMain(entry.waiters) && index == Next(m) then LandArrived(given.h, mxc, v.plain)
                            else StoreArrived(given.h, mxc, index, v.plain));
    LandKeepsFlags(given.h, mxc, v.plain);
    KeptShrinks(s, mxc, kept);
    if HasMain(entry.waiters) {
      assert next == ContinueMain(kept, mxc, v.disk);
      ThenContinueShrinks(s, kept, mxc, v.disk);
    } else {
      assert next == kept;
    }
  }

  /** The file at hand may have got a chunk. */
  lemma {:induction false} KeptShrinks(s: State, mxc: Mxc, kept: State)
    requires mxc in s.h.open && kept.d == s.d && kept.h.open.Keys == s.h.open.Keys && kept.h.task == s.h.task
    requires kept.h.id == s.h.id && kept.h.dir == s.h.dir && kept.h.closed == s.h.closed && kept.h.seeks == s.h.seeks && Flags(s.h.q, kept.h.q)
    requires kept.h.open == s.h.open[mxc := kept.h.open[mxc]] && Onward(s.h.open[mxc], kept.h.open[mxc])
    ensures Shrinks(s, kept)
  {
    TableShrinks(s, kept.h);
  }

  lemma {:induction false} ReplyShrinks(s: State, v: Verdict, local: LocalReads)
    requires s.h.line.replies != []
    ensures Shrinks(s, HandleReply(s, v, local))
  {
    var reply := s.h.line.replies[0];
    var r := reply.action;
    var h := s.h.(line := TakeReply(s.h.line));
    var next := HandleReply(s, v, local);
    if r !in h.inFlight {
      TableShrinks(s, h);
      assert next == s.(h := h);
    } else {
      var entry := h.inFlight[r];
      var taken := s.(h := h.(inFlight := h.inFlight - {r}));
      TableShrinks(s, taken.h);
      match reply.result
      case Ack =>
        if r.Info? { InfoShrinks(taken, r.mxc, entry, v, local); } else { ChunkShrinks(taken, r.mxc, r.index, entry, v); }
      case Refused(error) => FailedShrinks(taken, r, entry, error);
      ShrinksTwice(s, taken, next);
    }
  }

  lemma {:induction false} CancelOneShrinks(s: State, mxc: Mxc, found: Option<Request>)
    requires found.Some? ==> MainOf(s.h, found.value, mxc)
    ensures Shrinks(s, CancelOne(s, mxc, found))
  {
    if found.None? {
      EndShrinks(s, mxc, Cancelled);
    } else if found.value in s.h.line.queued {
      var r := found.value;
      var others := SeeksOnly(s.h.inFlight[r].waiters);
      var h := s.h.(inFlight := s.h.inFlight - {r}, line := Withdraw(s.h.line, {r}));
      var kept := s.(h := if others == [] then h else Resend(h, r, others, s.h.inFlight[r].retries));
      assert CancelOne(s, mxc, found) == EndJob(kept, mxc, Cancelled);
      TableShrinks(s, kept.h);
      EndShrinks(kept, mxc, Cancelled);
      ShrinksTwice(s, kept, EndJob(kept, mxc, Cancelled));
    }
  }

  lemma {:induction false} AnsweredShrinks(s: State, found: bool, unread: set<nat>)
    requires s.h.finishing.Answering?
    requires found ==> Key(s.h, s.h.finishing.mxc) in s.d.pool
    ensures Shrinks(s, FinishAnswered(s, found, unread))
  {
    var mxc := s.h.finishing.mxc;
    var pieces := if found then PiecesFromPool(s.d.pool[Key(s.h, mxc)], mxc, s.h.inFlight, RequestsOf(s.h, mxc), unread) else {};
    var ready := s.(h := DropRequests(s.h, mxc).(finishing := NotFinishing, pieces := s.h.pieces + pieces));
    assert FinishAnswered(s, found, unread) == EndJob(ready, mxc, s.h.finishing.end);
    TableShrinks(s, ready.h);
    EndShrinks(ready, mxc, s.h.finishing.end);
    ShrinksTwice(s, ready, FinishAnswered(s, found, unread));
  }

  /** From the moment the job is in the `downloading` table. */
  lemma {:induction false} StartShrinks(s: State, disk: DiskResults)
    requires s.h.task.Preparing? && s.h.task.manifest.mxc in s.h.open
    ensures Shrinks(Started(s), StartJob(s, disk))
  {
    assert StartJob(s, disk) == ContinueMain(Started(s), s.h.task.manifest.mxc, disk);
    ContinueShrinks(Started(s), s.h.task.manifest.mxc, disk);
  }

  /** Ending a job on its way to the tail. */
  lemma {:induction false} EndTailShrinks(s: State, end: JobEnd)
    requires s.h.task.Preparing?
    ensures Shrinks(s, EndJob(SetStage(s, Tail), s.h.task.manifest.mxc, end))
  {
    var tail := SetStage(s, Tail);
    TableShrinks(s, tail.h);
    EndShrinks(tail, s.h.task.manifest.mxc, end);
    ShrinksTwice(s, tail, EndJob(tail, s.h.task.manifest.mxc, end));
  }
}
