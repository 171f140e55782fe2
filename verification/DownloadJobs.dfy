/** The other steps of the handler: GETs off the channel, jobs being prepared, files finished, cancels, closing; and
    what other threads may do in between. Each keeps the invariant. */
module DownloadJobs {
  import opened Files
  import opened Wrappers
  import opened Lines
  import opened JobQueue
  import opened Download
  import opened DownloadInv
  import opened DownloadTable
  import opened DownloadSteps
  import DownloadReplies

  // ---- the shared queue changes ----

  /** The running jobs stay the same, up to raised flags. */
  predicate SameRunning(q: QueueState, q2: QueueState) {
    && q2.downloading.Keys == q.downloading.Keys
    && (forall x :: x in q.downloading && x in q2.downloading ==>
          q2.downloading[x].done == q.downloading[x].done && q2.downloading[x].total == q.downloading[x].total)
  }

  /** A change of the queue and the handler task that keeps their own shape keeps everything. */
  lemma {:induction false} QueueKeepsInv(w: World, w2: World, s: State, q: QueueState, task: Task)
    requires Inv(w, s, None, multiset{}) && w2.file == w.file && SameRunning(s.h.q, q)
    requires InboxShape(q) && WaiterInv(q) && WaiterBalance(q, w2.due)
    requires TaskShape(s.h.(q := q, task := task)) && TailInv(s.h.(q := q, task := task)) && TaskIds(task) == TaskIds(s.h.task)
    requires forall t :: t in q.outcomes && t.outcome == Finished ==> t in s.h.q.outcomes
    ensures Inv(w2, s.(h := s.h.(q := q, task := task)), None, multiset{})
  {
    var s2 := s.(h := s.h.(q := q, task := task));
    SameRunningKeeps(s.h, s2.h);
    SameSeeksKeep(s.h, s2.h, multiset{});
    SoundByFile(w, w2, s);
    SameSoundKeeps(w2, s, s2);
    SameClaimsKeep(s, s2);
  }

  lemma {:induction false} SameRunningKeeps(h: Handler, h2: Handler)
    requires CursorInv(h, None) && ProgressInv(h) && h2.inFlight == h.inFlight && h2.finishing == h.finishing && h2.open == h.open
    requires SameRunning(h.q, h2.q)
    ensures CursorInv(h2, None) && ProgressInv(h2)
  {
    assert forall x :: x in h2.q.downloading <==> x in h.q.downloading.Keys;
    assert forall r: Request :: IsCursor(h2, r) == IsCursor(h, r);
  }

  lemma {:induction false} SameSoundKeeps(w: World, s: State, s2: State)
    requires HandlerSound(w, s.h) && OutcomesSound(s) && s2.d == s.d && s2.h.dir == s.h.dir
    requires s2.h.open == s.h.open && s2.h.seekOnly == s.h.seekOnly && s2.h.pieces == s.h.pieces && s2.h.finishing == s.h.finishing
    requires forall t :: t in s2.h.q.outcomes && t.outcome == Finished ==> t in s.h.q.outcomes
    ensures HandlerSound(w, s2.h) && OutcomesSound(s2)
  {
    assert forall m :: Key(s2.h, m) == Key(s.h, m);
  }

  /** What is sound depends on the files alone. */
  lemma {:induction false} SoundByFile(w: World, w2: World, s: State)
    requires w2.file == w.file && SharedSound(w, s.d) && HandlerSound(w, s.h)
    ensures SharedSound(w2, s.d) && HandlerSound(w2, s.h)
  {
    assert forall mxc, m :: MediaSound(w2, mxc, m) == MediaSound(w, mxc, m);
    assert forall p :: PieceSound(w2, p) == PieceSound(w, p);
  }

  // ---- GETs ----

  /** Only who holds which GET changes: from the channel to the handler task, or to the step's hands. */
  lemma {:induction false} HandKeepsInv(w: World, s: State, seeks: seq<SeekJob>, task: Task, held: multiset<SeekId>)
    requires Inv(w, s, None, multiset{}) && (s.h.task.Idle? || s.h.task.SeekLooking?) && (task.Idle? || task.SeekLooking?)
    requires s.h.finishing == NotFinishing
    requires ChannelIds(s.h.seeks) + TaskIds(s.h.task) == ChannelIds(seeks) + TaskIds(task) + held
    ensures Inv(w, s.(h := s.h.(seeks := seeks, task := task)), None, held)
  {
    var s2 := s.(h := s.h.(seeks := seeks, task := task));
    SameTableKeeps(s.h, s2.h, None);
    HandBalances(s.h, s2.h, held);
    TaskKeepsRest(w, s, s2);
  }

  lemma {:induction false} HandBalances(h: Handler, h2: Handler, held: multiset<SeekId>)
    requires SeekInv(h, multiset{})
    requires h2.inFlight == h.inFlight && h2.asked == h.asked && h2.answered == h.answered
    requires ChannelIds(h.seeks) + TaskIds(h.task) == ChannelIds(h2.seeks) + TaskIds(h2.task) + held
    ensures SeekInv(h2, held)
  {
    forall id ensures SeekBalance(h2, held, id) {
      assert SeekBalance(h, multiset{}, id);
      assert (ChannelIds(h.seeks) + TaskIds(h.task))[id] == (ChannelIds(h2.seeks) + TaskIds(h2.task) + held)[id];
    }
  }

  lemma {:induction false} TaskKeepsRest(w: World, s: State, s2: State)
    requires RestInv(w, s) && !s.h.task.Preparing? && !s2.h.task.Preparing? && s.h.finishing == NotFinishing
    requires s2 == s.(h := s.h.(seeks := s2.h.seeks, task := s2.h.task))
    ensures RestInv(w, s2)
  {
    SameOutcomesKeep(s, s2);
    SameClaimsKeep(s, s2);
  }

  lemma {:induction false} SeekAtKeepsInv(w: World, s: State, mxc: Mxc, chunkSize: nat, id: SeekId, local: LocalReads)
    requires Inv(w, s, None, multiset{id}) && id.manifest.mxc == mxc
    ensures Inv(w, s.(h := RequestSeekAt(s.h, mxc, chunkSize, id, local)), None, multiset{})
  {
    var held := multiset{id};
    assert held == multiset{id} + multiset{};
    match ChunkIndexAt(id.position, chunkSize)
    case NoChunk =>
      SeekAlone(Seek(0, id, chunkSize));
      AnswerKeepsInv(w, s, [Seek(0, id, chunkSize)], None, held, multiset{});
    case Index(index) =>
      SeekChunkKeepsInv(w, s, mxc, Seek(index, id, chunkSize), local, None, held, multiset{});
  }

  lemma {:induction false} TakeSeekKeepsInv(w: World, s: State, local: LocalReads)
    requires Inv(w, s, None, multiset{}) && AtEvent(s.h) && s.h.seeks != []
    ensures Inv(w, s.(h := TakeSeek(s.h, local)), None, multiset{})
  {
    var job := s.h.seeks[0];
    var mxc := job.manifest.mxc;
    if mxc in s.h.open {
      var taken := s.(h := s.h.(seeks := s.h.seeks[1..], task := Idle));
      assert s.(h := TakeSeek(s.h, local))
          == s.(h := RequestSeekAt(taken.h, mxc, s.h.open[mxc].manifest.chunkSize, job, local));
      HandKeepsInv(w, s, s.h.seeks[1..], Idle, multiset{job});
      SeekAtKeepsInv(w, taken, mxc, s.h.open[mxc].manifest.chunkSize, job, local);
    } else {
      HandKeepsInv(w, s, s.h.seeks[1..], SeekLooking(job), multiset{});
    }
  }

  /** A chunk of a complete file is the chunk of the file. */
  lemma {:induction false} PoolPieceSound(w: World, mxc: Mxc, to: Waiting, unread: set<nat>)
    requires w.file(mxc).chunkSize > 0 && to.Seek? && AskedFor(to, mxc) && PoolPiece(w.file(mxc), to.index, unread).Some?
    ensures PieceSound(w, Piece(to, mxc, ChunkStart(to.index, w.file(mxc).chunkSize), PoolPiece(w.file(mxc), to.index, unread).value))
  {
    var f := w.file(mxc);
    var index := to.index;
    StartIndex(index, f.chunkSize);
    IndexInside(f.plain, f.chunkSize, ChunkStart(index, f.chunkSize));
    CutIsSlice(f.plain, f.chunkSize, index);
  }

  lemma StartIndex(index: nat, chunkSize: nat)
    requires chunkSize > 0
    ensures ChunkStart(index, chunkSize) / chunkSize == index
  {
    DivUnique(ChunkStart(index, chunkSize), chunkSize, index, 0);
  }

  lemma {:induction false} SeekLookedKeepsInv(w: World, s: State, found: bool, local: LocalReads)
    requires Inv(w, s, None, multiset{}) && s.h.task.SeekLooking?
    requires found ==> Key(s.h, s.h.task.job.manifest.mxc) in s.d.complete
    ensures Inv(w, s.(h := SeekLooked(s, found, local)), None, multiset{})
  {
    var job := s.h.task.job;
    var mxc := job.manifest.mxc;
    var idle := s.(h := s.h.(seeks := s.h.seeks, task := Idle));
    HandKeepsInv(w, s, s.h.seeks, Idle, multiset{job});
    if found {
      SeekFoundKeepsInv(w, s, idle, local);
    } else {
      SeekMissedKeepsInv(w, s, idle, local);
    }
  }

  lemma {:induction false} SeekMissedKeepsInv(w: World, s: State, idle: State, local: LocalReads)
    requires s.h.task.SeekLooking?
    requires idle == s.(h := s.h.(task := Idle)) && Inv(w, idle, None, multiset{s.h.task.job})
    ensures Inv(w, s.(h := SeekLooked(s, false, local)), None, multiset{})
  {
    var job := s.h.task.job;
    var mxc := job.manifest.mxc;
    var seekOnly := Remember(s.h.seekOnly, job, s.h.line.now);
    var known := idle.(h := idle.h.(seekOnly := seekOnly));
    assert s.(h := SeekLooked(s, false, local))
        == known.(h := RequestSeekAt(known.h, mxc, known.h.seekOnly[mxc].manifest.chunkSize, job, local));
    SeekOnlyKeepsInv(w, idle, seekOnly, None, multiset{job});
    SeekAtKeepsInv(w, known, mxc, known.h.seekOnly[mxc].manifest.chunkSize, job, local);
  }

  lemma {:induction false} SeekFoundKeepsInv(w: World, s: State, idle: State, local: LocalReads)
    requires s.h.task.SeekLooking? && Key(s.h, s.h.task.job.manifest.mxc) in s.d.pool && SharedSound(w, s.d)
    requires idle == s.(h := s.h.(task := Idle)) && Inv(w, idle, None, multiset{s.h.task.job})
    ensures Inv(w, s.(h := SeekLooked(s, true, local)), None, multiset{})
  {
    var job := s.h.task.job;
    var mxc := job.manifest.mxc;
    var f := w.file(mxc);
    var next := s.(h := SeekLooked(s, true, local));
    assert s.d.pool[Key(s.h, mxc)] == f;
    var index := match ChunkIndexAt(job.position, f.chunkSize) case NoChunk => 0 case Index(i) => i;
    var to := Seek(index, job, f.chunkSize);
    SeekAlone(to);
    if ChunkIndexAt(job.position, f.chunkSize).Index? && PoolPiece(f, index, local.fails).Some? {
      assert next == idle.(h := GivePiece(idle.h, [to], mxc, ChunkStart(index, f.chunkSize), PoolPiece(f, index, local.fails).value));
      PoolPieceSound(w, mxc, to, local.fails);
      DownloadReplies.GiveAllKeepsInv(w, idle, [to], mxc, ChunkStart(index, f.chunkSize), PoolPiece(f, index, local.fails).value, None);
    } else {
      assert next == idle.(h := AnswerSeeks(idle.h, [to]));
      AnswerAllKeepsInv(w, idle, [to], None);
    }
  }

  // ---- a job being prepared ----

  lemma {:induction false} TakeJobKeepsInv(w: World, s: State)
    requires Inv(w, s, None, multiset{}) && AtEvent(s.h) && s.h.q.inbox != []
    ensures Inv(w, s.(h := TakeJob(s.h)), None, multiset{})
  {
    TakeJobKeepsQueue(s.h);
    assert s.(h := TakeJob(s.h)) == s.(h := s.h.(q := TakeJob(s.h).q, task := TakeJob(s.h).task));
    QueueKeepsInv(w, w, s, TakeJob(s.h).q, TakeJob(s.h).task);
  }

  lemma {:induction false} TakeJobKeepsQueue(h: Handler)
    requires InboxShape(h.q) && TaskShape(h) && WaiterInv(h.q) && AtEvent(h) && h.q.inbox != []
    ensures InboxShape(TakeJob(h).q) && TaskShape(TakeJob(h)) && WaiterInv(TakeJob(h).q) && TailInv(TakeJob(h))
  {
    var first := h.q.inbox[0];
    var q2 := TakeJob(h).q;
    assert forall i :: 0 <= i < |q2.inbox| ==> q2.inbox[i] == h.q.inbox[i + 1];
    forall mxc | mxc in q2.waiters && q2.waiters[mxc] != [] ensures HasJob(q2, mxc) || mxc in q2.slipped {
      if InInbox(h.q.inbox, mxc) && mxc != first.mxc {
        var i :| 0 <= i < |h.q.inbox| && h.q.inbox[i].mxc == mxc;
        assert q2.inbox[i - 1].mxc == mxc;
      }
    }
  }

  /** The stage of a job moves on without closing anything: to its tail, or from looked-at to checked. */
  lemma {:induction false} StageKeepsInv(w: World, s: State, stage: Stage)
    requires Inv(w, s, None, multiset{}) && s.h.task.Preparing? && s.h.finishing == NotFinishing
    requires s.h.task.stage != Opening && s.h.task.stage != Tail
    requires stage == Tail || (s.h.task.stage == Ready && stage == Checked)
    requires stage == Tail ==> WaitersOf(s.h.q, s.h.task.manifest.mxc) == []
    ensures Inv(w, SetStage(s, stage), None, multiset{})
  {
    var s2 := SetStage(s, stage);
    SameTableKeeps(s.h, s2.h, None);
    SameSeeksKeep(s.h, s2.h, multiset{});
    StageKeepsRest(w, s, stage);
  }

  lemma {:induction false} StageKeepsRest(w: World, s: State, stage: Stage)
    requires RestInv(w, s) && s.h.task.Preparing? && s.h.finishing == NotFinishing
    requires s.h.task.stage != Opening && s.h.task.stage != Tail
    requires stage == Tail || (s.h.task.stage == Ready && stage == Checked)
    requires stage == Tail ==> WaitersOf(s.h.q, s.h.task.manifest.mxc) == []
    ensures RestInv(w, SetStage(s, stage))
  {
    var s2 := SetStage(s, stage);
    SameOutcomesKeep(s, s2);
    SameClaimsKeep(s, s2);
  }

  /** Before it is running, a job can end in any way: its waiters are told, an open file nobody wants is closed. */
  lemma {:induction false} EndPreparing(w: World, s: State, end: JobEnd)
    requires Inv(w, s, None, multiset{}) && s.h.task.Preparing? && (s.h.task.stage == Looking || s.h.task.stage == Ready)
    requires end.Complete? ==> Key(s.h, s.h.task.manifest.mxc) in s.d.complete
    ensures Inv(w, EndJob(SetStage(s, Tail), s.h.task.manifest.mxc, end), None, multiset{})
  {
    var mxc := s.h.task.manifest.mxc;
    var left := s.(h := s.h.(q := LeaveQueue(s.h.q, mxc, end)));
    LeaveKeepsInv(w, s, mxc, end, None, multiset{});
    StageKeepsInv(w, left, Tail);
    var tail := SetStage(left, Tail);
    assert tail == SetStage(s, Tail).(h := SetStage(s, Tail).h.(q := LeaveQueue(s.h.q, mxc, end)));
    if end.Cancelled? && !Busy(s.h, mxc) && mxc in s.h.open {
      assert EndJob(SetStage(s, Tail), mxc, end) == CloseKeeping(tail, mxc);
      CloseKeepsInv(w, tail, mxc, false, None, multiset{});
    } else {
      assert EndJob(SetStage(s, Tail), mxc, end) == tail;
    }
  }

  lemma {:induction false} FoundCompleteKeepsInv(w: World, s: State)
    requires Inv(w, s, None, multiset{}) && s.h.task.Preparing? && s.h.task.stage == Looking
    requires Key(s.h, s.h.task.manifest.mxc) in s.d.complete
    ensures Inv(w, FoundComplete(s), None, multiset{})
  {
    EndPreparing(w, s, Complete);
  }

  lemma {:induction false} GiveUpJobKeepsInv(w: World, s: State)
    requires Inv(w, s, None, multiset{}) && s.h.task.Preparing? && s.h.task.stage == Looking
    ensures Inv(w, GiveUpJob(s), None, multiset{})
  {
    EndPreparing(w, s, if CancelledWhilePreparing(s.h.q, s.h.task.manifest.mxc) then Cancelled else Broken(AccountBusy));
  }

  lemma {:induction false} CancelCheckKeepsInv(w: World, s: State)
    requires Inv(w, s, None, multiset{}) && s.h.task.Preparing? && s.h.task.stage == Ready
    ensures Inv(w, CancelCheck(s), None, multiset{})
  {
    if CancelledWhilePreparing(s.h.q, s.h.task.manifest.mxc) {
      EndPreparing(w, s, Cancelled);
    } else {
      StageKeepsInv(w, s, Checked);
    }
  }

  /** The waiters that leave with a job handed over. */
  function Departing(h: Handler): multiset<Waiter>
    requires h.task.Preparing?
  {
    multiset(WaitersOf(h.q, h.task.manifest.mxc))
  }

  lemma {:induction false} SendAwayKeepsInv(w: World, s: State)
    requires Inv(w, s, None, multiset{}) && s.h.task.Preparing? && s.h.task.stage == Looking
    ensures Departing(s.h) <= w.due
    ensures Inv(w.(due := w.due - Departing(s.h)), s.(h := SendAway(s.h)), None, multiset{})
  {
    var mxc := s.h.task.manifest.mxc;
    var left := s.(h := s.h.(q := s.h.q.(waiters := s.h.q.waiters - {mxc})));
    FewerWaiters(w, s, mxc);
    StageKeepsInv(w.(due := w.due - Departing(s.h)), left, Tail);
    assert s.(h := SendAway(s.h)) == SetStage(left, Tail);
  }

  /** Waiters that leave the queue leave everything else as it was. */
  lemma {:induction false} FewerWaiters(w: World, s: State, mxc: Mxc)
    requires Inv(w, s, None, multiset{})
    ensures multiset(WaitersOf(s.h.q, mxc)) <= w.due
    ensures Inv(w.(due := w.due - multiset(WaitersOf(s.h.q, mxc))), s.(h := s.h.(q := s.h.q.(waiters := s.h.q.waiters - {mxc}))),
                None, multiset{})
  {
    FewerWaitersBalance(s.h.q, mxc, w.due);
    var q := s.h.q.(waiters := s.h.q.waiters - {mxc});
    assert forall m :: HasJob(q, m) == HasJob(s.h.q, m);
    QueueKeepsInv(w, w.(due := w.due - multiset(WaitersOf(s.h.q, mxc))), s, q, s.h.task);
  }

  lemma {:induction false} FewerWaitersBalance(q: QueueState, mxc: Mxc, due: multiset<Waiter>)
    requires WaiterBalance(q, due)
    ensures multiset(WaitersOf(q, mxc)) <= due
    ensures WaiterBalance(q.(waiters := q.waiters - {mxc}), due - multiset(WaitersOf(q, mxc)))
  {
    forall x: Waiter
      ensures multiset(WaitersOf(q, mxc))[x] <= due[x]
      ensures (due - multiset(WaitersOf(q, mxc)))[x] == q.told[x] + AllWaiting(q.waiters - {mxc})[x]
    {
      AllWaitingDrop(q.waiters, mxc, x);
    }
  }

  // ---- opening ----

  lemma {:induction false} StartOpeningKeepsInv(w: World, s: State)
    requires Inv(w, s, None, multiset{}) && s.h.task.Preparing? && s.h.task.stage == Looking
    requires CanClaim(s.d, Key(s.h, s.h.task.manifest.mxc), s.h.id)
    ensures Inv(w, StartOpening(s), None, multiset{})
  {
    var s2 := StartOpening(s);
    SameTableKeeps(s.h, s2.h, None);
    SameSeeksKeep(s.h, s2.h, multiset{});
    OpeningKeepsClaims(s, s2);
    assert forall m :: Key(s2.h, m) == Key(s.h, m);
  }

  lemma {:induction false} OpeningKeepsClaims(s: State, s2: State)
    requires ClaimInv(s) && s.h.task.Preparing? && s2.h.id == s.h.id && s2.h.dir == s.h.dir
    requires s2.h.open == s.h.open && s2.h.finishing == s.h.finishing && s2.h.opening == s.h.opening + {s.h.task.manifest.mxc}
    requires s2.d.claims == s.d.claims[Key(s.h, s.h.task.manifest.mxc) := s.h.id]
    ensures ClaimInv(s2)
  {
    forall m ensures Holds(s2, m) <==> Holding(s2.h, m) {
      assert Holds(s, m) <==> Holding(s.h, m);
      assert Key(s.h, m) == Key(s.h, s.h.task.manifest.mxc) <==> m == s.h.task.manifest.mxc;
    }
  }

  /** What the sdk opens continues the file kept on disk, or starts a new one; it asks for `Info` first. */
  ghost predicate OpenContract(s: State, media: Result<MediaDownload, Error>)
    requires s.h.task.Preparing?
  {
    media.Ok? ==>
      var m := media.value;
      var key := Key(s.h, s.h.task.manifest.mxc);
      && m.manifest == s.h.task.manifest && m.manifest.chunkSize > 0 && 0 < Total(m) && m.needsInfo
      && (key !in s.d.disk ==> m.main == [] && m.store == map[])
      && (key in s.d.disk ==>
            && m.main <= s.d.disk[key].main
            && (forall i :: i in m.store ==> i in s.d.disk[key].store && m.store[i] == s.d.disk[key].store[i])
            && (m.main != [] || m.store != map[] ==> m.manifest == s.d.disk[key].manifest))
  }

  lemma {:induction false} OpenedIsSound(w: World, s: State, m: MediaDownload)
    requires SharedSound(w, s.d) && s.h.task.Preparing? && OpenContract(s, Ok(m))
    ensures MediaSound(w, s.h.task.manifest.mxc, m)
  {
    var key := Key(s.h, s.h.task.manifest.mxc);
    if key in s.d.disk {
      assert MediaSound(w, key.mxc, s.d.disk[key]);
    }
  }

  lemma {:induction false} OpenedKeepsInv(w: World, s: State, media: Result<MediaDownload, Error>)
    requires Inv(w, s, None, multiset{}) && s.h.task.Preparing? && s.h.task.stage == Opening && OpenContract(s, media)
    ensures Inv(w, Opened(s, media), None, multiset{})
  {
    match media
    case Ok(m) => OpenedOkKeepsInv(w, s, m);
    case Err(error) =>
      var mxc := s.h.task.manifest.mxc;
      var back := Unopened(s);
      UnopenedKeepsInv(w, s);
      assert Opened(s, media) == EndJob(SetStage(back, Tail), mxc, Broken(error));
      EndPreparing(w, back, Broken(error));
  }

  /** Opening failed: the claim goes back. */
  function Unopened(s: State): State
    requires s.h.task.Preparing?
  {
    var mxc := s.h.task.manifest.mxc;
    State(s.h.(opening := s.h.opening - {mxc}, task := s.h.task.(stage := Looking)), Release(s.d, Key(s.h, mxc), s.h.id))
  }

  lemma {:induction false} UnopenedKeepsInv(w: World, s: State)
    requires Inv(w, s, None, multiset{}) && s.h.task.Preparing? && s.h.task.stage == Opening
    ensures Inv(w, Unopened(s), None, multiset{})
  {
    var s2 := Unopened(s);
    SameTableKeeps(s.h, s2.h, None);
    SameSeeksKeep(s.h, s2.h, multiset{});
    UnopenedKeepsClaims(s, s2);
    assert forall m :: Key(s2.h, m) == Key(s.h, m);
  }

  lemma {:induction false} UnopenedKeepsClaims(s: State, s2: State)
    requires ClaimInv(s) && s.h.task.Preparing? && s2.h.id == s.h.id && s2.h.dir == s.h.dir && TaskShape(s.h)
    requires s.h.task.stage == Opening
    requires s2.h.open == s.h.open && s2.h.finishing == s.h.finishing && s2.h.opening == s.h.opening - {s.h.task.manifest.mxc}
    requires s2.d.claims == Release(s.d, Key(s.h, s.h.task.manifest.mxc), s.h.id).claims
    ensures ClaimInv(s2)
  {
    forall m ensures Holds(s2, m) <==> Holding(s2.h, m) {
      assert Holds(s, m) <==> Holding(s.h, m);
      assert Key(s.h, m) == Key(s.h, s.h.task.manifest.mxc) <==> m == s.h.task.manifest.mxc;
    }
  }

  lemma {:induction false} OpenedOkKeepsInv(w: World, s: State, m: MediaDownload)
    requires Inv(w, s, None, multiset{}) && s.h.task.Preparing? && s.h.task.stage == Opening && OpenContract(s, Ok(m))
    ensures Inv(w, Opened(s, Ok(m)), None, multiset{})
  {
    var mxc := s.h.task.manifest.mxc;
    var s2 := Opened(s, Ok(m));
    OpenedIsSound(w, s, m);
    OpenedKeepsCursor(s.h, s2.h, mxc);
    SameSeeksKeep(s.h, s2.h, multiset{});
    OpenedKeepsRest(w, s, m);
  }

  lemma {:induction false} OpenedKeepsCursor(h: Handler, h2: Handler, mxc: Mxc)
    requires CursorInv(h, None) && ProgressInv(h) && mxc !in h.q.downloading
    requires h2.inFlight == h.inFlight && h2.finishing == h.finishing && h2.q.downloading == h.q.downloading
    requires mxc in h2.open && h2.open == h.open[mxc := h2.open[mxc]]
    ensures CursorInv(h2, None) && ProgressInv(h2)
  {
    assert forall r: Request :: IsCursor(h2, r) == IsCursor(h, r);
  }

  lemma {:induction false} OpenedKeepsRest(w: World, s: State, m: MediaDownload)
    requires HandlerSound(w, s.h) && OutcomesSound(s) && ClaimInv(s) && s.h.task.Preparing? && s.h.task.stage == Opening
    requires TaskShape(s.h) && MediaSound(w, s.h.task.manifest.mxc, m)
    ensures HandlerSound(w, Opened(s, Ok(m)).h) && OutcomesSound(Opened(s, Ok(m))) && ClaimInv(Opened(s, Ok(m)))
  {
    var s2 := Opened(s, Ok(m));
    SameOutcomesKeep(s, s2);
    assert s2.h.open.Keys + s2.h.opening == s.h.open.Keys + s.h.opening;
    SameClaimsKeep(s, s2);
  }

  // ---- running ----

  lemma {:induction false} StartJobKeepsInv(w: World, s: State, disk: DiskResults)
    requires Inv(w, s, None, multiset{}) && s.h.task.Preparing? && s.h.task.stage == Checked
    ensures Inv(w, StartJob(s, disk), None, multiset{})
  {
    var mxc := s.h.task.manifest.mxc;
    var started := Started(s);
    StartedKeepsInv(w, s);
    assert StartJob(s, disk) == ContinueMain(started, mxc, disk);
    ContinueKeepsInv(w, started, mxc, disk, multiset{});
  }

  lemma {:induction false} StartedKeepsInv(w: World, s: State)
    requires Inv(w, s, None, multiset{}) && s.h.task.Preparing? && s.h.task.stage == Checked
    ensures Inv(w, Started(s), Some(s.h.task.manifest.mxc), multiset{})
  {
    var mxc := s.h.task.manifest.mxc;
    var s2 := Started(s);
    StartedKeepsCursor(s.h, s2.h, mxc);
    SameSeeksKeep(s.h, s2.h, multiset{});
    StartedKeepsQueue(s);
    SameOutcomesKeep(s, s2);
    SameClaimsKeep(s, s2);
  }

  lemma {:induction false} StartedKeepsCursor(h: Handler, h2: Handler, mxc: Mxc)
    requires CursorInv(h, None) && mxc !in h.q.downloading && mxc in h.open
    requires h2.inFlight == h.inFlight && h2.finishing == h.finishing && h2.open == h.open
    requires h2.q.downloading.Keys == h.q.downloading.Keys + {mxc}
    ensures CursorInv(h2, Some(mxc))
  {
    assert forall x :: x in h2.q.downloading <==> x in h2.q.downloading.Keys;
    assert forall r: Request :: r.mxc != mxc ==> IsCursor(h2, r) == IsCursor(h, r);
  }

  lemma {:induction false} StartedKeepsQueue(s: State)
    requires InboxShape(s.h.q) && TaskShape(s.h) && ProgressInv(s.h) && WaiterInv(s.h.q)
    requires s.h.task.Preparing? && s.h.task.stage == Checked && s.h.task.manifest.mxc in s.h.open
    ensures InboxShape(Started(s).h.q) && TaskShape(Started(s).h) && ProgressInv(Started(s).h)
    ensures WaiterInv(Started(s).h.q) && TailInv(Started(s).h)
  {
  }

  lemma {:induction false} FinishPreparingKeepsInv(w: World, s: State)
    requires Inv(w, s, None, multiset{}) && s.h.task.Preparing? && s.h.task.stage == Tail && s.h.finishing == NotFinishing
    ensures Inv(w, s.(h := FinishPreparing(s.h)), None, multiset{})
  {
    PreparedKeepsQueue(s.h);
    assert s.(h := FinishPreparing(s.h)) == s.(h := s.h.(q := FinishPreparing(s.h).q, task := Idle));
    QueueKeepsInv(w, w, s, FinishPreparing(s.h).q, Idle);
  }

  lemma {:induction false} PreparedKeepsQueue(h: Handler)
    requires InboxShape(h.q) && TaskShape(h) && WaiterInv(h.q) && TailInv(h)
    requires h.task.Preparing? && h.task.stage == Tail && h.finishing == NotFinishing
    ensures InboxShape(FinishPreparing(h).q) && TaskShape(FinishPreparing(h)) && WaiterInv(FinishPreparing(h).q)
    ensures TailInv(FinishPreparing(h)) && SameRunning(h.q, FinishPreparing(h).q)
  {
  }

  // ---- a finished file ----

  lemma {:induction false} RecordedKeepsInv(w: World, s: State, failed: Option<Error>)
    requires Inv(w, s, None, multiset{}) && s.h.finishing.Recording?
    ensures Inv(w, FinishRecorded(s, failed), None, multiset{})
  {
    var s2 := FinishRecorded(s, failed);
    SameFinishKeepsCursor(s.h, s2.h);
    SameSeeksKeep(s.h, s2.h, multiset{});
    RecordedKeepsClaims(s, s2);
    RecordedKeepsSound(w, s, failed);
  }

  lemma {:induction false} SameFinishKeepsCursor(h: Handler, h2: Handler)
    requires CursorInv(h, None) && h2.inFlight == h.inFlight && h2.open == h.open && h2.q == h.q
    requires FinishingFile(h2) == FinishingFile(h)
    ensures CursorInv(h2, None)
  {
    assert forall r: Request :: IsCursor(h2, r) == IsCursor(h, r);
  }

  lemma {:induction false} RecordedKeepsClaims(s: State, s2: State)
    requires ClaimInv(s) && s.h.finishing.Recording? && s2.h.id == s.h.id && s2.h.dir == s.h.dir && TaskShape(s.h)
    requires s2.h.open == s.h.open && s2.h.opening == s.h.opening && s2.h.finishing.Answering?
    requires s2.d.claims == Release(s.d, Key(s.h, s.h.finishing.mxc), s.h.id).claims
    ensures ClaimInv(s2)
  {
    forall m ensures Holds(s2, m) <==> Holding(s2.h, m) {
      assert Holds(s, m) <==> Holding(s.h, m);
      assert Key(s.h, m) == Key(s.h, s.h.finishing.mxc) <==> m == s.h.finishing.mxc;
    }
  }

  lemma {:induction false} RecordedKeepsSound(w: World, s: State, failed: Option<Error>)
    requires SharedSound(w, s.d) && HandlerSound(w, s.h) && OutcomesSound(s) && s.h.finishing.Recording?
    ensures SharedSound(w, FinishRecorded(s, failed).d) && HandlerSound(w, FinishRecorded(s, failed).h)
    ensures OutcomesSound(FinishRecorded(s, failed))
  {
    assert forall m :: Key(FinishRecorded(s, failed).h, m) == Key(s.h, m);
  }

  lemma {:induction false} AnsweredKeepsInv(w: World, s: State, found: bool, unread: set<nat>)
    requires Inv(w, s, None, multiset{}) && s.h.finishing.Answering?
    requires found ==> Key(s.h, s.h.finishing.mxc) in s.d.complete
    ensures Inv(w, FinishAnswered(s, found, unread), None, multiset{})
  {
    var mxc := s.h.finishing.mxc;
    var end := s.h.finishing.end;
    var file := w.file(mxc);
    var more := if found then PiecesFromPool(file, mxc, s.h.inFlight, RequestsOf(s.h, mxc), unread) else {};
    var dropped := s.(h := DropRequests(s.h, mxc));
    DropKeepsInv(w, s, mxc, None, multiset{});
    if found { PoolPiecesSound(w, mxc, s.h, unread); }
    MorePieces(w, dropped, s.h.pieces + more, Some(mxc), multiset{});
    var given := dropped.(h := dropped.h.(pieces := s.h.pieces + more));
    AnsweredLeaves(w, given, mxc, end);
    assert FinishAnswered(s, found, unread) == EndJob(given.(h := given.h.(finishing := NotFinishing)), mxc, end);
  }

  /** The finished file leaves the queue and the finishing place together. */
  lemma {:induction false} AnsweredLeaves(w: World, s: State, mxc: Mxc, end: JobEnd)
    requires Inv(w, s, Some(mxc), multiset{}) && s.h.finishing == Answering(mxc, end)
    ensures Inv(w, EndJob(s.(h := s.h.(finishing := NotFinishing)), mxc, end), None, multiset{})
  {
    var left := s.(h := s.h.(finishing := NotFinishing, q := LeaveQueue(s.h.q, mxc, end)));
    assert EndJob(s.(h := s.h.(finishing := NotFinishing)), mxc, end) == left;
    LeaveKeepsQueue(s.h.q, mxc, end);
    TellBalances(s.h.q.(downloading := s.h.q.downloading - {mxc}), mxc, OutcomeOf(end), w.due);
    AnsweredKeepsCursor(s.h, left.h, mxc);
    SameSeeksKeep(s.h, left.h, multiset{});
    LeaveKeepsOutcomes(s, mxc, end);
    AnsweredKeepsTask(s.h, left.h, mxc);
    assert forall m :: Key(left.h, m) == Key(s.h, m);
    SameClaimsKeep(s, left);
  }

  lemma {:induction false} AnsweredKeepsCursor(h: Handler, h2: Handler, mxc: Mxc)
    requires CursorInv(h, Some(mxc)) && ProgressInv(h) && FinishingFile(h) == Some(mxc) && h2.finishing == NotFinishing
    requires h2.open == h.open && h2.inFlight == h.inFlight && h2.q.downloading == h.q.downloading - {mxc}
    ensures CursorInv(h2, None) && ProgressInv(h2)
  {
    assert forall r: Request :: r.mxc != mxc ==> IsCursor(h2, r) == IsCursor(h, r);
  }

  lemma {:induction false} AnsweredKeepsTask(h: Handler, h2: Handler, mxc: Mxc)
    requires TaskShape(h) && TailInv(h) && FinishingFile(h) == Some(mxc) && h2.finishing == NotFinishing
    requires h2.open == h.open && h2.task == h.task && h2.opening == h.opening
    requires h2.q.preparing == h.q.preparing && h2.q.downloading == h.q.downloading - {mxc} && h2.q.waiters == h.q.waiters - {mxc}
    requires h2.q.slipped == h.q.slipped
    ensures TaskShape(h2) && TailInv(h2)
  {
  }

  lemma {:induction false} PoolPiecesSound(w: World, mxc: Mxc, h: Handler, unread: set<nat>)
    requires w.file(mxc).chunkSize > 0 && TableInv(h)
    ensures forall p :: p in PiecesFromPool(w.file(mxc), mxc, h.inFlight, RequestsOf(h, mxc), unread) ==> PieceSound(w, p)
  {
    var gone := RequestsOf(h, mxc);
    forall p | p in PiecesFromPool(w.file(mxc), mxc, h.inFlight, gone, unread) ensures PieceSound(w, p) {
      var r, v :| r in gone && r in h.inFlight && v in h.inFlight[r].waiters && v.Seek? && PoolPiece(w.file(mxc), v.index, unread).Some?
        && p == Piece(v, mxc, ChunkStart(v.index, w.file(mxc).chunkSize), PoolPiece(w.file(mxc), v.index, unread).value);
      assert HangsRight(v, r);
      PoolPieceSound(w, mxc, v, unread);
    }
  }

  // ---- cancels and idle files ----

  /** A running job always has its main request in the table when the handler looks at flags. */
  lemma {:induction false} RunningHasMain(w: World, s: State, mxc: Mxc)
    requires Inv(w, s, None, multiset{}) && s.h.finishing == NotFinishing && mxc in s.h.q.downloading
    ensures MainOf(s.h, Cursor(mxc, s.h.open[mxc]), mxc)
    ensures forall r :: MainOf(s.h, r, mxc) ==> r == Cursor(mxc, s.h.open[mxc])
  {
    forall r | r in s.h.inFlight ensures HasMain(s.h.inFlight[r].waiters) <==> IsCursor(s.h, r) {
      MainIsCounted(s.h.inFlight[r].waiters);
    }
  }

  lemma {:induction false} CancelOneKeepsInv(w: World, s: State, mxc: Mxc, found: Option<Request>)
    requires Inv(w, s, None, multiset{}) && AtEvent(s.h) && mxc in s.h.q.downloading
    requires found.Some? ==> MainOf(s.h, found.value, mxc)
    requires found.None? ==> forall r :: !MainOf(s.h, r, mxc)
    ensures Inv(w, CancelOne(s, mxc, found), None, multiset{})
  {
    RunningHasMain(w, s, mxc);
    if found.Some? && found.value in s.h.line.queued {
      var r := found.value;
      var entry := s.h.inFlight[r];
      var others := SeeksOnly(entry.waiters);
      var line := Withdraw(s.h.line, {r});
      TakeKeepsInv(w, s, r, line);
      var taken := s.(h := s.h.(inFlight := s.h.inFlight - {r}, line := line));
      SeeksOnlyKeepsSeeks(entry.waiters);
      MainIsCounted(others);
      var kept := if others == [] then taken else taken.(h := Resend(taken.h, r, others, entry.retries));
      assert CancelOne(s, mxc, found) == EndJob(kept, mxc, Cancelled);
      if others != [] {
        assert SeekIds(others) == SeekIds(others) + multiset{};
        ResendKeepsInv(w, taken, r, others, entry.retries, Some(mxc), SeekIds(others), multiset{});
      }
      EndKeepsInv(w, kept, mxc, Cancelled, Some(mxc), multiset{});
    }
  }

  lemma {:induction false} CloseIdleKeepsInv(w: World, s: State, mxc: Mxc)
    requires Inv(w, s, None, multiset{}) && AtEvent(s.h) && IsIdleFile(s.h, mxc)
    ensures Inv(w, CloseIdle(s, mxc), None, multiset{})
  {
    CloseKeepsInv(w, s, mxc, false, None, multiset{});
  }

  lemma {:induction false} ForgetKeepsInv(w: World, s: State, mxc: Mxc)
    requires Inv(w, s, None, multiset{})
    ensures Inv(w, s.(h := ForgetSeekOnly(s.h, mxc)), None, multiset{})
  {
    SeekOnlyKeepsInv(w, s, s.h.seekOnly - {mxc}, None, multiset{});
  }
}
