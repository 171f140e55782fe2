/** Any number of handlers sharing one claim table, one disk and one pool, under every interleaving of their steps,
    jobs put in and handed over, cancels, GETs, the senders, and handlers being aborted. */
module DownloadSystem {
  import opened Files
  import opened Wrappers
  import Tally
  import opened Lines
  import opened JobQueue
  import opened Download
  import opened DownloadInv
  import DownloadTable
  import DownloadJobs
  import opened DownloadFrame
  import opened DownloadMoves

  /** What a move may touch of what is shared: own claims, one new claim nobody had, and disk and pool under own claims. */
  ghost predicate Touches(s: State, s2: State) {
    && s2.h.id == s.h.id && s2.h.dir == s.h.dir
    && s.d.pool.Keys <= s2.d.pool.Keys && s.d.complete <= s2.d.complete
    && (forall key :: ClaimMoves(s, s2, key))
    && (forall key :: Look(s2.d.disk, key) == Look(s.d.disk, key) || Look(s.d.claims, key) == Some(s.h.id))
    && (forall key :: Look(s2.d.pool, key) == Look(s.d.pool, key) || Look(s.d.claims, key) == Some(s.h.id))
  }

  ghost predicate ClaimMoves(s: State, s2: State, key: FileKey) {
    || Look(s2.d.claims, key) == Look(s.d.claims, key)
    || (Look(s.d.claims, key) == Some(s.h.id) && Look(s2.d.claims, key) == None)
    || (Look(s.d.claims, key) == None && Look(s2.d.claims, key) == Some(s.h.id) && key.dir == s.h.dir)
  }

  lemma {:induction false} ShrinksTouches(s: State, s2: State)
    requires ClaimInv(s) && Shrinks(s, s2)
    ensures Touches(s, s2)
  {
    forall key: FileKey | key.dir == s.h.dir && key.mxc in s.h.open ensures Look(s.d.claims, key) == Some(s.h.id) {
      assert Key(s.h, key.mxc) == key;
      assert Holds(s, key.mxc);
    }
  }

  lemma {:induction false} ActTouches(w: World, s: State, move: Move)
    requires Inv(w, s, None, multiset{}) && May(w, s, move)
    ensures Touches(s, Act(w, s, move))
  {
    if IsPreparingMove(move) {
      PreparingTouches(w, s, move);
    } else if IsWritingMove(move) {
      WritingShrinks(w, s, move);
      ShrinksTouches(s, Act(w, s, move));
    } else {
      QuietTouches(w, s, move);
    }
  }

  predicate IsPreparingMove(move: Move) {
    move.LookedMove? || move.OpenedMove? || move.CancelCheckMove? || move.StartJobMove?
  }

  predicate IsWritingMove(move: Move) {
    move.TakeReplyMove? || move.CancelOneMove? || move.CloseIdleMove? || move.AnsweredMove?
  }

  lemma {:induction false} WritingShrinks(w: World, s: State, move: Move)
    requires Inv(w, s, None, multiset{}) && May(w, s, move) && IsWritingMove(move)
    ensures Shrinks(s, Act(w, s, move))
  {
    match move
    case TakeReplyMove(v, local) => ReplyShrinks(s, v, local);
    case CancelOneMove(mxc, main) => CancelOneShrinks(s, mxc, main);
    case CloseIdleMove(mxc) => CloseShrinks(s, mxc);
    case AnsweredMove(found, unread) => AnsweredShrinks(s, found, unread);
    case _ =>
  }

  lemma {:induction false} PreparingTouches(w: World, s: State, move: Move)
    requires Inv(w, s, None, multiset{}) && May(w, s, move) && IsPreparingMove(move)
    ensures Touches(s, Act(w, s, move))
  {
    match move
    case LookedMove(found) =>
      if found { TailTouches(s, Complete); }
      else if ClaimedElsewhere(s) {
        TailTouches(s, if CancelledWhilePreparing(s.h.q, s.h.task.manifest.mxc) then Cancelled else Broken(AccountBusy));
      }
    case OpenedMove(media) => OpenedTouches(s, media);
    case CancelCheckMove => TailTouches(s, Cancelled);
    case StartJobMove(disk) => StartTouches(s, disk);
    case _ =>
  }

  lemma {:induction false} TailTouches(s: State, end: JobEnd)
    requires ClaimInv(s) && s.h.task.Preparing?
    ensures Touches(s, EndJob(SetStage(s, Tail), s.h.task.manifest.mxc, end))
  {
    EndTailShrinks(s, end);
    ShrinksTouches(s, EndJob(SetStage(s, Tail), s.h.task.manifest.mxc, end));
  }

  lemma {:induction false} StartTouches(s: State, disk: DiskResults)
    requires ClaimInv(s) && s.h.task.Preparing? && s.h.task.manifest.mxc in s.h.open
    ensures Touches(s, StartJob(s, disk))
  {
    StartShrinks(s, disk);
    DownloadTable.SameClaimsKeep(s, Started(s));
    ShrinksTouches(Started(s), StartJob(s, disk));
    forall key ensures ClaimMoves(s, StartJob(s, disk), key) {
      assert ClaimMoves(Started(s), StartJob(s, disk), key);
    }
  }

  /** Moves that leave what is shared alone, but for one row recorded and its claim given up. */
  lemma {:induction false} QuietTouches(w: World, s: State, move: Move)
    requires Inv(w, s, None, multiset{}) && May(w, s, move) && !IsPreparingMove(move) && !IsWritingMove(move)
    ensures Touches(s, Act(w, s, move))
  {
    match move
    case SeekLookedMove(found, local) => SeekLookedFrame(s, found, local);
    case TakeSeekMove(local) => TakeSeekFrame(s.h, local);
    case _ =>
  }

  lemma {:induction false} OpenedTouches(s: State, media: Result<MediaDownload, Error>)
    requires s.h.task.Preparing?
    ensures Touches(s, Opened(s, media))
  {
    if media.Err? {
      var back := DownloadJobs.Unopened(s);
      var mxc := s.h.task.manifest.mxc;
      assert Opened(s, media) == EndJob(SetStage(back, Tail), mxc, Broken(media.error));
      assert EndJob(SetStage(back, Tail), mxc, Broken(media.error)).d == back.d;
    }
  }

  /** A GET being dealt with: only the in-flight table, the line and the answers change, and what was taken off. */
  lemma {:induction false} SeekAtOnly(h: Handler, mxc: Mxc, chunkSize: nat, id: SeekId, local: LocalReads)
    ensures var h2 := RequestSeekAt(h, mxc, chunkSize, id, local);
            h2 == h.(inFlight := h2.inFlight, line := h2.line, answered := h2.answered, pieces := h2.pieces)
  {
    if ChunkIndexAt(id.position, chunkSize).Index? {
      SeekChunkOnly(h, mxc, Seek(ChunkIndexAt(id.position, chunkSize).index, id, chunkSize), local);
    }
  }

  lemma {:induction false} TakeSeekFrame(h: Handler, local: LocalReads)
    requires h.seeks != []
    ensures TakeSeek(h, local).id == h.id && TakeSeek(h, local).dir == h.dir
    ensures TakeSeek(h, local).closed == h.closed
    ensures TakeSeek(h, local).finishing == h.finishing && (TakeSeek(h, local).task.Preparing? ==> h.task.Preparing?)
  {
    var job := h.seeks[0];
    var taken := h.(seeks := h.seeks[1..]);
    if job.manifest.mxc in h.open {
      SeekAtOnly(taken, job.manifest.mxc, h.open[job.manifest.mxc].manifest.chunkSize, job, local);
    }
  }

  lemma {:induction false} SeekLookedFrame(s: State, found: bool, local: LocalReads)
    requires s.h.task.SeekLooking?
    requires found ==> Key(s.h, s.h.task.job.manifest.mxc) in s.d.pool
    ensures SeekLooked(s, found, local).id == s.h.id && SeekLooked(s, found, local).dir == s.h.dir
    ensures SeekLooked(s, found, local).closed == s.h.closed
    ensures SeekLooked(s, found, local).finishing == s.h.finishing && SeekLooked(s, found, local).task == Idle
  {
    var job := s.h.task.job;
    var mxc := job.manifest.mxc;
    var h := s.h.(task := Idle);
    if !found {
      var known := h.(seekOnly := Remember(h.seekOnly, job, h.line.now));
      SeekAtOnly(known, mxc, known.seekOnly[mxc].manifest.chunkSize, job, local);
      assert SeekLooked(s, found, local)
          == RequestSeekAt(known, mxc, known.seekOnly[mxc].manifest.chunkSize, job, local);
    } else {
      SeekFoundFrame(s, local);
    }
  }

  lemma {:induction false} SeekFoundFrame(s: State, local: LocalReads)
    requires s.h.task.SeekLooking? && Key(s.h, s.h.task.job.manifest.mxc) in s.d.pool
    ensures var h2 := SeekLooked(s, true, local);
            h2 == s.h.(task := Idle, answered := h2.answered, pieces := h2.pieces)
  {
  }

  // ---- the job at hand is the one being finished ----

  ghost predicate FinishesOwn(h: Handler) {
    h.task.Preparing? && h.finishing != NotFinishing ==> FinishingFile(h) == Some(h.task.manifest.mxc)
  }

  lemma {:induction false} ContinueFinishes(s: State, mxc: Mxc, disk: DiskResults)
    ensures var f := ContinueMain(s, mxc, disk).h.finishing;
            f == s.h.finishing || (f != NotFinishing && FinishingFile(ContinueMain(s, mxc, disk).h) == Some(mxc))
    decreases if mxc in s.h.open then Total(s.h.open[mxc]) - Next(s.h.open[mxc]) else 0
  {
    if mxc in s.h.q.downloading && !s.h.q.downloading[mxc].cancelled && mxc in s.h.open {
      var m := s.h.open[mxc];
      if !IsWritten(m) && !m.needsInfo && InStore(m, disk) && Next(m) !in disk.unmovable {
        var landed := s.(h := LandFromStore(s.h, mxc));
        assert ContinueMain(s, mxc, disk) == ContinueMain(landed, mxc, disk);
        ContinueFinishes(landed, mxc, disk);
      }
    }
  }

  lemma {:induction false} ActFinishesOwn(w: World, s: State, move: Move)
    requires Inv(w, s, None, multiset{}) && May(w, s, move) && FinishesOwn(s.h)
    ensures FinishesOwn(Act(w, s, move).h) && !Act(w, s, move).h.closed
  {
    if IsWritingMove(move) {
      WritingShrinks(w, s, move);
      assert move.AnsweredMove? || !Act(w, s, move).h.task.Preparing?;
      if move.AnsweredMove? { AnsweredEnds(s, move.found, move.unread); }
    } else if move.StartJobMove? {
      StartFinishesOwn(s, move.disk);
    } else {
      QuietFinishesOwn(w, s, move);
    }
  }

  lemma {:induction false} AnsweredEnds(s: State, found: bool, unread: set<nat>)
    requires s.h.finishing.Answering?
    requires found ==> Key(s.h, s.h.finishing.mxc) in s.d.pool
    ensures FinishAnswered(s, found, unread).h.finishing == NotFinishing
  {
  }

  lemma {:induction false} StartFinishesOwn(s: State, disk: DiskResults)
    requires s.h.task.Preparing? && s.h.task.manifest.mxc in s.h.open && s.h.finishing == NotFinishing
    ensures FinishesOwn(StartJob(s, disk).h) && StartJob(s, disk).h.closed == s.h.closed
  {
    assert StartJob(s, disk) == ContinueMain(Started(s), s.h.task.manifest.mxc, disk);
    ContinueFinishes(Started(s), s.h.task.manifest.mxc, disk);
    StartShrinks(s, disk);
  }

  lemma {:induction false} QuietFinishesOwn(w: World, s: State, move: Move)
    requires Inv(w, s, None, multiset{}) && May(w, s, move) && FinishesOwn(s.h) && !IsWritingMove(move) && !move.StartJobMove?
    ensures FinishesOwn(Act(w, s, move).h) && !Act(w, s, move).h.closed
  {
    match move
    case SeekLookedMove(found, local) => SeekLookedFrame(s, found, local);
    case TakeSeekMove(local) => TakeSeekFrame(s.h, local);
    case LookedMove(found) =>
      var tail := SetStage(s, Tail);
      if found { EndFinishesOwn(tail, Complete); }
      else if ClaimedElsewhere(s) {
        EndFinishesOwn(tail, if CancelledWhilePreparing(s.h.q, s.h.task.manifest.mxc) then Cancelled else Broken(AccountBusy));
      }
    case OpenedMove(media) =>
      if media.Err? { EndFinishesOwn(SetStage(DownloadJobs.Unopened(s), Tail), Broken(media.error)); }
    case CancelCheckMove => EndFinishesOwn(SetStage(s, Tail), Cancelled);
    case _ =>
  }

  lemma {:induction false} EndFinishesOwn(s: State, end: JobEnd)
    requires s.h.task.Preparing? && s.h.finishing == NotFinishing
    ensures FinishesOwn(EndJob(s, s.h.task.manifest.mxc, end).h)
    ensures EndJob(s, s.h.task.manifest.mxc, end).h.closed == s.h.closed
  {
  }

  // ---- all handlers ----

  /** `dues` are the waiters each handler has to answer, `issued` all waiters ever given to one of them. */
  datatype System = System(
    handlers: map<HandlerId, Handler>,
    dues: map<HandlerId, multiset<Waiter>>,
    d: Shared,
    issued: multiset<Waiter>)

  datatype Event =
    | Begin(id: HandlerId, dir: nat)                                  // a downloader starts
    | Run(id: HandlerId, move: Move)                                  // one handler, or what is around it
    | Put(target: HandlerId, manifest: Manifest, waiters: seq<Waiter>) // `enqueue_into`, on whichever handler was found
    | HandOver(id: HandlerId, target: HandlerId)                      // a job another handler downloads goes there
    | Abort(id: HandlerId)                                            // the handler task is dropped at an await
    | RecordLands(id: HandlerId)                                      // the database goes on without the dropped handler

  function At(y: System, id: HandlerId): State
    requires id in y.handlers
  {
    State(y.handlers[id], y.d)
  }

  function WorldOf(file: Mxc -> ServerFile, y: System, id: HandlerId): World
    requires id in y.dues
  {
    World(file, y.dues[id])
  }

  function NewHandler(id: HandlerId, dir: nat): Handler {
    Handler(id, dir, NO_JOBS, map[], map[], {}, map[], Fresh(), [],
            Idle, NotFinishing, false, multiset{}, multiset{}, {})
  }

  /** Where the handler task can be dropped: it waits for an event, for the database, or for the file being opened or recorded. */
  predicate AtAwait(h: Handler) {
    || h.finishing != NotFinishing
    || !h.task.Preparing?
    || h.task.stage == Looking || h.task.stage == Opening
  }

  predicate Alive(y: System, id: HandlerId) { id in y.handlers && !y.handlers[id].closed }

  /** The file is claimed by another handler and no cancel is noted. Who gets the job was looked up before it is put there: that
      handler may be past its work on the file by then, or gone. */
  predicate MayHandOver(y: System, id: HandlerId, target: HandlerId)
    requires id in y.handlers
  {
    var h := y.handlers[id];
    && AtStage(h, Looking) && ClaimedElsewhere(At(y, id)) && !CancelledWhilePreparing(h.q, h.task.manifest.mxc)
    && target in y.handlers && target != id && y.handlers[target].dir == h.dir
  }

  ghost predicate Possible(file: Mxc -> ServerFile, y: System, e: Event)
    requires y.dues.Keys == y.handlers.Keys
  {
    match e
    case Begin(id, _) => id !in y.handlers
    case Run(id, move) => Alive(y, id) && May(WorldOf(file, y, id), At(y, id), move)
    case Put(target, _, _) => target in y.handlers
    case HandOver(id, target) => Alive(y, id) && MayHandOver(y, id, target)
    case Abort(id) => Alive(y, id) && AtAwait(y.handlers[id])
    case RecordLands(id) => id in y.handlers && y.handlers[id].closed && y.handlers[id].finishing.Recording?
  }

  // ---- what always holds ----

  /** A handler that is gone: nothing runs, every GET is answered; what its queue still gets stays there; a claim only where it
      was dropped between pool and record. */
  ghost predicate ClosedInv(w: World, s: State) {
    && s.h.closed && s.h.q.stopped && s.h.q.preparing == map[] && s.h.q.downloading == map[]
    && s.h.open == map[] && s.h.opening == {} && s.h.inFlight == map[] && s.h.seeks == []
    && s.h.task == Idle && s.h.seekOnly == map[]
    && SeekInv(s.h, multiset{}) && WaiterBalance(s.h.q, w.due) && HandlerSound(w, s.h) && OutcomesSound(s) && ClaimInv(s)
  }

  ghost predicate OneInv(w: World, s: State) {
    if s.h.closed then ClosedInv(w, s) else Inv(w, s, None, multiset{}) && FinishesOwn(s.h)
  }

  /** Every claim is held by a handler of that directory. */
  ghost predicate ClaimsKnown(y: System) {
    forall key :: key in y.d.claims ==> y.d.claims[key] in y.handlers && y.handlers[y.d.claims[key]].dir == key.dir
  }

  ghost predicate SysInv(file: Mxc -> ServerFile, y: System) {
    && y.dues.Keys == y.handlers.Keys
    && (forall id :: id in y.handlers ==> y.handlers[id].id == id && OneInv(WorldOf(file, y, id), At(y, id)))
    && ClaimsKnown(y)
    && SharedSound(World(file, multiset{}), y.d)
    && y.issued == Tally.Sum(y.dues)
  }

  function Give(y: System, id: HandlerId, manifest: Manifest, waiters: seq<Waiter>): System
    requires id in y.handlers && id in y.dues
  {
    var h := y.handlers[id];
    y.(handlers := y.handlers[id := h.(q := EnqueueAt(h, manifest, waiters))],
       dues := y.dues[id := y.dues[id] + multiset(waiters)])
  }

  function Part(y: System, id: HandlerId): System
    requires id in y.handlers && id in y.dues && y.handlers[id].task.Preparing?
  {
    y.(handlers := y.handlers[id := SendAway(y.handlers[id])],
       dues := y.dues[id := y.dues[id] - DownloadJobs.Departing(y.handlers[id])])
  }

  function With(y: System, s: State): System { y.(handlers := y.handlers[s.h.id := s.h], d := s.d) }

  ghost function After(file: Mxc -> ServerFile, y: System, e: Event): System
    requires SysInv(file, y) && Possible(file, y, e)
  {
    match e
    case Begin(id, dir) => y.(handlers := y.handlers[id := NewHandler(id, dir)], dues := y.dues[id := multiset{}])
    case Run(id, move) => With(y, Act(WorldOf(file, y, id), At(y, id), move))
    case Put(target, manifest, waiters) => Give(y, target, manifest, waiters).(issued := y.issued + multiset(waiters))
    case HandOver(id, target) =>
      var h := y.handlers[id];
      Give(Part(y, id), target, h.task.manifest, WaitersOf(h.q, h.task.manifest.mxc))
    case Abort(id) => With(y, Close(At(y, id)))
    case RecordLands(id) =>
      var h := y.handlers[id];
      y.(d := y.d.(complete := y.d.complete + {Key(h, h.finishing.mxc)}))
  }
}
