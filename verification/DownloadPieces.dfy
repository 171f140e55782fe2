/** Where the pieces come from: a chunk that arrives, one that is at hand, and the pool. Each GET that can be served from there is
    given just that chunk of the file; every other one goes on to wait for its own. */
module DownloadPieces {
  import opened Files
  import opened Wrappers
  import opened Lines
  import opened Download
  import opened DownloadInv
  import DownloadTable
  import opened DownloadSteps
  import opened DownloadMoves
  import opened DownloadSystem
  import Outcomes = DownloadOutcomes
  import Gets = DownloadGets

  /** Chunk `index` of the file, for this GET. */
  function PieceOf(w: World, mxc: Mxc, to: Waiting): Piece
    requires to.Seek? && to.index < |Chunks(w.file(mxc))|
  {
    Piece(to, mxc, to.index * w.file(mxc).chunkSize, Chunks(w.file(mxc))[to.index])
  }

  lemma {:induction false} SoundIsPieceOf(w: World, h: Handler, p: Piece)
    requires HandlerSound(w, h) && p in h.pieces
    ensures p.to.Seek? && p.to.index < |Chunks(w.file(p.mxc))| && p == PieceOf(w, p.mxc, p.to)
  {
    assert PieceSound(w, p);
  }

  // ---- a chunk that arrives ----

  lemma {:induction false} ContinueKeepsPieces(s: State, mxc: Mxc, disk: DiskResults)
    requires mxc in s.h.open
    ensures s.h.pieces <= ContinueMain(s, mxc, disk).h.pieces
  {
    Gets.ContinueServes(s, mxc, disk);
  }

  lemma {:induction false} ChunkGives(s: State, mxc: Mxc, index: nat, entry: InFlight, v: Verdict, to: Waiting)
    requires v.refused.None? && to in entry.waiters && to.Seek? && (mxc in s.h.open || mxc in s.h.seekOnly)
    ensures exists start :: Piece(to, mxc, start, v.plain) in ChunkArrived(s, mxc, index, entry, v).h.pieces
  {
    var next := ChunkArrived(s, mxc, index, entry, v);
    var start := ChunkStart(index, (if mxc in s.h.open then s.h.open[mxc].manifest else s.h.seekOnly[mxc].manifest).chunkSize);
    var given := s.(h := GivePiece(s.h, entry.waiters, mxc, start, v.plain));
    Gets.GiveServes(s.h, entry.waiters, mxc, start, v.plain);
    if mxc in s.h.open { OpenChunkKeeps(s, mxc, index, entry, v); }
    assert given.h.pieces <= next.h.pieces;
    assert Piece(to, mxc, start, v.plain) in next.h.pieces;
  }

  lemma {:induction false} OpenChunkKeeps(s: State, mxc: Mxc, index: nat, entry: InFlight, v: Verdict)
    requires v.refused.None? && mxc in s.h.open
    ensures GivePiece(s.h, entry.waiters, mxc, ChunkStart(index, s.h.open[mxc].manifest.chunkSize), v.plain).pieces
         <= ChunkArrived(s, mxc, index, entry, v).h.pieces
  {
    var m := s.h.open[mxc];
    var given := s.(h := GivePiece(s.h, entry.waiters, mxc, ChunkStart(index, m.manifest.chunkSize), v.plain));
    var lands := HasMain(entry.waiters) && index == Next(m);
    var stored := given.(h := if lands then LandArrived(given.h, mxc, v.plain) else StoreArrived(given.h, mxc, index, v.plain));
    if v.unwritten.Some? && lands {
      Gets.FailServes(given, mxc, v.unwritten.value, false);
    } else if HasMain(entry.waiters) {
      ContinueKeepsPieces(if v.unwritten.Some? then given else stored, mxc, v.disk);
    }
  }

  /** A chunk that arrives and verifies is given to every GET that waits for it, whether the file is being downloaded or only
      read, and whatever becomes of the main file. */
  lemma {:induction false} ArrivedIsGiven(w: World, s: State, v: Verdict, local: LocalReads, to: Waiting)
    requires Inv(w, s, None, multiset{}) && May(w, s, TakeReplyMove(v, local))
    requires var reply := s.h.line.replies[0];
             && reply.action.Chunk? && reply.result == Ack && v.refused.None?
             && (reply.action.mxc in s.h.open || reply.action.mxc in s.h.seekOnly)
             && reply.action in s.h.inFlight && to in s.h.inFlight[reply.action].waiters && to.Seek?
    ensures var mxc := s.h.line.replies[0].action.mxc;
            && to.index < |Chunks(w.file(mxc))| && v.plain == Chunks(w.file(mxc))[to.index]
            && PieceOf(w, mxc, to) in Act(w, s, TakeReplyMove(v, local)).h.pieces
  {
    var r := s.h.line.replies[0].action;
    var next := Act(w, s, TakeReplyMove(v, local));
    var entry := s.h.inFlight[r];
    var taken := s.(h := s.h.(line := TakeReply(s.h.line), inFlight := s.h.inFlight - {r}));
    assert next == ChunkArrived(taken, r.mxc, r.index, entry, v);
    ChunkGives(taken, r.mxc, r.index, entry, v, to);
    var start :| Piece(to, r.mxc, start, v.plain) in next.h.pieces;
    ActKeepsInv(w, s, TakeReplyMove(v, local));
    SoundIsPieceOf(w, next.h, Piece(to, r.mxc, start, v.plain));
    assert HangsRight(to, r);
  }

  // ---- a chunk at hand ----

  /** A GET for a file that is being downloaded is given the chunk at once if that is at hand and can be read. */
  lemma {:induction false} LocalIsGiven(w: World, s: State, local: LocalReads, index: nat)
    requires Inv(w, s, None, multiset{}) && May(w, s, TakeSeekMove(local))
    requires var job := s.h.seeks[0];
             var mxc := job.manifest.mxc;
             && mxc in s.h.open && ChunkIndexAt(job.position, s.h.open[mxc].manifest.chunkSize) == Index(index)
             && (index < Next(s.h.open[mxc]) || index in s.h.open[mxc].store) && index !in local.fails && index !in local.missing
    ensures var job := s.h.seeks[0];
            var mxc := job.manifest.mxc;
            var to := Seek(index, job, s.h.open[mxc].manifest.chunkSize);
            index < |Chunks(w.file(mxc))| && PieceOf(w, mxc, to) in Act(w, s, TakeSeekMove(local)).h.pieces
  {
    var job := s.h.seeks[0];
    var mxc := job.manifest.mxc;
    var m := s.h.open[mxc];
    var next := Act(w, s, TakeSeekMove(local));
    var p := Piece(Seek(index, job, m.manifest.chunkSize), mxc, ChunkStart(index, m.manifest.chunkSize), LocalChunk(m, index).value);
    Gets.GiveServes(s.h, [p.to], mxc, p.start, p.plain);
    assert p in next.h.pieces;
    ActKeepsInv(w, s, TakeSeekMove(local));
    SoundIsPieceOf(w, next.h, p);
  }

  // ---- the pool ----

  /** A GET for a complete file is given its chunk out of the pool if that can be read. */
  lemma {:induction false} PoolIsGiven(w: World, s: State, local: LocalReads, index: nat)
    requires Inv(w, s, None, multiset{}) && May(w, s, SeekLookedMove(true, local))
    requires var job := s.h.task.job;
             var f := w.file(job.manifest.mxc);
             && ChunkIndexAt(job.position, f.chunkSize) == Index(index) && index * f.chunkSize < |f.plain| && index !in local.fails
    ensures var job := s.h.task.job;
            var mxc := job.manifest.mxc;
            && index < |Chunks(w.file(mxc))|
            && PieceOf(w, mxc, Seek(index, job, w.file(mxc).chunkSize)) in Act(w, s, SeekLookedMove(true, local)).h.pieces
  {
    var job := s.h.task.job;
    var mxc := job.manifest.mxc;
    var f := w.file(mxc);
    var next := Act(w, s, SeekLookedMove(true, local));
    assert s.d.pool[Key(s.h, mxc)] == f;
    assert PoolPiece(f, index, local.fails).Some?;
    var p := Piece(Seek(index, job, f.chunkSize), mxc, ChunkStart(index, f.chunkSize), PoolPiece(f, index, local.fails).value);
    assert p in next.h.pieces;
    ActKeepsInv(w, s, SeekLookedMove(true, local));
    SoundIsPieceOf(w, next.h, p);
  }

  /** When a file is finished and found, every GET still waiting for any of its requests is given its own chunk out of the pool, if
      that can be read. */
  lemma {:induction false} LastIsGiven(w: World, s: State, unread: set<nat>, r: Request, to: Waiting)
    requires Inv(w, s, None, multiset{}) && May(w, s, AnsweredMove(true, unread))
    requires r in s.h.inFlight && r.mxc == s.h.finishing.mxc && to in s.h.inFlight[r].waiters && to.Seek?
    requires to.index !in unread && to.index * w.file(r.mxc).chunkSize < |w.file(r.mxc).plain|
    ensures to.index < |Chunks(w.file(r.mxc))|
    ensures PieceOf(w, r.mxc, to) in Act(w, s, AnsweredMove(true, unread)).h.pieces
  {
    var next := Act(w, s, AnsweredMove(true, unread));
    var f := w.file(r.mxc);
    assert s.d.pool[Key(s.h, r.mxc)] == f;
    var p := LastPiece(s, f, unread, r, to);
    ActKeepsInv(w, s, AnsweredMove(true, unread));
    SoundIsPieceOf(w, next.h, p);
  }

  lemma {:induction false} LastPiece(s: State, f: ServerFile, unread: set<nat>, r: Request, to: Waiting) returns (p: Piece)
    requires s.h.finishing.Answering? && Key(s.h, s.h.finishing.mxc) in s.d.pool && s.d.pool[Key(s.h, s.h.finishing.mxc)] == f
    requires r in s.h.inFlight && r.mxc == s.h.finishing.mxc && to in s.h.inFlight[r].waiters && to.Seek?
    requires to.index !in unread && to.index * f.chunkSize < |f.plain| && f.chunkSize > 0
    ensures p in FinishAnswered(s, true, unread).h.pieces && p.to == to && p.mxc == r.mxc
  {
    assert PoolPiece(f, to.index, unread).Some?;
    p := Piece(to, r.mxc, ChunkStart(to.index, f.chunkSize), PoolPiece(f, to.index, unread).value);
    assert r in RequestsOf(s.h, r.mxc) && p in PiecesFromPool(f, r.mxc, s.h.inFlight, RequestsOf(s.h, r.mxc), unread);
  }

  // ---- what is not at hand is asked for ----

  /** No request of the table goes, and who waits for it still does. */
  ghost predicate KeepsWaiters(h: Handler, h2: Handler) {
    forall r :: r in h.inFlight ==> r in h2.inFlight && h.inFlight[r].waiters <= h2.inFlight[r].waiters
  }

  predicate Waits(h: Handler, r: Request, to: Waiting) { r in h.inFlight && to in h.inFlight[r].waiters }

  lemma {:induction false} WantWaits(h: Handler, r: Request, waiting: Waiting, atFront: bool)
    ensures KeepsWaiters(h, Want(h, r, waiting, atFront)) && Waits(Want(h, r, waiting, atFront), r, waiting)
  {
  }

  lemma {:induction false} ContinueWaits(s: State, mxc: Mxc, disk: DiskResults)
    requires mxc in s.h.open && !Gets.GetsStuck(s.h, mxc, s.h.open[mxc], disk)
    ensures KeepsWaiters(s.h, ContinueMain(s, mxc, disk).h)
    decreases Total(s.h.open[mxc]) - Next(s.h.open[mxc])
  {
    var m := s.h.open[mxc];
    if mxc in s.h.q.downloading && !s.h.q.downloading[mxc].cancelled && !IsWritten(m) {
      Outcomes.SticksHere(m, disk);
      if m.needsInfo {
        WantWaits(s.h, Info(mxc), Main, false);
      } else if InStore(m, disk) {
        var landed := s.(h := LandFromStore(s.h, mxc));
        assert ContinueMain(s, mxc, disk) == ContinueMain(landed, mxc, disk);
        Outcomes.SticksFurther(m, disk);
        ContinueWaits(landed, mxc, disk);
      } else {
        WantWaits(s.h, Chunk(mxc, Next(m)), Main, false);
      }
    }
  }

  /** The block of the file at hand is verified. */
  predicate IsVerified(h: Handler, mxc: Mxc) {
    if mxc in h.open then !h.open[mxc].needsInfo else mxc in h.seekOnly && h.seekOnly[mxc].verified
  }

  /** Given, failed, or waiting for its own chunk. */
  ghost predicate GoneOn(h: Handler, mxc: Mxc, to: Waiting, bad: set<SeekId>)
    requires to.Seek?
  {
    Gets.HasPiece(h, to.id) || to.id in bad || Waits(h, Chunk(mxc, to.index), to)
  }

  lemma {:induction false} SeekChunkGoesOn(h: Handler, mxc: Mxc, to: Waiting, local: LocalReads)
    requires to.Seek? && IsVerified(h, mxc)
    ensures GoneOn(RequestSeekChunk(h, mxc, to, local), mxc, to, Gets.UnreadHere(h, mxc, [to], local))
    ensures KeepsWaiters(h, RequestSeekChunk(h, mxc, to, local)) && h.pieces <= RequestSeekChunk(h, mxc, to, local).pieces
  {
    WantWaits(h, Chunk(mxc, to.index), to, true);
    if mxc in h.open && to.index !in local.fails && LocalChunk(h.open[mxc], to.index).Some? && to.index !in local.missing {
      var p := Piece(to, mxc, ChunkStart(to.index, h.open[mxc].manifest.chunkSize), LocalChunk(h.open[mxc], to.index).value);
      assert p in RequestSeekChunk(h, mxc, to, local).pieces;
    }
  }

  lemma {:induction false} GoneOnStays(h: Handler, h2: Handler, mxc: Mxc, to: Waiting, bad: set<SeekId>, worse: set<SeekId>)
    requires to.Seek? && GoneOn(h, mxc, to, bad) && KeepsWaiters(h, h2) && h.pieces <= h2.pieces && bad <= worse
    ensures GoneOn(h2, mxc, to, worse)
  {
    Gets.StillHas(h, h2, to.id);
  }

  lemma {:induction false} SeekChunksGoOn(h: Handler, mxc: Mxc, waiters: seq<Waiting>, local: LocalReads, to: Waiting)
    requires IsVerified(h, mxc) && to.Seek?
    ensures var h2 := RequestSeekChunks(h, mxc, waiters, local);
            && KeepsWaiters(h, h2) && h.pieces <= h2.pieces
            && (to in waiters ==> GoneOn(h2, mxc, to, Gets.UnreadHere(h, mxc, waiters, local)))
    decreases |waiters|
  {
    if waiters != [] {
      var first := if waiters[0].Seek? then RequestSeekChunk(h, mxc, waiters[0], local) else h;
      var h2 := RequestSeekChunks(first, mxc, waiters[1..], local);
      if waiters[0].Seek? {
        SeekChunkGoesOn(h, mxc, waiters[0], local);
        SeekChunkFrame(h, mxc, waiters[0], local);
      }
      SeekChunksGoOn(first, mxc, waiters[1..], local, to);
      assert Gets.UnreadHere(first, mxc, waiters[1..], local) <= Gets.UnreadHere(h, mxc, waiters, local);
      if to == waiters[0] {
        assert Gets.UnreadHere(h, mxc, [to], local) <= Gets.UnreadHere(h, mxc, waiters, local);
        GoneOnStays(first, h2, mxc, to, Gets.UnreadHere(h, mxc, [to], local), Gets.UnreadHere(h, mxc, waiters, local));
      }
    }
  }

  /** Once the block is verified, every GET that waited for that has its piece, or waits for its own chunk; unless that is at hand
      and cannot be read, or the main file cannot be written on. */
  lemma {:induction false} InfoSendsOn(w: World, s: State, v: Verdict, local: LocalReads, to: Waiting)
    requires Inv(w, s, None, multiset{}) && May(w, s, TakeReplyMove(v, local))
    requires var reply := s.h.line.replies[0];
             && reply.action.Info? && reply.result == Ack && v.refused.None?
             && (reply.action.mxc in s.h.open || reply.action.mxc in s.h.seekOnly)
             && reply.action in s.h.inFlight && to in s.h.inFlight[reply.action].waiters && to.Seek?
    ensures var mxc := s.h.line.replies[0].action.mxc;
            GoneOn(Act(w, s, TakeReplyMove(v, local)).h, mxc, to, Gets.ReplyFails(s.h, v, local))
  {
    var r := s.h.line.replies[0].action;
    var entry := s.h.inFlight[r];
    var taken := s.(h := s.h.(line := TakeReply(s.h.line), inFlight := s.h.inFlight - {r}));
    assert Act(w, s, TakeReplyMove(v, local)) == InfoArrived(taken, r.mxc, entry, v, local);
    DownloadTable.MainIsCounted(entry.waiters);
    InfoGoesOn(taken, r.mxc, entry, v, local, to);
    Gets.TakenFails(s.h, v, local);
  }

  lemma {:induction false} InfoGoesOn(s: State, mxc: Mxc, entry: InFlight, v: Verdict, local: LocalReads, to: Waiting)
    requires v.refused.None? && (mxc in s.h.open || mxc in s.h.seekOnly) && to in entry.waiters && to.Seek?
    requires Main in entry.waiters ==> mxc in s.h.open
    ensures GoneOn(InfoArrived(s, mxc, entry, v, local).h, mxc, to, Gets.AckFails(s.h, Info(mxc), entry, v, local))
  {
    var accepted := AcceptInfo(s.h, mxc);
    var asked := s.(h := RequestSeekChunks(accepted, mxc, entry.waiters, local));
    var next := InfoArrived(s, mxc, entry, v, local);
    SeekChunksGoOn(accepted, mxc, entry.waiters, local, to);
    Outcomes.SeekChunksSame(accepted, mxc, entry.waiters, local);
    var bad := Gets.UnreadHere(s.h, mxc, entry.waiters, local);
    assert GoneOn(asked.h, mxc, to, bad);
    if HasMain(entry.waiters) {
      assert next == ContinueMain(asked, mxc, v.disk);
      ContinueKeepsPieces(asked, mxc, v.disk);
      if !Gets.GetsStuck(asked.h, mxc, asked.h.open[mxc], v.disk) {
        ContinueWaits(asked, mxc, v.disk);
        GoneOnStays(asked.h, next.h, mxc, to, bad, Gets.AckFails(s.h, Info(mxc), entry, v, local));
      } else {
        assert to.id in Gets.On(entry.waiters);
      }
    }
  }

  // ---- a GET goes first ----

  /** The GET waits for a request of its file, and if that was not sent yet it is the next one to be. */
  ghost predicate AskedFirst(h: Handler, h2: Handler, r: Request, id: SeekId) {
    && r.mxc == id.manifest.mxc && r in h2.inFlight && id in Gets.On(h2.inFlight[r].waiters)
    && (r !in h.inFlight || r in h.line.queued ==> h2.line.queued != [] && h2.line.queued[0] == r)
  }

  lemma {:induction false} OtherwiseWants(h: Handler, mxc: Mxc, to: Waiting, local: LocalReads)
    requires to.Seek? && (mxc in h.open || mxc in h.seekOnly)
    requires RequestSeekChunk(h, mxc, to, local).answered == h.answered
    ensures RequestSeekChunk(h, mxc, to, local)
         == Want(h, if IsVerified(h, mxc) then Chunk(mxc, to.index) else Info(mxc), to, true)
  {
    SeekAlone(to);
    assert (h.answered + multiset{to.id})[to.id] != h.answered[to.id];
  }

  lemma {:induction false} WantsFirst(h: Handler, mxc: Mxc, to: Waiting, local: LocalReads) returns (r: Request)
    requires to.Seek? && to.id.manifest.mxc == mxc && (mxc in h.open || mxc in h.seekOnly)
    requires RequestSeekChunk(h, mxc, to, local).answered == h.answered
    ensures AskedFirst(h, RequestSeekChunk(h, mxc, to, local), r, to.id)
    ensures r == if IsVerified(h, mxc) then Chunk(mxc, to.index) else Info(mxc)
  {
    r := if IsVerified(h, mxc) then Chunk(mxc, to.index) else Info(mxc);
    OtherwiseWants(h, mxc, to, local);
    WantWaits(h, r, to, true);
  }

  /** A GET off the channel, or back from the database, that is not answered at once waits for its own chunk (or for `Info`, as
      long as that is not verified), and nothing unsent goes before that request. */
  lemma {:induction false} SeekGoesFirst(w: World, s: State, move: Move) returns (r: Request)
    requires Inv(w, s, None, multiset{}) && May(w, s, move) && (move.TakeSeekMove? || (move.SeekLookedMove? && !move.found))
    requires move.TakeSeekMove? ==> s.h.seeks[0].manifest.mxc in s.h.open
    requires Act(w, s, move).h.answered == s.h.answered
    ensures var job := if move.TakeSeekMove? then s.h.seeks[0] else s.h.task.job;
            AskedFirst(s.h, Act(w, s, move).h, r, job)
  {
    var job := if move.TakeSeekMove? then s.h.seeks[0] else s.h.task.job;
    var mxc := job.manifest.mxc;
    var h := if move.TakeSeekMove? then s.h.(seeks := s.h.seeks[1..])
             else s.h.(task := Idle, seekOnly := Remember(s.h.seekOnly, job, s.h.line.now));
    var chunkSize := if move.TakeSeekMove? then h.open[mxc].manifest.chunkSize else h.seekOnly[mxc].manifest.chunkSize;
    assert Act(w, s, move).h == RequestSeekAt(h, mxc, chunkSize, job, move.local);
    NoChunkIsAnswered(h, mxc, chunkSize, job, move.local);
    r := WantsFirst(h, mxc, Seek(ChunkIndexAt(job.position, chunkSize).index, job, chunkSize), move.local);
  }

  lemma {:induction false} NoChunkIsAnswered(h: Handler, mxc: Mxc, chunkSize: nat, id: SeekId, local: LocalReads)
    ensures ChunkIndexAt(id.position, chunkSize).NoChunk? ==> RequestSeekAt(h, mxc, chunkSize, id, local).answered != h.answered
  {
    SeekAlone(Seek(0, id, chunkSize));
    assert (h.answered + multiset{id})[id] != h.answered[id];
  }

  /** A GET for a file that is neither being downloaded nor complete: the file is remembered as used now, by the first description
      that came. */
  lemma {:induction false} SeekIsRemembered(w: World, s: State, local: LocalReads)
    requires Inv(w, s, None, multiset{}) && May(w, s, SeekLookedMove(false, local))
    ensures var h2 := Act(w, s, SeekLookedMove(false, local)).h;
            var mxc := s.h.task.job.manifest.mxc;
            && mxc in h2.seekOnly && h2.seekOnly[mxc].lastUsed == s.h.line.now
            && h2.seekOnly[mxc].manifest == (if mxc in s.h.seekOnly then s.h.seekOnly[mxc].manifest else s.h.task.job.manifest)
            && (h2.seekOnly[mxc].verified <==> mxc in s.h.seekOnly && s.h.seekOnly[mxc].verified)
            && h2.seekOnly - {mxc} == s.h.seekOnly - {mxc}
  {
    var job := s.h.task.job;
    var mxc := job.manifest.mxc;
    var known := s.h.(task := Idle, seekOnly := Remember(s.h.seekOnly, job, s.h.line.now));
    SeekAtOnly(known, mxc, known.seekOnly[mxc].manifest.chunkSize, job, local);
  }

  /** The main file has its request, behind all that was queued already; unless a GET had asked for it, then it stays where that
      put it. */
  ghost predicate AskedLast(h: Handler, h2: Handler, r: Request) {
    && r in h2.inFlight && Main in h2.inFlight[r].waiters
    && h2.line.queued == if r in h.inFlight then h.line.queued else h.line.queued + [r]
  }

  /** Moving a main file on: if its job still runs then, its next request waits its turn. */
  lemma {:induction false} MainGoesLast(s: State, mxc: Mxc, disk: DiskResults)
    requires mxc in s.h.open && mxc in s.h.q.downloading && !s.h.q.downloading[mxc].cancelled
    ensures var h2 := ContinueMain(s, mxc, disk).h;
            mxc in h2.open && mxc in h2.q.downloading ==> AskedLast(s.h, h2, Cursor(mxc, h2.open[mxc]))
    decreases Total(s.h.open[mxc]) - Next(s.h.open[mxc])
  {
    var m := s.h.open[mxc];
    if !IsWritten(m) && !m.needsInfo && InStore(m, disk) {
      if Next(m) in disk.unmovable {
        assert ContinueMain(s, mxc, disk) == FailMedia(s, mxc, disk.fault, true);
        FailedIsNotOpen(s, mxc, disk.fault);
      } else {
        var landed := s.(h := LandFromStore(s.h, mxc));
        assert ContinueMain(s, mxc, disk) == ContinueMain(landed, mxc, disk);
        MainGoesLast(landed, mxc, disk);
      }
    } else if !IsWritten(m) {
      assert ContinueMain(s, mxc, disk) == s.(h := Want(s.h, Cursor(mxc, m), Main, false));
      WantsLast(s.h, Cursor(mxc, m));
    }
  }

  lemma {:induction false} FailedIsNotOpen(s: State, mxc: Mxc, error: Error)
    ensures mxc !in FailMedia(s, mxc, error, true).h.open
  {
  }

  lemma {:induction false} WantsLast(h: Handler, r: Request)
    ensures AskedLast(h, Want(h, r, Main, false), r)
  {
  }

  // ---- what is tried again ----

  /** The request goes out again before anything else that waits, for these and with these counts; nothing else is in flight that
      was not. */
  ghost predicate SentAgain(h: Handler, h2: Handler, r: Request, waiters: seq<Waiting>, retries: Retries) {
    h2.inFlight == h.inFlight[r := InFlight(waiters, retries)] && h2.line.queued == [r] + h.line.queued
  }

  /** Who still waits after a refusal that is not final, and with what counts. */
  function AgainFor(entry: InFlight, error: Error): seq<Waiting> {
    if !error.Network? then entry.waiters else if Main in entry.waiters then [Main] else []
  }

  function CountsAfter(retries: Retries, error: Error): Retries {
    match error
    case Network => retries
    case Timeout => Retries(retries.timeouts + 1, retries.badReplies)
    case _ => Retries(retries.timeouts, 1)
  }

  /** A refusal that is not final: a timeout and a bad reply are counted and everybody waits on; after a lost link only the main
      file does, and nothing is counted. */
  lemma {:induction false} RefusedIsTriedAgain(w: World, s: State, v: Verdict, local: LocalReads)
    requires Inv(w, s, None, multiset{}) && May(w, s, TakeReplyMove(v, local))
    requires var reply := s.h.line.replies[0];
             && reply.action in s.h.inFlight && reply.result.Refused?
             && !Outcomes.IsFinal(reply.result.error, s.h.inFlight[reply.action].retries)
    ensures var reply := s.h.line.replies[0];
            var entry := s.h.inFlight[reply.action];
            var h2 := Act(w, s, TakeReplyMove(v, local)).h;
            if AgainFor(entry, reply.result.error) == [] then h2.inFlight == s.h.inFlight - {reply.action}
            else SentAgain(s.h, h2, reply.action, AgainFor(entry, reply.result.error), CountsAfter(entry.retries, reply.result.error))
  {
    var r := s.h.line.replies[0].action;
    var entry := s.h.inFlight[r];
    var taken := s.(h := s.h.(line := TakeReply(s.h.line), inFlight := s.h.inFlight - {r}));
    var error := s.h.line.replies[0].result.error;
    assert Bounded(r, entry);
    assert Act(w, s, TakeReplyMove(v, local)) == RequestFailed(taken, r, entry, error);
    FailedAgain(taken, r, entry, error);
    BackIn(s.h.inFlight, r, InFlight(AgainFor(entry, error), CountsAfter(entry.retries, error)));
  }

  lemma BackIn(inFlight: map<Request, InFlight>, r: Request, entry: InFlight)
    ensures (inFlight - {r})[r := entry] == inFlight[r := entry]
  {
  }

  lemma {:induction false} FailedAgain(s: State, r: Request, entry: InFlight, error: Error)
    requires Bounded(r, entry) && !Outcomes.IsFinal(error, entry.retries)
    ensures var h2 := RequestFailed(s, r, entry, error).h;
            if AgainFor(entry, error) == [] then h2.inFlight == s.h.inFlight
            else SentAgain(s.h, h2, r, AgainFor(entry, error), CountsAfter(entry.retries, error))
  {
  }

  /** An answer that is bad for the first time: it is asked for once more. */
  lemma {:induction false} BadAnswerIsTriedAgain(w: World, s: State, v: Verdict, local: LocalReads)
    requires Inv(w, s, None, multiset{}) && May(w, s, TakeReplyMove(v, local))
    requires var reply := s.h.line.replies[0];
             && reply.action in s.h.inFlight && reply.result.Ack? && v.refused.Some?
             && (reply.action.mxc in s.h.open || reply.action.mxc in s.h.seekOnly)
             && !Outcomes.IsBroken(reply.action, v.refused.value, s.h.inFlight[reply.action].retries)
    ensures var r := s.h.line.replies[0].action;
            var entry := s.h.inFlight[r];
            SentAgain(s.h, Act(w, s, TakeReplyMove(v, local)).h, r, entry.waiters, Retries(entry.retries.timeouts, 1))
  {
    var r := s.h.line.replies[0].action;
    var entry := s.h.inFlight[r];
    var taken := s.(h := s.h.(line := TakeReply(s.h.line), inFlight := s.h.inFlight - {r}));
    assert Bounded(r, entry);
    if r.Info? {
      assert Act(w, s, TakeReplyMove(v, local)) == InfoArrived(taken, r.mxc, entry, v, local);
      InfoAgain(taken, r.mxc, entry, v, local);
    } else {
      assert Act(w, s, TakeReplyMove(v, local)) == ChunkArrived(taken, r.mxc, r.index, entry, v);
      ChunkAgain(taken, r.mxc, r.index, entry, v);
    }
    BackIn(s.h.inFlight, r, InFlight(entry.waiters, Retries(entry.retries.timeouts, 1)));
  }

  lemma {:induction false} InfoAgain(s: State, mxc: Mxc, entry: InFlight, v: Verdict, local: LocalReads)
    requires v.refused.Some? && (mxc in s.h.open || mxc in s.h.seekOnly) && Bounded(Info(mxc), entry)
    requires !Outcomes.IsBroken(Info(mxc), v.refused.value, entry.retries)
    ensures SentAgain(s.h, InfoArrived(s, mxc, entry, v, local).h, Info(mxc), entry.waiters, Retries(entry.retries.timeouts, 1))
  {
  }

  lemma {:induction false} ChunkAgain(s: State, mxc: Mxc, index: nat, entry: InFlight, v: Verdict)
    requires v.refused.Some? && (mxc in s.h.open || mxc in s.h.seekOnly) && Bounded(Chunk(mxc, index), entry)
    requires !Outcomes.IsBroken(Chunk(mxc, index), v.refused.value, entry.retries)
    ensures SentAgain(s.h, ChunkArrived(s, mxc, index, entry, v).h, Chunk(mxc, index), entry.waiters, Retries(entry.retries.timeouts, 1))
  {
  }
}
