/** What GETs get. `FailuresOf` names, for every move, the GETs that something goes wrong for; every other GET a move answers has
    its piece, over any run. */
module DownloadGets {
  import opened Files
  import opened Wrappers
  import opened Lines
  import opened Tally
  import opened Download
  import opened DownloadInv
  import DownloadTable
  import opened DownloadSteps
  import DownloadJobs
  import opened DownloadMoves
  import opened DownloadSystem
  import opened DownloadShared
  import opened DownloadEvents
  import opened DownloadRuns
  import Outcomes = DownloadOutcomes

  /** The GETs among the waiters, and those on any request of a file. */
  function On(waiters: seq<Waiting>): set<SeekId> { set to | to in waiters && to.Seek? :: to.id }

  function Hanging(inFlight: map<Request, InFlight>, mxc: Mxc): set<SeekId> {
    set r, to | r in inFlight && r.mxc == mxc && to in inFlight[r].waiters && to.Seek? :: to.id
  }

  ghost predicate HasPiece(h: Handler, id: SeekId) { exists p :: p in h.pieces && p.to.Seek? && p.to.id == id }

  /** Whoever is answered in between has a piece, but for these. */
  ghost predicate Served(h: Handler, h2: Handler, bad: set<SeekId>) {
    && h.pieces <= h2.pieces
    && forall id :: h2.answered[id] > h.answered[id] ==> HasPiece(h2, id) || id in bad
  }

  // ---- what goes wrong for whom ----

  /** The chunk of the file at hand cannot be read although it is there. */
  function UnreadHere(h: Handler, mxc: Mxc, waiters: seq<Waiting>, local: LocalReads): set<SeekId> {
    set to | to in waiters && to.Seek? && mxc in h.open && to.index in local.fails :: to.id
  }

  /** No chunk number fits the position, or the chunk cannot be read. */
  function LookFails(job: SeekJob, chunkSize: nat, fails: set<nat>): set<SeekId> {
    match ChunkIndexAt(job.position, chunkSize)
    case NoChunk => {job}
    case Index(index) => if index in fails then {job} else {}
  }

  /** Of a whole file: the chunk begins past its end, too. */
  predicate NotInPool(f: ServerFile, index: nat, unread: set<nat>) { index in unread || ChunkStart(index, f.chunkSize) >= |f.plain| }

  function PoolFails(job: SeekJob, f: ServerFile, unread: set<nat>): set<SeekId> {
    match ChunkIndexAt(job.position, f.chunkSize)
    case NoChunk => {job}
    case Index(index) => if NotInPool(f, index, unread) then {job} else {}
  }

  function LastFails(h: Handler, mxc: Mxc, f: ServerFile, unread: set<nat>): set<SeekId> {
    set r, to | r in h.inFlight && r.mxc == mxc && to in h.inFlight[r].waiters && to.Seek? && NotInPool(f, to.index, unread) :: to.id
  }

  /** The main file is moved on and cannot be written. */
  predicate GetsStuck(h: Handler, mxc: Mxc, m: MediaDownload, disk: DiskResults) {
    mxc in h.q.downloading && !h.q.downloading[mxc].cancelled && Outcomes.Sticks(m, disk)
  }

  /** A request that is refused: nobody but its own GETs, unless the file stops. */
  ghost function RefusalFails(inFlight: map<Request, InFlight>, r: Request, entry: InFlight, error: Error): set<SeekId> {
    if error.Network? then On(entry.waiters)
    else if !Outcomes.IsFinal(error, entry.retries) then {}
    else if Main in entry.waiters || error.NotFound? || error.Forbidden? then Hanging(inFlight, r.mxc) + On(entry.waiters)
    else On(entry.waiters)
  }

  /** An answer, with the entry of its request in hand. */
  ghost function AckFails(h: Handler, r: Request, entry: InFlight, v: Verdict, local: LocalReads): set<SeekId> {
    if r.mxc !in h.open && r.mxc !in h.seekOnly then On(entry.waiters)
    else if v.refused.Some? then
      if !Outcomes.IsBroken(r, v.refused.value, entry.retries) then {}
      else if r.mxc in h.open then Hanging(h.inFlight, r.mxc) + On(entry.waiters)
      else On(entry.waiters)
    else
      (if r.Info? then UnreadHere(h, r.mxc, entry.waiters, local) else {})
      + if Main in entry.waiters && r.mxc in h.open
           && ((r.Chunk? && v.unwritten.Some?) || GetsStuck(h, r.mxc, Outcomes.Landed(h.open[r.mxc], r, v), v.disk))
        then Hanging(h.inFlight, r.mxc) + On(entry.waiters) else {}
  }

  ghost function ReplyFails(h: Handler, v: Verdict, local: LocalReads): set<SeekId>
    requires h.line.replies != []
  {
    var reply := h.line.replies[0];
    var r := reply.action;
    if r !in h.inFlight then {}
    else
      var entry := h.inFlight[r];
      match reply.result
      case Refused(error) => RefusalFails(h.inFlight, r, entry, error)
      case Ack => AckFails(h, r, entry, v, local)
  }

  ghost function FailuresOf(w: World, s: State, move: Move): set<SeekId>
    requires Inv(w, s, None, multiset{}) && May(w, s, move)
  {
    match move
    case TakeSeekMove(local) =>
      var job := s.h.seeks[0];
      var mxc := job.manifest.mxc;
      if mxc in s.h.open then LookFails(job, s.h.open[mxc].manifest.chunkSize, local.fails) else {}
    case SeekLookedMove(found, local) =>
      var job := s.h.task.job;
      var mxc := job.manifest.mxc;
      if found then PoolFails(job, s.d.pool[Key(s.h, mxc)], local.fails)
      else LookFails(job, (if mxc in s.h.seekOnly then s.h.seekOnly[mxc].manifest else job.manifest).chunkSize,
                     if mxc in s.h.open then local.fails else {})
    case TakeReplyMove(v, local) => ReplyFails(s.h, v, local)
    case StartJobMove(disk) =>
      var mxc := s.h.task.manifest.mxc;
      if Outcomes.Sticks(s.h.open[mxc], disk) then Hanging(s.h.inFlight, mxc) else {}
    case AnsweredMove(found, unread) =>
      var mxc := s.h.finishing.mxc;
      if found then LastFails(s.h, mxc, s.d.pool[Key(s.h, mxc)], unread) else Hanging(s.h.inFlight, mxc)
    case _ => {}
  }

  // ---- answers and pieces ----

  lemma {:induction false} SeekIdsOn(waiters: seq<Waiting>, id: SeekId)
    ensures id in SeekIds(waiters) <==> id in On(waiters)
  {
    if waiters != [] {
      SeekIdsOn(waiters[1..], id);
      assert waiters == [waiters[0]] + waiters[1..];
    }
  }

  lemma {:induction false} SumHasOne<K(!new), V>(m: map<K, multiset<V>>, v: V) returns (k: K)
    requires v in Sum(m)
    ensures k in m && v in m[k]
    decreases |m|
  {
    var first :| first in m && Sum(m) == m[first] + Sum(m - {first});
    if v in m[first] { k := first; } else { k := SumHasOne(m - {first}, v); }
  }

  lemma {:induction false} AttachedHangs(h: Handler, mxc: Mxc, id: SeekId)
    requires id in Attached(Only(h.inFlight, RequestsOf(h, mxc)))
    ensures id in Hanging(h.inFlight, mxc)
  {
    var some := Only(h.inFlight, RequestsOf(h, mxc));
    var r := SumHasOne(Seekers(some), id);
    SeekIdsOn(some[r].waiters, id);
  }

  lemma {:induction false} ServedTwice(a: Handler, b: Handler, c: Handler, bad: set<SeekId>, worse: set<SeekId>)
    requires Served(a, b, bad) && Served(b, c, worse)
    ensures Served(a, c, bad + worse)
  {
    forall id | HasPiece(b, id) ensures HasPiece(c, id) {
      var p :| p in b.pieces && p.to.Seek? && p.to.id == id;
      assert p in c.pieces;
    }
  }

  lemma ServedMore(a: Handler, b: Handler, bad: set<SeekId>, worse: set<SeekId>)
    requires Served(a, b, bad) && bad <= worse
    ensures Served(a, b, worse)
  {
  }

  lemma {:induction false} AnswerServes(h: Handler, waiters: seq<Waiting>)
    ensures Served(h, AnswerSeeks(h, waiters), On(waiters))
  {
    forall id | id in SeekIds(waiters) ensures id in On(waiters) { SeekIdsOn(waiters, id); }
  }

  lemma {:induction false} GiveServes(h: Handler, waiters: seq<Waiting>, mxc: Mxc, start: nat, plain: Bytes)
    ensures Served(h, GivePiece(h, waiters, mxc, start, plain), {})
    ensures forall to :: to in waiters && to.Seek? ==> Piece(to, mxc, start, plain) in GivePiece(h, waiters, mxc, start, plain).pieces
  {
    var h2 := GivePiece(h, waiters, mxc, start, plain);
    forall id | id in SeekIds(waiters) ensures HasPiece(h2, id) {
      SeekIdsOn(waiters, id);
      var to :| to in waiters && to.Seek? && to.id == id;
      assert Piece(to, mxc, start, plain) in h2.pieces;
    }
  }

  lemma {:induction false} DropServes(h: Handler, mxc: Mxc)
    ensures Served(h, DropRequests(h, mxc), Hanging(h.inFlight, mxc))
  {
    forall id | id in Attached(Only(h.inFlight, RequestsOf(h, mxc))) ensures id in Hanging(h.inFlight, mxc) { AttachedHangs(h, mxc, id); }
  }

  // ---- the steps ----

  /** Answers and pieces stay as they are. */
  predicate SameAnswers(h: Handler, h2: Handler) { h2.answered == h.answered && h2.pieces == h.pieces }

  lemma {:induction false} EndServes(s: State, mxc: Mxc, end: JobEnd)
    ensures SameAnswers(s.h, EndJob(s, mxc, end).h)
  {
  }

  lemma {:induction false} FailServes(s: State, mxc: Mxc, error: Error, discard: bool)
    ensures Served(s.h, FailMedia(s, mxc, error, discard).h, Hanging(s.h.inFlight, mxc))
  {
    DropServes(s.h, mxc);
    var next := FailMedia(s, mxc, error, discard);
    assert SameAnswers(DropRequests(s.h, mxc), next.h);
  }

  lemma {:induction false} ContinueServes(s: State, mxc: Mxc, disk: DiskResults)
    requires mxc in s.h.open
    ensures Served(s.h, ContinueMain(s, mxc, disk).h,
                   if GetsStuck(s.h, mxc, s.h.open[mxc], disk) then Hanging(s.h.inFlight, mxc) else {})
    decreases Total(s.h.open[mxc]) - Next(s.h.open[mxc])
  {
    if mxc in s.h.q.downloading {
      if s.h.q.downloading[mxc].cancelled {
        EndServes(s, mxc, Cancelled);
      } else if !IsWritten(s.h.open[mxc]) {
        ContinueOpenServes(s, mxc, disk);
      }
    }
  }

  lemma {:induction false} ContinueOpenServes(s: State, mxc: Mxc, disk: DiskResults)
    requires mxc in s.h.open && mxc in s.h.q.downloading && !s.h.q.downloading[mxc].cancelled && !IsWritten(s.h.open[mxc])
    ensures Served(s.h, ContinueMain(s, mxc, disk).h,
                   if GetsStuck(s.h, mxc, s.h.open[mxc], disk) then Hanging(s.h.inFlight, mxc) else {})
    decreases Total(s.h.open[mxc]) - Next(s.h.open[mxc]), 0
  {
    var m := s.h.open[mxc];
    Outcomes.SticksHere(m, disk);
    if !m.needsInfo && InStore(m, disk) && Next(m) in disk.unmovable {
      FailServes(s, mxc, disk.fault, true);
    } else if !m.needsInfo && InStore(m, disk) {
      var landed := s.(h := LandFromStore(s.h, mxc));
      assert ContinueMain(s, mxc, disk) == ContinueMain(landed, mxc, disk);
      Outcomes.SticksFurther(m, disk);
      ContinueServes(landed, mxc, disk);
    }
  }

  lemma {:induction false} WantHangs(h: Handler, r: Request, to: Waiting)
    requires to.Seek?
    ensures Served(h, Want(h, r, to, true), {}) && Hanging(Want(h, r, to, true).inFlight, r.mxc) <= Hanging(h.inFlight, r.mxc) + {to.id}
  {
  }

  lemma {:induction false} SeekChunkServes(h: Handler, mxc: Mxc, to: Waiting, local: LocalReads)
    requires to.Seek? && (mxc in h.open || mxc in h.seekOnly)
    ensures Served(h, RequestSeekChunk(h, mxc, to, local), if mxc in h.open && to.index in local.fails then {to.id} else {})
    ensures Hanging(RequestSeekChunk(h, mxc, to, local).inFlight, mxc) <= Hanging(h.inFlight, mxc) + {to.id}
  {
    if mxc in h.open {
      var m := h.open[mxc];
      if to.index in local.fails {
        AnswerServes(h, [to]);
      } else if LocalChunk(m, to.index).Some? && to.index !in local.missing {
        GiveServes(h, [to], mxc, ChunkStart(to.index, m.manifest.chunkSize), LocalChunk(m, to.index).value);
      } else {
        WantHangs(h, if m.needsInfo then Info(mxc) else Chunk(mxc, to.index), to);
      }
    } else {
      WantHangs(h, if h.seekOnly[mxc].verified then Chunk(mxc, to.index) else Info(mxc), to);
    }
  }

  lemma {:induction false} SeekChunksServe(h: Handler, mxc: Mxc, waiters: seq<Waiting>, local: LocalReads)
    requires mxc in h.open || mxc in h.seekOnly
    ensures Served(h, RequestSeekChunks(h, mxc, waiters, local), UnreadHere(h, mxc, waiters, local))
    ensures Hanging(RequestSeekChunks(h, mxc, waiters, local).inFlight, mxc) <= Hanging(h.inFlight, mxc) + On(waiters)
    decreases |waiters|
  {
    if waiters != [] {
      var first := if waiters[0].Seek? then RequestSeekChunk(h, mxc, waiters[0], local) else h;
      var here := if waiters[0].Seek? && mxc in h.open && waiters[0].index in local.fails then {waiters[0].id} else {};
      if waiters[0].Seek? {
        SeekChunkServes(h, mxc, waiters[0], local);
        SeekChunkFrame(h, mxc, waiters[0], local);
      }
      SeekChunksServe(first, mxc, waiters[1..], local);
      ServedTwice(h, first, RequestSeekChunks(first, mxc, waiters[1..], local), here, UnreadHere(first, mxc, waiters[1..], local));
      assert here + UnreadHere(first, mxc, waiters[1..], local) <= UnreadHere(h, mxc, waiters, local);
    }
  }

  // ---- a reply ----

  /** With the entry of a request in hand, the GETs of the file are those in the table and those on the entry. */
  lemma {:induction false} HangingSplit(inFlight: map<Request, InFlight>, r: Request)
    requires r in inFlight
    ensures Hanging(inFlight - {r}, r.mxc) + On(inFlight[r].waiters) == Hanging(inFlight, r.mxc)
  {
  }

  lemma {:induction false} TakenFails(h: Handler, v: Verdict, local: LocalReads)
    requires h.line.replies != [] && h.line.replies[0].result.Ack? && h.line.replies[0].action in h.inFlight
    ensures var r := h.line.replies[0].action;
            AckFails(h.(line := TakeReply(h.line), inFlight := h.inFlight - {r}), r, h.inFlight[r], v, local)
            <= ReplyFails(h, v, local)
  {
    HangingSplit(h.inFlight, h.line.replies[0].action);
  }

  lemma {:induction false} GiveUpServes(s: State, r: Request, entry: InFlight, error: Error)
    ensures Served(s.h, GiveUp(s, r, entry, error).h,
                   if Main in entry.waiters || error.NotFound? || error.Forbidden?
                   then Hanging(s.h.inFlight, r.mxc) + On(entry.waiters) else On(entry.waiters))
  {
    var told := s.(h := AnswerSeeks(s.h, entry.waiters));
    AnswerServes(s.h, entry.waiters);
    if HasMain(entry.waiters) || IsPermanentRefusal(error) {
      FailServes(told, r.mxc, error, IsPermanentRefusal(error));
      ServedTwice(s.h, told.h, GiveUp(s, r, entry, error).h, On(entry.waiters), Hanging(s.h.inFlight, r.mxc));
      assert On(entry.waiters) + Hanging(s.h.inFlight, r.mxc) == Hanging(s.h.inFlight, r.mxc) + On(entry.waiters);
    }
  }

  lemma {:induction false} TriesAgainServes(s: State, r: Request, entry: InFlight, error: Error)
    requires Bounded(r, entry) && !Outcomes.IsFinal(error, entry.retries) && !error.Network?
    ensures SameAnswers(s.h, RequestFailed(s, r, entry, error).h)
  {
  }

  lemma {:induction false} CutOffServes(s: State, r: Request, entry: InFlight)
    ensures Served(s.h, RequestFailed(s, r, entry, Network).h, On(entry.waiters))
  {
    AnswerServes(s.h, entry.waiters);
    assert SameAnswers(AnswerSeeks(s.h, entry.waiters), RequestFailed(s, r, entry, Network).h);
  }

  lemma {:induction false} FailedServes(s: State, r: Request, entry: InFlight, error: Error)
    requires Bounded(r, entry)
    ensures Served(s.h, RequestFailed(s, r, entry, error).h, RefusalFails(s.h.inFlight, r, entry, error))
  {
    if error.Network? {
      assert RequestFailed(s, r, entry, error) == RequestFailed(s, r, entry, Network);
      CutOffServes(s, r, entry);
    } else if Outcomes.IsFinal(error, entry.retries) {
      assert RequestFailed(s, r, entry, error) == GiveUp(s, r, entry, error);
      GiveUpServes(s, r, entry, error);
    } else {
      TriesAgainServes(s, r, entry, error);
    }
  }

  lemma {:induction false} UnverifiedServes(s: State, mxc: Mxc, entry: InFlight, error: Error)
    ensures Served(s.h, Unverified(s, mxc, entry, error).h,
                   if mxc in s.h.open then Hanging(s.h.inFlight, mxc) + On(entry.waiters) else On(entry.waiters))
  {
    var told := s.(h := AnswerSeeks(s.h, entry.waiters));
    AnswerServes(s.h, entry.waiters);
    if mxc in s.h.open {
      FailServes(told, mxc, error, true);
      ServedTwice(s.h, told.h, Unverified(s, mxc, entry, error).h, On(entry.waiters), Hanging(s.h.inFlight, mxc));
      assert On(entry.waiters) + Hanging(s.h.inFlight, mxc) == Hanging(s.h.inFlight, mxc) + On(entry.waiters);
    }
  }

  lemma {:induction false} InfoServes(s: State, mxc: Mxc, entry: InFlight, v: Verdict, local: LocalReads)
    requires Bounded(Info(mxc), entry)
    ensures Served(s.h, InfoArrived(s, mxc, entry, v, local).h, AckFails(s.h, Info(mxc), entry, v, local))
  {
    if mxc !in s.h.open && mxc !in s.h.seekOnly {
      AnswerServes(s.h, entry.waiters);
    } else if v.refused.Some? {
      RefusedInfoServes(s, mxc, entry, v, local);
    } else {
      AcceptedInfoServes(s, mxc, entry, v, local);
    }
  }

  lemma {:induction false} RefusedInfoServes(s: State, mxc: Mxc, entry: InFlight, v: Verdict, local: LocalReads)
    requires Bounded(Info(mxc), entry) && v.refused.Some? && (mxc in s.h.open || mxc in s.h.seekOnly)
    ensures Served(s.h, InfoArrived(s, mxc, entry, v, local).h, AckFails(s.h, Info(mxc), entry, v, local))
  {
    if Outcomes.IsBroken(Info(mxc), v.refused.value, entry.retries) {
      assert InfoArrived(s, mxc, entry, v, local) == Unverified(s, mxc, entry, v.refused.value);
      UnverifiedServes(s, mxc, entry, v.refused.value);
    } else {
      assert SameAnswers(s.h, InfoArrived(s, mxc, entry, v, local).h);
    }
  }

  lemma {:induction false} AcceptedInfoServes(s: State, mxc: Mxc, entry: InFlight, v: Verdict, local: LocalReads)
    requires v.refused.None? && (mxc in s.h.open || mxc in s.h.seekOnly)
    ensures Served(s.h, InfoArrived(s, mxc, entry, v, local).h, AckFails(s.h, Info(mxc), entry, v, local))
  {
    var accepted := AcceptInfo(s.h, mxc);
    var asked := s.(h := RequestSeekChunks(accepted, mxc, entry.waiters, local));
    var next := InfoArrived(s, mxc, entry, v, local);
    var bad := UnreadHere(s.h, mxc, entry.waiters, local);
    SeekChunksServe(accepted, mxc, entry.waiters, local);
    Outcomes.SeekChunksSame(accepted, mxc, entry.waiters, local);
    assert Served(s.h, asked.h, bad);
    if HasMain(entry.waiters) {
      assert next == ContinueMain(asked, mxc, v.disk);
      if mxc in s.h.open {
        ContinueServes(asked, mxc, v.disk);
        var stuck := if GetsStuck(asked.h, mxc, asked.h.open[mxc], v.disk) then Hanging(asked.h.inFlight, mxc) else {};
        ServedTwice(s.h, asked.h, next.h, bad, stuck);
        ServedMore(s.h, next.h, bad + stuck, AckFails(s.h, Info(mxc), entry, v, local));
      } else {
        JoblessServes(asked, mxc, v.disk);
      }
    }
  }

  lemma {:induction false} JoblessServes(s: State, mxc: Mxc, disk: DiskResults)
    requires mxc !in s.h.open
    ensures SameAnswers(s.h, ContinueMain(s, mxc, disk).h)
  {
  }

  lemma {:induction false} ChunkServes(s: State, mxc: Mxc, index: nat, entry: InFlight, v: Verdict, local: LocalReads)
    requires Bounded(Chunk(mxc, index), entry)
    requires Main in entry.waiters && mxc in s.h.open ==> index == Next(s.h.open[mxc]) && mxc in s.h.q.downloading
    ensures Served(s.h, ChunkArrived(s, mxc, index, entry, v).h, AckFails(s.h, Chunk(mxc, index), entry, v, local))
  {
    if mxc !in s.h.open && mxc !in s.h.seekOnly {
      AnswerServes(s.h, entry.waiters);
    } else if v.refused.Some? {
      RefusedChunkServes(s, mxc, index, entry, v, local);
    } else if mxc !in s.h.open {
      GiveServes(s.h, entry.waiters, mxc, ChunkStart(index, s.h.seekOnly[mxc].manifest.chunkSize), v.plain);
    } else {
      OpenChunkServes(s, mxc, index, entry, v, local);
    }
  }

  lemma {:induction false} RefusedChunkServes(s: State, mxc: Mxc, index: nat, entry: InFlight, v: Verdict, local: LocalReads)
    requires Bounded(Chunk(mxc, index), entry) && v.refused.Some? && (mxc in s.h.open || mxc in s.h.seekOnly)
    ensures Served(s.h, ChunkArrived(s, mxc, index, entry, v).h, AckFails(s.h, Chunk(mxc, index), entry, v, local))
  {
    if Outcomes.IsBroken(Chunk(mxc, index), v.refused.value, entry.retries) {
      assert ChunkArrived(s, mxc, index, entry, v) == Unverified(s, mxc, entry, v.refused.value);
      UnverifiedServes(s, mxc, entry, v.refused.value);
    } else {
      assert SameAnswers(s.h, ChunkArrived(s, mxc, index, entry, v).h);
    }
  }

  lemma {:induction false} OpenChunkServes(s: State, mxc: Mxc, index: nat, entry: InFlight, v: Verdict, local: LocalReads)
    requires v.refused.None? && mxc in s.h.open
    requires Main in entry.waiters ==> index == Next(s.h.open[mxc]) && mxc in s.h.q.downloading
    ensures Served(s.h, ChunkArrived(s, mxc, index, entry, v).h, AckFails(s.h, Chunk(mxc, index), entry, v, local))
  {
    var m := s.h.open[mxc];
    var next := ChunkArrived(s, mxc, index, entry, v);
    var given := s.(h := GivePiece(s.h, entry.waiters, mxc, ChunkStart(index, m.manifest.chunkSize), v.plain));
    GiveServes(s.h, entry.waiters, mxc, ChunkStart(index, m.manifest.chunkSize), v.plain);
    if Main !in entry.waiters {
      assert SameAnswers(given.h, next.h);
    } else if v.unwritten.Some? {
      assert next == FailMedia(given, mxc, v.unwritten.value, false);
      FailServes(given, mxc, v.unwritten.value, false);
      ServedTwice(s.h, given.h, next.h, {}, Hanging(s.h.inFlight, mxc));
    } else {
      var landed := given.(h := LandArrived(given.h, mxc, v.plain));
      assert next == ContinueMain(landed, mxc, v.disk);
      assert landed.h.open[mxc] == Outcomes.Landed(m, Chunk(mxc, index), v);
      ContinueServes(landed, mxc, v.disk);
      var stuck := if GetsStuck(landed.h, mxc, landed.h.open[mxc], v.disk) then Hanging(s.h.inFlight, mxc) else {};
      assert Served(s.h, landed.h, {});
      ServedTwice(s.h, landed.h, next.h, {}, stuck);
    }
  }

  lemma {:induction false} AckServes(s: State, r: Request, entry: InFlight, v: Verdict, local: LocalReads)
    requires Bounded(r, entry)
    requires r.Chunk? && Main in entry.waiters && r.mxc in s.h.open ==> r.index == Next(s.h.open[r.mxc]) && r.mxc in s.h.q.downloading
    ensures Served(s.h, (if r.Info? then InfoArrived(s, r.mxc, entry, v, local) else ChunkArrived(s, r.mxc, r.index, entry, v)).h,
                   AckFails(s.h, r, entry, v, local))
  {
    if r.Info? { InfoServes(s, r.mxc, entry, v, local); } else { ChunkServes(s, r.mxc, r.index, entry, v, local); }
  }

  lemma {:induction false} ReplyServes(w: World, s: State, v: Verdict, local: LocalReads)
    requires Inv(w, s, None, multiset{}) && s.h.line.replies != []
    ensures Served(s.h, HandleReply(s, v, local).h, ReplyFails(s.h, v, local))
  {
    var r := s.h.line.replies[0].action;
    if r in s.h.inFlight {
      DownloadTable.MainIsCounted(s.h.inFlight[r].waiters);
      EntryServes(s, r, v, local);
    }
  }

  lemma {:induction false} EntryServes(s: State, r: Request, v: Verdict, local: LocalReads)
    requires s.h.line.replies != [] && r == s.h.line.replies[0].action && r in s.h.inFlight && Bounded(r, s.h.inFlight[r])
    requires r.Chunk? && Main in s.h.inFlight[r].waiters && r.mxc in s.h.open ==>
               r.index == Next(s.h.open[r.mxc]) && r.mxc in s.h.q.downloading
    ensures Served(s.h, HandleReply(s, v, local).h, ReplyFails(s.h, v, local))
  {
    var reply := s.h.line.replies[0];
    var entry := s.h.inFlight[r];
    var taken := s.(h := s.h.(line := TakeReply(s.h.line), inFlight := s.h.inFlight - {r}));
    var next := HandleReply(s, v, local);
    HangingSplit(s.h.inFlight, r);
    match reply.result
    case Ack =>
      assert next == if r.Info? then InfoArrived(taken, r.mxc, entry, v, local) else ChunkArrived(taken, r.mxc, r.index, entry, v);
      AckServes(taken, r, entry, v, local);
      TakenFails(s.h, v, local);
      ServedMore(s.h, next.h, AckFails(taken.h, r, entry, v, local), AckFails(s.h, r, entry, v, local));
    case Refused(error) =>
      assert next == RequestFailed(taken, r, entry, error);
      FailedServes(taken, r, entry, error);
      ServedMore(s.h, next.h, RefusalFails(taken.h.inFlight, r, entry, error), RefusalFails(s.h.inFlight, r, entry, error));
  }

  // ---- any move ----

  lemma {:induction false} SeekAtServes(h: Handler, mxc: Mxc, chunkSize: nat, id: SeekId, local: LocalReads)
    requires mxc in h.open || mxc in h.seekOnly
    ensures Served(h, RequestSeekAt(h, mxc, chunkSize, id, local), LookFails(id, chunkSize, if mxc in h.open then local.fails else {}))
  {
    match ChunkIndexAt(id.position, chunkSize)
    case NoChunk => AnswerServes(h, [Seek(0, id, chunkSize)]);
    case Index(index) => SeekChunkServes(h, mxc, Seek(index, id, chunkSize), local);
  }

  lemma {:induction false} TakeSeekServes(h: Handler, local: LocalReads)
    requires h.seeks != []
    ensures var job := h.seeks[0];
            var mxc := job.manifest.mxc;
            Served(h, TakeSeek(h, local), if mxc in h.open then LookFails(job, h.open[mxc].manifest.chunkSize, local.fails) else {})
  {
    var job := h.seeks[0];
    var mxc := job.manifest.mxc;
    if mxc in h.open { SeekAtServes(h.(seeks := h.seeks[1..]), mxc, h.open[mxc].manifest.chunkSize, job, local); }
  }

  lemma {:induction false} SeekMissedServes(s: State, local: LocalReads)
    requires s.h.task.SeekLooking?
    ensures var job := s.h.task.job;
            var mxc := job.manifest.mxc;
            Served(s.h, SeekLooked(s, false, local),
                   LookFails(job, (if mxc in s.h.seekOnly then s.h.seekOnly[mxc].manifest else job.manifest).chunkSize,
                             if mxc in s.h.open then local.fails else {}))
  {
    var job := s.h.task.job;
    var mxc := job.manifest.mxc;
    var known := s.h.(task := Idle, seekOnly := Remember(s.h.seekOnly, job, s.h.line.now));
    SeekAtServes(known, mxc, known.seekOnly[mxc].manifest.chunkSize, job, local);
  }

  lemma {:induction false} SeekFoundServes(s: State, local: LocalReads)
    requires s.h.task.SeekLooking? && Key(s.h, s.h.task.job.manifest.mxc) in s.d.pool
    requires s.d.pool[Key(s.h, s.h.task.job.manifest.mxc)].chunkSize > 0
    ensures Served(s.h, SeekLooked(s, true, local), PoolFails(s.h.task.job, s.d.pool[Key(s.h, s.h.task.job.manifest.mxc)], local.fails))
  {
    var job := s.h.task.job;
    var mxc := job.manifest.mxc;
    var f := s.d.pool[Key(s.h, mxc)];
    var h := s.h.(task := Idle);
    match ChunkIndexAt(job.position, f.chunkSize)
    case NoChunk => AnswerServes(h, [Seek(0, job, f.chunkSize)]);
    case Index(index) =>
      var to := Seek(index, job, f.chunkSize);
      var piece := PoolPiece(f, index, local.fails);
      if piece.Some? { GiveServes(h, [to], mxc, ChunkStart(index, f.chunkSize), piece.value); } else { AnswerServes(h, [to]); }
  }

  lemma {:induction false} AnsweredServes(s: State, found: bool, unread: set<nat>)
    requires s.h.finishing.Answering?
    requires found ==> Key(s.h, s.h.finishing.mxc) in s.d.pool && s.d.pool[Key(s.h, s.h.finishing.mxc)].chunkSize > 0
    ensures var mxc := s.h.finishing.mxc;
            Served(s.h, FinishAnswered(s, found, unread).h,
                   if found then LastFails(s.h, mxc, s.d.pool[Key(s.h, mxc)], unread) else Hanging(s.h.inFlight, mxc))
  {
    var mxc := s.h.finishing.mxc;
    var pieces := if found then PiecesFromPool(s.d.pool[Key(s.h, mxc)], mxc, s.h.inFlight, RequestsOf(s.h, mxc), unread) else {};
    var ready := s.(h := DropRequests(s.h, mxc).(finishing := NotFinishing, pieces := s.h.pieces + pieces));
    assert FinishAnswered(s, found, unread) == EndJob(ready, mxc, s.h.finishing.end);
    EndServes(ready, mxc, s.h.finishing.end);
    DropServes(s.h, mxc);
    if found {
      forall id | id in Hanging(s.h.inFlight, mxc) && id !in LastFails(s.h, mxc, s.d.pool[Key(s.h, mxc)], unread)
        ensures HasPiece(ready.h, id)
      {
        LastPiece(s.h, mxc, s.d.pool[Key(s.h, mxc)], unread, id, ready.h);
      }
    }
  }

  lemma {:induction false} LastPiece(h: Handler, mxc: Mxc, f: ServerFile, unread: set<nat>, id: SeekId, h2: Handler)
    requires f.chunkSize > 0 && id in Hanging(h.inFlight, mxc) && id !in LastFails(h, mxc, f, unread)
    requires PiecesFromPool(f, mxc, h.inFlight, RequestsOf(h, mxc), unread) <= h2.pieces
    ensures HasPiece(h2, id)
  {
    var r, to :| r in h.inFlight && r.mxc == mxc && to in h.inFlight[r].waiters && to.Seek? && to.id == id;
    assert r in RequestsOf(h, mxc) && !NotInPool(f, to.index, unread);
    var p := Piece(to, mxc, ChunkStart(to.index, f.chunkSize), PoolPiece(f, to.index, unread).value);
    assert p in PiecesFromPool(f, mxc, h.inFlight, RequestsOf(h, mxc), unread);
  }

  lemma {:induction false} StartServes(s: State, disk: DiskResults)
    requires s.h.task.Preparing? && s.h.task.manifest.mxc in s.h.open
    ensures var mxc := s.h.task.manifest.mxc;
            Served(s.h, StartJob(s, disk).h, if Outcomes.Sticks(s.h.open[mxc], disk) then Hanging(s.h.inFlight, mxc) else {})
  {
    assert StartJob(s, disk) == ContinueMain(Started(s), s.h.task.manifest.mxc, disk);
    ContinueServes(Started(s), s.h.task.manifest.mxc, disk);
  }

  lemma {:induction false} PreparingServes(w: World, s: State, move: Move)
    requires Inv(w, s, None, multiset{}) && May(w, s, move) && IsPreparingMove(move)
    ensures Served(s.h, Act(w, s, move).h, FailuresOf(w, s, move))
  {
    if move.LookedMove? {
      LookedServes(s);
    } else if move.OpenedMove? {
      OpenedServes(s, move.media);
    } else if move.CancelCheckMove? {
      EndServes(SetStage(s, Tail), s.h.task.manifest.mxc, Cancelled);
    } else {
      StartServes(s, move.disk);
    }
  }

  lemma {:induction false} LookedServes(s: State)
    requires s.h.task.Preparing?
    ensures SameAnswers(s.h, FoundComplete(s).h) && SameAnswers(s.h, GiveUpJob(s).h)
    ensures !ClaimedElsewhere(s) ==> SameAnswers(s.h, StartOpening(s).h)
  {
  }

  lemma {:induction false} OpenedServes(s: State, media: Result<MediaDownload, Error>)
    requires s.h.task.Preparing?
    ensures SameAnswers(s.h, Opened(s, media).h)
  {
    if media.Err? {
      var back := SetStage(DownloadJobs.Unopened(s), Tail);
      assert Opened(s, media) == EndJob(back, s.h.task.manifest.mxc, Broken(media.error));
      EndServes(back, s.h.task.manifest.mxc, Broken(media.error));
    }
  }

  lemma {:induction false} CancelOneServes(s: State, mxc: Mxc, found: Option<Request>)
    requires found.Some? ==> MainOf(s.h, found.value, mxc)
    ensures SameAnswers(s.h, CancelOne(s, mxc, found).h)
  {
  }

  lemma {:induction false} QuietServes(w: World, s: State, move: Move)
    requires Inv(w, s, None, multiset{}) && May(w, s, move) && !IsPreparingMove(move)
    requires !move.TakeReplyMove? && !move.TakeSeekMove? && !move.SeekLookedMove? && !move.AnsweredMove?
    ensures SameAnswers(s.h, Act(w, s, move).h)
  {
    if move.CancelOneMove? { CancelOneServes(s, move.mxc, move.main); }
  }

  /** Whatever a handler does: every GET it answers has a piece, but for those something went wrong for. */
  lemma {:induction false} MoveServes(w: World, s: State, move: Move)
    requires Inv(w, s, None, multiset{}) && May(w, s, move)
    ensures Served(s.h, Act(w, s, move).h, FailuresOf(w, s, move))
  {
    if IsPreparingMove(move) {
      PreparingServes(w, s, move);
    } else if move.TakeReplyMove? {
      ReplyServes(w, s, move.v, move.local);
    } else if move.TakeSeekMove? {
      TakeSeekServes(s.h, move.local);
    } else if move.SeekLookedMove? {
      if move.found { SeekFoundServes(s, move.local); } else { SeekMissedServes(s, move.local); }
    } else if move.AnsweredMove? {
      AnsweredServes(s, move.found, move.unread);
    } else {
      QuietServes(w, s, move);
    }
  }

  // ---- over whole runs ----

  ghost predicate AnsweredAt(y: System, id: HandlerId, get: SeekId) { id in y.handlers && y.handlers[id].answered[get] > 0 }

  ghost predicate HasPieceAt(y: System, id: HandlerId, get: SeekId) { id in y.handlers && HasPiece(y.handlers[id], get) }

  /** Something goes wrong for the GET, or its handler is dropped. */
  ghost predicate FailsAt(file: Mxc -> ServerFile, y: System, e: Event, id: HandlerId, get: SeekId)
    requires SysInv(file, y) && Possible(file, y, e)
  {
    Actor(e, id) && (e.Run? ==> (RunMakes(file, y, id, e.move); get in FailuresOf(WorldOf(file, y, id), At(y, id), e.move)))
  }

  ghost predicate FailsIn(file: Mxc -> ServerFile, y: System, events: seq<Event>, id: HandlerId, get: SeekId)
    requires SysInv(file, y) && IsRun(file, y, events)
    decreases |events|
  {
    events != [] &&
    (FailsAt(file, y, events[0], id, get)
     || (StepKeeps(file, y, events[0]); FailsIn(file, After(file, y, events[0]), events[1..], id, get)))
  }

  ghost predicate Fine(y: System, id: HandlerId, get: SeekId) { AnsweredAt(y, id, get) ==> HasPieceAt(y, id, get) }

  lemma {:induction false} RunServes(file: Mxc -> ServerFile, y: System, id: HandlerId, move: Move, get: SeekId)
    requires SysInv(file, y) && Possible(file, y, Run(id, move)) && Fine(y, id, get)
    ensures Fine(After(file, y, Run(id, move)), id, get) || FailsAt(file, y, Run(id, move), id, get)
  {
    RunMakes(file, y, id, move);
    MoveServes(WorldOf(file, y, id), At(y, id), move);
    StillHas(y.handlers[id], Act(WorldOf(file, y, id), At(y, id), move).h, get);
  }

  lemma {:induction false} StillHas(h: Handler, h2: Handler, get: SeekId)
    requires h.pieces <= h2.pieces
    ensures HasPiece(h, get) ==> HasPiece(h2, get)
  {
    if HasPiece(h, get) {
      var p :| p in h.pieces && p.to.Seek? && p.to.id == get;
      assert p in h2.pieces;
    }
  }

  lemma {:induction false} EventServes(file: Mxc -> ServerFile, y: System, e: Event, id: HandlerId, get: SeekId)
    requires SysInv(file, y) && Possible(file, y, e) && Fine(y, id, get)
    ensures Fine(After(file, y, e), id, get) || FailsAt(file, y, e, id, get)
  {
    if e.Run? && e.id == id {
      RunServes(file, y, id, e.move, get);
    } else if id in y.handlers && !Actor(e, id) {
      OthersMake(file, y, e, id);
      BesideRuns(y, e, id);
    } else if id in After(file, y, e).handlers && !Actor(e, id) {
      NewOnesBegin(file, y, e, id);
    }
  }

  lemma {:induction false} FineInRun(file: Mxc -> ServerFile, y: System, events: seq<Event>, id: HandlerId, get: SeekId)
    requires SysInv(file, y) && IsRun(file, y, events) && Fine(y, id, get)
    ensures Fine(EndOf(file, y, events), id, get) || FailsIn(file, y, events, id, get)
    decreases |events|
  {
    if events != [] {
      StepKeeps(file, y, events[0]);
      EventServes(file, y, events[0], id, get);
      if Fine(After(file, y, events[0]), id, get) { FineInRun(file, After(file, y, events[0]), events[1..], id, get); }
    }
  }

  /** From the start of a process, over every run: a GET that was answered was given a piece, unless one of the failures
      `FailuresOf` names happened to it or its handler was dropped. What the piece is, `PiecesAreRight` says. */
  lemma {:induction false} AnsweredHasPiece(file: Mxc -> ServerFile, start: System, events: seq<Event>, id: HandlerId, get: SeekId)
    requires Starting(file, start) && SysInv(file, start) && IsRun(file, start, events)
    requires AnsweredAt(EndOf(file, start, events), id, get) && !FailsIn(file, start, events, id, get)
    ensures HasPieceAt(EndOf(file, start, events), id, get)
  {
    FineInRun(file, start, events, id, get);
  }
}
