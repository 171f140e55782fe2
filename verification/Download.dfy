/** The download handler of one account (download_queue.rs) as a state machine. Each function is what the handler does
    between two awaits (or between two locks, where another thread could get in); `task` and `finishing` say where
    it stands. Results of the sdk, the disk and the database come in as parameters. */
module Download {
  import opened Files
  import opened Wrappers
  import Tally
  import opened Lines
  import opened JobQueue

  const TIMEOUT_ATTEMPTS: nat := 3
  const SEEK_ONLY_KEPT: nat := 16

  type HandlerId = int

  /** What the outside knows: what the server really has under each mxc, and which waiters this handler has to answer
      (given to it and not sent away with a job). */
  datatype World = World(file: Mxc -> ServerFile, due: multiset<Waiter>)

  // ---- a file being written: the sdk's MediaDownload ----

  /** `main` is the main file, chunk by chunk; `store` holds chunks fetched out of order for a GET. */
  datatype MediaDownload = MediaDownload(manifest: Manifest, needsInfo: bool, main: seq<Bytes>, store: map<nat, Bytes>)

  function Next(m: MediaDownload): nat { |m.main| }

  function Total(m: MediaDownload): nat { ChunkCount(m.manifest.size, m.manifest.chunkSize) }

  predicate IsWritten(m: MediaDownload) { Next(m) >= Total(m) }

  function LocalChunk(m: MediaDownload, index: nat): Option<Bytes> {
    if index < Next(m) then Some(m.main[index])
    else if index in m.store then Some(m.store[index])
    else None
  }

  /** Chunks that cannot be read back, and chunks the sdk says are not there: not sealed yet, or their slot does not decode. */
  datatype LocalReads = LocalReads(fails: set<nat>, missing: set<nat>)

  // ---- requests ----

  datatype Request = Info(mxc: Mxc) | Chunk(mxc: Mxc, index: nat)

  /** A GET: the file as it describes it, the position it wants, and a number for its reply handle. */
  datatype SeekJob = SeekJob(manifest: Manifest, position: nat, number: int)
  type SeekId = SeekJob

  /** Who hangs on a request: the main file, or a GET with its chunk number and the chunk size that was worked out with. */
  datatype Waiting = Main | Seek(index: nat, id: SeekId, cut: nat)

  /** The GET wants this file, and its chunk number is that of its position. */
  predicate AskedFor(w: Waiting, mxc: Mxc) {
    w.Seek? ==> w.id.manifest.mxc == mxc && ChunkIndexAt(w.id.position, w.cut) == Index(w.index)
  }

  /** It hangs on its own chunk, or on `Info` before it. */
  predicate HangsRight(w: Waiting, r: Request) { AskedFor(w, r.mxc) && (w.Seek? && r.Chunk? ==> w.index == r.index) }

  datatype Retries = Retries(timeouts: nat, badReplies: nat)
  datatype InFlight = InFlight(waiters: seq<Waiting>, retries: Retries)

  const NO_RETRIES := Retries(0, 0)

  predicate IsPermanentRefusal(error: Error) { error.NotFound? || error.Forbidden? }

  predicate IsBadReply(error: Error) { error.Protocol? || error.Corrupt? }

  function HasMain(waiters: seq<Waiting>): bool { Main in waiters }

  function MainCount(waiters: seq<Waiting>): nat {
    if waiters == [] then 0 else (if waiters[0].Main? then 1 else 0) + MainCount(waiters[1..])
  }

  function SeekIds(waiters: seq<Waiting>): multiset<SeekId> {
    if waiters == [] then multiset{}
    else (if waiters[0].Seek? then multiset{waiters[0].id} else multiset{}) + SeekIds(waiters[1..])
  }

  function SeeksOnly(waiters: seq<Waiting>): seq<Waiting> {
    if waiters == [] then []
    else if waiters[0].Main? then SeeksOnly(waiters[1..])
    else [waiters[0]] + SeeksOnly(waiters[1..])
  }

  // ---- the handler ----

  datatype SeekOnly = SeekOnly(manifest: Manifest, verified: bool, lastUsed: nat)

  /** One piece of plain text a GET was given, under the position where the piece begins. */
  datatype Piece = Piece(to: Waiting, mxc: Mxc, start: nat, plain: Bytes)

  datatype JobEnd = Complete | Cancelled | Broken(error: Error)

  datatype Stage = Looking | Opening | Ready | Checked | Tail
  datatype Task = Idle | Preparing(manifest: Manifest, stage: Stage) | SeekLooking(job: SeekJob)
  datatype Finishing = NotFinishing | Recording(mxc: Mxc) | Answering(mxc: Mxc, end: JobEnd)

  /** `seeks` is the channel GETs come in on; `asked`, `answered` and `pieces` record its other end. */
  datatype Handler = Handler(
    id: HandlerId,
    dir: nat,
    q: QueueState,
    open: map<Mxc, MediaDownload>,
    seekOnly: map<Mxc, SeekOnly>,
    opening: set<Mxc>,
    inFlight: map<Request, InFlight>,
    line: Line<Request>,
    seeks: seq<SeekJob>,
    task: Task,
    finishing: Finishing,
    closed: bool,
    asked: multiset<SeekId>,
    answered: multiset<SeekId>,
    pieces: set<Piece>)

  // ---- what handlers share ----

  datatype FileKey = FileKey(dir: nat, mxc: Mxc)

  /** The claim table, the unfinished files kept on disk, the pool of complete files, and the rows marked complete. */
  datatype Shared = Shared(
    claims: map<FileKey, HandlerId>,
    disk: map<FileKey, MediaDownload>,
    pool: map<FileKey, ServerFile>,
    complete: set<FileKey>)

  datatype State = State(h: Handler, d: Shared)

  function Key(h: Handler, mxc: Mxc): FileKey { FileKey(h.dir, mxc) }

  // ---- MediaClaims ----

  /** Claimed: by nobody so far, or by this handler already. */
  predicate CanClaim(d: Shared, key: FileKey, id: HandlerId) { key in d.claims ==> d.claims[key] == id }

  function Claim(d: Shared, key: FileKey, id: HandlerId): Shared
    requires CanClaim(d, key, id)
  {
    d.(claims := d.claims[key := id])
  }

  function Release(d: Shared, key: FileKey, id: HandlerId): Shared {
    if key in d.claims && d.claims[key] == id then d.(claims := d.claims - {key}) else d
  }

  // ---- the in-flight table and the send queue ----

  function Push(line: Line<Request>, r: Request, atFront: bool): Line<Request> {
    if atFront then PushFront(line, r) else PushBack(line, r)
  }

  /** Wanting a request: hang on to the one in flight, or queue it. A seek brings a queued one to the front. */
  function Want(h: Handler, r: Request, waiting: Waiting, atFront: bool): Handler {
    if r in h.inFlight then
      var entry := h.inFlight[r];
      h.(inFlight := h.inFlight[r := entry.(waiters := entry.waiters + [waiting])],
         line := if atFront && r in h.line.queued then PushFront(Withdraw(h.line, {r}), r) else h.line)
    else
      h.(inFlight := h.inFlight[r := InFlight([waiting], NO_RETRIES)], line := Push(h.line, r, atFront))
  }

  function Resend(h: Handler, r: Request, waiters: seq<Waiting>, retries: Retries): Handler {
    h.(inFlight := h.inFlight[r := InFlight(waiters, retries)], line := PushFront(h.line, r))
  }

  /** The GETs among the waiters get an error. */
  function AnswerSeeks(h: Handler, waiters: seq<Waiting>): Handler {
    h.(answered := h.answered + SeekIds(waiters))
  }

  /** The GETs among the waiters get this piece. */
  function GivePiece(h: Handler, waiters: seq<Waiting>, mxc: Mxc, start: nat, plain: Bytes): Handler {
    AnswerSeeks(h, waiters).(pieces := h.pieces + set w | w in waiters && w.Seek? :: Piece(w, mxc, start, plain))
  }

  predicate Busy(h: Handler, mxc: Mxc) { exists r :: r in h.inFlight && r.mxc == mxc }

  function RequestsOf(h: Handler, mxc: Mxc): set<Request> { set r | r in h.inFlight && r.mxc == mxc }

  ghost function Seekers(inFlight: map<Request, InFlight>): map<Request, multiset<SeekId>> {
    map r | r in inFlight :: SeekIds(inFlight[r].waiters)
  }

  /** Every GET hanging on some request. */
  ghost function Attached(inFlight: map<Request, InFlight>): multiset<SeekId> { Tally.Sum(Seekers(inFlight)) }

  /** All requests of one file leave the table and, where still queued, the send queue. Its GETs are answered. */
  ghost function DropRequests(h: Handler, mxc: Mxc): Handler {
    var gone := RequestsOf(h, mxc);
    h.(inFlight := h.inFlight - gone,
       line := Withdraw(h.line, gone),
       answered := h.answered + Attached(Tally.Only(h.inFlight, gone)))
  }

  // ---- ending a job ----

  /** Close an open file, keeping what is written; the claim goes with it. */
  function CloseKeeping(s: State, mxc: Mxc): State
    requires mxc in s.h.open
  {
    var key := Key(s.h, mxc);
    State(s.h.(open := s.h.open - {mxc}),
          Release(s.d, key, s.h.id).(disk := s.d.disk[key := s.h.open[mxc]]))
  }

  /** Close an open file and delete it. */
  function CloseDiscarding(s: State, mxc: Mxc): State
    requires mxc in s.h.open
  {
    var key := Key(s.h, mxc);
    State(s.h.(open := s.h.open - {mxc}), Release(s.d, key, s.h.id).(disk := s.d.disk - {key}))
  }

  function OutcomeOf(end: JobEnd): Outcome {
    match end
    case Complete => Finished
    case Cancelled => Failed(Usage)
    case Broken(error) => Failed(error)
  }

  function LeaveQueue(q: QueueState, mxc: Mxc, end: JobEnd): QueueState {
    Tell(q.(downloading := q.downloading - {mxc}), mxc, OutcomeOf(end))
  }

  function EndJob(s: State, mxc: Mxc, end: JobEnd): State {
    var ended := s.(h := s.h.(q := LeaveQueue(s.h.q, mxc, end)));
    if end.Cancelled? && !Busy(s.h, mxc) && mxc in s.h.open then CloseKeeping(ended, mxc) else ended
  }

  /** This file stops: its requests go, its GETs get the error, the file is deleted or kept, its job fails. */
  ghost function FailMedia(s: State, mxc: Mxc, error: Error, discard: bool): State {
    var dropped := s.(h := DropRequests(s.h, mxc));
    var closed := if mxc !in s.h.open then dropped
                  else if discard then CloseDiscarding(dropped, mxc) else CloseKeeping(dropped, mxc);
    if mxc in closed.h.q.downloading then EndJob(closed, mxc, Broken(error)) else closed
  }

  // ---- the main file ----

  /** Disk results of one run of the handler: which slots of the seek store do not decode, which chunks of it cannot be written
      to the main file, whether the finished file goes into the pool; and the error of what fails. */
  datatype DiskResults = DiskResults(undecodable: set<nat>, unmovable: set<nat>, adopts: bool, fault: Error)

  /** The next chunk is in the seek store and can be read there. */
  predicate InStore(m: MediaDownload, disk: DiskResults) { Next(m) in m.store && Next(m) !in disk.undecodable }

  function SetDone(q: QueueState, mxc: Mxc, done: nat): QueueState
    requires mxc in q.downloading
  {
    q.(downloading := q.downloading[mxc := q.downloading[mxc].(done := done)])
  }

  function Land(m: MediaDownload, plain: Bytes): MediaDownload {
    m.(main := m.main + [plain], store := m.store - {Next(m)})
  }

  /** The main file goes on: finish it, move the next chunk out of the seek store, or want the next request. */
  ghost function ContinueMain(s: State, mxc: Mxc, disk: DiskResults): State
    decreases if mxc in s.h.open then Total(s.h.open[mxc]) - Next(s.h.open[mxc]) else 0
  {
    if mxc !in s.h.q.downloading then s
    else if s.h.q.downloading[mxc].cancelled then EndJob(s, mxc, Cancelled)
    else if mxc !in s.h.open then EndJob(s, mxc, Broken(Io))
    else
      var m := s.h.open[mxc];
      if IsWritten(m) then FinishJob(s.(h := s.h.(q := SetDone(s.h.q, mxc, Total(m)))), mxc, disk)
      else if m.needsInfo then s.(h := Want(s.h, Info(mxc), Main, false))
      else if InStore(m, disk) && Next(m) in disk.unmovable then FailMedia(s, mxc, disk.fault, true)
      else if InStore(m, disk) then ContinueMain(s.(h := LandFromStore(s.h, mxc)), mxc, disk)
      else s.(h := Want(s.h, Chunk(mxc, Next(m)), Main, false))
  }

  /** The chunk the main file needs next is in the seek store: move it over. */
  function LandFromStore(h: Handler, mxc: Mxc): Handler
    requires mxc in h.open && mxc in h.q.downloading && Next(h.open[mxc]) in h.open[mxc].store
  {
    var m := h.open[mxc];
    h.(open := h.open[mxc := Land(m, m.store[Next(m)])], q := SetDone(h.q, mxc, Next(m) + 1))
  }

  /** The main file is whole: out of `open`, into the pool; then the row is recorded (an await). */
  function FinishJob(s: State, mxc: Mxc, disk: DiskResults): State
    requires mxc in s.h.open
  {
    var key := Key(s.h, mxc);
    var m := s.h.open[mxc];
    var taken := s.h.(open := s.h.open - {mxc});
    if disk.adopts then
      State(taken.(finishing := Recording(mxc)),
            s.d.(disk := s.d.disk - {key},
                 pool := s.d.pool[key := ServerFile(m.manifest.chunkSize, Concat(m.main))]))
    else
      State(taken.(finishing := Answering(mxc, Broken(disk.fault))),
            Release(s.d.(disk := s.d.disk - {key}), key, s.h.id))
  }

  /** The row is recorded (or why not): only now the claim goes. */
  function FinishRecorded(s: State, failed: Option<Error>): State
    requires s.h.finishing.Recording?
  {
    var mxc := s.h.finishing.mxc;
    var key := Key(s.h, mxc);
    var d := if failed.None? then s.d.(complete := s.d.complete + {key}) else s.d;
    State(s.h.(finishing := Answering(mxc, if failed.None? then Complete else Broken(failed.value))), Release(d, key, s.h.id))
  }

  /** What the pool file says chunk `index` is, as the row cuts it; some may not be readable. */
  function PoolPiece(f: ServerFile, index: nat, unread: set<nat>): Option<Bytes> {
    var start := ChunkStart(index, f.chunkSize);
    if index in unread || start >= Min(start + f.chunkSize, |f.plain|) then None
    else Some(f.plain[start..Min(start + f.chunkSize, |f.plain|)])
  }

  function PiecesFromPool(f: ServerFile, mxc: Mxc, inFlight: map<Request, InFlight>, gone: set<Request>,
      unread: set<nat>): set<Piece> {
    set r, w | r in gone && r in inFlight && w in inFlight[r].waiters && w.Seek? && PoolPiece(f, w.index, unread).Some?
             :: Piece(w, mxc, ChunkStart(w.index, f.chunkSize), PoolPiece(f, w.index, unread).value)
  }

  /** The GETs still hanging on the finished file are answered from the pool, then the job ends. */
  ghost function FinishAnswered(s: State, found: bool, unread: set<nat>): State
    requires s.h.finishing.Answering?
    requires found ==> Key(s.h, s.h.finishing.mxc) in s.d.pool
  {
    var mxc := s.h.finishing.mxc;
    var end := s.h.finishing.end;
    var pieces := if found then PiecesFromPool(s.d.pool[Key(s.h, mxc)], mxc, s.h.inFlight, RequestsOf(s.h, mxc), unread)
                  else {};
    var dropped := DropRequests(s.h, mxc);
    EndJob(s.(h := dropped.(finishing := NotFinishing, pieces := s.h.pieces + pieces)), mxc, end)
  }

  // ---- one reply ----

  /** What the sdk says of one acknowledgement: verified (None) or why not; and whether the chunk could be written. */
  datatype Verdict = Verdict(refused: Option<Error>, plain: Bytes, unwritten: Option<Error>, disk: DiskResults)

  ghost function HandleReply(s: State, v: Verdict, local: LocalReads): State
    requires s.h.line.replies != []
  {
    var reply := s.h.line.replies[0];
    var h := s.h.(line := TakeReply(s.h.line));
    if reply.action !in h.inFlight then s.(h := h)
    else
      var entry := h.inFlight[reply.action];
      var taken := s.(h := h.(inFlight := h.inFlight - {reply.action}));
      match reply.result
      case Ack =>
        if reply.action.Info? then InfoArrived(taken, reply.action.mxc, entry, v, local)
        else ChunkArrived(taken, reply.action.mxc, reply.action.index, entry, v)
      case Refused(error) => RequestFailed(taken, reply.action, entry, error)
  }

  ghost function RequestFailed(s: State, r: Request, entry: InFlight, error: Error): State {
    if error.Network? then
      var told := AnswerSeeks(s.h, entry.waiters);
      s.(h := if HasMain(entry.waiters) then Resend(told, r, [Main], entry.retries) else told)
    else if error.Timeout? && entry.retries.timeouts + 1 < TIMEOUT_ATTEMPTS then
      s.(h := Resend(s.h, r, entry.waiters, entry.retries.(timeouts := entry.retries.timeouts + 1)))
    else if IsBadReply(error) && entry.retries.badReplies == 0 then
      s.(h := Resend(s.h, r, entry.waiters, entry.retries.(badReplies := 1)))
    else GiveUp(s, r, entry, error)
  }

  /** Nothing more is tried: GETs get the error; the file stops if its main request was on it, or the server refuses. */
  ghost function GiveUp(s: State, r: Request, entry: InFlight, error: Error): State {
    var told := s.(h := AnswerSeeks(s.h, entry.waiters));
    if HasMain(entry.waiters) || IsPermanentRefusal(error)
    then FailMedia(told, r.mxc, error, IsPermanentRefusal(error)) else told
  }

  /** What did not verify: GETs get the error; a file being downloaded is a broken file, a seek-only one is forgotten. */
  ghost function Unverified(s: State, mxc: Mxc, entry: InFlight, error: Error): State {
    var told := s.(h := AnswerSeeks(s.h, entry.waiters));
    if mxc in s.h.open then FailMedia(told, mxc, error, true)
    else told.(h := told.h.(seekOnly := told.h.seekOnly - {mxc}))
  }

  /** The acknowledged `Info` counts: the block is verified from now on. */
  function AcceptInfo(h: Handler, mxc: Mxc): Handler {
    if mxc in h.open then h.(open := h.open[mxc := h.open[mxc].(needsInfo := false)])
    else if mxc in h.seekOnly then h.(seekOnly := h.seekOnly[mxc := h.seekOnly[mxc].(verified := true)])
    else h
  }

  ghost function InfoArrived(s: State, mxc: Mxc, entry: InFlight, v: Verdict, local: LocalReads): State {
    if mxc !in s.h.open && mxc !in s.h.seekOnly then s.(h := AnswerSeeks(s.h, entry.waiters))
    else if v.refused.Some? then
      if IsBadReply(v.refused.value) && entry.retries.badReplies == 0
      then s.(h := Resend(s.h, Info(mxc), entry.waiters, entry.retries.(badReplies := 1)))
      else Unverified(s, mxc, entry, v.refused.value)
    else
      var asked := s.(h := RequestSeekChunks(AcceptInfo(s.h, mxc), mxc, entry.waiters, local));
      if HasMain(entry.waiters) then ContinueMain(asked, mxc, v.disk) else asked
  }

  /** Each GET that hung on `Info` goes on to its own chunk, in order. */
  function RequestSeekChunks(h: Handler, mxc: Mxc, waiters: seq<Waiting>, local: LocalReads): Handler
    decreases |waiters|
  {
    if waiters == [] then h
    else
      var first := if waiters[0].Seek? then RequestSeekChunk(h, mxc, waiters[0], local) else h;
      RequestSeekChunks(first, mxc, waiters[1..], local)
  }

  ghost function ChunkArrived(s: State, mxc: Mxc, index: nat, entry: InFlight, v: Verdict): State {
    if mxc !in s.h.open && mxc !in s.h.seekOnly then s.(h := AnswerSeeks(s.h, entry.waiters))
    else if v.refused.Some? then
      if (v.refused.value.Integrity? || v.refused.value.Protocol?) && entry.retries.badReplies == 0
      then s.(h := Resend(s.h, Chunk(mxc, index), entry.waiters, entry.retries.(badReplies := 1)))
      else Unverified(s, mxc, entry, v.refused.value)
    else if mxc !in s.h.open then
      s.(h := GivePiece(s.h, entry.waiters, mxc, ChunkStart(index, s.h.seekOnly[mxc].manifest.chunkSize), v.plain))
    else
      var m := s.h.open[mxc];
      var main := HasMain(entry.waiters);
      var lands := main && index == Next(m);
      var start := ChunkStart(index, m.manifest.chunkSize);
      var given := s.(h := GivePiece(s.h, entry.waiters, mxc, start, v.plain));
      if v.unwritten.Some? then
        if lands then FailMedia(given, mxc, v.unwritten.value, false)
        else if main then ContinueMain(given, mxc, v.disk) else given
      else
        var stored := given.(h := if lands then LandArrived(given.h, mxc, v.plain)
                                  else StoreArrived(given.h, mxc, index, v.plain));
        if main then ContinueMain(stored, mxc, v.disk) else stored
  }

  function LandArrived(h: Handler, mxc: Mxc, plain: Bytes): Handler
    requires mxc in h.open
  {
    var m := h.open[mxc];
    h.(open := h.open[mxc := Land(m, plain)],
       q := if mxc in h.q.downloading then SetDone(h.q, mxc, Next(m) + 1) else h.q)
  }

  function StoreArrived(h: Handler, mxc: Mxc, index: nat, plain: Bytes): Handler
    requires mxc in h.open
  {
    var m := h.open[mxc];
    h.(open := h.open[mxc := m.(store := m.store[index := plain])])
  }

  // ---- a GET ----

  /** Local chunks are given at once; otherwise the GET hangs on `Info` (nothing verified yet) or on its chunk. */
  function RequestSeekChunk(h: Handler, mxc: Mxc, waiting: Waiting, local: LocalReads): Handler
    requires waiting.Seek?
  {
    var index := waiting.index;
    if mxc in h.open then
      var m := h.open[mxc];
      if index in local.fails then AnswerSeeks(h, [waiting])
      else if LocalChunk(m, index).Some? && index !in local.missing
      then GivePiece(h, [waiting], mxc, ChunkStart(index, m.manifest.chunkSize), LocalChunk(m, index).value)
      else Want(h, if m.needsInfo then Info(mxc) else Chunk(mxc, index), waiting, true)
    else if mxc in h.seekOnly then
      Want(h, if h.seekOnly[mxc].verified then Chunk(mxc, index) else Info(mxc), waiting, true)
    else AnswerSeeks(h, [waiting])
  }

  /** The position becomes a chunk number by the cut of the file at hand. */
  function RequestSeekAt(h: Handler, mxc: Mxc, chunkSize: nat, id: SeekId, local: LocalReads): Handler {
    match ChunkIndexAt(id.position, chunkSize)
    case NoChunk => AnswerSeeks(h, [Seek(0, id, chunkSize)])
    case Index(index) => RequestSeekChunk(h, mxc, Seek(index, id, chunkSize), local)
  }

  /** A GET comes off the channel: a file being downloaded answers at once, otherwise the database is asked (an await). */
  function TakeSeek(h: Handler, local: LocalReads): Handler
    requires h.seeks != []
  {
    var job := h.seeks[0];
    var mxc := job.manifest.mxc;
    var taken := h.(seeks := h.seeks[1..]);
    if mxc in h.open
    then RequestSeekAt(taken, mxc, h.open[mxc].manifest.chunkSize, job, local)
    else taken.(task := SeekLooking(job))
  }

  /** The remembered seek-only files when a GET comes for one: the first description stands, and it is used now. */
  function Remember(seekOnly: map<Mxc, SeekOnly>, job: SeekJob, now: nat): map<Mxc, SeekOnly> {
    var mxc := job.manifest.mxc;
    seekOnly[mxc := if mxc in seekOnly then seekOnly[mxc].(lastUsed := now) else SeekOnly(job.manifest, false, now)]
  }

  /** The database has answered: a complete file is read from the pool, otherwise this is a seek-only file. */
  function SeekLooked(s: State, found: bool, local: LocalReads): Handler
    requires s.h.task.SeekLooking?
    requires found ==> Key(s.h, s.h.task.job.manifest.mxc) in s.d.pool
  {
    var job := s.h.task.job;
    var mxc := job.manifest.mxc;
    var h := s.h.(task := Idle);
    if found then
      var f := s.d.pool[Key(h, mxc)];
      match ChunkIndexAt(job.position, f.chunkSize)
      case NoChunk => AnswerSeeks(h, [Seek(0, job, f.chunkSize)])
      case Index(index) =>
        if PoolPiece(f, index, local.fails).Some?
        then GivePiece(h, [Seek(index, job, f.chunkSize)], mxc, ChunkStart(index, f.chunkSize), PoolPiece(f, index, local.fails).value)
        else AnswerSeeks(h, [Seek(index, job, f.chunkSize)])
    else
      var known := h.(seekOnly := Remember(h.seekOnly, job, h.line.now));
      RequestSeekAt(known, mxc, known.seekOnly[mxc].manifest.chunkSize, job, local)
  }

  // ---- one job ----

  /** A job comes off the inbox and counts as being prepared; a file not open yet needs the database (an await). */
  function TakeJob(h: Handler): Handler
    requires h.q.inbox != []
  {
    var manifest := h.q.inbox[0];
    var mxc := manifest.mxc;
    var q := h.q.(inbox := h.q.inbox[1..], preparing := h.q.preparing[mxc := false]);
    var stage := if mxc in h.q.downloading then Tail else if mxc in h.open then Ready else Looking;
    h.(q := q, task := Preparing(manifest, stage))
  }

  predicate CancelledWhilePreparing(q: QueueState, mxc: Mxc) { mxc in q.preparing && q.preparing[mxc] }

  function SetStage(s: State, stage: Stage): State
    requires s.h.task.Preparing?
  {
    s.(h := s.h.(task := s.h.task.(stage := stage)))
  }

  /** The file is complete already: nothing to download. */
  function FoundComplete(s: State): State
    requires s.h.task.Preparing?
  {
    EndJob(SetStage(s, Tail), s.h.task.manifest.mxc, Complete)
  }

  /** Not complete: claim it and start opening (an await). */
  function StartOpening(s: State): State
    requires s.h.task.Preparing? && CanClaim(s.d, Key(s.h, s.h.task.manifest.mxc), s.h.id)
  {
    var mxc := s.h.task.manifest.mxc;
    SetStage(State(s.h.(opening := s.h.opening + {mxc}), Claim(s.d, Key(s.h, mxc), s.h.id)), Opening)
  }

  /** Claimed by another handler, and cancelled or nobody to hand it to. */
  function GiveUpJob(s: State): State
    requires s.h.task.Preparing?
  {
    var mxc := s.h.task.manifest.mxc;
    EndJob(SetStage(s, Tail), mxc, if CancelledWhilePreparing(s.h.q, mxc) then Cancelled else Broken(AccountBusy))
  }

  /** Claimed by another handler: its waiters leave with the job. */
  function SendAway(h: Handler): Handler
    requires h.task.Preparing?
  {
    var mxc := h.task.manifest.mxc;
    h.(q := h.q.(waiters := h.q.waiters - {mxc}), task := h.task.(stage := Tail))
  }

  /** The file is open (`media`), or the row or the file could not be made. */
  function Opened(s: State, media: Result<MediaDownload, Error>): State
    requires s.h.task.Preparing?
  {
    var mxc := s.h.task.manifest.mxc;
    var h := s.h.(opening := s.h.opening - {mxc});
    match media
    case Err(error) =>
      EndJob(SetStage(State(h, Release(s.d, Key(h, mxc), h.id)), Tail), mxc, Broken(error))
    case Ok(m) =>
      SetStage(State(h.(open := h.open[mxc := m], seekOnly := h.seekOnly - {mxc}), s.d), Ready)
  }

  /** The flag is looked at once more, under its own lock. */
  function CancelCheck(s: State): State
    requires s.h.task.Preparing?
  {
    var mxc := s.h.task.manifest.mxc;
    if CancelledWhilePreparing(s.h.q, mxc) then EndJob(SetStage(s, Tail), mxc, Cancelled) else SetStage(s, Checked)
  }

  /** Into the `downloading` table. */
  function Started(s: State): State
    requires s.h.task.Preparing? && s.h.task.manifest.mxc in s.h.open
  {
    var mxc := s.h.task.manifest.mxc;
    var m := s.h.open[mxc];
    SetStage(s.(h := s.h.(q := s.h.q.(downloading := s.h.q.downloading[mxc := Downloading(false, Next(m), Total(m))]))), Tail)
  }

  /** Started, and the main file's first request. */
  ghost function StartJob(s: State, disk: DiskResults): State
    requires s.h.task.Preparing? && s.h.task.manifest.mxc in s.h.open
  {
    ContinueMain(Started(s), s.h.task.manifest.mxc, disk)
  }

  /** The job has been dealt with: no longer being prepared; a cancel noted there goes over to the running job. */
  function FinishPreparing(h: Handler): Handler
    requires h.task.Preparing?
  {
    var mxc := h.task.manifest.mxc;
    var q := h.q.(preparing := h.q.preparing - {mxc});
    h.(task := Idle, q := if CancelledWhilePreparing(h.q, mxc) && mxc in q.downloading then Cancel(q, mxc) else q)
  }

  // ---- between two events ----

  predicate MainOf(h: Handler, r: Request, mxc: Mxc) {
    r in h.inFlight && r.mxc == mxc && HasMain(h.inFlight[r].waiters)
  }

  /** A raised flag: if the main file's request (`found`) is still queued it goes and the job stops now; if it was sent,
      the job waits for it. GETs on the same request keep it alive. */
  function CancelOne(s: State, mxc: Mxc, found: Option<Request>): State
    requires found.Some? ==> MainOf(s.h, found.value, mxc)
  {
    if found.None? then EndJob(s, mxc, Cancelled)
    else if found.value !in s.h.line.queued then s
    else
      var r := found.value;
      var entry := s.h.inFlight[r];
      var others := SeeksOnly(entry.waiters);
      var h := s.h.(inFlight := s.h.inFlight - {r}, line := Withdraw(s.h.line, {r}));
      EndJob(s.(h := if others == [] then h else Resend(h, r, others, entry.retries)), mxc, Cancelled)
  }

  /** An open file with no job and no GET waiting is closed, kept on disk. */
  function CloseIdle(s: State, mxc: Mxc): State
    requires mxc in s.h.open
  {
    CloseKeeping(s, mxc)
  }

  predicate IsIdleFile(h: Handler, mxc: Mxc) { mxc in h.open && mxc !in h.q.downloading && !Busy(h, mxc) }

  /** Nothing of the file is in flight, and of no other such file is the last use longer ago. */
  predicate IsOldest(h: Handler, mxc: Mxc) {
    && mxc in h.seekOnly && !Busy(h, mxc)
    && (forall x :: x in h.seekOnly && !Busy(h, x) ==> h.seekOnly[mxc].lastUsed <= h.seekOnly[x].lastUsed)
  }

  /** A remembered seek-only file with nothing in flight is forgotten when there are too many. */
  function ForgetSeekOnly(h: Handler, mxc: Mxc): Handler { h.(seekOnly := h.seekOnly - {mxc}) }

  // ---- the end ----

  function KeptOnDisk(h: Handler): map<FileKey, MediaDownload> {
    map mxc | mxc in h.open :: Key(h, mxc) := h.open[mxc]
  }

  function ReleaseAll(claims: map<FileKey, HandlerId>, h: Handler): map<FileKey, HandlerId> {
    map key | key in claims && !(claims[key] == h.id && key.dir == h.dir && (key.mxc in h.open || key.mxc in h.opening))
            :: claims[key]
  }

  function ChannelIds(seeks: seq<SeekJob>): multiset<SeekId> {
    if seeks == [] then multiset{} else multiset{seeks[0]} + ChannelIds(seeks[1..])
  }

  function TaskIds(task: Task): multiset<SeekId> {
    if task.SeekLooking? then multiset{task.job} else multiset{}
  }

  /** The reply handles that go with the handler. */
  ghost function StillHeld(h: Handler): multiset<SeekId> { Attached(h.inFlight) + ChannelIds(h.seeks) + TaskIds(h.task) }

  /** Aborted at an await: open files are kept, claims of open and opening files go, every job and GET ends.
      `finishing` stays as the mark of where the handler was. */
  ghost function Close(s: State): State {
    State(s.h.(q := CloseQueue(s.h.q), open := map[], opening := {}, seekOnly := map[], inFlight := map[], seeks := [],
               task := Idle, closed := true,
               answered := s.h.answered + StillHeld(s.h)),
          s.d.(claims := ReleaseAll(s.d.claims, s.h), disk := s.d.disk + KeptOnDisk(s.h)))
  }
}
