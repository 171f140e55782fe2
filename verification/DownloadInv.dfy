/** What every step of the download handler keeps. `cut` names the file whose main request the running step holds in
    its hands (out of the in-flight table); `held` are the GETs it holds. Between steps both are empty. */
module DownloadInv {
  import opened Files
  import opened Wrappers
  import opened JobQueue
  import opened Download

  // ---- the shape of the control state ----

  /** Between two jobs, or in the tail of one: only then is the main file of any job moved on. */
  predicate Resting(h: Handler) { h.task.Idle? || (h.task.Preparing? && h.task.stage == Tail) }

  function FinishingFile(h: Handler): Option<Mxc> {
    match h.finishing
    case NotFinishing => None
    case Recording(mxc) => Some(mxc)
    case Answering(mxc, _) => Some(mxc)
  }

  ghost predicate InboxShape(q: QueueState) {
    && (forall i, j :: 0 <= i < j < |q.inbox| ==> q.inbox[i].mxc != q.inbox[j].mxc)
    && (forall i :: 0 <= i < |q.inbox| ==> q.inbox[i].mxc !in q.preparing && q.inbox[i].mxc !in q.downloading)
  }

  ghost predicate TaskShape(h: Handler) {
    && h.q.preparing.Keys == (if h.task.Preparing? then {h.task.manifest.mxc} else {})
    && h.opening == (if h.task.Preparing? && h.task.stage == Opening then {h.task.manifest.mxc} else {})
    && (h.task.Preparing? && (h.task.stage == Looking || h.task.stage == Opening) ==> h.task.manifest.mxc !in h.open)
    && (h.task.Preparing? && (h.task.stage == Ready || h.task.stage == Checked) ==> h.task.manifest.mxc in h.open)
    && (h.task.Preparing? && h.task.stage != Tail ==> h.task.manifest.mxc !in h.q.downloading)
    && (h.finishing != NotFinishing ==>
          Resting(h) && FinishingFile(h).value !in h.open && FinishingFile(h).value in h.q.downloading)
  }

  // ---- the cursor: one main request per running job ----

  /** The request that brings the main file on: `Info` exactly while it needs it, otherwise the next chunk. */
  function Cursor(mxc: Mxc, m: MediaDownload): Request {
    if m.needsInfo then Info(mxc) else Chunk(mxc, Next(m))
  }

  predicate IsCursor(h: Handler, r: Request) {
    r.mxc in h.q.downloading && r.mxc in h.open && r == Cursor(r.mxc, h.open[r.mxc])
  }

  ghost predicate CursorInv(h: Handler, cut: Option<Mxc>) {
    && (forall r :: r in h.inFlight ==>
          MainCount(h.inFlight[r].waiters) == if cut != Some(r.mxc) && IsCursor(h, r) then 1 else 0)
    && (forall mxc :: mxc in h.q.downloading ==> mxc in h.open || FinishingFile(h) == Some(mxc))
    && (forall mxc :: mxc in h.q.downloading && mxc in h.open && cut != Some(mxc) ==>
          Cursor(mxc, h.open[mxc]) in h.inFlight)
  }

  /** The progress a job shows is what has landed. */
  ghost predicate ProgressInv(h: Handler) {
    forall mxc :: mxc in h.q.downloading && mxc in h.open ==>
      h.q.downloading[mxc].done == Next(h.open[mxc]) && h.q.downloading[mxc].total == Total(h.open[mxc])
  }

  // ---- the in-flight table ----

  /** An entry has somebody who waits, each on the right request, and was not sent again too often. */
  predicate Bounded(r: Request, entry: InFlight) {
    && entry.retries.timeouts < TIMEOUT_ATTEMPTS && entry.retries.badReplies <= 1 && entry.waiters != []
    && (forall w :: w in entry.waiters ==> HangsRight(w, r))
  }

  ghost predicate TableInv(h: Handler) {
    forall r :: r in h.inFlight ==> Bounded(r, h.inFlight[r])
  }

  /** Every GET ever asked is in the channel, in the handler task, on one request, in the step's hands, or answered: once. */
  ghost predicate SeekBalance(h: Handler, held: multiset<SeekId>, id: SeekId) {
    h.asked[id] == h.answered[id] + Attached(h.inFlight)[id] + ChannelIds(h.seeks)[id] + TaskIds(h.task)[id] + held[id]
  }

  ghost predicate SeekInv(h: Handler, held: multiset<SeekId>) {
    forall id :: SeekBalance(h, held, id)
  }

  // ---- what is written is the file ----

  ghost predicate MediaSound(w: World, mxc: Mxc, m: MediaDownload) {
    var f := w.file(mxc);
    && m.manifest.mxc == mxc && m.manifest.chunkSize > 0 && 0 < Total(m) && Next(m) <= Total(m)
    && (!m.needsInfo || m.main != [] || m.store != map[] ==> Describes(m.manifest, f))
    && m.main <= Chunks(f)
    && (forall i :: i in m.store ==> i < |Chunks(f)| && m.store[i] == Chunks(f)[i])
  }

  /** The chunk the GET asked for, under the byte where that chunk begins. */
  ghost predicate PieceSound(w: World, p: Piece) {
    var f := w.file(p.mxc);
    && p.to.Seek? && AskedFor(p.to, p.mxc) && p.to.index < |Chunks(f)|
    && p.start == ChunkStart(p.to.index, f.chunkSize) && p.plain == Chunks(f)[p.to.index]
  }

  ghost predicate SharedSound(w: World, d: Shared) {
    && (forall key :: key in d.disk ==> MediaSound(w, key.mxc, d.disk[key]))
    && (forall key :: key in d.pool ==> d.pool[key] == w.file(key.mxc) && d.pool[key].chunkSize > 0)
    && (forall key :: key in d.complete ==> key in d.pool)
  }

  ghost predicate HandlerSound(w: World, h: Handler) {
    && (forall mxc :: mxc in h.open ==> MediaSound(w, mxc, h.open[mxc]))
    && (forall mxc :: mxc in h.seekOnly && h.seekOnly[mxc].verified ==> Describes(h.seekOnly[mxc].manifest, w.file(mxc)))
    && (forall p :: p in h.pieces ==> PieceSound(w, p))
  }

  /** Whoever was told "finished" finds the file complete; a file past its pool is not cancelled any more. */
  ghost predicate OutcomesSound(s: State) {
    && (forall t :: t in s.h.q.outcomes && t.outcome == Finished ==> Key(s.h, t.mxc) in s.d.complete)
    && (s.h.finishing.Recording? ==> Key(s.h, s.h.finishing.mxc) in s.d.pool)
    && (s.h.finishing.Answering? && s.h.finishing.end.Complete? ==> Key(s.h, s.h.finishing.mxc) in s.d.complete)
    && (s.h.finishing.Answering? ==> !s.h.finishing.end.Cancelled?)
  }

  // ---- waiters and claims ----

  /** Nobody waits for a job that does not exist, unless it slipped in. */
  ghost predicate WaiterInv(q: QueueState) {
    forall mxc :: mxc in q.waiters && q.waiters[mxc] != [] ==> HasJob(q, mxc) || mxc in q.slipped
  }

  /** In the tail of a job that is over nobody waits for it any more, unless it slipped in. */
  ghost predicate TailInv(h: Handler) {
    h.task.Preparing? && h.task.stage == Tail && h.task.manifest.mxc !in h.q.downloading ==>
      WaitersOf(h.q, h.task.manifest.mxc) == [] || h.task.manifest.mxc in h.q.slipped
  }

  /** The files this handler has to have claimed: open, being opened, or whole and not yet recorded. */
  predicate Holding(h: Handler, mxc: Mxc) {
    mxc in h.open || mxc in h.opening || h.finishing == Recording(mxc)
  }

  predicate Holds(s: State, mxc: Mxc) {
    Key(s.h, mxc) in s.d.claims && s.d.claims[Key(s.h, mxc)] == s.h.id
  }

  ghost predicate ClaimInv(s: State) {
    forall mxc :: Holds(s, mxc) <==> Holding(s.h, mxc)
  }

  // ---- all of it ----

  ghost predicate Inv(w: World, s: State, cut: Option<Mxc>, held: multiset<SeekId>) {
    && InboxShape(s.h.q) && TaskShape(s.h)
    && CursorInv(s.h, cut) && ProgressInv(s.h)
    && TableInv(s.h) && SeekInv(s.h, held)
    && SharedSound(w, s.d) && HandlerSound(w, s.h) && OutcomesSound(s)
    && WaiterInv(s.h.q) && WaiterBalance(s.h.q, w.due) && TailInv(s.h) && ClaimInv(s)
  }
}
