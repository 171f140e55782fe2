/** What the handler's small moves do to the invariant: the in-flight table, the send queue, closing files, ending jobs. */
module DownloadTable {
  import opened Files
  import opened Wrappers
  import opened Tally
  import opened Lines
  import opened JobQueue
  import opened Download
  import opened DownloadInv

  // ---- waiter lists ----

  lemma {:induction false} WaitersAppend(waiters: seq<Waiting>, w: Waiting)
    ensures MainCount(waiters + [w]) == MainCount(waiters) + if w.Main? then 1 else 0
    ensures SeekIds(waiters + [w]) == SeekIds(waiters) + SeekIds([w])
  {
    if waiters == [] {
      assert waiters + [w] == [w];
      assert [w][1..] == [];
    } else {
      assert (waiters + [w])[0] == waiters[0] && (waiters + [w])[1..] == waiters[1..] + [w];
      WaitersAppend(waiters[1..], w);
    }
  }

  lemma {:induction false} MainIsCounted(waiters: seq<Waiting>)
    ensures HasMain(waiters) <==> MainCount(waiters) > 0
  {
    if waiters != [] {
      assert waiters == [waiters[0]] + waiters[1..];
      MainIsCounted(waiters[1..]);
    }
  }

  lemma {:induction false} SeeksOnlyKeepsSeeks(waiters: seq<Waiting>)
    ensures MainCount(SeeksOnly(waiters)) == 0 && SeekIds(SeeksOnly(waiters)) == SeekIds(waiters)
    ensures forall w :: w in SeeksOnly(waiters) ==> w in waiters
  {
    if waiters != [] {
      SeeksOnlyKeepsSeeks(waiters[1..]);
      if waiters[0].Seek? {
        assert SeeksOnly(waiters)[1..] == SeeksOnly(waiters[1..]);
      }
    }
  }

  // ---- who is attached ----

  lemma SeekersPut(inFlight: map<Request, InFlight>, r: Request, entry: InFlight)
    ensures Seekers(inFlight[r := entry]) == Seekers(inFlight)[r := SeekIds(entry.waiters)]
  {
  }

  lemma AttachedPut(inFlight: map<Request, InFlight>, r: Request, entry: InFlight, id: SeekId)
    ensures r !in inFlight ==> Attached(inFlight[r := entry])[id] == Attached(inFlight)[id] + SeekIds(entry.waiters)[id]
    ensures r in inFlight ==>
      Attached(inFlight[r := entry])[id] + SeekIds(inFlight[r].waiters)[id] == Attached(inFlight)[id] + SeekIds(entry.waiters)[id]
  {
    var ids := SeekIds(entry.waiters);
    SeekersPut(inFlight, r, entry);
    SumUpdate(Seekers(inFlight), r, ids);
    if r in inFlight {
      assert (Attached(inFlight[r := entry]) + SeekIds(inFlight[r].waiters))[id] == (ids + Attached(inFlight))[id];
    }
  }

  lemma AttachedDrop(inFlight: map<Request, InFlight>, r: Request, id: SeekId)
    requires r in inFlight
    ensures Attached(inFlight)[id] == Attached(inFlight - {r})[id] + SeekIds(inFlight[r].waiters)[id]
  {
    var tally := Seekers(inFlight);
    assert Seekers(inFlight - {r}) == tally - {r};
    SumRemove(tally, r);
  }

  lemma AttachedSplit(inFlight: map<Request, InFlight>, gone: set<Request>, id: SeekId)
    ensures Attached(inFlight)[id] == Attached(Only(inFlight, gone))[id] + Attached(inFlight - gone)[id]
  {
    var tally := Seekers(inFlight);
    assert Seekers(Only(inFlight, gone)) == Only(tally, gone);
    assert Seekers(inFlight - gone) == tally - gone;
    SumSplit(tally, gone);
  }

  // ---- wanting and resending ----

  /** Only the in-flight table (and what does not concern the cursor) changed. */
  predicate SameFiles(h: Handler, h2: Handler) {
    h2.open == h.open && h2.q.downloading == h.q.downloading && h2.finishing == h.finishing
  }

  /** An entry goes into the table. The main request in the step's hands may go in with it. */
  lemma {:induction false} PutKeepsCursor(h: Handler, h2: Handler, r: Request, entry: InFlight, cut: Option<Mxc>, cut2: Option<Mxc>)
    requires CursorInv(h, cut) && SameFiles(h, h2) && h2.inFlight == h.inFlight[r := entry]
    requires cut2 == cut || (cut2 == None && cut == Some(r.mxc) && IsCursor(h, r))
    requires MainCount(entry.waiters) == if cut2 != Some(r.mxc) && IsCursor(h, r) then 1 else 0
    ensures CursorInv(h2, cut2)
  {
  }

  /** An entry leaves the table; if it carried the main request, the step now holds it. */
  lemma {:induction false} TakeKeepsCursor(h: Handler, h2: Handler, r: Request)
    requires CursorInv(h, None) && SameFiles(h, h2) && r in h.inFlight && h2.inFlight == h.inFlight - {r}
    ensures CursorInv(h2, if HasMain(h.inFlight[r].waiters) then Some(r.mxc) else None)
    ensures HasMain(h.inFlight[r].waiters) <==> IsCursor(h, r)
    ensures MainCount(h.inFlight[r].waiters) == if IsCursor(h, r) then 1 else 0
  {
    MainIsCounted(h.inFlight[r].waiters);
  }

  function IdsAt(inFlight: map<Request, InFlight>, r: Request): multiset<SeekId> {
    if r in inFlight then SeekIds(inFlight[r].waiters) else multiset{}
  }

  lemma {:induction false} PutKeepsSeeks(h: Handler, h2: Handler, r: Request, entry: InFlight,
      held: multiset<SeekId>, held2: multiset<SeekId>)
    requires SeekInv(h, held) && h2.inFlight == h.inFlight[r := entry]
    requires h2.asked == h.asked && h2.answered == h.answered && h2.seeks == h.seeks && h2.task == h.task
    requires SeekIds(entry.waiters) + held2 == IdsAt(h.inFlight, r) + held
    ensures SeekInv(h2, held2)
  {
    forall id ensures SeekBalance(h2, held2, id) {
      assert SeekBalance(h, held, id);
      AttachedPut(h.inFlight, r, entry, id);
      assert (SeekIds(entry.waiters) + held2)[id] == (IdsAt(h.inFlight, r) + held)[id];
    }
  }

  lemma {:induction false} PutKeepsTable(h: Handler, h2: Handler, r: Request, entry: InFlight)
    requires TableInv(h) && Bounded(r, entry) && h2.inFlight == h.inFlight[r := entry]
    ensures TableInv(h2)
  {
  }

  /** Everything that does not look at the in-flight table or the GETs. */
  ghost predicate RestInv(w: World, s: State) {
    && InboxShape(s.h.q) && TaskShape(s.h) && ProgressInv(s.h)
    && SharedSound(w, s.d) && HandlerSound(w, s.h) && OutcomesSound(s)
    && WaiterInv(s.h.q) && WaiterBalance(s.h.q, w.due) && TailInv(s.h) && ClaimInv(s)
  }

  /** The parts of the handler that `RestInv` looks at. */
  predicate SameRest(h: Handler, h2: Handler) {
    h2.id == h.id && h2.dir == h.dir && h2.q == h.q && h2.open == h.open && h2.seekOnly == h.seekOnly && h2.opening == h.opening
    && h2.task == h.task && h2.finishing == h.finishing && h2.pieces == h.pieces
  }

  /** The same files are held and the same claims stand. */
  lemma {:induction false} SameClaimsKeep(s: State, s2: State)
    requires ClaimInv(s) && s2.d.claims == s.d.claims && s2.h.id == s.h.id && s2.h.dir == s.h.dir
    requires s2.h.open.Keys + s2.h.opening == s.h.open.Keys + s.h.opening
    requires (s2.h.finishing.Recording? || s.h.finishing.Recording?) ==> s2.h.finishing == s.h.finishing
    ensures ClaimInv(s2)
  {
    forall m ensures Holds(s2, m) <==> Holding(s2.h, m) {
      assert Holds(s, m) <==> Holding(s.h, m);
      assert m in s2.h.open.Keys + s2.h.opening <==> m in s.h.open.Keys + s.h.opening;
    }
  }

  /** The same answers were given. */
  lemma {:induction false} SameOutcomesKeep(s: State, s2: State)
    requires OutcomesSound(s) && s2.d.complete == s.d.complete && s2.d.pool == s.d.pool && s2.h.dir == s.h.dir
    requires s2.h.q.outcomes == s.h.q.outcomes && s2.h.finishing == s.h.finishing
    ensures OutcomesSound(s2)
  {
    assert forall m :: Key(s2.h, m) == Key(s.h, m);
  }

  lemma {:induction false} SameRestKeeps(w: World, s: State, h2: Handler)
    requires RestInv(w, s) && SameRest(s.h, h2)
    ensures RestInv(w, State(h2, s.d))
  {
    var s2 := State(h2, s.d);
    assert forall mxc :: Key(h2, mxc) == Key(s.h, mxc);
    assert forall mxc :: Holding(h2, mxc) == Holding(s.h, mxc);
    assert forall mxc :: Holds(s2, mxc) == Holds(s, mxc);
  }

  /** Putting an entry in the table keeps everything, if the waiters it gains come out of the step's hands. */
  lemma {:induction false} PutKeepsInv(w: World, s: State, line: Line<Request>, r: Request, entry: InFlight,
      cut: Option<Mxc>, cut2: Option<Mxc>, held: multiset<SeekId>, held2: multiset<SeekId>)
    requires Inv(w, s, cut, held) && Bounded(r, entry)
    requires cut2 == cut || (cut2 == None && MayCarryMain(s.h, r, cut))
    requires MainCount(entry.waiters) == if cut2 != Some(r.mxc) && IsCursor(s.h, r) then 1 else 0
    requires SeekIds(entry.waiters) + held2 == IdsAt(s.h.inFlight, r) + held
    ensures Inv(w, s.(h := s.h.(inFlight := s.h.inFlight[r := entry], line := line)), cut2, held2)
  {
    var h2 := s.h.(inFlight := s.h.inFlight[r := entry], line := line);
    PutKeepsCursor(s.h, h2, r, entry, cut, cut2);
    PutKeepsSeeks(s.h, h2, r, entry, held, held2);
    PutKeepsTable(s.h, h2, r, entry);
    SameRestKeeps(w, s, h2);
  }

  predicate MayCarryMain(h: Handler, r: Request, cut: Option<Mxc>) { cut == Some(r.mxc) && IsCursor(h, r) }

  /** Wanting takes the waiter out of the step's hands and hangs it on the request. */
  lemma {:induction false} WantKeepsInv(w: World, s: State, r: Request, waiting: Waiting, atFront: bool, cut: Option<Mxc>,
      held: multiset<SeekId>, held2: multiset<SeekId>)
    requires Inv(w, s, cut, held) && held == SeekIds([waiting]) + held2
    requires HangsRight(waiting, r) && (waiting.Main? ==> MayCarryMain(s.h, r, cut))
    ensures Inv(w, s.(h := Want(s.h, r, waiting, atFront)), if waiting.Main? then None else cut, held2)
  {
    var h2 := Want(s.h, r, waiting, atFront);
    WantEntry(s.h, r, waiting, atFront, cut);
    PutKeepsInv(w, s, h2.line, r, h2.inFlight[r], cut, if waiting.Main? then None else cut, held, held2);
    assert h2 == s.h.(inFlight := s.h.inFlight[r := h2.inFlight[r]], line := h2.line);
  }

  lemma {:induction false} WantEntry(h: Handler, r: Request, waiting: Waiting, atFront: bool, cut: Option<Mxc>)
    requires CursorInv(h, cut) && TableInv(h) && HangsRight(waiting, r)
    requires waiting.Main? ==> MayCarryMain(h, r, cut)
    ensures r in Want(h, r, waiting, atFront).inFlight
    ensures var entry := Want(h, r, waiting, atFront).inFlight[r];
            && Bounded(r, entry)
            && MainCount(entry.waiters) == (if waiting.Main? then 1 else if cut != Some(r.mxc) && IsCursor(h, r) && r in h.inFlight then 1 else 0)
            && SeekIds(entry.waiters) == IdsAt(h.inFlight, r) + SeekIds([waiting])
  {
    var waiters := if r in h.inFlight then h.inFlight[r].waiters else [];
    WaitersAppend(waiters, waiting);
    assert [] + [waiting] == [waiting];
  }

  /** Resending puts what the step holds of one request back into the table and its request at the front. */
  lemma {:induction false} ResendKeepsInv(w: World, s: State, r: Request, waiters: seq<Waiting>, retries: Retries, cut: Option<Mxc>,
      held: multiset<SeekId>, held2: multiset<SeekId>)
    requires r !in s.h.inFlight && Inv(w, s, cut, held) && held == SeekIds(waiters) + held2 && Bounded(r, InFlight(waiters, retries))
    requires MainCount(waiters) == if IsCursor(s.h, r) && cut == Some(r.mxc) && HasMain(waiters) then 1 else 0
    requires cut == Some(r.mxc) || !IsCursor(s.h, r)
    ensures Inv(w, s.(h := Resend(s.h, r, waiters, retries)), if HasMain(waiters) then None else cut, held2)
  {
    MainIsCounted(waiters);
    PutKeepsInv(w, s, PushFront(s.h.line, r), r, InFlight(waiters, retries), cut, if HasMain(waiters) then None else cut,
                held, held2);
  }

  // ---- answering GETs ----

  /** The parts of the handler the cursor and the table look at. */
  predicate SameTable(h: Handler, h2: Handler) {
    SameFiles(h, h2) && h2.inFlight == h.inFlight
  }

  lemma {:induction false} AnswerKeepsInv(w: World, s: State, waiters: seq<Waiting>, cut: Option<Mxc>,
      held: multiset<SeekId>, held2: multiset<SeekId>)
    requires Inv(w, s, cut, held) && held == SeekIds(waiters) + held2
    ensures Inv(w, s.(h := AnswerSeeks(s.h, waiters)), cut, held2)
  {
    var h2 := AnswerSeeks(s.h, waiters);
    AnswerBalances(s.h, h2, SeekIds(waiters), held, held2);
    SameRestKeeps(w, s, h2);
    SameTableKeeps(s.h, h2, cut);
  }

  lemma {:induction false} SameTableKeeps(h: Handler, h2: Handler, cut: Option<Mxc>)
    requires SameTable(h, h2) && CursorInv(h, cut) && TableInv(h)
    ensures CursorInv(h2, cut) && TableInv(h2)
  {
  }

  lemma {:induction false} SameSeeksKeep(h: Handler, h2: Handler, held: multiset<SeekId>)
    requires SeekInv(h, held)
    requires h2.inFlight == h.inFlight && h2.asked == h.asked && h2.answered == h.answered && h2.seeks == h.seeks
    requires TaskIds(h2.task) == TaskIds(h.task)
    ensures SeekInv(h2, held)
  {
    assert forall id :: SeekBalance(h, held, id) == SeekBalance(h2, held, id);
  }

  lemma {:induction false} FewerOpenKeepProgress(h: Handler, h2: Handler)
    requires ProgressInv(h) && h2.q.downloading == h.q.downloading
    requires forall mxc :: mxc in h2.open ==> mxc in h.open && h2.open[mxc] == h.open[mxc]
    ensures ProgressInv(h2)
  {
  }

  lemma {:induction false} AnswerBalances(h: Handler, h2: Handler, ids: multiset<SeekId>, held: multiset<SeekId>, held2: multiset<SeekId>)
    requires SeekInv(h, held) && held == ids + held2
    requires h2.answered == h.answered + ids
    requires h2.asked == h.asked && h2.inFlight == h.inFlight && h2.seeks == h.seeks && h2.task == h.task
    ensures SeekInv(h2, held2)
  {
    forall id ensures SeekBalance(h2, held2, id) {
      assert SeekBalance(h, held, id);
    }
  }

  lemma {:induction false} GiveKeepsInv(w: World, s: State, waiters: seq<Waiting>, mxc: Mxc, start: nat, plain: Bytes,
      cut: Option<Mxc>, held: multiset<SeekId>, held2: multiset<SeekId>)
    requires Inv(w, s, cut, held) && held == SeekIds(waiters) + held2
    requires forall to :: to in waiters && to.Seek? ==> PieceSound(w, Piece(to, mxc, start, plain))
    ensures Inv(w, s.(h := GivePiece(s.h, waiters, mxc, start, plain)), cut, held2)
  {
    AnswerKeepsInv(w, s, waiters, cut, held, held2);
    MorePieces(w, s.(h := AnswerSeeks(s.h, waiters)), GivePiece(s.h, waiters, mxc, start, plain).pieces, cut, held2);
  }

  /** Giving sound pieces changes nothing else. */
  lemma {:induction false} MorePieces(w: World, s: State, pieces: set<Piece>, cut: Option<Mxc>, held: multiset<SeekId>)
    requires Inv(w, s, cut, held)
    requires forall p :: p in pieces ==> PieceSound(w, p)
    ensures Inv(w, s.(h := s.h.(pieces := pieces)), cut, held)
  {
    var s2 := s.(h := s.h.(pieces := pieces));
    SameTableKeeps(s.h, s2.h, cut);
    SameSeeksKeep(s.h, s2.h, held);
    PiecesKeepRest(w, s, pieces);
  }

  lemma {:induction false} PiecesKeepRest(w: World, s: State, pieces: set<Piece>)
    requires RestInv(w, s)
    requires forall p :: p in pieces ==> PieceSound(w, p)
    ensures RestInv(w, s.(h := s.h.(pieces := pieces)))
  {
    var s2 := s.(h := s.h.(pieces := pieces));
    assert forall mxc :: Key(s2.h, mxc) == Key(s.h, mxc);
    assert forall mxc :: Holding(s2.h, mxc) == Holding(s.h, mxc);
    assert forall mxc :: Holds(s2, mxc) == Holds(s, mxc);
  }

  // ---- leaving the queue ----

  lemma {:induction false} LeaveKeepsInv(w: World, s: State, mxc: Mxc, end: JobEnd, cut: Option<Mxc>, held: multiset<SeekId>)
    requires Inv(w, s, cut, held) && FinishingFile(s.h) != Some(mxc)
    requires cut == Some(mxc) || (cut == None && mxc !in s.h.q.downloading)
    requires end.Complete? ==> Key(s.h, mxc) in s.d.complete
    ensures Inv(w, s.(h := s.h.(q := LeaveQueue(s.h.q, mxc, end))), None, held)
  {
    var s2 := s.(h := s.h.(q := LeaveQueue(s.h.q, mxc, end)));
    LeaveKeepsQueue(s.h.q, mxc, end);
    TellBalances(s.h.q.(downloading := s.h.q.downloading - {mxc}), mxc, OutcomeOf(end), w.due);
    LeaveKeepsCursor(s.h, s2.h, mxc, cut);
    SameSeeksKeep(s.h, s2.h, held);
    LeaveKeepsOutcomes(s, mxc, end);
    SameClaimsKeep(s, s2);
  }

  lemma {:induction false} LeaveKeepsQueue(q: QueueState, mxc: Mxc, end: JobEnd)
    requires InboxShape(q) && WaiterInv(q)
    ensures InboxShape(LeaveQueue(q, mxc, end)) && WaiterInv(LeaveQueue(q, mxc, end))
  {
  }

  lemma {:induction false} LeaveKeepsCursor(h: Handler, h2: Handler, mxc: Mxc, cut: Option<Mxc>)
    requires CursorInv(h, cut) && ProgressInv(h) && (cut == Some(mxc) || (cut == None && mxc !in h.q.downloading))
    requires h2.open == h.open && h2.inFlight == h.inFlight && h2.finishing == h.finishing
    requires h2.q.downloading == h.q.downloading - {mxc}
    ensures CursorInv(h2, None) && ProgressInv(h2)
  {
    assert forall r: Request :: r.mxc != mxc ==> IsCursor(h2, r) == IsCursor(h, r);
  }

  lemma {:induction false} LeaveKeepsOutcomes(s: State, mxc: Mxc, end: JobEnd)
    requires OutcomesSound(s)
    requires end.Complete? ==> Key(s.h, mxc) in s.d.complete
    ensures OutcomesSound(s.(h := s.h.(q := LeaveQueue(s.h.q, mxc, end))))
  {
  }

  // ---- closing a file ----

  /** No main file moves while this file is being opened or looked at. */
  predicate MayClose(h: Handler, mxc: Mxc) {
    mxc in h.open && mxc !in h.q.downloading
    && (h.task.Preparing? && (h.task.stage == Ready || h.task.stage == Checked) ==> h.task.manifest.mxc != mxc)
  }

  lemma {:induction false} CloseKeepsInv(w: World, s: State, mxc: Mxc, discard: bool, cut: Option<Mxc>, held: multiset<SeekId>)
    requires Inv(w, s, cut, held) && MayClose(s.h, mxc)
    ensures Inv(w, if discard then CloseDiscarding(s, mxc) else CloseKeeping(s, mxc), cut, held)
  {
    var s2 := if discard then CloseDiscarding(s, mxc) else CloseKeeping(s, mxc);
    CloseKeepsCursor(s.h, s2.h, mxc, cut);
    FewerOpenKeepProgress(s.h, s2.h);
    SameSeeksKeep(s.h, s2.h, held);
    CloseKeepsSound(w, s, s2, mxc);
    CloseKeepsClaims(s, s2, mxc);
    CloseKeepsTask(s.h, s2.h, mxc);
  }

  lemma {:induction false} CloseKeepsCursor(h: Handler, h2: Handler, mxc: Mxc, cut: Option<Mxc>)
    requires CursorInv(h, cut) && mxc !in h.q.downloading
    requires h2.open == h.open - {mxc} && h2.inFlight == h.inFlight && h2.finishing == h.finishing && h2.q == h.q
    ensures CursorInv(h2, cut)
  {
    assert forall r :: IsCursor(h2, r) == IsCursor(h, r);
  }

  lemma {:induction false} CloseKeepsTask(h: Handler, h2: Handler, mxc: Mxc)
    requires TaskShape(h) && MayClose(h, mxc)
    requires h2.open == h.open - {mxc} && h2.q == h.q && h2.task == h.task && h2.opening == h.opening && h2.finishing == h.finishing
    ensures TaskShape(h2)
  {
  }

  lemma {:induction false} CloseKeepsSound(w: World, s: State, s2: State, mxc: Mxc)
    requires SharedSound(w, s.d) && HandlerSound(w, s.h) && OutcomesSound(s) && mxc in s.h.open
    requires s2 == CloseDiscarding(s, mxc) || s2 == CloseKeeping(s, mxc)
    ensures SharedSound(w, s2.d) && HandlerSound(w, s2.h) && OutcomesSound(s2)
  {
    assert forall m :: Key(s2.h, m) == Key(s.h, m);
  }

  lemma {:induction false} CloseKeepsClaims(s: State, s2: State, mxc: Mxc)
    requires ClaimInv(s) && TaskShape(s.h) && mxc in s.h.open
    requires s2.h.id == s.h.id && s2.h.dir == s.h.dir && s2.h.open == s.h.open - {mxc} && s2.h.opening == s.h.opening
    requires s2.h.finishing == s.h.finishing && s2.d.claims == Release(s.d, Key(s.h, mxc), s.h.id).claims
    ensures ClaimInv(s2)
  {
    forall m ensures Holds(s2, m) <==> Holding(s2.h, m) {
      assert Holds(s, m) <==> Holding(s.h, m);
      assert Key(s.h, m) == Key(s.h, mxc) <==> m == mxc;
    }
  }

  // ---- dropping a file's requests ----

  lemma {:induction false} DropKeepsInv(w: World, s: State, mxc: Mxc, cut: Option<Mxc>, held: multiset<SeekId>)
    requires Inv(w, s, cut, held) && (cut == None || cut == Some(mxc))
    ensures Inv(w, s.(h := DropRequests(s.h, mxc)), Some(mxc), held)
    ensures !Busy(DropRequests(s.h, mxc), mxc)
  {
    var h2 := DropRequests(s.h, mxc);
    DropKeepsTable(s.h, h2, mxc, cut);
    DropKeepsSeeks(s.h, mxc, held);
    SameRestKeeps(w, s, h2);
  }

  lemma {:induction false} DropKeepsTable(h: Handler, h2: Handler, mxc: Mxc, cut: Option<Mxc>)
    requires CursorInv(h, cut) && TableInv(h) && (cut == None || cut == Some(mxc))
    requires SameFiles(h, h2) && h2.inFlight == h.inFlight - RequestsOf(h, mxc)
    ensures CursorInv(h2, Some(mxc)) && TableInv(h2)
  {
    DropKeepsCursor(h, h2, mxc, cut);
  }

  lemma {:induction false} DropKeepsCursor(h: Handler, h2: Handler, mxc: Mxc, cut: Option<Mxc>)
    requires CursorInv(h, cut) && (cut == None || cut == Some(mxc))
    requires SameFiles(h, h2) && h2.inFlight == h.inFlight - RequestsOf(h, mxc)
    ensures CursorInv(h2, Some(mxc))
  {
    forall r | r in h2.inFlight ensures r in h.inFlight && r.mxc != mxc && IsCursor(h2, r) == IsCursor(h, r) {
    }
    forall x | x in h2.q.downloading && x in h2.open && x != mxc ensures Cursor(x, h2.open[x]) in h2.inFlight {
      assert Cursor(x, h.open[x]).mxc == x;
    }
  }

  lemma {:induction false} DropKeepsSeeks(h: Handler, mxc: Mxc, held: multiset<SeekId>)
    requires SeekInv(h, held)
    ensures SeekInv(DropRequests(h, mxc), held)
  {
    var h2 := DropRequests(h, mxc);
    forall id ensures SeekBalance(h2, held, id) {
      assert SeekBalance(h, held, id);
      AttachedSplit(h.inFlight, RequestsOf(h, mxc), id);
    }
  }

  /** A file with no running job, or not open, has no main request: holding it is the same as not holding it. */
  lemma {:induction false} NoMainToHold(w: World, s: State, mxc: Mxc, held: multiset<SeekId>)
    requires mxc !in s.h.q.downloading || mxc !in s.h.open
    ensures Inv(w, s, Some(mxc), held) <==> Inv(w, s, None, held)
  {
    assert CursorInv(s.h, Some(mxc)) <==> CursorInv(s.h, None);
  }
}
