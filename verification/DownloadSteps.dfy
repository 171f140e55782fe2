/** Every step of the handler keeps the invariant: replies, GETs, jobs, cancels, closing. */
module DownloadSteps {
  import opened Files
  import opened Wrappers
  import opened Lines
  import opened JobQueue
  import opened Download
  import opened DownloadInv
  import opened DownloadTable

  // ---- ending ----

  /** The job `mxc` may end here: its main request is in the step's hands or there is none. */
  predicate MayEnd(h: Handler, mxc: Mxc, cut: Option<Mxc>) {
    && FinishingFile(h) != Some(mxc) && Resting(h)
    && (cut == Some(mxc) || (cut == None && mxc !in h.q.downloading))
  }

  lemma {:induction false} EndKeepsInv(w: World, s: State, mxc: Mxc, end: JobEnd, cut: Option<Mxc>, held: multiset<SeekId>)
    requires Inv(w, s, cut, held) && MayEnd(s.h, mxc, cut)
    requires end.Complete? ==> Key(s.h, mxc) in s.d.complete
    ensures Inv(w, EndJob(s, mxc, end), None, held)
    ensures mxc !in EndJob(s, mxc, end).h.q.downloading && WaitersOf(EndJob(s, mxc, end).h.q, mxc) == []
  {
    LeaveKeepsInv(w, s, mxc, end, cut, held);
    var left := s.(h := s.h.(q := LeaveQueue(s.h.q, mxc, end)));
    if end.Cancelled? && !Busy(s.h, mxc) && mxc in s.h.open {
      CloseKeepsInv(w, left, mxc, false, None, held);
    }
  }

  /** The requests are gone and the job, if one was running, has failed. */
  ghost function Stopped(s: State, mxc: Mxc, error: Error): State {
    var dropped := s.(h := DropRequests(s.h, mxc));
    if mxc in s.h.q.downloading then dropped.(h := dropped.h.(q := LeaveQueue(dropped.h.q, mxc, Broken(error)))) else dropped
  }

  /** Closing the file and failing its job do not get in each other's way. */
  lemma {:induction false} FailIsLeaveThenClose(s: State, mxc: Mxc, error: Error, discard: bool)
    ensures FailMedia(s, mxc, error, discard) ==
            if mxc !in s.h.open then Stopped(s, mxc, error)
            else if discard then CloseDiscarding(Stopped(s, mxc, error), mxc) else CloseKeeping(Stopped(s, mxc, error), mxc)
  {
  }

  lemma {:induction false} FailKeepsInv(w: World, s: State, mxc: Mxc, error: Error, discard: bool, cut: Option<Mxc>, held: multiset<SeekId>)
    requires Inv(w, s, cut, held) && Resting(s.h) && s.h.finishing == NotFinishing
    requires cut == None || cut == Some(mxc)
    ensures Inv(w, FailMedia(s, mxc, error, discard), None, held)
    ensures mxc !in FailMedia(s, mxc, error, discard).h.q.downloading
  {
    DropKeepsInv(w, s, mxc, cut, held);
    var dropped := s.(h := DropRequests(s.h, mxc));
    var left := Stopped(s, mxc, error);
    if mxc in s.h.q.downloading {
      LeaveKeepsInv(w, dropped, mxc, Broken(error), Some(mxc), held);
    } else {
      NoMainToHold(w, dropped, mxc, held);
    }
    FailIsLeaveThenClose(s, mxc, error, discard);
    if mxc in s.h.open {
      CloseKeepsInv(w, left, mxc, discard, None, held);
    }
  }

  // ---- the main file moves on ----

  lemma {:induction false} FinishJobKeepsInv(w: World, s: State, mxc: Mxc, disk: DiskResults, held: multiset<SeekId>)
    requires Inv(w, s, Some(mxc), held) && Resting(s.h) && s.h.finishing == NotFinishing
    requires mxc in s.h.q.downloading && mxc in s.h.open && IsWritten(s.h.open[mxc])
    ensures Inv(w, FinishJob(s, mxc, disk), None, held)
  {
    var s2 := FinishJob(s, mxc, disk);
    FinishJobKeepsCursor(s.h, s2.h, mxc);
    FewerOpenKeepProgress(s.h, s2.h);
    SameSeeksKeep(s.h, s2.h, held);
    WholeMainIsFile(w, mxc, s.h.open[mxc]);
    FinishJobKeepsSound(w, s, mxc, disk);
    FinishJobKeepsClaims(s, mxc, disk);
  }

  lemma {:induction false} FinishJobKeepsCursor(h: Handler, h2: Handler, mxc: Mxc)
    requires CursorInv(h, Some(mxc)) && h.finishing == NotFinishing
    requires h2.open == h.open - {mxc} && h2.q == h.q && h2.inFlight == h.inFlight
    requires FinishingFile(h2) == Some(mxc)
    ensures CursorInv(h2, None)
  {
    assert forall r: Request :: r.mxc != mxc ==> IsCursor(h2, r) == IsCursor(h, r);
  }

  /** A main file with all its chunks is the file. */
  lemma {:induction false} WholeMainIsFile(w: World, mxc: Mxc, m: MediaDownload)
    requires MediaSound(w, mxc, m) && IsWritten(m)
    ensures ServerFile(m.manifest.chunkSize, Concat(m.main)) == w.file(mxc)
  {
    var f := w.file(mxc);
    CutCount(f.plain, f.chunkSize);
    assert m.main == Chunks(f);
    CutConcat(f.plain, f.chunkSize);
  }

  lemma {:induction false} FinishJobKeepsSound(w: World, s: State, mxc: Mxc, disk: DiskResults)
    requires SharedSound(w, s.d) && HandlerSound(w, s.h) && OutcomesSound(s) && s.h.finishing == NotFinishing && mxc in s.h.open
    requires ServerFile(s.h.open[mxc].manifest.chunkSize, Concat(s.h.open[mxc].main)) == w.file(mxc)
    ensures SharedSound(w, FinishJob(s, mxc, disk).d) && HandlerSound(w, FinishJob(s, mxc, disk).h)
    ensures OutcomesSound(FinishJob(s, mxc, disk))
  {
    var s2 := FinishJob(s, mxc, disk);
    assert forall m :: Key(s2.h, m) == Key(s.h, m);
    assert MediaSound(w, mxc, s.h.open[mxc]);
  }

  lemma {:induction false} FinishJobKeepsClaims(s: State, mxc: Mxc, disk: DiskResults)
    requires ClaimInv(s) && s.h.finishing == NotFinishing && TaskShape(s.h) && mxc in s.h.open
    ensures ClaimInv(FinishJob(s, mxc, disk))
  {
    var s2 := FinishJob(s, mxc, disk);
    forall m ensures Holds(s2, m) <==> Holding(s2.h, m) {
      assert Holds(s, m) <==> Holding(s.h, m);
      assert Key(s.h, m) == Key(s.h, mxc) <==> m == mxc;
    }
  }

  // ---- an open file changes in place ----

  function ShowDone(q: QueueState, mxc: Mxc, done: nat): QueueState {
    if mxc in q.downloading then SetDone(q, mxc, done) else q
  }

  function WithFile(s: State, mxc: Mxc, m: MediaDownload): State {
    s.(h := s.h.(open := s.h.open[mxc := m], q := ShowDone(s.h.q, mxc, Next(m))))
  }

  /** An open file may change in place while it stays sound and its cursor stays put, or its main request is in the
      step's hands. */
  lemma {:induction false} FileKeepsInv(w: World, s: State, mxc: Mxc, m: MediaDownload, cut: Option<Mxc>, held: multiset<SeekId>)
    requires Inv(w, s, cut, held) && mxc in s.h.open
    requires MediaSound(w, mxc, m) && Total(m) == Total(s.h.open[mxc])
    requires cut == Some(mxc) || mxc !in s.h.q.downloading || Cursor(mxc, m) == Cursor(mxc, s.h.open[mxc])
    ensures Inv(w, WithFile(s, mxc, m), cut, held)
  {
    var s2 := WithFile(s, mxc, m);
    FileKeepsRest(w, s, mxc, m);
    FileKeepsCursor(s.h, s2.h, mxc, cut);
    SameSeeksKeep(s.h, s2.h, held);
  }

  lemma {:induction false} FileKeepsRest(w: World, s: State, mxc: Mxc, m: MediaDownload)
    requires RestInv(w, s) && mxc in s.h.open && MediaSound(w, mxc, m) && Total(m) == Total(s.h.open[mxc])
    ensures RestInv(w, WithFile(s, mxc, m))
  {
    var s2 := WithFile(s, mxc, m);
    FileKeepsProgress(s.h, s2.h, mxc, m);
    FileKeepsShape(s.h, s2.h, mxc, m);
    FileKeepsSound(w, s, mxc, m);
    FileKeepsClaims(s, mxc, m);
  }

  lemma {:induction false} FileKeepsClaims(s: State, mxc: Mxc, m: MediaDownload)
    requires ClaimInv(s) && mxc in s.h.open
    ensures ClaimInv(WithFile(s, mxc, m)) && WithFile(s, mxc, m).d == s.d
  {
    assert WithFile(s, mxc, m).h.open.Keys == s.h.open.Keys;
    SameClaimsKeep(s, WithFile(s, mxc, m));
  }

  lemma {:induction false} FileKeepsCursor(h: Handler, h2: Handler, mxc: Mxc, cut: Option<Mxc>)
    requires CursorInv(h, cut) && mxc in h.open && mxc in h2.open
    requires h2.inFlight == h.inFlight && h2.finishing == h.finishing && h2.open == h.open[mxc := h2.open[mxc]]
    requires h2.q.downloading.Keys == h.q.downloading.Keys
    requires cut == Some(mxc) || mxc !in h.q.downloading || Cursor(mxc, h2.open[mxc]) == Cursor(mxc, h.open[mxc])
    ensures CursorInv(h2, cut)
  {
    FileSameCursor(h, h2, mxc, cut);
    FileSameMains(h, h2, mxc, cut);
  }

  lemma FileSameMains(h: Handler, h2: Handler, mxc: Mxc, cut: Option<Mxc>)
    requires CursorInv(h, cut) && mxc in h.open && mxc in h2.open
    requires h2.inFlight == h.inFlight && h2.finishing == h.finishing && h2.open == h.open[mxc := h2.open[mxc]]
    requires h2.q.downloading.Keys == h.q.downloading.Keys
    requires cut == Some(mxc) || mxc !in h.q.downloading || Cursor(mxc, h2.open[mxc]) == Cursor(mxc, h.open[mxc])
    ensures forall x :: x in h2.q.downloading ==> x in h2.open || FinishingFile(h2) == Some(x)
    ensures forall x :: x in h2.q.downloading && x in h2.open && cut != Some(x) ==> Cursor(x, h2.open[x]) in h2.inFlight
  {
    assert forall x :: x in h2.q.downloading <==> x in h.q.downloading.Keys;
    assert forall x :: x in h2.open <==> x in h.open;
  }

  lemma FileSameCursor(h: Handler, h2: Handler, mxc: Mxc, cut: Option<Mxc>)
    requires mxc in h.open && mxc in h2.open && h2.open == h.open[mxc := h2.open[mxc]]
    requires h2.q.downloading.Keys == h.q.downloading.Keys
    requires cut == Some(mxc) || mxc !in h.q.downloading || Cursor(mxc, h2.open[mxc]) == Cursor(mxc, h.open[mxc])
    ensures forall r: Request :: cut != Some(r.mxc) ==> IsCursor(h2, r) == IsCursor(h, r)
  {
    assert forall x :: x in h2.q.downloading <==> x in h.q.downloading.Keys;
  }

  lemma {:induction false} FileKeepsProgress(h: Handler, h2: Handler, mxc: Mxc, m: MediaDownload)
    requires ProgressInv(h) && mxc in h.open && Total(m) == Total(h.open[mxc])
    requires h2.open == h.open[mxc := m] && h2.q == ShowDone(h.q, mxc, Next(m))
    ensures ProgressInv(h2)
  {
  }

  lemma {:induction false} FileKeepsShape(h: Handler, h2: Handler, mxc: Mxc, m: MediaDownload)
    requires InboxShape(h.q) && WaiterInv(h.q) && TaskShape(h) && TailInv(h) && mxc in h.open
    requires h2.open == h.open[mxc := m] && h2.q == ShowDone(h.q, mxc, Next(m))
    requires h2.task == h.task && h2.opening == h.opening && h2.finishing == h.finishing
    ensures InboxShape(h2.q) && WaiterInv(h2.q) && TaskShape(h2) && TailInv(h2)
  {
    ShowDoneKeepsJobs(h.q, mxc, Next(m));
    assert h2.q.inbox == h.q.inbox && h2.q.waiters == h.q.waiters && h2.q.preparing == h.q.preparing;
    FileKeepsTask(h, h2, mxc);
  }

  lemma {:induction false} FileKeepsTask(h: Handler, h2: Handler, mxc: Mxc)
    requires TaskShape(h) && TailInv(h) && mxc in h.open && mxc in h2.open && h2.open == h.open[mxc := h2.open[mxc]]
    requires h2.task == h.task && h2.opening == h.opening && h2.finishing == h.finishing
    requires h2.q.preparing == h.q.preparing && h2.q.waiters == h.q.waiters && h2.q.slipped == h.q.slipped
    requires forall x :: x in h2.q.downloading <==> x in h.q.downloading
    ensures TaskShape(h2) && TailInv(h2)
  {
    assert forall x :: x in h2.open <==> x in h.open;
  }

  lemma {:induction false} ShowDoneKeepsJobs(q: QueueState, mxc: Mxc, done: nat)
    ensures forall x :: x in ShowDone(q, mxc, done).downloading <==> x in q.downloading
    ensures forall x :: HasJob(ShowDone(q, mxc, done), x) == HasJob(q, x)
  {
  }

  lemma {:induction false} FileKeepsSound(w: World, s: State, mxc: Mxc, m: MediaDownload)
    requires HandlerSound(w, s.h) && OutcomesSound(s) && MediaSound(w, mxc, m)
    ensures HandlerSound(w, WithFile(s, mxc, m).h) && OutcomesSound(WithFile(s, mxc, m))
  {
    assert forall x :: Key(WithFile(s, mxc, m).h, x) == Key(s.h, x);
  }

  /** Landing the next chunk of the file keeps a file sound. */
  lemma {:induction false} LandSound(w: World, mxc: Mxc, m: MediaDownload, plain: Bytes)
    requires MediaSound(w, mxc, m) && Describes(m.manifest, w.file(mxc))
    requires Next(m) < |Chunks(w.file(mxc))| && plain == Chunks(w.file(mxc))[Next(m)]
    ensures MediaSound(w, mxc, Land(m, plain)) && Total(Land(m, plain)) == Total(m)
  {
    CutCount(w.file(mxc).plain, w.file(mxc).chunkSize);
  }

  lemma {:induction false} ContinueKeepsInv(w: World, s: State, mxc: Mxc, disk: DiskResults, held: multiset<SeekId>)
    requires Inv(w, s, Some(mxc), held) && Resting(s.h) && s.h.finishing == NotFinishing
    ensures Inv(w, ContinueMain(s, mxc, disk), None, held)
    decreases if mxc in s.h.open then Total(s.h.open[mxc]) - Next(s.h.open[mxc]) else 0
  {
    if mxc !in s.h.q.downloading {
      NoMainToHold(w, s, mxc, held);
    } else if s.h.q.downloading[mxc].cancelled {
      EndKeepsInv(w, s, mxc, Cancelled, Some(mxc), held);
    } else if mxc !in s.h.open {
      EndKeepsInv(w, s, mxc, Broken(Io), Some(mxc), held);
    } else {
      ContinueOpen(w, s, mxc, disk, held);
    }
  }

  lemma {:induction false} WrittenShowsTotal(w: World, s: State, mxc: Mxc)
    requires mxc in s.h.q.downloading && mxc in s.h.open && IsWritten(s.h.open[mxc]) && MediaSound(w, mxc, s.h.open[mxc])
    ensures s.(h := s.h.(q := SetDone(s.h.q, mxc, Total(s.h.open[mxc])))) == WithFile(s, mxc, s.h.open[mxc])
  {
    assert s.h.open[mxc := s.h.open[mxc]] == s.h.open;
  }

  lemma {:induction false} ContinueFinishes(w: World, s: State, mxc: Mxc, disk: DiskResults, held: multiset<SeekId>)
    requires Inv(w, s, Some(mxc), held) && Resting(s.h) && s.h.finishing == NotFinishing
    requires mxc in s.h.q.downloading && mxc in s.h.open && IsWritten(s.h.open[mxc])
    ensures Inv(w, FinishJob(s.(h := s.h.(q := SetDone(s.h.q, mxc, Total(s.h.open[mxc])))), mxc, disk), None, held)
  {
    var m := s.h.open[mxc];
    var done := s.(h := s.h.(q := SetDone(s.h.q, mxc, Total(m))));
    WrittenShowsTotal(w, s, mxc);
    FileKeepsInv(w, s, mxc, m, Some(mxc), held);
    FinishJobKeepsInv(w, done, mxc, disk, held);
  }

  lemma {:induction false} LandFromStoreKeepsInv(w: World, s: State, mxc: Mxc, held: multiset<SeekId>)
    requires Inv(w, s, Some(mxc), held) && mxc in s.h.q.downloading && mxc in s.h.open
    requires Next(s.h.open[mxc]) in s.h.open[mxc].store
    ensures Inv(w, s.(h := LandFromStore(s.h, mxc)), Some(mxc), held)
    ensures Total(LandFromStore(s.h, mxc).open[mxc]) == Total(s.h.open[mxc])
    ensures Next(LandFromStore(s.h, mxc).open[mxc]) == Next(s.h.open[mxc]) + 1
  {
    var m := s.h.open[mxc];
    assert MediaSound(w, mxc, m);
    LandSound(w, mxc, m, m.store[Next(m)]);
    FileKeepsInv(w, s, mxc, Land(m, m.store[Next(m)]), Some(mxc), held);
    assert s.(h := LandFromStore(s.h, mxc)) == WithFile(s, mxc, Land(m, m.store[Next(m)]));
  }

  lemma {:induction false} ContinueOpen(w: World, s: State, mxc: Mxc, disk: DiskResults, held: multiset<SeekId>)
    requires Inv(w, s, Some(mxc), held) && Resting(s.h) && s.h.finishing == NotFinishing
    requires mxc in s.h.q.downloading && !s.h.q.downloading[mxc].cancelled && mxc in s.h.open
    ensures Inv(w, ContinueMain(s, mxc, disk), None, held)
    decreases Total(s.h.open[mxc]) - Next(s.h.open[mxc]), 0
  {
    var m := s.h.open[mxc];
    assert MediaSound(w, mxc, m);
    if IsWritten(m) {
      ContinueFinishes(w, s, mxc, disk, held);
    } else if m.needsInfo {
      WantKeepsInv(w, s, Info(mxc), Main, false, Some(mxc), held, held);
    } else if InStore(m, disk) && Next(m) in disk.unmovable {
      FailKeepsInv(w, s, mxc, disk.fault, true, Some(mxc), held);
    } else if InStore(m, disk) {
      LandFromStoreKeepsInv(w, s, mxc, held);
      ContinueKeepsInv(w, s.(h := LandFromStore(s.h, mxc)), mxc, disk, held);
    } else {
      WantKeepsInv(w, s, Chunk(mxc, Next(m)), Main, false, Some(mxc), held, held);
    }
  }

  // ---- a reply ----

  function Carried(waiters: seq<Waiting>, mxc: Mxc): Option<Mxc> { if HasMain(waiters) then Some(mxc) else None }

  /** What the step holds after taking the entry of `r` out of the table. */
  ghost predicate Took(h: Handler, r: Request, entry: InFlight) {
    && r !in h.inFlight && Bounded(r, entry)
    && MainCount(entry.waiters) == (if IsCursor(h, r) then 1 else 0)
    && (HasMain(entry.waiters) <==> IsCursor(h, r))
  }

  lemma {:induction false} TakeKeepsInv(w: World, s: State, r: Request, line: Line<Request>)
    requires Inv(w, s, None, multiset{}) && r in s.h.inFlight
    ensures var entry := s.h.inFlight[r];
            var s2 := s.(h := s.h.(inFlight := s.h.inFlight - {r}, line := line));
            Inv(w, s2, Carried(entry.waiters, r.mxc), SeekIds(entry.waiters)) && Took(s2.h, r, entry)
  {
    var entry := s.h.inFlight[r];
    var s2 := s.(h := s.h.(inFlight := s.h.inFlight - {r}, line := line));
    TakeKeepsCursor(s.h, s2.h, r);
    TakeKeepsSeeks(s.h, s2.h, r);
    SameRestKeeps(w, s, s2.h);
  }

  lemma {:induction false} TakeKeepsSeeks(h: Handler, h2: Handler, r: Request)
    requires SeekInv(h, multiset{}) && r in h.inFlight && h2.inFlight == h.inFlight - {r}
    requires h2.asked == h.asked && h2.answered == h.answered && h2.seeks == h.seeks && h2.task == h.task
    ensures SeekInv(h2, SeekIds(h.inFlight[r].waiters))
  {
    forall id ensures SeekBalance(h2, SeekIds(h.inFlight[r].waiters), id) {
      assert SeekBalance(h, multiset{}, id);
      AttachedDrop(h.inFlight, r, id);
    }
  }

  /** Only the line changes. */
  lemma {:induction false} LineKeepsInv(w: World, s: State, line: Line<Request>, cut: Option<Mxc>, held: multiset<SeekId>)
    requires Inv(w, s, cut, held)
    ensures Inv(w, s.(h := s.h.(line := line)), cut, held)
  {
    var h2 := s.h.(line := line);
    SameSeeksKeep(s.h, h2, held);
    SameRestKeeps(w, s, h2);
    assert forall r :: IsCursor(h2, r) == IsCursor(s.h, r);
  }

  /** The handler only looks at the main file between jobs. */
  predicate AtEvent(h: Handler) { h.task.Idle? && h.finishing == NotFinishing && !h.closed }

  /** The whole entry goes back into the table with other counts: a resend. */
  lemma {:induction false} ResendTook(w: World, s: State, r: Request, entry: InFlight, retries: Retries)
    requires Inv(w, s, Carried(entry.waiters, r.mxc), SeekIds(entry.waiters)) && Took(s.h, r, entry)
    requires retries.timeouts < TIMEOUT_ATTEMPTS && retries.badReplies <= 1
    ensures Inv(w, s.(h := Resend(s.h, r, entry.waiters, retries)), None, multiset{})
  {
    var ids := SeekIds(entry.waiters);
    assert ids == ids + multiset{};
    ResendKeepsInv(w, s, r, entry.waiters, retries, Carried(entry.waiters, r.mxc), ids, multiset{});
  }

  /** The link is down: GETs are cut off, the main request waits for the link, its counts untouched. */
  lemma {:induction false} NetworkKeepsInv(w: World, s: State, r: Request, entry: InFlight)
    requires Inv(w, s, Carried(entry.waiters, r.mxc), SeekIds(entry.waiters)) && Took(s.h, r, entry)
    ensures Inv(w, RequestFailed(s, r, entry, Network), None, multiset{})
  {
    var cut := Carried(entry.waiters, r.mxc);
    AnswerAllKeepsInv(w, s, entry.waiters, cut);
    if HasMain(entry.waiters) {
      MainAlone();
      ResendKeepsInv(w, s.(h := AnswerSeeks(s.h, entry.waiters)), r, [Main], entry.retries, cut, multiset{}, multiset{});
    }
  }

  lemma {:induction false} AnswerAllKeepsInv(w: World, s: State, waiters: seq<Waiting>, cut: Option<Mxc>)
    requires Inv(w, s, cut, SeekIds(waiters))
    ensures Inv(w, s.(h := AnswerSeeks(s.h, waiters)), cut, multiset{})
  {
    var ids := SeekIds(waiters);
    assert ids == ids + multiset{};
    AnswerKeepsInv(w, s, waiters, cut, ids, multiset{});
  }

  lemma {:induction false} FailedKeepsInv(w: World, s: State, r: Request, entry: InFlight, error: Error)
    requires Inv(w, s, Carried(entry.waiters, r.mxc), SeekIds(entry.waiters)) && Took(s.h, r, entry) && AtEvent(s.h)
    ensures Inv(w, RequestFailed(s, r, entry, error), None, multiset{})
  {
    var next := RequestFailed(s, r, entry, error);
    if error.Network? {
      assert next == RequestFailed(s, r, entry, Network);
      NetworkKeepsInv(w, s, r, entry);
    } else if error.Timeout? && entry.retries.timeouts + 1 < TIMEOUT_ATTEMPTS {
      var retries := entry.retries.(timeouts := entry.retries.timeouts + 1);
      assert next == s.(h := Resend(s.h, r, entry.waiters, retries));
      ResendTook(w, s, r, entry, retries);
    } else if IsBadReply(error) && entry.retries.badReplies == 0 {
      var retries := entry.retries.(badReplies := 1);
      assert next == s.(h := Resend(s.h, r, entry.waiters, retries));
      ResendTook(w, s, r, entry, retries);
    } else {
      assert next == GiveUp(s, r, entry, error);
      GiveUpKeepsInv(w, s, r, entry, error);
    }
  }

  /** Nothing more is tried: GETs get the error; the file stops if its main request was on it or the server refuses. */
  lemma {:induction false} GiveUpKeepsInv(w: World, s: State, r: Request, entry: InFlight, error: Error)
    requires Inv(w, s, Carried(entry.waiters, r.mxc), SeekIds(entry.waiters)) && AtEvent(s.h)
    ensures Inv(w, GiveUp(s, r, entry, error), None, multiset{})
  {
    AnswerAllKeepsInv(w, s, entry.waiters, Carried(entry.waiters, r.mxc));
    if HasMain(entry.waiters) || IsPermanentRefusal(error) {
      FailKeepsInv(w, s.(h := AnswerSeeks(s.h, entry.waiters)), r.mxc, error, IsPermanentRefusal(error),
                   Carried(entry.waiters, r.mxc), multiset{});
    }
  }

  lemma MainAlone()
    ensures MainCount([Main]) == 1 && SeekIds([Main]) == multiset{} && HasMain([Main])
  {
    assert [Main][1..] == [];
  }

  lemma {:induction false} UnverifiedKeepsInv(w: World, s: State, mxc: Mxc, r: Request, entry: InFlight, error: Error)
    requires Inv(w, s, Carried(entry.waiters, mxc), SeekIds(entry.waiters)) && Took(s.h, r, entry) && AtEvent(s.h) && r.mxc == mxc
    ensures Inv(w, Unverified(s, mxc, entry, error), None, multiset{})
  {
    var cut := Carried(entry.waiters, mxc);
    AnswerAllKeepsInv(w, s, entry.waiters, cut);
    var told := s.(h := AnswerSeeks(s.h, entry.waiters));
    if mxc in s.h.open {
      FailKeepsInv(w, told, mxc, error, true, cut, multiset{});
    } else {
      SeekOnlyKeepsInv(w, told, told.h.seekOnly - {mxc}, None, multiset{});
    }
  }

  /** The remembered seek-only files may change as long as what counts as verified is. */
  lemma {:induction false} SeekOnlyKeepsInv(w: World, s: State, seekOnly: map<Mxc, SeekOnly>, cut: Option<Mxc>, held: multiset<SeekId>)
    requires Inv(w, s, cut, held)
    requires forall mxc :: mxc in seekOnly && seekOnly[mxc].verified ==> Describes(seekOnly[mxc].manifest, w.file(mxc))
    ensures Inv(w, s.(h := s.h.(seekOnly := seekOnly)), cut, held)
  {
    var h2 := s.h.(seekOnly := seekOnly);
    SameTableKeeps(s.h, h2, cut);
    SameSeeksKeep(s.h, h2, held);
    SeekOnlyKeepsRest(w, s, seekOnly);
  }

  lemma {:induction false} SeekOnlyKeepsRest(w: World, s: State, seekOnly: map<Mxc, SeekOnly>)
    requires RestInv(w, s)
    requires forall mxc :: mxc in seekOnly && seekOnly[mxc].verified ==> Describes(seekOnly[mxc].manifest, w.file(mxc))
    ensures RestInv(w, s.(h := s.h.(seekOnly := seekOnly)))
  {
    var s2 := s.(h := s.h.(seekOnly := seekOnly));
    SameOutcomesKeep(s, s2);
    SameClaimsKeep(s, s2);
  }

  /** What the sdk promises: an accepted `Info` means the manifest describes the file; a chunk that opens is the chunk. */
  ghost predicate InfoContract(w: World, h: Handler, mxc: Mxc, v: Verdict) {
    v.refused.None? ==>
      && (mxc in h.open ==> Describes(h.open[mxc].manifest, w.file(mxc)))
      && (mxc !in h.open && mxc in h.seekOnly ==> Describes(h.seekOnly[mxc].manifest, w.file(mxc)))
  }

  ghost predicate ChunkContract(w: World, h: Handler, mxc: Mxc, index: nat, v: Verdict) {
    v.refused.None? ==>
      && (mxc in h.open ==> !h.open[mxc].needsInfo)
      && (mxc !in h.open && mxc in h.seekOnly ==> h.seekOnly[mxc].verified)
      && index < |Chunks(w.file(mxc))| && v.plain == Chunks(w.file(mxc))[index]
  }

  ghost predicate ReplyContract(w: World, h: Handler, v: Verdict) {
    h.line.replies != [] && h.line.replies[0].result.Ack? ==>
      match h.line.replies[0].action
      case Info(mxc) => InfoContract(w, h, mxc, v)
      case Chunk(mxc, index) => ChunkContract(w, h, mxc, index, v)
  }

  // ---- GETs going on ----

  /** Going on with a GET does not touch jobs or files. */
  lemma {:induction false} SeekChunkFrame(h: Handler, mxc: Mxc, waiting: Waiting, local: LocalReads)
    requires waiting.Seek?
    ensures SameJobs(h, RequestSeekChunk(h, mxc, waiting, local))
  {
  }

  predicate SameJobs(h: Handler, h2: Handler) {
    h2 == h.(inFlight := h2.inFlight, line := h2.line, answered := h2.answered, pieces := h2.pieces)
  }

  lemma {:induction false} SeekChunkKeepsInv(w: World, s: State, mxc: Mxc, waiting: Waiting, local: LocalReads,
      cut: Option<Mxc>, held: multiset<SeekId>, held2: multiset<SeekId>)
    requires Inv(w, s, cut, held) && waiting.Seek? && AskedFor(waiting, mxc) && held == multiset{waiting.id} + held2
    ensures Inv(w, s.(h := RequestSeekChunk(s.h, mxc, waiting, local)), cut, held2)
  {
    var index := waiting.index;
    SeekAlone(waiting);
    if mxc in s.h.open {
      var m := s.h.open[mxc];
      if index in local.fails {
        AnswerKeepsInv(w, s, [waiting], cut, held, held2);
      } else if LocalChunk(m, index).Some? && index !in local.missing {
        LocalGiveKeepsInv(w, s, mxc, waiting, cut, held, held2);
      } else {
        WantKeepsInv(w, s, if m.needsInfo then Info(mxc) else Chunk(mxc, index), waiting, true, cut, held, held2);
      }
    } else if mxc in s.h.seekOnly {
      WantKeepsInv(w, s, if s.h.seekOnly[mxc].verified then Chunk(mxc, index) else Info(mxc), waiting, true, cut, held, held2);
    } else {
      AnswerKeepsInv(w, s, [waiting], cut, held, held2);
    }
  }

  lemma {:induction false} LocalGiveKeepsInv(w: World, s: State, mxc: Mxc, waiting: Waiting,
      cut: Option<Mxc>, held: multiset<SeekId>, held2: multiset<SeekId>)
    requires Inv(w, s, cut, held) && waiting.Seek? && AskedFor(waiting, mxc) && held == SeekIds([waiting]) + held2
    requires mxc in s.h.open && LocalChunk(s.h.open[mxc], waiting.index).Some?
    ensures var m := s.h.open[mxc];
            var index := waiting.index;
            Inv(w, s.(h := GivePiece(s.h, [waiting], mxc, ChunkStart(index, m.manifest.chunkSize), LocalChunk(m, index).value)), cut, held2)
  {
    var m := s.h.open[mxc];
    var index := waiting.index;
    LocalChunkSound(w, mxc, m, waiting);
    GiveKeepsInv(w, s, [waiting], mxc, ChunkStart(index, m.manifest.chunkSize), LocalChunk(m, index).value, cut, held, held2);
  }

  lemma SeekAlone(waiting: Waiting)
    requires waiting.Seek?
    ensures SeekIds([waiting]) == multiset{waiting.id} && !HasMain([waiting])
  {
    assert [waiting][1..] == [];
  }

  /** A chunk at hand is the chunk of the file, and starts where its number says. */
  lemma {:induction false} LocalChunkSound(w: World, mxc: Mxc, m: MediaDownload, to: Waiting)
    requires MediaSound(w, mxc, m) && to.Seek? && AskedFor(to, mxc) && LocalChunk(m, to.index).Some?
    ensures PieceSound(w, Piece(to, mxc, ChunkStart(to.index, m.manifest.chunkSize), LocalChunk(m, to.index).value))
  {
    var index := to.index;
    assert index < |Chunks(w.file(mxc))| && LocalChunk(m, index).value == Chunks(w.file(mxc))[index];
  }

  lemma {:induction false} SeekChunksKeepInv(w: World, s: State, mxc: Mxc, waiters: seq<Waiting>, local: LocalReads,
      cut: Option<Mxc>, held: multiset<SeekId>)
    requires Inv(w, s, cut, held) && held == SeekIds(waiters) && (forall v :: v in waiters ==> AskedFor(v, mxc))
    ensures Inv(w, s.(h := RequestSeekChunks(s.h, mxc, waiters, local)), cut, multiset{})
    ensures SameJobs(s.h, RequestSeekChunks(s.h, mxc, waiters, local))
    decreases |waiters|
  {
    if waiters != [] {
      var rest := SeekIds(waiters[1..]);
      if waiters[0].Seek? {
        SeekChunkKeepsInv(w, s, mxc, waiters[0], local, cut, held, rest);
        SeekChunkFrame(s.h, mxc, waiters[0], local);
        SeekChunksKeepInv(w, s.(h := RequestSeekChunk(s.h, mxc, waiters[0], local)), mxc,
                          waiters[1..], local, cut, rest);
      } else {
        assert held == rest;
        SeekChunksKeepInv(w, s, mxc, waiters[1..], local, cut, held);
      }
    }
  }
}
