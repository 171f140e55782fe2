/** One handler with everything around it: its own steps, and what other threads, the sender and the servers may do in
    between. Every move keeps the invariant and touches only what belongs to this handler. */
module DownloadMoves {
  import opened Files
  import opened Wrappers
  import opened Lines
  import opened JobQueue
  import opened Download
  import opened DownloadInv
  import DownloadTable
  import opened DownloadSteps
  import DownloadReplies
  import opened DownloadJobs

  datatype Move =
    // the handler, between two events
    | TakeSeekMove(local: LocalReads)
    | TakeReplyMove(v: Verdict, local: LocalReads)
    | TakeJobMove
    | CancelOneMove(mxc: Mxc, main: Option<Request>)
    | CloseIdleMove(mxc: Mxc)
    | ForgetMove(mxc: Mxc)
    // the handler, after an await or a lock
    | SeekLookedMove(found: bool, local: LocalReads)
    | LookedMove(found: bool)
    | OpenedMove(media: Result<MediaDownload, Error>)
    | CancelCheckMove
    | StartJobMove(disk: DiskResults)
    | FinishPreparingMove
    | RecordedMove(failed: Option<Error>)
    | AnsweredMove(found: bool, unread: set<nat>)
    // others
    | CancelMove(mxc: Mxc)
    | AskMove(job: SeekJob)
    | StopMove
    | SenderMove(step: SenderStep, silence: nat)

  /** The handler stands at a job in this stage and nothing is being finished. */
  predicate AtStage(h: Handler, stage: Stage) {
    h.task.Preparing? && h.task.stage == stage && h.finishing == NotFinishing
  }

  /** The job's file cannot be claimed here: another handler has it. */
  predicate ClaimedElsewhere(s: State)
    requires s.h.task.Preparing?
  {
    !CanClaim(s.d, Key(s.h, s.h.task.manifest.mxc), s.h.id)
  }

  /** When a move can happen, and what the sdk, the database and the line promise about it. */
  ghost predicate May(w: World, s: State, move: Move) {
    !s.h.closed &&
    match move
    case TakeSeekMove(_) => AtEvent(s.h) && s.h.seeks != []
    case TakeReplyMove(v, _) => AtEvent(s.h) && s.h.line.replies != [] && ReplyContract(w, s.h, v)
    case TakeJobMove => AtEvent(s.h) && s.h.q.inbox != []
    case CancelOneMove(mxc, found) =>
      && AtEvent(s.h) && mxc in s.h.q.downloading && s.h.q.downloading[mxc].cancelled
      && (found.Some? ==> MainOf(s.h, found.value, mxc))
      && (found.None? ==> forall r :: !MainOf(s.h, r, mxc))
    case CloseIdleMove(mxc) => AtEvent(s.h) && IsIdleFile(s.h, mxc)
    case ForgetMove(mxc) => AtEvent(s.h) && |s.h.seekOnly| > SEEK_ONLY_KEPT && IsOldest(s.h, mxc)
    case SeekLookedMove(found, _) =>
      s.h.task.SeekLooking? && (found ==> Key(s.h, s.h.task.job.manifest.mxc) in s.d.complete)
    case LookedMove(found) =>
      && AtStage(s.h, Looking)
      && (found ==> Key(s.h, s.h.task.manifest.mxc) in s.d.complete)
    case OpenedMove(media) => AtStage(s.h, Opening) && OpenContract(s, media)
    case CancelCheckMove => AtStage(s.h, Ready)
    case StartJobMove(_) => AtStage(s.h, Checked)
    case FinishPreparingMove => AtStage(s.h, Tail)
    case RecordedMove(_) => s.h.finishing.Recording?
    case AnsweredMove(found, unread) =>
      s.h.finishing.Answering? && (found ==> Key(s.h, s.h.finishing.mxc) in s.d.complete)
    case CancelMove(_) => true
    case AskMove(_) => true
    case StopMove => true
    case SenderMove(step, silence) => Enabled(s.h.line, step, silence)
  }

  ghost function Act(w: World, s: State, move: Move): State
    requires Inv(w, s, None, multiset{}) && May(w, s, move)
  {
    match move
    case TakeSeekMove(local) => s.(h := TakeSeek(s.h, local))
    case TakeReplyMove(v, local) => HandleReply(s, v, local)
    case TakeJobMove => s.(h := TakeJob(s.h))
    case CancelOneMove(mxc, found) => CancelOne(s, mxc, found)
    case CloseIdleMove(mxc) => CloseIdle(s, mxc)
    case ForgetMove(mxc) => s.(h := ForgetSeekOnly(s.h, mxc))
    case SeekLookedMove(found, local) => s.(h := SeekLooked(s, found, local))
    case LookedMove(found) =>
      if found then FoundComplete(s) else if ClaimedElsewhere(s) then GiveUpJob(s) else StartOpening(s)
    case OpenedMove(media) => Opened(s, media)
    case CancelCheckMove => CancelCheck(s)
    case StartJobMove(disk) => StartJob(s, disk)
    case FinishPreparingMove => s.(h := FinishPreparing(s.h))
    case RecordedMove(failed) => FinishRecorded(s, failed)
    case AnsweredMove(found, unread) => FinishAnswered(s, found, unread)
    case CancelMove(mxc) => s.(h := s.h.(q := Cancel(s.h.q, mxc)))
    case AskMove(job) => s.(h := s.h.(seeks := s.h.seeks + [job], asked := s.h.asked + multiset{job}))
    case StopMove => s.(h := s.h.(q := s.h.q.(stopped := true)))
    case SenderMove(step, silence) => s.(h := s.h.(line := Apply(s.h.line, step, silence)))
  }

  // ---- what other threads do ----

  lemma {:induction false} InInboxStep(inbox: seq<Manifest>, first: Manifest, x: Mxc)
    ensures InInbox([first] + inbox, x) <==> first.mxc == x || InInbox(inbox, x)
  {
    var all := [first] + inbox;
    assert all[0] == first;
    if InInbox(inbox, x) {
      var i :| 0 <= i < |inbox| && inbox[i].mxc == x;
      assert all[i + 1].mxc == x;
    }
    if InInbox(all, x) && first.mxc != x {
      var i :| 0 <= i < |all| && all[i].mxc == x;
      assert inbox[i - 1].mxc == x;
    }
  }

  lemma {:induction false} InboxWithoutHas(inbox: seq<Manifest>, mxc: Mxc, x: Mxc)
    ensures InInbox(InboxWithout(inbox, mxc), x) <==> InInbox(inbox, x) && x != mxc
  {
    if inbox != [] {
      InboxWithoutHas(inbox[1..], mxc, x);
      assert inbox == [inbox[0]] + inbox[1..];
      InInboxStep(inbox[1..], inbox[0], x);
      InInboxStep(InboxWithout(inbox[1..], mxc), inbox[0], x);
    }
  }

  ghost predicate Distinct(inbox: seq<Manifest>) {
    forall i, j :: 0 <= i < j < |inbox| ==> inbox[i].mxc != inbox[j].mxc
  }

  lemma {:induction false} InboxWithoutDistinct(inbox: seq<Manifest>, mxc: Mxc)
    requires Distinct(inbox)
    ensures Distinct(InboxWithout(inbox, mxc))
  {
    if inbox != [] {
      var rest := InboxWithout(inbox[1..], mxc);
      InboxWithoutDistinct(inbox[1..], mxc);
      InboxWithoutHas(inbox[1..], mxc, inbox[0].mxc);
      assert !InInbox(rest, inbox[0].mxc);
      assert forall j :: 0 <= j < |rest| ==> rest[j].mxc != inbox[0].mxc;
    }
  }

  /** The queue and the handler task fit together. */
  ghost predicate QueueFits(h: Handler, due: multiset<Waiter>) {
    InboxShape(h.q) && WaiterInv(h.q) && WaiterBalance(h.q, due) && TaskShape(h) && TailInv(h)
  }

  lemma {:induction false} CancelKeepsInv(w: World, s: State, mxc: Mxc)
    requires Inv(w, s, None, multiset{})
    ensures Inv(w, s.(h := s.h.(q := Cancel(s.h.q, mxc))), None, multiset{})
  {
    var q2 := Cancel(s.h.q, mxc);
    assert s.h.(q := q2) == s.h.(q := q2, task := s.h.task);
    CancelFits(s.h, mxc, w.due);
    CancelFinishesNothing(s.h.q, mxc);
    QueueKeepsInv(w, w, s, q2, s.h.task);
  }

  lemma {:induction false} CancelFits(h: Handler, mxc: Mxc, due: multiset<Waiter>)
    requires QueueFits(h, due)
    ensures QueueFits(h.(q := Cancel(h.q, mxc)), due) && SameRunning(h.q, Cancel(h.q, mxc))
  {
    if mxc !in h.q.downloading && mxc !in h.q.preparing && InInbox(h.q.inbox, mxc) {
      CancelWaitingFits(h, mxc, due);
    } else {
      assert SameButFlags(h.q, Cancel(h.q, mxc));
      FlagFits(h, Cancel(h.q, mxc), due);
    }
  }

  lemma {:induction false} CancelFinishesNothing(q: QueueState, mxc: Mxc)
    ensures forall t :: t in Cancel(q, mxc).outcomes && t.outcome == Finished ==> t in q.outcomes
  {
  }

  /** Only flags were raised. */
  predicate SameButFlags(q: QueueState, q2: QueueState) {
    && q2.inbox == q.inbox && q2.waiters == q.waiters && q2.told == q.told && q2.outcomes == q.outcomes && q2.slipped == q.slipped
    && q2.preparing.Keys == q.preparing.Keys && q2.downloading.Keys == q.downloading.Keys
    && forall x :: x in q.downloading ==> q2.downloading[x].done == q.downloading[x].done && q2.downloading[x].total == q.downloading[x].total
  }

  lemma {:induction false} FlagFits(h: Handler, q2: QueueState, due: multiset<Waiter>)
    requires QueueFits(h, due) && SameButFlags(h.q, q2)
    ensures QueueFits(h.(q := q2), due) && SameRunning(h.q, q2)
  {
    assert forall x :: x in q2.preparing <==> x in h.q.preparing.Keys;
    assert forall x :: x in q2.downloading <==> x in h.q.downloading.Keys;
    assert forall x :: HasJob(q2, x) == HasJob(h.q, x);
  }

  lemma {:induction false} CancelWaitingFits(h: Handler, mxc: Mxc, due: multiset<Waiter>)
    requires QueueFits(h, due) && mxc !in h.q.downloading && mxc !in h.q.preparing && InInbox(h.q.inbox, mxc)
    ensures QueueFits(h.(q := Cancel(h.q, mxc)), due)
  {
    var q := h.q;
    var q2 := Cancel(q, mxc);
    TellBalances(q.(inbox := InboxWithout(q.inbox, mxc)), mxc, Failed(Usage), due);
    InboxWithoutDistinct(q.inbox, mxc);
    forall x ensures InInbox(q2.inbox, x) <==> InInbox(q.inbox, x) && x != mxc { InboxWithoutHas(q.inbox, mxc, x); }
    assert InboxShape(q2) by {
      forall i | 0 <= i < |q2.inbox| ensures q2.inbox[i].mxc !in q2.preparing && q2.inbox[i].mxc !in q2.downloading {
        assert InInbox(q2.inbox, q2.inbox[i].mxc);
      }
    }
  }

  /** A job put in while its last run is past its end but still counts as being prepared: the waiters would hang on
      to nothing. */
  predicate SlipsIn(h: Handler, mxc: Mxc) {
    h.task.Preparing? && h.task.stage == Tail && h.task.manifest.mxc == mxc && mxc !in h.q.downloading
  }

  /** The queue after a job was put in, and whether it slipped in. */
  function EnqueueAt(h: Handler, manifest: Manifest, waiters: seq<Waiter>): QueueState {
    var q2 := Enqueue(h.q, manifest, waiters);
    if SlipsIn(h, manifest.mxc) then q2.(slipped := q2.slipped + {manifest.mxc}) else q2
  }

  lemma {:induction false} EnqueueKeepsInv(w: World, s: State, manifest: Manifest, waiters: seq<Waiter>)
    requires Inv(w, s, None, multiset{})
    ensures Inv(w.(due := w.due + multiset(waiters)), s.(h := s.h.(q := EnqueueAt(s.h, manifest, waiters))), None, multiset{})
  {
    var q2 := EnqueueAt(s.h, manifest, waiters);
    assert s.h.(q := q2) == s.h.(q := q2, task := s.h.task);
    EnqueueFits(s.h, manifest, waiters, w.due);
    QueueKeepsInv(w, w.(due := w.due + multiset(waiters)), s, q2, s.h.task);
  }

  lemma {:induction false} EnqueueFits(h: Handler, manifest: Manifest, waiters: seq<Waiter>, due: multiset<Waiter>)
    requires QueueFits(h, due)
    ensures QueueFits(h.(q := EnqueueAt(h, manifest, waiters)), due + multiset(waiters))
    ensures SameRunning(h.q, EnqueueAt(h, manifest, waiters))
    ensures EnqueueAt(h, manifest, waiters).outcomes == h.q.outcomes
  {
    EnqueueBalances(h.q, manifest, waiters, due);
    EnqueueKeepsShape(h.q, manifest, waiters);
  }

  lemma {:induction false} EnqueueKeepsShape(q: QueueState, manifest: Manifest, waiters: seq<Waiter>)
    requires InboxShape(q) && WaiterInv(q)
    ensures InboxShape(Enqueue(q, manifest, waiters)) && WaiterInv(Enqueue(q, manifest, waiters))
    ensures HasJob(Enqueue(q, manifest, waiters), manifest.mxc)
  {
    var q2 := Enqueue(q, manifest, waiters);
    if StatusIn(q, manifest.mxc).None? {
      assert q2.inbox[|q.inbox|] == manifest;
      assert !InInbox(q.inbox, manifest.mxc);
    }
    forall x | HasJob(q, x) ensures HasJob(q2, x) {
      if InInbox(q.inbox, x) {
        var i :| 0 <= i < |q.inbox| && q.inbox[i].mxc == x;
        assert q2.inbox[i].mxc == x;
      }
    }
  }

  lemma {:induction false} AskKeepsInv(w: World, s: State, job: SeekJob)
    requires Inv(w, s, None, multiset{})
    ensures Inv(w, s.(h := s.h.(seeks := s.h.seeks + [job], asked := s.h.asked + multiset{job})), None, multiset{})
  {
    var h2 := s.h.(seeks := s.h.seeks + [job], asked := s.h.asked + multiset{job});
    DownloadTable.SameTableKeeps(s.h, h2, None);
    DownloadTable.SameRestKeeps(w, s, h2);
    ChannelAppend(s.h.seeks, job);
    forall id ensures SeekBalance(h2, multiset{}, id) {
      assert SeekBalance(s.h, multiset{}, id);
    }
  }

  lemma {:induction false} ChannelAppend(seeks: seq<SeekJob>, job: SeekJob)
    ensures ChannelIds(seeks + [job]) == ChannelIds(seeks) + multiset{job}
  {
    if seeks == [] {
      assert seeks + [job] == [job];
      assert [job][1..] == [];
    } else {
      assert (seeks + [job])[0] == seeks[0] && (seeks + [job])[1..] == seeks[1..] + [job];
      ChannelAppend(seeks[1..], job);
    }
  }

  lemma {:induction false} StopKeepsInv(w: World, s: State)
    requires Inv(w, s, None, multiset{})
    ensures Inv(w, s.(h := s.h.(q := s.h.q.(stopped := true))), None, multiset{})
  {
    var q2 := s.h.q.(stopped := true);
    assert s.h.(q := q2) == s.h.(q := q2, task := s.h.task);
    StopFits(s.h, w.due);
    QueueKeepsInv(w, w, s, q2, s.h.task);
  }

  lemma {:induction false} StopFits(h: Handler, due: multiset<Waiter>)
    requires QueueFits(h, due)
    ensures QueueFits(h.(q := h.q.(stopped := true)), due)
  {
    assert forall x :: HasJob(h.q.(stopped := true), x) == HasJob(h.q, x);
  }

  lemma {:induction false} SenderKeepsInv(w: World, s: State, step: SenderStep, silence: nat)
    requires Inv(w, s, None, multiset{}) && Enabled(s.h.line, step, silence)
    ensures Inv(w, s.(h := s.h.(line := Apply(s.h.line, step, silence))), None, multiset{})
  {
    LineKeepsInv(w, s, Apply(s.h.line, step, silence), None, multiset{});
  }

  // ---- every move ----

  lemma {:induction false} ActKeepsInv(w: World, s: State, move: Move)
    requires Inv(w, s, None, multiset{}) && May(w, s, move)
    ensures Inv(w, Act(w, s, move), None, multiset{})
  {
    if move.CancelMove? || move.AskMove? || move.StopMove? || move.SenderMove? {
      OutsideKeepsInv(w, s, move);
    } else if move.TakeSeekMove? || move.SeekLookedMove? {
      SeekKeepsInv(w, s, move);
    } else if move.LookedMove? || move.OpenedMove? || move.CancelCheckMove? || move.StartJobMove? {
      PrepareKeepsInv(w, s, move);
    } else {
      OwnKeepsInv(w, s, move);
    }
  }

  lemma {:induction false} OwnKeepsInv(w: World, s: State, move: Move)
    requires Inv(w, s, None, multiset{}) && May(w, s, move)
    requires move.TakeReplyMove? || move.TakeJobMove? || move.CancelOneMove? || move.CloseIdleMove? || move.ForgetMove?
             || move.FinishPreparingMove? || move.RecordedMove? || move.AnsweredMove?
    ensures Inv(w, Act(w, s, move), None, multiset{})
  {
    match move
    case TakeReplyMove(v, local) => DownloadReplies.ReplyKeepsInv(w, s, v, local);
    case TakeJobMove => TakeJobKeepsInv(w, s);
    case CancelOneMove(mxc, main) => CancelOneKeepsInv(w, s, mxc, main);
    case CloseIdleMove(mxc) => CloseIdleKeepsInv(w, s, mxc);
    case ForgetMove(mxc) => ForgetKeepsInv(w, s, mxc);
    case FinishPreparingMove => FinishPreparingKeepsInv(w, s);
    case RecordedMove(failed) => RecordedKeepsInv(w, s, failed);
    case AnsweredMove(found, unread) => AnsweredKeepsInv(w, s, found, unread);
    case _ =>
  }

  lemma {:induction false} SeekKeepsInv(w: World, s: State, move: Move)
    requires Inv(w, s, None, multiset{}) && May(w, s, move) && (move.TakeSeekMove? || move.SeekLookedMove?)
    ensures Inv(w, Act(w, s, move), None, multiset{})
  {
    match move
    case TakeSeekMove(local) => TakeSeekKeepsInv(w, s, local);
    case SeekLookedMove(found, local) => SeekLookedKeepsInv(w, s, found, local);
    case _ =>
  }

  /** What others do around the handler. */
  lemma {:induction false} OutsideKeepsInv(w: World, s: State, move: Move)
    requires Inv(w, s, None, multiset{}) && May(w, s, move)
    requires move.CancelMove? || move.AskMove? || move.StopMove? || move.SenderMove?
    ensures Inv(w, Act(w, s, move), None, multiset{})
  {
    match move
    case CancelMove(mxc) => CancelKeepsInv(w, s, mxc);
    case AskMove(job) => AskKeepsInv(w, s, job);
    case StopMove => StopKeepsInv(w, s);
    case SenderMove(step, silence) => SenderKeepsInv(w, s, step, silence);
    case _ =>
  }

  /** The steps on the way from a job to a running download. */
  lemma {:induction false} PrepareKeepsInv(w: World, s: State, move: Move)
    requires Inv(w, s, None, multiset{}) && May(w, s, move)
    requires move.LookedMove? || move.OpenedMove? || move.CancelCheckMove? || move.StartJobMove?
    ensures Inv(w, Act(w, s, move), None, multiset{})
  {
    match move
    case LookedMove(found) =>
      if found { FoundCompleteKeepsInv(w, s); }
      else if ClaimedElsewhere(s) { GiveUpJobKeepsInv(w, s); }
      else { StartOpeningKeepsInv(w, s); }
    case OpenedMove(media) => OpenedKeepsInv(w, s, media);
    case CancelCheckMove => CancelCheckKeepsInv(w, s);
    case StartJobMove(disk) => StartJobKeepsInv(w, s, disk);
    case _ =>
  }
}
