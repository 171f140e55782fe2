/** The state a download handler shares with the outside (download_queue.rs): the job inbox, what is being prepared
    or downloaded, and who waits for which job. `enqueue` and `cancel` run on other threads, under one lock. */
module JobQueue {
  import opened Files
  import opened Wrappers
  import Tally

  /** Someone waiting for a job to end; the model names each by a number. */
  type Waiter = int

  datatype Downloading = Downloading(cancelled: bool, done: nat, total: nat)

  /** How a job ended, as its waiters are told. */
  datatype Outcome = Finished | Failed(error: Error)

  /** One waiter told one outcome about one file. */
  datatype Told = Told(waiter: Waiter, mxc: Mxc, outcome: Outcome)

  /** `told` and `outcomes` record the answers given so far: the other ends of the waiters' channels. `slipped` records the
      files whose job was put in while their last run was over and still counted as being prepared. */
  datatype QueueState = QueueState(
    inbox: seq<Manifest>,
    preparing: map<Mxc, bool>,
    downloading: map<Mxc, Downloading>,
    waiters: map<Mxc, seq<Waiter>>,
    stopped: bool,
    told: multiset<Waiter>,
    outcomes: set<Told>,
    slipped: set<Mxc>)

  const NO_JOBS := QueueState([], map[], map[], map[], false, multiset{}, {}, {})

  datatype JobState = Queued | Running
  datatype JobStatus = JobStatus(state: JobState, done: nat, total: nat)

  predicate InInbox(inbox: seq<Manifest>, mxc: Mxc) { exists i :: 0 <= i < |inbox| && inbox[i].mxc == mxc }

  /** The job exists: waiting, being prepared, or running. */
  predicate HasJob(q: QueueState, mxc: Mxc) {
    InInbox(q.inbox, mxc) || mxc in q.preparing || mxc in q.downloading
  }

  function StatusIn(q: QueueState, mxc: Mxc): Option<JobStatus> {
    if mxc in q.downloading then Some(JobStatus(Running, q.downloading[mxc].done, q.downloading[mxc].total))
    else if mxc in q.preparing || InInbox(q.inbox, mxc) then Some(JobStatus(Queued, 0, 0))
    else None
  }

  function WaitersOf(q: QueueState, mxc: Mxc): seq<Waiter> { if mxc in q.waiters then q.waiters[mxc] else [] }

  /** A job put in: known already means nothing is repeated and the waiters hang on to it. */
  function Enqueue(q: QueueState, manifest: Manifest, waiters: seq<Waiter>): QueueState {
    var mxc := manifest.mxc;
    var waiting := if waiters == [] then q.waiters else q.waiters[mxc := WaitersOf(q, mxc) + waiters];
    if StatusIn(q, mxc).Some? then q.(waiters := waiting)
    else q.(waiters := waiting, inbox := q.inbox + [manifest])
  }

  function InboxWithout(inbox: seq<Manifest>, mxc: Mxc): seq<Manifest> {
    if inbox == [] then []
    else if inbox[0].mxc == mxc then InboxWithout(inbox[1..], mxc)
    else [inbox[0]] + InboxWithout(inbox[1..], mxc)
  }

  /** Everyone waiting for `mxc` is told the outcome and leaves the table. */
  function Tell(q: QueueState, mxc: Mxc, outcome: Outcome): QueueState {
    var waiters := WaitersOf(q, mxc);
    q.(waiters := q.waiters - {mxc},
       told := q.told + multiset(waiters),
       outcomes := q.outcomes + set w | w in waiters :: Told(w, mxc, outcome))
  }

  /** Running: raise its flag. Being prepared: note it there. Not started: take it out, its waiters get the error. */
  function Cancel(q: QueueState, mxc: Mxc): QueueState {
    if mxc in q.downloading then q.(downloading := q.downloading[mxc := q.downloading[mxc].(cancelled := true)])
    else if mxc in q.preparing then q.(preparing := q.preparing[mxc := true])
    else if !InInbox(q.inbox, mxc) then q
    else Tell(q.(inbox := InboxWithout(q.inbox, mxc)), mxc, Failed(Usage))
  }

  predicate CancelAccepted(q: QueueState, mxc: Mxc) { HasJob(q, mxc) }

  /** The handler is gone: every job disappears and every waiter is told so. */
  ghost function CloseQueue(q: QueueState): QueueState {
    q.(inbox := [], preparing := map[], downloading := map[], waiters := map[], stopped := true,
       told := q.told + AllWaiting(q.waiters),
       outcomes := q.outcomes + set mxc, w | mxc in q.waiters && w in q.waiters[mxc] :: Told(w, mxc, Failed(Io)))
  }

  // ---- what the queue keeps ----

  ghost function WaiterCounts(waiters: map<Mxc, seq<Waiter>>): map<Mxc, multiset<Waiter>> {
    map mxc | mxc in waiters :: multiset(waiters[mxc])
  }

  /** Everyone still waiting, over all files. */
  ghost function AllWaiting(waiters: map<Mxc, seq<Waiter>>): multiset<Waiter> { Tally.Sum(WaiterCounts(waiters)) }

  /** Everyone in `due` was told, or still waits: exactly once. */
  ghost predicate WaiterBalance(q: QueueState, due: multiset<Waiter>) {
    forall x: Waiter :: due[x] == q.told[x] + AllWaiting(q.waiters)[x]
  }

  lemma {:induction false} AllWaitingDrop(waiters: map<Mxc, seq<Waiter>>, mxc: Mxc, x: Waiter)
    ensures AllWaiting(waiters)[x] ==
            AllWaiting(waiters - {mxc})[x] + multiset(if mxc in waiters then waiters[mxc] else [])[x]
  {
    var counts := WaiterCounts(waiters);
    assert WaiterCounts(waiters - {mxc}) == counts - {mxc};
    if mxc in waiters {
      Tally.SumRemove(counts, mxc);
    } else {
      assert waiters - {mxc} == waiters;
    }
  }

  lemma {:induction false} AllWaitingAdd(waiters: map<Mxc, seq<Waiter>>, mxc: Mxc, list: seq<Waiter>, x: Waiter)
    ensures AllWaiting(waiters[mxc := list])[x] == AllWaiting(waiters - {mxc})[x] + multiset(list)[x]
  {
    AllWaitingDrop(waiters[mxc := list], mxc, x);
    assert waiters[mxc := list] - {mxc} == waiters - {mxc};
  }

  lemma {:induction false} TellBalances(q: QueueState, mxc: Mxc, outcome: Outcome, due: multiset<Waiter>)
    requires WaiterBalance(q, due)
    ensures WaiterBalance(Tell(q, mxc, outcome), due)
  {
    forall x: Waiter ensures due[x] == Tell(q, mxc, outcome).told[x] + AllWaiting(Tell(q, mxc, outcome).waiters)[x] {
      AllWaitingDrop(q.waiters, mxc, x);
    }
  }

  lemma {:induction false} EnqueueBalances(q: QueueState, manifest: Manifest, waiters: seq<Waiter>, due: multiset<Waiter>)
    requires WaiterBalance(q, due)
    ensures WaiterBalance(Enqueue(q, manifest, waiters), due + multiset(waiters))
  {
    var mxc := manifest.mxc;
    var q2 := Enqueue(q, manifest, waiters);
    forall x: Waiter ensures (due + multiset(waiters))[x] == q2.told[x] + AllWaiting(q2.waiters)[x] {
      if waiters != [] {
        AllWaitingDrop(q.waiters, mxc, x);
        AllWaitingAdd(q.waiters, mxc, WaitersOf(q, mxc) + waiters, x);
        assert multiset(WaitersOf(q, mxc) + waiters) == multiset(WaitersOf(q, mxc)) + multiset(waiters);
      }
    }
  }

  lemma {:induction false} CloseBalances(q: QueueState, due: multiset<Waiter>)
    requires WaiterBalance(q, due)
    ensures WaiterBalance(CloseQueue(q), due)
  {
    assert WaiterCounts(map[]) == map[];
  }
}
