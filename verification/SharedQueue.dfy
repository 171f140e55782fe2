/** The queue state one handler shares with the outside, and the claim table all handlers share, as objects updated in
    place under their locks. */
module SharedQueues {
  import opened Files
  import opened Wrappers
  import opened JobQueue
  import opened Download

  class SharedQueue {
    var inbox: seq<Manifest>
    var preparing: map<Mxc, bool>
    var downloading: map<Mxc, Downloading>
    var waiters: map<Mxc, seq<Waiter>>
    var stopped: bool
    ghost var told: multiset<Waiter>
    ghost var outcomes: set<Told>
    ghost var slipped: set<Mxc>

    ghost function View(): QueueState
      reads this
    {
      QueueState(inbox, preparing, downloading, waiters, stopped, told, outcomes, slipped)
    }

    constructor ()
      ensures View() == NO_JOBS
    {
      inbox, preparing, downloading, waiters, stopped := [], map[], map[], map[], false;
      told, outcomes, slipped := multiset{}, {}, {};
    }

    method IsInInbox(mxc: Mxc) returns (found: bool)
      ensures found == InInbox(inbox, mxc)
    {
      found := false;
      var i := 0;
      while i < |inbox| && !found
        invariant 0 <= i <= |inbox|
        invariant found ==> InInbox(inbox, mxc)
        invariant !found ==> forall j :: 0 <= j < i ==> inbox[j].mxc != mxc
      {
        found := inbox[i].mxc == mxc;
        i := i + 1;
      }
    }

    method FindStatus(mxc: Mxc) returns (status: Option<JobStatus>)
      ensures status == StatusIn(View(), mxc)
    {
      if mxc in downloading {
        status := Some(JobStatus(Running, downloading[mxc].done, downloading[mxc].total));
      } else {
        var waiting := IsInInbox(mxc);
        status := if mxc in preparing || waiting then Some(JobStatus(Queued, 0, 0)) else None;
      }
    }

    /** A job known already is not put in twice; its waiters hang on to it. What comes back is how the job stands now. */
    method EnqueueInto(manifest: Manifest, newWaiters: seq<Waiter>) returns (status: JobStatus)
      modifies this`inbox, this`waiters
      ensures View() == Enqueue(old(View()), manifest, newWaiters)
      ensures StatusIn(View(), manifest.mxc) == Some(status)
    {
      var mxc := manifest.mxc;
      if newWaiters != [] {
        waiters := waiters[mxc := (if mxc in waiters then waiters[mxc] else []) + newWaiters];
      }
      var known := FindStatus(mxc);
      match known
      case Some(s) => status := s;
      case None =>
        inbox := inbox + [manifest];
        status := JobStatus(Queued, 0, 0);
        assert inbox[|inbox| - 1].mxc == mxc;
    }

    /** Everyone waiting for the job is told, and leaves the table. */
    method TellWaiters(mxc: Mxc, outcome: Outcome)
      modifies this`waiters, this`told, this`outcomes
      ensures View() == Tell(old(View()), mxc, outcome)
    {
      ghost var gone := WaitersOf(View(), mxc);
      told := told + multiset(gone);
      outcomes := outcomes + set w | w in gone :: Told(w, mxc, outcome);
      waiters := waiters - {mxc};
    }

    /** True if there was such a job; a job not started yet is taken out and its waiters get the error. */
    method CancelJob(mxc: Mxc) returns (accepted: bool)
      modifies this
      ensures View() == Cancel(old(View()), mxc)
      ensures accepted == CancelAccepted(old(View()), mxc)
    {
      if mxc in downloading {
        downloading := downloading[mxc := downloading[mxc].(cancelled := true)];
        return true;
      }
      if mxc in preparing {
        preparing := preparing[mxc := true];
        return true;
      }
      accepted := IsInInbox(mxc);
      if accepted {
        RemoveFromInbox(mxc);
        TellWaiters(mxc, Failed(Usage));
      }
    }

    method RemoveFromInbox(mxc: Mxc)
      modifies this`inbox
      ensures inbox == InboxWithout(old(inbox), mxc)
    {
      var kept: seq<Manifest> := [];
      var i := 0;
      while i < |inbox|
        invariant 0 <= i <= |inbox| && inbox == old(inbox)
        invariant kept + InboxWithout(inbox[i..], mxc) == InboxWithout(inbox, mxc)
      {
        assert inbox[i..][1..] == inbox[i + 1..];
        if inbox[i].mxc != mxc {
          assert kept + ([inbox[i]] + InboxWithout(inbox[i + 1..], mxc)) == (kept + [inbox[i]]) + InboxWithout(inbox[i + 1..], mxc);
          kept := kept + [inbox[i]];
        }
        i := i + 1;
      }
      assert kept + [] == kept;
      inbox := kept;
    }

    /** The job is over: out of the `downloading` table, its waiters told. */
    method LeaveJob(mxc: Mxc, end: JobEnd)
      modifies this`downloading, this`waiters, this`told, this`outcomes
      ensures View() == LeaveQueue(old(View()), mxc, end)
    {
      downloading := downloading - {mxc};
      TellWaiters(mxc, match end case Complete => Finished case Cancelled => Failed(Usage) case Broken(error) => Failed(error));
    }

    method ShowDone(mxc: Mxc, done: nat)
      requires mxc in downloading
      modifies this`downloading
      ensures View() == SetDone(old(View()), mxc, done)
    {
      downloading := downloading[mxc := downloading[mxc].(done := done)];
    }

    /** The handler is gone: no job is left, everyone who waited is told so. */
    method Shut()
      modifies this
      ensures View() == CloseQueue(old(View()))
    {
      ghost var closed := CloseQueue(View());
      told, outcomes := closed.told, closed.outcomes;
      inbox, preparing, downloading, waiters, stopped := [], map[], map[], map[], true;
    }
  }

  /** Which handler writes which file of which server directory. */
  class MediaClaims {
    var held: map<FileKey, HandlerId>

    constructor ()
      ensures held == map[]
    {
      held := map[];
    }

    /** True if the claim is this handler's now: nobody had it, or it had it already. */
    method TryClaim(key: FileKey, id: HandlerId) returns (claimed: bool)
      modifies this
      ensures claimed <==> (key in old(held) ==> old(held)[key] == id)
      ensures held == if claimed then old(held)[key := id] else old(held)
    {
      if key !in held { held := held[key := id]; }
      claimed := held[key] == id;
    }

    /** Only the handler that holds a claim can give it up. */
    method GiveUp(key: FileKey, id: HandlerId)
      modifies this
      ensures held == if key in old(held) && old(held)[key] == id then old(held) - {key} else old(held)
    {
      if key in held && held[key] == id { held := held - {key}; }
    }
  }

  /** What every handler of the process sees on disk: unfinished files, the pool of whole ones, the rows marked complete. */
  class MediaStore {
    var disk: map<FileKey, MediaDownload>
    var pool: map<FileKey, ServerFile>
    var complete: set<FileKey>

    constructor (left: map<FileKey, MediaDownload>, whole: map<FileKey, ServerFile>, rows: set<FileKey>)
      ensures disk == left && pool == whole && complete == rows
    {
      disk, pool, complete := left, whole, rows;
    }
  }
}
