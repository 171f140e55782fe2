/** The download handler as the repository keeps it: one object whose fields the methods update, with loops where the
    repository has loops. Each method is proved to do exactly what the step function of the state machine says. */
module DownloadHandlers {
  import opened Files
  import opened Wrappers
  import opened Tally
  import opened Lines
  import opened JobQueue
  import opened Download
  import DownloadTable
  import opened RequestLines
  import opened SharedQueues

  class DownloadHandler {
    const id: HandlerId
    const dir: nat
    const shared: SharedQueue
    const claims: MediaClaims
    const store: MediaStore
    const line: RequestLine<Request>
    var open: map<Mxc, MediaDownload>
    var seekOnly: map<Mxc, SeekOnly>
    var opening: set<Mxc>
    var inFlight: map<Request, InFlight>
    var seeks: seq<SeekJob>
    var task: Task
    var finishing: Finishing
    var closed: bool
    ghost var asked: multiset<SeekId>
    ghost var answered: multiset<SeekId>
    ghost var pieces: set<Piece>

    ghost function Me(): Handler
      reads this, shared, line
    {
      Handler(id, dir, shared.View(), open, seekOnly, opening, inFlight, line.View(), seeks, task, finishing, closed,
              asked, answered, pieces)
    }

    ghost function World(): Shared
      reads claims, store
    {
      Shared(claims.held, store.disk, store.pool, store.complete)
    }

    ghost function View(): State
      reads this, shared, claims, store, line
    {
      State(Me(), World())
    }

    constructor (id: HandlerId, dir: nat, shared: SharedQueue, claims: MediaClaims, store: MediaStore, line: RequestLine<Request>)
      ensures this.id == id && this.dir == dir
      ensures this.shared == shared && this.claims == claims && this.store == store && this.line == line
      ensures Me() == Handler(id, dir, shared.View(), map[], map[], {}, map[], line.View(), [], Idle, NotFinishing, false,
                              multiset{}, multiset{}, {})
    {
      this.id, this.dir, this.shared, this.claims, this.store, this.line := id, dir, shared, claims, store, line;
      open, seekOnly, opening, inFlight, seeks := map[], map[], {}, map[], [];
      task, finishing, closed := Idle, NotFinishing, false;
      asked, answered, pieces := multiset{}, multiset{}, {};
    }

    // ---- the in-flight table ----

    method Want(r: Request, waiting: Waiting, atFront: bool)
      modifies this`inFlight, line
      ensures View() == old(View()).(h := Download.Want(old(Me()), r, waiting, atFront))
    {
      if r in inFlight {
        inFlight := inFlight[r := inFlight[r].(waiters := inFlight[r].waiters + [waiting])];
        if atFront {
          WithoutAbsent(line.queued, {r});
          var waits := line.Withdraw(r);
          if waits { line.PushFront(r); }
        }
      } else {
        inFlight := inFlight[r := InFlight([waiting], NO_RETRIES)];
        if atFront { line.PushFront(r); } else { line.PushBack(r); }
      }
    }

    method Resend(r: Request, waiters: seq<Waiting>, retries: Retries)
      modifies this`inFlight, line
      ensures View() == old(View()).(h := Download.Resend(old(Me()), r, waiters, retries))
    {
      inFlight := inFlight[r := InFlight(waiters, retries)];
      line.PushFront(r);
    }

    /** The GETs among the waiters get the error; says whether the main file waited too. */
    method AnswerSeeksOnly(waiters: seq<Waiting>) returns (main: bool)
      modifies this`answered
      ensures View() == old(View()).(h := AnswerSeeks(old(Me()), waiters))
      ensures main == HasMain(waiters)
    {
      main := AnswerEach(waiters);
    }

    method AnswerEach(waiters: seq<Waiting>) returns (main: bool)
      modifies this`answered
      ensures answered == old(answered) + SeekIds(waiters) && main == HasMain(waiters)
    {
      main := false;
      var rest := waiters;
      while rest != []
        invariant answered + SeekIds(rest) == old(answered) + SeekIds(waiters)
        invariant main || HasMain(rest) <==> HasMain(waiters)
        decreases |rest|
      {
        MainFirst(rest);
        if rest[0].Main? { main := true; } else { AnswerOne(rest[0].id); }
        rest := rest[1..];
      }
    }

    /** One reply handle is used. */
    method AnswerOne(seek: SeekId)
      modifies this`answered
      ensures answered == old(answered) + multiset{seek}
    {
      answered := answered + multiset{seek};
    }

    /** Every GET among the waiters gets the piece. */
    method GivePieces(waiters: seq<Waiting>, mxc: Mxc, start: nat, plain: Bytes)
      modifies this`answered, this`pieces
      ensures View() == old(View()).(h := GivePiece(old(Me()), waiters, mxc, start, plain))
    {
      PiecesForAll(waiters, mxc, start, plain);
      GiveEach(waiters, mxc, start, plain);
    }

    method GiveEach(waiters: seq<Waiting>, mxc: Mxc, start: nat, plain: Bytes)
      modifies this`answered, this`pieces
      ensures answered == old(answered) + SeekIds(waiters) && pieces == old(pieces) + PiecesFor(waiters, mxc, start, plain)
    {
      var rest := waiters;
      while rest != []
        invariant answered + SeekIds(rest) == old(answered) + SeekIds(waiters)
        invariant pieces + PiecesFor(rest, mxc, start, plain) == old(pieces) + PiecesFor(waiters, mxc, start, plain)
        decreases |rest|
      {
        var first := rest[0];
        if first.Seek? { GiveOne(first, mxc, start, plain); }
        rest := rest[1..];
      }
    }

    method GiveOne(to: Waiting, mxc: Mxc, start: nat, plain: Bytes)
      requires to.Seek?
      modifies this`answered, this`pieces
      ensures answered == old(answered) + multiset{to.id} && pieces == old(pieces) + {Piece(to, mxc, start, plain)}
    {
      answered := answered + multiset{to.id};
      pieces := pieces + {Piece(to, mxc, start, plain)};
    }

    /** Every request of the file leaves the table and, where it still waits, the send queue; its GETs get the error. */
    method DropRequestsOf(mxc: Mxc)
      modifies this`inFlight, this`answered, line
      ensures View() == old(View()).(h := DropRequests(old(Me()), mxc))
    {
      var gone := set r | r in inFlight && r.mxc == mxc;
      assert gone == RequestsOf(Me(), mxc);
      DropAll(gone);
    }

    method DropAll(gone: set<Request>)
      requires gone <= inFlight.Keys
      modifies this`inFlight, this`answered, line
      ensures View() == old(View()).(h := DropSome(old(Me()), gone))
    {
      ghost var h0 := Me();
      var todo := gone;
      ghost var done: set<Request> := {};
      DropNone(h0);
      while todo != {}
        invariant done <= gone && todo == gone - done
        invariant Me() == DropSome(h0, done) && World() == old(World())
        decreases |todo|
      {
        var r :| r in todo;
        DropNext(h0, done, r);
        OneMoreDone(gone, done, todo, r);
        todo, done := todo - {r}, done + {r};
      }
      assert done == gone && Me() == DropSome(h0, gone);
    }

    method DropNext(ghost h0: Handler, ghost done: set<Request>, r: Request)
      requires Me() == DropSome(h0, done) && r in h0.inFlight && r !in done
      modifies this`inFlight, this`answered, line
      ensures View() == old(View()).(h := DropSome(h0, done + {r}))
    {
      DropMore(h0, done, r);
      DropRequest(r);
    }

    method DropRequest(r: Request)
      requires r in inFlight
      modifies this`inFlight, this`answered, line
      ensures View() == old(View()).(h := DropOne(old(Me()), r))
    {
      var waits := line.Withdraw(r);
      var waiters := inFlight[r].waiters;
      inFlight := inFlight - {r};
      var main := AnswerSeeksOnly(waiters);
    }

    // ---- closing files, ending jobs ----

    /** Out of `open`, kept on disk or deleted; the claim goes with it. */
    method TakeOpen(mxc: Mxc, discard: bool)
      requires mxc in open
      modifies this`open, claims, store`disk
      ensures View() == if discard then CloseDiscarding(old(View()), mxc) else CloseKeeping(old(View()), mxc)
    {
      var key := FileKey(dir, mxc);
      store.disk := if discard then store.disk - {key} else store.disk[key := open[mxc]];
      open := open - {mxc};
      claims.GiveUp(key, id);
    }

    method EndJob(mxc: Mxc, end: JobEnd)
      modifies this`open, shared, claims, store`disk
      ensures View() == Download.EndJob(old(View()), mxc, end)
    {
      shared.LeaveJob(mxc, end);
      var busy := IsBusy(mxc);
      if end.Cancelled? && !busy && mxc in open { TakeOpen(mxc, false); }
    }

    method IsBusy(mxc: Mxc) returns (busy: bool)
      ensures busy == Busy(Me(), mxc)
    {
      busy := exists r | r in inFlight :: r.mxc == mxc;
    }

    /** This file stops: its requests go, the file is deleted or kept, its job fails. */
    method FailMedia(mxc: Mxc, error: Error, discard: bool)
      modifies this`inFlight, this`answered, this`open, shared, claims, store`disk, line
      ensures View() == Download.FailMedia(old(View()), mxc, error, discard)
    {
      DropRequestsOf(mxc);
      if mxc in open { TakeOpen(mxc, discard); }
      if mxc in shared.downloading { EndJob(mxc, Broken(error)); }
    }

    // ---- the main file ----

    /** The main file goes on, chunk after chunk out of the seek store, until it needs a request or is over. */
    method ContinueMain(mxc: Mxc, disk: DiskResults)
      modifies this, shared, claims, store, line
      ensures View() == Download.ContinueMain(old(View()), mxc, disk)
    {
      while true
        invariant Download.ContinueMain(View(), mxc, disk) == Download.ContinueMain(old(View()), mxc, disk)
        decreases if mxc in open then Total(open[mxc]) - Next(open[mxc]) else 0
      {
        if mxc !in shared.downloading { return; }
        if shared.downloading[mxc].cancelled {
          EndJob(mxc, Cancelled);
          return;
        }
        if mxc !in open {
          EndJob(mxc, Broken(Io));
          return;
        }
        var landed := GoOn(mxc, disk);
        if !landed { return; }
      }
    }

    /** One round for an open file of a running job; true if a chunk came out of the seek store and the next round is due. */
    method GoOn(mxc: Mxc, disk: DiskResults) returns (landed: bool)
      requires mxc in shared.downloading && !shared.downloading[mxc].cancelled && mxc in open
      modifies this, shared, claims, store, line
      ensures !landed ==> View() == Download.ContinueMain(old(View()), mxc, disk)
      ensures landed ==> Download.ContinueMain(View(), mxc, disk) == Download.ContinueMain(old(View()), mxc, disk)
      ensures landed ==> mxc in open && 0 <= Total(open[mxc]) - Next(open[mxc]) < old(Total(open[mxc]) - Next(open[mxc]))
    {
      var m := open[mxc];
      landed := false;
      if IsWritten(m) {
        shared.ShowDone(mxc, Total(m));
        FinishJob(mxc, disk);
      } else if m.needsInfo {
        Want(Info(mxc), Main, false);
      } else if InStore(m, disk) && Next(m) in disk.unmovable {
        FailMedia(mxc, disk.fault, true);
      } else if InStore(m, disk) {
        LandStored(mxc);
        landed := true;
      } else {
        Want(Chunk(mxc, Next(m)), Main, false);
      }
    }

    method LandStored(mxc: Mxc)
      requires mxc in shared.downloading && mxc in open && Next(open[mxc]) in open[mxc].store
      modifies this`open, shared`downloading
      ensures View() == old(View()).(h := LandFromStore(old(Me()), mxc))
    {
      var m := open[mxc];
      open := open[mxc := Land(m, m.store[Next(m)])];
      shared.ShowDone(mxc, Next(m) + 1);
    }

    /** Whole: out of `open` and into the pool; recording the row is the next await. */
    method FinishJob(mxc: Mxc, disk: DiskResults)
      requires mxc in open
      modifies this`open, this`finishing, claims, store
      ensures View() == Download.FinishJob(old(View()), mxc, disk)
    {
      var key := FileKey(dir, mxc);
      var m := open[mxc];
      open := open - {mxc};
      store.disk := store.disk - {key};
      if disk.adopts {
        var plain := Joined(m.main);
        store.pool := store.pool[key := ServerFile(m.manifest.chunkSize, plain)];
        finishing := Recording(mxc);
      } else {
        finishing := Answering(mxc, Broken(disk.fault));
        claims.GiveUp(key, id);
      }
    }

    /** The database answered: the row is recorded or not, and only now the claim goes. */
    method RowRecorded(failed: Option<Error>)
      requires finishing.Recording?
      modifies this`finishing, claims, store
      ensures View() == FinishRecorded(old(View()), failed)
    {
      var key := FileKey(dir, finishing.mxc);
      if failed.None? { store.complete := store.complete + {key}; }
      claims.GiveUp(key, id);
      finishing := Answering(finishing.mxc, if failed.None? then Complete else Broken(failed.value));
    }

    // ---- replies ----

    /** One reply: nobody waits any more, or the server answered, or the request failed. */
    method HandleReply(v: Verdict, local: LocalReads)
      requires line.replies != []
      modifies this, shared, claims, store, line
      ensures View() == Download.HandleReply(old(View()), v, local)
    {
      var reply := line.TakeReply();
      if reply.action !in inFlight { return; }
      var entry := inFlight[reply.action];
      inFlight := inFlight - {reply.action};
      match reply.result
      case Ack =>
        if reply.action.Info? { InfoArrived(reply.action.mxc, entry, v, local); }
        else { ChunkArrived(reply.action.mxc, reply.action.index, entry, v); }
      case Refused(error) => RequestFailed(reply.action, entry, error);
    }

    method RequestFailed(r: Request, entry: InFlight, error: Error)
      modifies this, shared, claims, store, line
      ensures View() == Download.RequestFailed(old(View()), r, entry, error)
    {
      if error.Network? {
        CutOff(r, entry);
      } else if error.Timeout? && entry.retries.timeouts + 1 < TIMEOUT_ATTEMPTS {
        Resend(r, entry.waiters, entry.retries.(timeouts := entry.retries.timeouts + 1));
      } else if IsBadReply(error) && entry.retries.badReplies == 0 {
        Resend(r, entry.waiters, entry.retries.(badReplies := 1));
      } else {
        GiveUp(r, entry, error);
      }
    }

    /** The link is down: GETs get the error, the main request goes back. */
    method CutOff(r: Request, entry: InFlight)
      modifies this, line
      ensures View() == Download.RequestFailed(old(View()), r, entry, Network)
    {
      var main := AnswerSeeksOnly(entry.waiters);
      if main { Resend(r, [Main], entry.retries); }
    }

    method GiveUp(r: Request, entry: InFlight, error: Error)
      modifies this, shared, claims, store, line
      ensures View() == Download.GiveUp(old(View()), r, entry, error)
    {
      var main := AnswerSeeksOnly(entry.waiters);
      if main || IsPermanentRefusal(error) { FailMedia(r.mxc, error, IsPermanentRefusal(error)); }
    }

    method Unverified(mxc: Mxc, entry: InFlight, error: Error)
      modifies this, shared, claims, store, line
      ensures View() == Download.Unverified(old(View()), mxc, entry, error)
    {
      var main := AnswerSeeksOnly(entry.waiters);
      if mxc in open { FailMedia(mxc, error, true); } else { seekOnly := seekOnly - {mxc}; }
    }

    method InfoArrived(mxc: Mxc, entry: InFlight, v: Verdict, local: LocalReads)
      modifies this, shared, claims, store, line
      ensures View() == Download.InfoArrived(old(View()), mxc, entry, v, local)
    {
      if mxc !in open && mxc !in seekOnly {
        var main := AnswerSeeksOnly(entry.waiters);
        return;
      }
      if v.refused.Some? {
        if IsBadReply(v.refused.value) && entry.retries.badReplies == 0 {
          Resend(Info(mxc), entry.waiters, entry.retries.(badReplies := 1));
        } else {
          Unverified(mxc, entry, v.refused.value);
        }
        return;
      }
      ghost var before := View();
      if mxc in open {
        open := open[mxc := open[mxc].(needsInfo := false)];
      } else {
        seekOnly := seekOnly[mxc := seekOnly[mxc].(verified := true)];
      }
      assert View() == before.(h := AcceptInfo(before.h, mxc));
      var main := RequestEach(mxc, entry.waiters, local);
      if main { ContinueMain(mxc, v.disk); }
    }

    /** Each GET that waited for the block goes on to its own chunk; says whether the main file waited too. */
    method RequestEach(mxc: Mxc, waiters: seq<Waiting>, local: LocalReads) returns (main: bool)
      modifies this`inFlight, this`answered, this`pieces, line
      ensures View() == old(View()).(h := RequestSeekChunks(old(Me()), mxc, waiters, local))
      ensures main == HasMain(waiters)
    {
      main := false;
      var i := 0;
      while i < |waiters|
        invariant 0 <= i <= |waiters| && World() == old(World())
        invariant main == HasMain(waiters[..i])
        invariant RequestSeekChunks(Me(), mxc, waiters[i..], local) == RequestSeekChunks(old(Me()), mxc, waiters, local)
      {
        assert waiters[..i + 1] == waiters[..i] + [waiters[i]];
        assert waiters[i..][1..] == waiters[i + 1..];
        if waiters[i].Main? { main := true; } else { RequestSeekChunk(mxc, waiters[i], local); }
        i := i + 1;
      }
      assert waiters[..i] == waiters;
    }

    method ChunkArrived(mxc: Mxc, index: nat, entry: InFlight, v: Verdict)
      modifies this, shared, claims, store, line
      ensures View() == Download.ChunkArrived(old(View()), mxc, index, entry, v)
    {
      if mxc !in open && mxc !in seekOnly {
        var main := AnswerSeeksOnly(entry.waiters);
        return;
      }
      if v.refused.Some? {
        if (v.refused.value.Integrity? || v.refused.value.Protocol?) && entry.retries.badReplies == 0 {
          Resend(Chunk(mxc, index), entry.waiters, entry.retries.(badReplies := 1));
        } else {
          Unverified(mxc, entry, v.refused.value);
        }
        return;
      }
      if mxc !in open {
        GivePieces(entry.waiters, mxc, ChunkStart(index, seekOnly[mxc].manifest.chunkSize), v.plain);
        return;
      }
      ChunkOfOpenFile(mxc, index, entry, v);
    }

    method ChunkOfOpenFile(mxc: Mxc, index: nat, entry: InFlight, v: Verdict)
      requires mxc in open && v.refused.None?
      modifies this, shared, claims, store, line
      ensures View() == Download.ChunkArrived(old(View()), mxc, index, entry, v)
    {
      var m := open[mxc];
      var main := Main in entry.waiters;
      var lands := main && index == Next(m);
      GivePieces(entry.waiters, mxc, ChunkStart(index, m.manifest.chunkSize), v.plain);
      if v.unwritten.Some? {
        if lands {
          FailMedia(mxc, v.unwritten.value, false);
          return;
        }
      } else if lands {
        open := open[mxc := Land(m, v.plain)];
        if mxc in shared.downloading { shared.ShowDone(mxc, Next(m) + 1); }
      } else {
        open := open[mxc := m.(store := m.store[index := v.plain])];
      }
      if main { ContinueMain(mxc, v.disk); }
    }

    // ---- GETs ----

    method RequestSeekChunk(mxc: Mxc, waiting: Waiting, local: LocalReads)
      requires waiting.Seek?
      modifies this`inFlight, this`answered, this`pieces, line
      ensures View() == old(View()).(h := Download.RequestSeekChunk(old(Me()), mxc, waiting, local))
    {
      var index := waiting.index;
      if mxc in open {
        var m := open[mxc];
        if index in local.fails {
          var main := AnswerSeeksOnly([waiting]);
          return;
        }
        var here := LocalChunk(m, index);
        if here.Some? && index !in local.missing {
          GivePieces([waiting], mxc, ChunkStart(index, m.manifest.chunkSize), here.value);
          return;
        }
        Want(if m.needsInfo then Info(mxc) else Chunk(mxc, index), waiting, true);
      } else if mxc in seekOnly {
        Want(if seekOnly[mxc].verified then Chunk(mxc, index) else Info(mxc), waiting, true);
      } else {
        var main := AnswerSeeksOnly([waiting]);
      }
    }

    method RequestSeekAt(mxc: Mxc, chunkSize: nat, id: SeekId, local: LocalReads)
      modifies this`inFlight, this`answered, this`pieces, line
      ensures View() == old(View()).(h := Download.RequestSeekAt(old(Me()), mxc, chunkSize, id, local))
    {
      match ChunkIndexAt(id.position, chunkSize)
      case NoChunk => var main := AnswerSeeksOnly([Seek(0, id, chunkSize)]);
      case Index(index) => RequestSeekChunk(mxc, Seek(index, id, chunkSize), local);
    }

    /** A GET off the channel; a file not open here needs the database first. */
    method ProcessSeek(local: LocalReads)
      requires seeks != []
      modifies this`seeks, this`task, this`inFlight, this`answered, this`pieces, line
      ensures View() == old(View()).(h := TakeSeek(old(Me()), local))
    {
      var job := seeks[0];
      var mxc := job.manifest.mxc;
      seeks := seeks[1..];
      if mxc in open {
        RequestSeekAt(mxc, open[mxc].manifest.chunkSize, job, local);
      } else {
        task := SeekLooking(job);
      }
    }

    /** The database answered for a GET. */
    method SeekFoundOrNot(found: bool, local: LocalReads)
      requires task.SeekLooking?
      requires found ==> FileKey(dir, task.job.manifest.mxc) in store.pool
      modifies this, line
      ensures View() == old(View()).(h := SeekLooked(old(View()), found, local))
    {
      var job := task.job;
      var mxc := job.manifest.mxc;
      task := Idle;
      if found {
        GiveFromPool(store.pool[FileKey(dir, mxc)], job, local);
        return;
      }
      UseSeekOnly(job);
      RequestSeekAt(mxc, seekOnly[mxc].manifest.chunkSize, job, local);
    }

    /** The first description of a seek-only file stands; whenever a GET comes for it, it was used now. */
    method UseSeekOnly(job: SeekJob)
      modifies this`seekOnly
      ensures seekOnly == Remember(old(seekOnly), job, line.now)
    {
      var mxc := job.manifest.mxc;
      if mxc !in seekOnly { seekOnly := seekOnly[mxc := SeekOnly(job.manifest, false, line.now)]; }
      seekOnly := seekOnly[mxc := seekOnly[mxc].(lastUsed := line.now)];
    }

    method GiveFromPool(f: ServerFile, job: SeekJob, local: LocalReads)
      modifies this`answered, this`pieces
      ensures Me() == match ChunkIndexAt(job.position, f.chunkSize)
                      case NoChunk => AnswerSeeks(old(Me()), [Seek(0, job, f.chunkSize)])
                      case Index(index) =>
                        if PoolPiece(f, index, local.fails).Some?
                        then GivePiece(old(Me()), [Seek(index, job, f.chunkSize)], job.manifest.mxc, ChunkStart(index, f.chunkSize),
                                       PoolPiece(f, index, local.fails).value)
                        else AnswerSeeks(old(Me()), [Seek(index, job, f.chunkSize)])
    {
      match ChunkIndexAt(job.position, f.chunkSize)
      case NoChunk => var main := AnswerSeeksOnly([Seek(0, job, f.chunkSize)]);
      case Index(index) =>
        var piece := PoolPiece(f, index, local.fails);
        if piece.Some? {
          GivePieces([Seek(index, job, f.chunkSize)], job.manifest.mxc, ChunkStart(index, f.chunkSize), piece.value);
        } else {
          var main := AnswerSeeksOnly([Seek(index, job, f.chunkSize)]);
        }
    }

    // ---- one job ----

    /** The next job of the inbox counts as being prepared until it was dealt with. */
    method NextJob()
      requires shared.inbox != []
      modifies this`task, shared
      ensures View() == old(View()).(h := TakeJob(old(Me())))
    {
      var manifest := shared.inbox[0];
      shared.inbox := shared.inbox[1..];
      shared.preparing := shared.preparing[manifest.mxc := false];
      task := Preparing(manifest, if manifest.mxc in shared.downloading then Tail
                                  else if manifest.mxc in open then Ready else Looking);
    }

    /** The database answered for a job: complete already, or ours to open, or another handler's. True: hand the job over. */
    method PrepareDownload(found: bool, elsewhere: bool) returns (handOver: bool)
      requires task.Preparing? && task.stage == Looking
      modifies this`task, this`open, this`opening, shared, claims, store`disk
      ensures var s := old(View());
              && (found ==> View() == FoundComplete(s))
              && (!found && CanClaim(s.d, Key(s.h, s.h.task.manifest.mxc), s.h.id) ==> View() == StartOpening(s))
              && (!found && !CanClaim(s.d, Key(s.h, s.h.task.manifest.mxc), s.h.id) ==>
                    View() == if handOver then s else GiveUpJob(s))
              && (handOver <==> !found && !CanClaim(s.d, Key(s.h, s.h.task.manifest.mxc), s.h.id) && elsewhere
                                && !CancelledWhilePreparing(s.h.q, s.h.task.manifest.mxc))
    {
      var mxc := task.manifest.mxc;
      handOver := false;
      if found {
        EndPreparing(Complete);
        return;
      }
      var claimed := claims.TryClaim(FileKey(dir, mxc), id);
      if claimed {
        opening := opening + {mxc};
        task := task.(stage := Opening);
      } else if mxc in shared.preparing && shared.preparing[mxc] {
        EndPreparing(Cancelled);
      } else if elsewhere {
        handOver := true;
      } else {
        EndPreparing(Broken(AccountBusy));
      }
    }

    /** Another handler downloads this file: the waiters leave with the job, into its queue. */
    method HandOver(other: SharedQueue)
      requires task.Preparing? && other != shared
      modifies this`task, shared`waiters, other`inbox, other`waiters
      ensures View() == old(View()).(h := SendAway(old(Me())))
      ensures other.View() == Enqueue(old(other.View()), old(task.manifest), old(WaitersOf(shared.View(), task.manifest.mxc)))
    {
      var mxc := task.manifest.mxc;
      var leaving := if mxc in shared.waiters then shared.waiters[mxc] else [];
      shared.waiters := shared.waiters - {mxc};
      var status := other.EnqueueInto(task.manifest, leaving);
      task := task.(stage := Tail);
    }

    /** The row and the file are made, or could not be. */
    method FileOpened(media: Result<MediaDownload, Error>)
      requires task.Preparing?
      modifies this`task, this`open, this`opening, this`seekOnly, shared, claims, store`disk
      ensures View() == Opened(old(View()), media)
    {
      var mxc := task.manifest.mxc;
      opening := opening - {mxc};
      match media
      case Err(error) =>
        claims.GiveUp(FileKey(dir, mxc), id);
        EndPreparing(Broken(error));
      case Ok(m) =>
        open := open[mxc := m];
        seekOnly := seekOnly - {mxc};
        task := task.(stage := Ready);
    }

    /** The job at hand is over before it started. */
    method EndPreparing(end: JobEnd)
      requires task.Preparing?
      modifies this`task, this`open, shared, claims, store`disk
      ensures View() == Download.EndJob(SetStage(old(View()), Tail), old(task.manifest.mxc), end)
    {
      var mxc := task.manifest.mxc;
      task := task.(stage := Tail);
      EndJob(mxc, end);
    }

    /** One more look at the cancel flag, under its own lock. */
    method LookAtFlag()
      requires task.Preparing?
      modifies this`task, this`open, shared, claims, store`disk
      ensures View() == CancelCheck(old(View()))
    {
      var mxc := task.manifest.mxc;
      if mxc in shared.preparing && shared.preparing[mxc] {
        EndPreparing(Cancelled);
      } else {
        task := task.(stage := Checked);
      }
    }

    method StartJob(disk: DiskResults)
      requires task.Preparing? && task.manifest.mxc in open
      modifies this, shared, claims, store, line
      ensures View() == Download.StartJob(old(View()), disk)
    {
      var mxc := task.manifest.mxc;
      var m := open[mxc];
      shared.downloading := shared.downloading[mxc := Downloading(false, Next(m), Total(m))];
      task := task.(stage := Tail);
      ContinueMain(mxc, disk);
    }

    /** Off the list of jobs being prepared; a cancel noted there goes over to the running job, in the same lock. */
    method DonePreparing()
      requires task.Preparing?
      modifies this`task, shared`preparing, shared`downloading
      ensures View() == old(View()).(h := FinishPreparing(old(Me())))
    {
      var mxc := task.manifest.mxc;
      var cancelled := mxc in shared.preparing && shared.preparing[mxc];
      shared.preparing := shared.preparing - {mxc};
      if cancelled && mxc in shared.downloading {
        shared.downloading := shared.downloading[mxc := shared.downloading[mxc].(cancelled := true)];
      }
      task := Idle;
    }

    /** The finished file's GETs get their pieces from the pool, or the error; then the job ends. */
    method AnswerFromPool(found: bool, unread: set<nat>)
      requires finishing.Answering?
      requires found ==> FileKey(dir, finishing.mxc) in store.pool
      modifies this, shared, claims, store`disk, line
      ensures View() == FinishAnswered(old(View()), found, unread)
    {
      var mxc, end := finishing.mxc, finishing.end;
      AnswerSeeksFromPool(mxc, if found then Some(store.pool[FileKey(dir, mxc)]) else None, unread);
      finishing := NotFinishing;
      EndJob(mxc, end);
    }

    method AnswerSeeksFromPool(mxc: Mxc, file: Option<ServerFile>, unread: set<nat>)
      modifies this`inFlight, this`answered, this`pieces, line
      ensures View() == old(View()).(h := DropGiving(old(Me()), mxc, file, unread, RequestsOf(old(Me()), mxc)))
    {
      var gone := set r | r in inFlight && r.mxc == mxc;
      assert gone == RequestsOf(Me(), mxc);
      AnswerAll(mxc, file, unread, gone);
    }

    method AnswerAll(mxc: Mxc, file: Option<ServerFile>, unread: set<nat>, gone: set<Request>)
      requires gone <= inFlight.Keys
      modifies this`inFlight, this`answered, this`pieces, line
      ensures View() == old(View()).(h := DropGiving(old(Me()), mxc, file, unread, gone))
    {
      ghost var h0 := Me();
      var todo := gone;
      ghost var done: set<Request> := {};
      GiveNone(h0, mxc, file, unread);
      while todo != {}
        invariant done <= gone && todo == gone - done
        invariant Me() == DropGiving(h0, mxc, file, unread, done) && World() == old(World())
        decreases |todo|
      {
        var r :| r in todo;
        AnswerRequest(mxc, file, unread, r, h0, done);
        OneMoreDone(gone, done, todo, r);
        todo, done := todo - {r}, done + {r};
      }
      assert done == gone;
    }

    method AnswerRequest(mxc: Mxc, file: Option<ServerFile>, unread: set<nat>, r: Request, ghost h0: Handler, ghost done: set<Request>)
      requires Me() == DropGiving(h0, mxc, file, unread, done) && r in h0.inFlight && r !in done
      modifies this`inFlight, this`answered, this`pieces, line
      ensures View() == old(View()).(h := DropGiving(h0, mxc, file, unread, done + {r}))
    {
      GiveMore(h0, mxc, file, unread, done, r);
      if file.Some? { PiecesOfRequest(file.value, mxc, unread, r); }
      DropRequest(r);
    }

    method PiecesOfRequest(f: ServerFile, mxc: Mxc, unread: set<nat>, r: Request)
      requires r in inFlight
      modifies this`pieces
      ensures pieces == old(pieces) + PiecesFromPool(f, mxc, map[r := inFlight[r]], {r}, unread)
    {
      var waiters := inFlight[r].waiters;
      var i := 0;
      while i < |waiters|
        invariant 0 <= i <= |waiters|
        invariant pieces == old(pieces) + PiecesFromPool(f, mxc, map[r := InFlight(waiters[..i], NO_RETRIES)], {r}, unread)
      {
        if waiters[i].Seek? {
          var piece := PoolPiece(f, waiters[i].index, unread);
          if piece.Some? { GivePoolPiece(waiters[i], mxc, ChunkStart(waiters[i].index, f.chunkSize), piece.value); }
        }
        PoolPieceMore(f, mxc, unread, r, waiters[..i], waiters[i]);
        assert waiters[..i + 1] == waiters[..i] + [waiters[i]];
        i := i + 1;
      }
      assert waiters[..i] == waiters;
      SamePoolPieces(f, mxc, unread, r, inFlight[r]);
    }

    method GivePoolPiece(to: Waiting, mxc: Mxc, start: nat, plain: Bytes)
      modifies this`pieces
      ensures pieces == old(pieces) + {Piece(to, mxc, start, plain)}
    {
      pieces := pieces + {Piece(to, mxc, start, plain)};
    }

    // ---- between two events ----

    /** Every raised flag is dealt with, in whatever order the table gives them; `order` and `mains` say which. */
    method HandleCancellations() returns (ghost order: seq<Mxc>, ghost mains: seq<Option<Request>>)
      modifies this`inFlight, this`open, shared, claims, store`disk, line
      ensures Lists(order, Flagged(old(Me())))
      ensures CancelRun(old(View()), View(), order, mains)
    {
      var todo := set mxc | mxc in shared.downloading && shared.downloading[mxc].cancelled;
      ghost var flagged := todo;
      ghost var s0 := View();
      assert flagged == Flagged(s0.h);
      order, mains := [], [];
      while todo != {}
        invariant todo <= flagged && Lists(order, flagged - todo)
        invariant CancelRun(s0, View(), order, mains)
        decreases |todo|
      {
        var mxc :| mxc in todo;
        ListsMore(order, flagged - todo, mxc);
        assert flagged - (todo - {mxc}) == (flagged - todo) + {mxc};
        mains := CancelNext(s0, order, mains, mxc);
        order := order + [mxc];
        todo := todo - {mxc};
      }
      assert flagged - todo == flagged;
    }

    method CancelNext(ghost s0: State, ghost order: seq<Mxc>, ghost mains: seq<Option<Request>>, mxc: Mxc)
      returns (ghost mains2: seq<Option<Request>>)
      requires CancelRun(s0, View(), order, mains)
      modifies this`inFlight, this`open, shared, claims, store`disk, line
      ensures CancelRun(s0, View(), order + [mxc], mains2)
    {
      ghost var before := View();
      ghost var main := CancelFlagged(mxc);
      CancelRunMore(s0, before, View(), order, mains, mxc, main);
      mains2 := mains + [main];
    }

    /** The file's main request still queued: it goes and the job stops now; sent: the job waits for it. */
    method CancelFlagged(mxc: Mxc) returns (ghost main: Option<Request>)
      modifies this`inFlight, this`open, shared, claims, store`disk, line
      ensures FindsMain(old(Me()), mxc, main)
      ensures View() == CancelOne(old(View()), mxc, main)
    {
      var mine := set r | r in inFlight && r.mxc == mxc && Main in inFlight[r].waiters;
      if mine == {} {
        main := None;
        assert forall r :: MainOf(Me(), r, mxc) ==> r in mine;
        EndJob(mxc, Cancelled);
        return;
      }
      var r :| r in mine;
      main := Some(r);
      WithoutAbsent(line.queued, {r});
      var waits := line.Withdraw(r);
      if waits {
        var entry := inFlight[r];
        inFlight := inFlight - {r};
        var others := OnlySeeks(entry.waiters);
        if others != [] { Resend(r, others, entry.retries); }
        EndJob(mxc, Cancelled);
      }
    }

    /** Open files with no job and no request in flight are closed, kept on disk; too many remembered seek-only files are
        forgotten, the one not used for longest first and no more than needed, but none with a request in flight. */
    method CloseIdleWithoutJob()
      modifies this`open, this`seekOnly, claims, store`disk
      ensures View() == CloseAllIdle(old(View())).(h := CloseAllIdle(old(View())).h.(seekOnly := seekOnly))
      ensures seekOnly.Keys <= old(seekOnly).Keys && forall mxc :: mxc in seekOnly ==> seekOnly[mxc] == old(seekOnly)[mxc]
      ensures forall mxc :: mxc in old(seekOnly) && Busy(old(Me()), mxc) ==> mxc in seekOnly
      ensures |seekOnly| <= SEEK_ONLY_KEPT || forall mxc :: mxc in seekOnly ==> Busy(Me(), mxc)
      ensures seekOnly != old(seekOnly) ==> |seekOnly| >= SEEK_ONLY_KEPT
      ensures forall gone, kept :: gone in old(seekOnly) && gone !in seekOnly && kept in seekOnly && !Busy(old(Me()), kept) ==>
                old(seekOnly)[gone].lastUsed <= seekOnly[kept].lastUsed
    {
      var busy := set r | r in inFlight :: r.mxc;
      assert forall mxc :: mxc in busy <==> Busy(Me(), mxc);
      CloseIdleFiles(busy);
      ForgetSeekOnlyFiles(busy);
    }

    method CloseIdleFiles(busy: set<Mxc>)
      requires forall mxc :: mxc in busy <==> Busy(Me(), mxc)
      modifies this`open, claims, store`disk
      ensures View() == CloseAllIdle(old(View()))
    {
      var idle := set mxc | mxc in open && mxc !in shared.downloading && mxc !in busy;
      assert idle == IdleFiles(Me());
      CloseFiles(idle);
    }

    /** These open files are closed and kept, their claims given up. */
    method CloseFiles(files: set<Mxc>)
      requires files <= open.Keys
      modifies this`open, claims, store`disk
      ensures View() == CloseSome(old(View()), files)
    {
      ghost var s0 := View();
      var todo := files;
      ghost var done: set<Mxc> := {};
      CloseSomeNone(s0);
      while todo != {}
        invariant done <= files && todo == files - done
        invariant View() == CloseSome(s0, done)
        decreases |todo|
      {
        var mxc :| mxc in todo;
        CloseNext(s0, done, mxc);
        OneMoreDone(files, done, todo, mxc);
        todo, done := todo - {mxc}, done + {mxc};
      }
      assert done == files;
    }

    method CloseNext(ghost s0: State, ghost done: set<Mxc>, mxc: Mxc)
      requires View() == CloseSome(s0, done) && mxc in s0.h.open && mxc !in done
      modifies this`open, claims, store`disk
      ensures View() == CloseSome(s0, done + {mxc})
    {
      CloseSomeMore(s0, done, mxc);
      TakeOpen(mxc, false);
    }

    method ForgetOne(mxc: Mxc)
      modifies this`seekOnly
      ensures View() == old(View()).(h := ForgetSeekOnly(old(Me()), mxc))
    {
      seekOnly := seekOnly - {mxc};
    }

    /** A GET comes in on the channel. */
    method SeekAsked(job: SeekJob)
      modifies this`seeks, this`asked
      ensures View() == old(View()).(h := old(Me()).(seeks := old(seeks) + [job], asked := old(asked) + multiset{job}))
    {
      seeks := seeks + [job];
      asked := asked + multiset{job};
    }

    method ForgetSeekOnlyFiles(busy: set<Mxc>)
      modifies this`seekOnly
      ensures seekOnly.Keys <= old(seekOnly).Keys && forall mxc :: mxc in seekOnly ==> seekOnly[mxc] == old(seekOnly)[mxc]
      ensures forall mxc :: mxc in old(seekOnly) && mxc in busy ==> mxc in seekOnly
      ensures |seekOnly| <= SEEK_ONLY_KEPT || forall mxc :: mxc in seekOnly ==> mxc in busy
      ensures seekOnly != old(seekOnly) ==> |seekOnly| >= SEEK_ONLY_KEPT
      ensures OlderGone(old(seekOnly), seekOnly, busy)
    {
      while |seekOnly| > SEEK_ONLY_KEPT
        invariant seekOnly.Keys <= old(seekOnly).Keys && forall mxc :: mxc in seekOnly ==> seekOnly[mxc] == old(seekOnly)[mxc]
        invariant forall mxc :: mxc in old(seekOnly) && mxc in busy ==> mxc in seekOnly
        invariant seekOnly != old(seekOnly) ==> |seekOnly| >= SEEK_ONLY_KEPT
        invariant OlderGone(old(seekOnly), seekOnly, busy)
        decreases |seekOnly|
      {
        var free := set mxc | mxc in seekOnly && mxc !in busy;
        if free == {} {
          assert forall mxc :: mxc in seekOnly && mxc !in busy ==> mxc in free;
          return;
        }
        var oldest := FindOldest(free);
        assert forall x :: x in seekOnly && x !in busy ==> x in free;
        OneLess(seekOnly, oldest);
        ForgetOne(oldest);
      }
    }

    method FindOldest(free: set<Mxc>) returns (oldest: Mxc)
      requires free != {} && free <= seekOnly.Keys
      ensures oldest in free && forall x :: x in free ==> seekOnly[oldest].lastUsed <= seekOnly[x].lastUsed
    {
      oldest :| oldest in free;
      var rest := free - {oldest};
      while rest != {}
        invariant oldest in free && rest <= free
        invariant forall x :: x in free && x !in rest ==> seekOnly[oldest].lastUsed <= seekOnly[x].lastUsed
        decreases |rest|
      {
        var x :| x in rest;
        if seekOnly[x].lastUsed < seekOnly[oldest].lastUsed { oldest := x; }
        rest := rest - {x};
      }
    }

    /** The object goes: open files kept, claims of open and opening files given up, everyone who waits is told. */
    method CloseEverything()
      modifies this, shared, claims, store`disk
      ensures View() == Close(old(View()))
    {
      ClosedIsClose(View());
      CloseFiles(open.Keys);
      LetGo();
    }

    /** With its files closed: the rest goes. */
    method LetGo()
      modifies this`opening, this`seekOnly, this`inFlight, this`seeks, this`task, this`closed, this`answered, shared, claims
      ensures View() == Ended(old(View()))
    {
      ReleaseOpening();
      EndWaiting();
    }

    /** With its claims given up: every job and every GET ends. */
    method EndWaiting()
      modifies this`seekOnly, this`inFlight, this`seeks, this`task, this`closed, this`answered, shared
      ensures Me() == old(Me()).(q := CloseQueue(old(shared.View())), seekOnly := map[], inFlight := map[], seeks := [], task := Idle,
                                 closed := true, answered := old(answered) + StillHeld(old(Me())))
    {
      AnswerEveryone();
      shared.Shut();
      Forget();
    }

    /** Every reply handle still held anywhere goes, which its GET takes for an error. */
    ghost method AnswerEveryone()
      modifies this`answered
      ensures answered == old(answered) + StillHeld(old(Me()))
    {
      answered := answered + StillHeld(Me());
    }

    method Forget()
      modifies this`seekOnly, this`inFlight, this`seeks, this`task, this`closed
      ensures Me() == old(Me()).(seekOnly := map[], inFlight := map[], seeks := [], task := Idle, closed := true)
    {
      seekOnly, inFlight, seeks, task, closed := map[], map[], [], Idle, true;
    }

    method ReleaseOpening()
      modifies this`opening, claims
      ensures opening == {} && claims.held == ReleaseKeys(old(claims.held), old(Me()), old(opening))
    {
      var todo := opening;
      ghost var done: set<Mxc> := {};
      ghost var h0 := Me();
      assert ReleaseKeys(claims.held, h0, {}) == claims.held;
      while todo != {}
        invariant done <= opening && todo == opening - done && opening == old(opening)
        invariant claims.held == ReleaseKeys(old(claims.held), h0, done)
        decreases |todo|
      {
        var mxc :| mxc in todo;
        claims.GiveUp(FileKey(dir, mxc), id);
        ReleaseMore(old(claims.held), h0, done, mxc);
        todo, done := todo - {mxc}, done + {mxc};
      }
      assert done == opening;
      opening := {};
    }
  }

  // ---- what the loops need ----

  /** The chunks of a file joined, front to back. */
  method Joined(chunks: seq<Bytes>) returns (plain: Bytes)
    ensures plain == Concat(chunks)
  {
    plain := [];
    var i := 0;
    while i < |chunks|
      invariant 0 <= i <= |chunks| && plain == Concat(chunks[..i])
    {
      assert chunks[..i + 1] == chunks[..i] + [chunks[i]];
      ConcatAppend(chunks[..i], chunks[i]);
      plain := plain + chunks[i];
      i := i + 1;
    }
    assert chunks[..i] == chunks;
  }

  lemma MainFirst(waiters: seq<Waiting>)
    requires waiters != []
    ensures HasMain(waiters) <==> waiters[0].Main? || HasMain(waiters[1..])
  {
  }

  ghost function PiecesFor(waiters: seq<Waiting>, mxc: Mxc, start: nat, plain: Bytes): set<Piece> {
    if waiters == [] then {}
    else (if waiters[0].Seek? then {Piece(waiters[0], mxc, start, plain)} else {}) + PiecesFor(waiters[1..], mxc, start, plain)
  }

  lemma {:induction false} PiecesForAll(waiters: seq<Waiting>, mxc: Mxc, start: nat, plain: Bytes)
    ensures PiecesFor(waiters, mxc, start, plain) == set w | w in waiters && w.Seek? :: Piece(w, mxc, start, plain)
  {
    if waiters != [] {
      PiecesForAll(waiters[1..], mxc, start, plain);
      assert waiters == [waiters[0]] + waiters[1..];
    }
  }

  /** What is gone was used no later than anything still there that could go. */
  predicate OlderGone(was: map<Mxc, SeekOnly>, left: map<Mxc, SeekOnly>, busy: set<Mxc>) {
    forall gone, kept :: gone in was && gone !in left && kept in left && kept !in busy ==>
      was[gone].lastUsed <= left[kept].lastUsed
  }

  lemma OneLess<K, V>(m: map<K, V>, k: K)
    requires k in m
    ensures |m - {k}| == |m| - 1
  {
    assert (m - {k}).Keys == m.Keys - {k};
    assert |m.Keys| == |m| && |(m - {k}).Keys| == |m - {k}|;
  }

  /** A loop over a set has done one more. */
  lemma OneMoreDone<T>(all: set<T>, done: set<T>, todo: set<T>, x: T)
    requires done <= all && todo == all - done && x in todo
    ensures done + {x} <= all && todo - {x} == all - (done + {x}) && x !in done && |todo - {x}| < |todo|
  {
  }

  /** Withdrawing what does not wait changes nothing. */
  lemma {:induction false} WithoutAbsent<A>(queued: seq<A>, out: set<A>)
    ensures (forall a :: a in out ==> a !in queued) ==> Without(queued, out) == queued
  {
    if queued != [] && forall a :: a in out ==> a !in queued {
      WithoutAbsent(queued[1..], out);
      assert queued == [queued[0]] + queued[1..];
    }
  }

  lemma {:induction false} WithoutTwice<A>(queued: seq<A>, a: set<A>, b: set<A>)
    ensures Without(Without(queued, a), b) == Without(queued, a + b)
  {
    if queued != [] {
      WithoutTwice(queued[1..], a, b);
      if queued[0] !in a {
        assert ([queued[0]] + Without(queued[1..], a))[1..] == Without(queued[1..], a);
      }
    }
  }

  /** Some requests of the table dropped. */
  ghost function DropSome(h: Handler, done: set<Request>): Handler {
    h.(inFlight := h.inFlight - done, line := Lines.Withdraw(h.line, done), answered := h.answered + Attached(Only(h.inFlight, done)))
  }

  lemma {:induction false} DropNone(h: Handler)
    ensures DropSome(h, {}) == h
  {
    assert h.inFlight - {} == h.inFlight;
    WithoutAbsent(h.line.queued, {});
    assert Only(h.inFlight, {}) == map[];
    assert Seekers(map[]) == map[];
    assert h.answered + multiset{} == h.answered;
  }

  lemma {:induction false} DropMore(h: Handler, done: set<Request>, r: Request)
    requires r in h.inFlight && r !in done
    ensures DropSome(h, done + {r}) == DropOne(DropSome(h, done), r)
    ensures r in DropSome(h, done).inFlight && DropSome(h, done).inFlight[r] == h.inFlight[r]
  {
    assert h.inFlight - (done + {r}) == h.inFlight - done - {r};
    WithoutTwice(h.line.queued, done, {r});
    AttachedMore(h.inFlight, done, r, h.answered);
  }

  lemma {:induction false} AttachedMore(inFlight: map<Request, InFlight>, done: set<Request>, r: Request, answered: multiset<SeekId>)
    requires r in inFlight && r !in done
    ensures answered + Attached(Only(inFlight, done + {r})) == answered + Attached(Only(inFlight, done)) + SeekIds(inFlight[r].waiters)
  {
    var ids := SeekIds(inFlight[r].waiters);
    assert Only(inFlight, done + {r}) == Only(inFlight, done)[r := inFlight[r]];
    DownloadTable.SeekersPut(Only(inFlight, done), r, inFlight[r]);
    SumUpdate(Seekers(Only(inFlight, done)), r, ids);
    assert answered + (ids + Attached(Only(inFlight, done))) == answered + Attached(Only(inFlight, done)) + ids;
  }

  ghost function DropOne(h: Handler, r: Request): Handler
    requires r in h.inFlight
  {
    AnswerSeeks(h.(inFlight := h.inFlight - {r}, line := Lines.Withdraw(h.line, {r})), h.inFlight[r].waiters)
  }

  /** Some requests of a finished file dropped, their GETs given what the pool has. */
  ghost function DropGiving(h: Handler, mxc: Mxc, file: Option<ServerFile>, unread: set<nat>, done: set<Request>): Handler {
    DropSome(h, done).(pieces := h.pieces + PoolPieces(mxc, file, unread, h.inFlight, done))
  }

  ghost function PoolPieces(mxc: Mxc, file: Option<ServerFile>, unread: set<nat>, inFlight: map<Request, InFlight>, done: set<Request>): set<Piece> {
    if file.Some? then PiecesFromPool(file.value, mxc, inFlight, done, unread) else {}
  }

  ghost function GiveOneRequest(h: Handler, mxc: Mxc, file: Option<ServerFile>, unread: set<nat>, r: Request): Handler
    requires r in h.inFlight
  {
    DropOne(h.(pieces := h.pieces + PoolPieces(mxc, file, unread, map[r := h.inFlight[r]], {r})), r)
  }

  lemma {:induction false} GiveNone(h: Handler, mxc: Mxc, file: Option<ServerFile>, unread: set<nat>)
    ensures DropGiving(h, mxc, file, unread, {}) == h
  {
    DropNone(h);
    assert PoolPieces(mxc, file, unread, h.inFlight, {}) == {};
    assert h.pieces + {} == h.pieces;
  }

  lemma {:induction false} GiveMore(h: Handler, mxc: Mxc, file: Option<ServerFile>, unread: set<nat>, done: set<Request>, r: Request)
    requires r in h.inFlight && r !in done
    ensures r in DropGiving(h, mxc, file, unread, done).inFlight
    ensures DropGiving(h, mxc, file, unread, done + {r}) == GiveOneRequest(DropGiving(h, mxc, file, unread, done), mxc, file, unread, r)
  {
    DropMore(h, done, r);
    if file.Some? { PoolMore(file.value, mxc, unread, h.inFlight, done, r); }
    var now := PoolPieces(mxc, file, unread, map[r := h.inFlight[r]], {r});
    assert PoolPieces(mxc, file, unread, h.inFlight, done + {r}) == PoolPieces(mxc, file, unread, h.inFlight, done) + now;
    assert h.pieces + (PoolPieces(mxc, file, unread, h.inFlight, done) + now) == h.pieces + PoolPieces(mxc, file, unread, h.inFlight, done) + now;
  }

  lemma {:induction false} PoolMore(f: ServerFile, mxc: Mxc, unread: set<nat>, inFlight: map<Request, InFlight>, done: set<Request>, r: Request)
    requires r in inFlight
    ensures PiecesFromPool(f, mxc, inFlight, done + {r}, unread)
         == PiecesFromPool(f, mxc, inFlight, done, unread) + PiecesFromPool(f, mxc, map[r := inFlight[r]], {r}, unread)
  {
  }

  lemma {:induction false} PoolPieceMore(f: ServerFile, mxc: Mxc, unread: set<nat>, r: Request, waiters: seq<Waiting>, w: Waiting)
    ensures PiecesFromPool(f, mxc, map[r := InFlight(waiters + [w], NO_RETRIES)], {r}, unread)
         == PiecesFromPool(f, mxc, map[r := InFlight(waiters, NO_RETRIES)], {r}, unread)
            + if w.Seek? && PoolPiece(f, w.index, unread).Some?
              then {Piece(w, mxc, ChunkStart(w.index, f.chunkSize), PoolPiece(f, w.index, unread).value)} else {}
  {
  }

  lemma {:induction false} SamePoolPieces(f: ServerFile, mxc: Mxc, unread: set<nat>, r: Request, entry: InFlight)
    ensures PiecesFromPool(f, mxc, map[r := InFlight(entry.waiters, NO_RETRIES)], {r}, unread) == PiecesFromPool(f, mxc, map[r := entry], {r}, unread)
  {
  }

  // ---- closing several files ----

  function Flagged(h: Handler): set<Mxc> { set mxc | mxc in h.q.downloading && h.q.downloading[mxc].cancelled }

  ghost predicate FindsMain(h: Handler, mxc: Mxc, main: Option<Request>) {
    if main.Some? then MainOf(h, main.value, mxc) else forall r :: !MainOf(h, r, mxc)
  }

  /** Dealing with the flags in this order leads from `s` to `s2`. */
  ghost predicate CancelRun(s: State, s2: State, order: seq<Mxc>, mains: seq<Option<Request>>)
    decreases |order|
  {
    |mains| == |order| &&
    if order == [] then s2 == s
    else FindsMain(s.h, order[0], mains[0]) && CancelRun(CancelOne(s, order[0], mains[0]), s2, order[1..], mains[1..])
  }

  lemma {:induction false} CancelRunMore(s: State, mid: State, s2: State, order: seq<Mxc>, mains: seq<Option<Request>>,
      mxc: Mxc, main: Option<Request>)
    requires CancelRun(s, mid, order, mains) && FindsMain(mid.h, mxc, main) && s2 == CancelOne(mid, mxc, main)
    ensures CancelRun(s, s2, order + [mxc], mains + [main])
    decreases |order|
  {
    if order == [] {
      assert [] + [mxc] == [mxc] && [] + [main] == [main];
      assert CancelRun(s2, s2, [mxc][1..], [main][1..]);
    } else {
      assert (order + [mxc])[0] == order[0] && (order + [mxc])[1..] == order[1..] + [mxc];
      assert (mains + [main])[0] == mains[0] && (mains + [main])[1..] == mains[1..] + [main];
      CancelRunMore(CancelOne(s, order[0], mains[0]), mid, s2, order[1..], mains[1..], mxc, main);
    }
  }

  /** The waiters without the main file. */
  method OnlySeeks(waiters: seq<Waiting>) returns (others: seq<Waiting>)
    ensures others == SeeksOnly(waiters)
  {
    others := [];
    var i := 0;
    while i < |waiters|
      invariant 0 <= i <= |waiters| && others + SeeksOnly(waiters[i..]) == SeeksOnly(waiters)
    {
      assert waiters[i..][1..] == waiters[i + 1..];
      if waiters[i].Seek? {
        assert others + ([waiters[i]] + SeeksOnly(waiters[i + 1..])) == (others + [waiters[i]]) + SeeksOnly(waiters[i + 1..]);
        others := others + [waiters[i]];
      }
      i := i + 1;
    }
  }

  function IdleFiles(h: Handler): set<Mxc> { set mxc | mxc in h.open && IsIdleFile(h, mxc) }

  ghost function CloseAllIdle(s: State): State { CloseSome(s, IdleFiles(s.h)) }

  /** Claims of these files given up, where they are this handler's. */
  function ReleaseKeys(claims: map<FileKey, HandlerId>, h: Handler, files: set<Mxc>): map<FileKey, HandlerId> {
    map key | key in claims && !(claims[key] == h.id && key.dir == h.dir && key.mxc in files) :: claims[key]
  }

  /** Some open files closed and kept. */
  ghost function CloseSome(s: State, done: set<Mxc>): State {
    State(s.h.(open := s.h.open - done),
          s.d.(claims := ReleaseKeys(s.d.claims, s.h, done), disk := s.d.disk + KeptOnDisk(s.h.(open := Only(s.h.open, done)))))
  }

  lemma {:induction false} CloseSomeNone(s: State)
    ensures CloseSome(s, {}) == s
  {
    assert s.h.open - {} == s.h.open;
    assert ReleaseKeys(s.d.claims, s.h, {}) == s.d.claims;
    assert KeptOnDisk(s.h.(open := Only(s.h.open, {}))) == map[];
    assert s.d.disk + map[] == s.d.disk;
  }

  lemma {:induction false} ReleaseMore(claims: map<FileKey, HandlerId>, h: Handler, done: set<Mxc>, mxc: Mxc)
    ensures var key := Key(h, mxc);
            var before := ReleaseKeys(claims, h, done);
            ReleaseKeys(claims, h, done + {mxc}) == if key in before && before[key] == h.id then before - {key} else before
  {
  }

  lemma {:induction false} KeptMore(h: Handler, done: set<Mxc>, mxc: Mxc)
    requires mxc in h.open
    ensures KeptOnDisk(h.(open := Only(h.open, done + {mxc}))) == KeptOnDisk(h.(open := Only(h.open, done)))[Key(h, mxc) := h.open[mxc]]
  {
  }

  lemma {:induction false} CloseSomeMore(s: State, done: set<Mxc>, mxc: Mxc)
    requires mxc in s.h.open && mxc !in done
    ensures mxc in CloseSome(s, done).h.open
    ensures CloseSome(s, done + {mxc}) == CloseKeeping(CloseSome(s, done), mxc)
  {
    assert s.h.open - (done + {mxc}) == s.h.open - done - {mxc};
    ReleaseMore(s.d.claims, s.h, done, mxc);
    DiskMore(s, done, mxc);
  }

  lemma {:induction false} DiskMore(s: State, done: set<Mxc>, mxc: Mxc)
    requires mxc in s.h.open
    ensures CloseSome(s, done + {mxc}).d.disk == CloseSome(s, done).d.disk[Key(s.h, mxc) := s.h.open[mxc]]
  {
    KeptMore(s.h, done, mxc);
    var kept := KeptOnDisk(s.h.(open := Only(s.h.open, done)));
    assert s.d.disk + kept[Key(s.h, mxc) := s.h.open[mxc]] == (s.d.disk + kept)[Key(s.h, mxc) := s.h.open[mxc]];
  }

  ghost function Ended(s: State): State {
    State(s.h.(q := CloseQueue(s.h.q), opening := {}, seekOnly := map[], inFlight := map[], seeks := [], task := Idle, closed := true,
               answered := s.h.answered + StillHeld(s.h)),
          s.d.(claims := ReleaseKeys(s.d.claims, s.h, s.h.opening)))
  }

  /** Closing every open file and giving up the claims of those being opened is what `Close` says. */
  lemma {:induction false} ClosedIsClose(s: State)
    ensures Ended(CloseSome(s, s.h.open.Keys)) == Close(s)
  {
    assert Only(s.h.open, s.h.open.Keys) == s.h.open;
    assert s.h.open - s.h.open.Keys == map[];
    assert ReleaseKeys(ReleaseKeys(s.d.claims, s.h, s.h.open.Keys), s.h, s.h.opening) == ReleaseAll(s.d.claims, s.h);
  }
}
