/** Every event of any handler keeps what holds of all of them: handlers touch each other only through the claim table,
    and only under their own claims. */
module DownloadShared {
  import opened Files
  import opened Wrappers
  import opened Tally
  import opened JobQueue
  import opened Download
  import opened DownloadInv
  import DownloadTable
  import opened DownloadJobs
  import opened DownloadFrame
  import opened DownloadMoves
  import opened DownloadSystem

  // ---- one handler moves, another one stands by ----

  lemma {:induction false} OtherClaims(o: State, s: State, s2: State)
    requires ClaimInv(o) && o.d == s.d && Touches(s, s2) && s.h.id != o.h.id
    ensures ClaimInv(State(o.h, s2.d))
  {
    forall mxc ensures Holds(State(o.h, s2.d), mxc) <==> Holds(o, mxc) {
      assert ClaimMoves(s, s2, Key(o.h, mxc));
    }
  }

  lemma {:induction false} OtherOutcomes(o: State, d2: Shared)
    requires OutcomesSound(o) && o.d.pool.Keys <= d2.pool.Keys && o.d.complete <= d2.complete
    ensures OutcomesSound(State(o.h, d2))
  {
    assert o.h.finishing.Recording? ==> Key(o.h, o.h.finishing.mxc) in o.d.pool.Keys;
  }

  lemma {:induction false} OtherKeeps(w: World, o: State, s: State, s2: State)
    requires OneInv(w, o) && o.d == s.d && Touches(s, s2) && s.h.id != o.h.id && SharedSound(w, s2.d)
    ensures OneInv(w, State(o.h, s2.d))
  {
    OtherClaims(o, s, s2);
    OtherOutcomes(o, s2.d);
  }

  lemma {:induction false} SoundOfFile(w: World, w2: World, d: Shared)
    requires SharedSound(w, d) && w.file == w2.file
    ensures SharedSound(w2, d)
  {
  }

  lemma {:induction false} ClaimsStayKnown(y: System, s2: State)
    requires ClaimsKnown(y) && s2.h.id in y.handlers && y.handlers[s2.h.id].id == s2.h.id && Touches(At(y, s2.h.id), s2)
    ensures ClaimsKnown(With(y, s2))
  {
    var s := At(y, s2.h.id);
    forall key | key in s2.d.claims
      ensures s2.d.claims[key] in With(y, s2).handlers && With(y, s2).handlers[s2.d.claims[key]].dir == key.dir
    {
      assert ClaimMoves(s, s2, key);
      assert Look(s2.d.claims, key) == Some(s2.d.claims[key]);
    }
  }

  /** One handler goes on to `s2` and the others stand by. */
  lemma {:induction false} WithKeeps(file: Mxc -> ServerFile, y: System, s2: State)
    requires SysInv(file, y) && s2.h.id in y.handlers && Touches(At(y, s2.h.id), s2)
    requires OneInv(WorldOf(file, y, s2.h.id), s2) && SharedSound(World(file, multiset{}), s2.d)
    ensures SysInv(file, With(y, s2))
  {
    var y2 := With(y, s2);
    ClaimsStayKnown(y, s2);
    forall id | id in y2.handlers ensures y2.handlers[id].id == id && OneInv(WorldOf(file, y2, id), At(y2, id)) {
      assert y.handlers[id].id == id && OneInv(WorldOf(file, y, id), At(y, id));
      if id != s2.h.id {
        SoundOfFile(World(file, multiset{}), WorldOf(file, y, id), s2.d);
        OtherKeeps(WorldOf(file, y, id), At(y, id), At(y, s2.h.id), s2);
      } else {
        assert At(y2, id) == s2;
      }
    }
  }

  /** A handler's jobs and waiters change and nothing that is shared does. */
  lemma {:induction false} QueueKeeps(file: Mxc -> ServerFile, y: System, h2: Handler, due: multiset<Waiter>, issued: multiset<Waiter>)
    requires SysInv(file, y) && h2.id in y.handlers && h2.dir == y.handlers[h2.id].dir
    requires OneInv(World(file, due), State(h2, y.d))
    requires issued == Sum(y.dues[h2.id := due])
    ensures SysInv(file, y.(handlers := y.handlers[h2.id := h2], dues := y.dues[h2.id := due], issued := issued))
  {
    var y2 := y.(handlers := y.handlers[h2.id := h2], dues := y.dues[h2.id := due], issued := issued);
    forall id | id in y2.handlers ensures y2.handlers[id].id == id && OneInv(WorldOf(file, y2, id), At(y2, id)) {
      if id != h2.id {
        assert OneInv(WorldOf(file, y, id), At(y, id));
        assert At(y2, id) == At(y, id) && WorldOf(file, y2, id) == WorldOf(file, y, id);
      } else {
        assert At(y2, id) == State(h2, y.d) && WorldOf(file, y2, id) == World(file, due);
      }
    }
    QueueClaims(y, h2, due, issued);
  }

  lemma {:induction false} QueueClaims(y: System, h2: Handler, due: multiset<Waiter>, issued: multiset<Waiter>)
    requires ClaimsKnown(y) && h2.id in y.handlers && h2.dir == y.handlers[h2.id].dir
    ensures ClaimsKnown(y.(handlers := y.handlers[h2.id := h2], dues := y.dues[h2.id := due], issued := issued))
  {
  }

  // ---- the events ----

  lemma {:induction false} BeginKeeps(file: Mxc -> ServerFile, y: System, id: HandlerId, dir: nat)
    requires SysInv(file, y) && id !in y.handlers
    ensures SysInv(file, y.(handlers := y.handlers[id := NewHandler(id, dir)], dues := y.dues[id := multiset{}]))
  {
    var y2 := y.(handlers := y.handlers[id := NewHandler(id, dir)], dues := y.dues[id := multiset{}]);
    SumUpdate(y.dues, id, multiset{});
    forall i | i in y2.handlers ensures y2.handlers[i].id == i && OneInv(WorldOf(file, y2, i), At(y2, i)) {
      if i != id { StandsBy(file, y, y2, i); } else { BegunInv(file, y, y2, id, dir); }
    }
    BegunClaims(y, id, dir);
  }

  lemma {:induction false} BegunInv(file: Mxc -> ServerFile, y: System, y2: System, id: HandlerId, dir: nat)
    requires SysInv(file, y) && id !in y.handlers && id in y2.handlers && id in y2.dues
    requires y2.handlers[id] == NewHandler(id, dir) && y2.dues[id] == multiset{} && y2.d == y.d
    ensures y2.handlers[id].id == id && OneInv(WorldOf(file, y2, id), At(y2, id))
  {
    NewHandlerInv(file, At(y2, id), id, dir);
  }

  lemma BegunClaims(y: System, id: HandlerId, dir: nat)
    requires ClaimsKnown(y) && id !in y.handlers
    ensures ClaimsKnown(y.(handlers := y.handlers[id := NewHandler(id, dir)], dues := y.dues[id := multiset{}]))
  {
  }

  lemma {:induction false} StandsBy(file: Mxc -> ServerFile, y: System, y2: System, i: HandlerId)
    requires SysInv(file, y) && i in y.handlers && i in y2.handlers && i in y2.dues
    requires y2.handlers[i] == y.handlers[i] && y2.dues[i] == y.dues[i] && y2.d == y.d
    ensures y2.handlers[i].id == i && OneInv(WorldOf(file, y2, i), At(y2, i))
  {
    assert At(y2, i) == At(y, i) && WorldOf(file, y2, i) == WorldOf(file, y, i);
    assert OneInv(WorldOf(file, y, i), At(y, i));
  }

  lemma {:induction false} NewHandlerInv(file: Mxc -> ServerFile, s: State, id: HandlerId, dir: nat)
    requires SharedSound(World(file, multiset{}), s.d) && s.h == NewHandler(id, dir)
    requires forall key :: key in s.d.claims ==> s.d.claims[key] != id
    ensures OneInv(World(file, multiset{}), s)
  {
    assert WaiterCounts(map[]) == map[];
    assert Seekers(map[]) == map[];
    forall i ensures SeekBalance(s.h, multiset{}, i) {
    }
  }

  lemma {:induction false} RunKeeps(file: Mxc -> ServerFile, y: System, id: HandlerId, move: Move)
    requires SysInv(file, y) && Alive(y, id) && May(WorldOf(file, y, id), At(y, id), move)
    requires Inv(WorldOf(file, y, id), At(y, id), None, multiset{})
    ensures SysInv(file, With(y, Act(WorldOf(file, y, id), At(y, id), move)))
  {
    var w := WorldOf(file, y, id);
    var s := At(y, id);
    assert OneInv(w, s) && s.h.id == id;
    var s2 := Act(w, s, move);
    ActKeepsInv(w, s, move);
    ActTouches(w, s, move);
    ActFinishesOwn(w, s, move);
    SoundOfFile(w, World(file, multiset{}), s2.d);
    WithKeeps(file, y, s2);
  }

  lemma {:induction false} EnqueueStays(h: Handler, manifest: Manifest, waiters: seq<Waiter>)
    ensures var h2 := h.(q := EnqueueAt(h, manifest, waiters));
            h2.closed == h.closed && (FinishesOwn(h) ==> FinishesOwn(h2))
  {
  }

  /** Alive or gone, a handler's queue takes a job. */
  lemma {:induction false} PutKeepsOne(w: World, s: State, manifest: Manifest, waiters: seq<Waiter>)
    requires OneInv(w, s)
    ensures OneInv(w.(due := w.due + multiset(waiters)), s.(h := s.h.(q := EnqueueAt(s.h, manifest, waiters))))
  {
    EnqueueStays(s.h, manifest, waiters);
    if s.h.closed { PutKeepsClosed(w, s, manifest, waiters); } else { EnqueueKeepsInv(w, s, manifest, waiters); }
  }

  lemma {:induction false} PutKeepsClosed(w: World, s: State, manifest: Manifest, waiters: seq<Waiter>)
    requires ClosedInv(w, s)
    ensures ClosedInv(w.(due := w.due + multiset(waiters)), s.(h := s.h.(q := EnqueueAt(s.h, manifest, waiters))))
  {
    var q2 := EnqueueAt(s.h, manifest, waiters);
    var s2 := s.(h := s.h.(q := q2));
    assert q2 == Enqueue(s.h.q, manifest, waiters);
    EnqueueBalances(s.h.q, manifest, waiters, w.due);
    var w2 := w.(due := w.due + multiset(waiters));
    assert forall p :: PieceSound(w2, p) == PieceSound(w, p);
    SameSoundKeeps(w2, s, s2);
    DownloadTable.SameSeeksKeep(s.h, s2.h, multiset{});
    DownloadTable.SameClaimsKeep(s, s2);
  }

  lemma {:induction false} GiveKeeps(file: Mxc -> ServerFile, y: System, id: HandlerId, manifest: Manifest, waiters: seq<Waiter>,
      issued: multiset<Waiter>)
    requires y.dues.Keys == y.handlers.Keys && id in y.handlers
    requires SysInv(file, y.(issued := Sum(y.dues)))
    requires issued == Sum(y.dues) + multiset(waiters)
    ensures SysInv(file, Give(y, id, manifest, waiters).(issued := issued))
  {
    var h := y.handlers[id];
    var h2 := h.(q := EnqueueAt(h, manifest, waiters));
    var due := y.dues[id] + multiset(waiters);
    assert OneInv(WorldOf(file, y, id), At(y, id)) by {
      var z := y.(issued := Sum(y.dues));
      assert OneInv(WorldOf(file, z, id), At(z, id));
    }
    PutKeepsOne(WorldOf(file, y, id), At(y, id), manifest, waiters);
    assert WorldOf(file, y, id).(due := due) == World(file, due);
    SumUpdate(y.dues, id, due);
    assert Sum(y.dues[id := due]) == issued by {
      assert Sum(y.dues[id := due]) + y.dues[id] == due + Sum(y.dues);
      forall x ensures Sum(y.dues[id := due])[x] == issued[x] {
        assert (Sum(y.dues[id := due]) + y.dues[id])[x] == (due + Sum(y.dues))[x];
      }
    }
    QueueKeeps(file, y.(issued := Sum(y.dues)), h2, due, issued);
  }

  lemma {:induction false} PartKeeps(file: Mxc -> ServerFile, y: System, id: HandlerId)
    requires SysInv(file, y) && Alive(y, id) && AtStage(y.handlers[id], Looking)
    ensures var z := Part(y, id);
            && SysInv(file, z.(issued := Sum(z.dues)))
            && y.issued == Sum(z.dues) + Departing(y.handlers[id])
  {
    var h := y.handlers[id];
    var due := y.dues[id] - Departing(h);
    assert OneInv(WorldOf(file, y, id), At(y, id)) && h.id == id;
    SendAwayKeepsInv(WorldOf(file, y, id), At(y, id));
    assert WorldOf(file, y, id).(due := due) == World(file, due);
    SumUpdate(y.dues, id, due);
    assert y.issued == Sum(y.dues[id := due]) + Departing(h) by {
      forall x ensures y.issued[x] == Sum(y.dues[id := due])[x] + Departing(h)[x] {
        assert (Sum(y.dues[id := due]) + y.dues[id])[x] == (due + Sum(y.dues))[x];
      }
    }
    QueueKeeps(file, y, SendAway(h), due, Sum(y.dues[id := due]));
  }

  lemma {:induction false} HandOverKeeps(file: Mxc -> ServerFile, y: System, id: HandlerId, other: HandlerId)
    requires SysInv(file, y) && Possible(file, y, HandOver(id, other))
    ensures SysInv(file, After(file, y, HandOver(id, other)))
  {
    var h := y.handlers[id];
    var z := Part(y, id);
    PartKeeps(file, y, id);
    assert other != id && z.handlers[other] == y.handlers[other];
    GiveKeeps(file, z, other, h.task.manifest, WaitersOf(h.q, h.task.manifest.mxc), y.issued);
    assert Give(z, other, h.task.manifest, WaitersOf(h.q, h.task.manifest.mxc)).(issued := y.issued)
        == After(file, y, HandOver(id, other));
  }

  // ---- dropped at an await ----

  lemma {:induction false} CloseClaims(s: State)
    requires ClaimInv(s) && TaskShape(s.h)
    ensures ClaimInv(Close(s))
  {
    var s2 := Close(s);
    forall mxc ensures Holds(s2, mxc) <==> Holding(s2.h, mxc) {
      assert Holds(s, mxc) <==> Holding(s.h, mxc);
      assert Key(s2.h, mxc) == Key(s.h, mxc);
    }
  }

  lemma {:induction false} CloseSeeks(s: State)
    requires SeekInv(s.h, multiset{})
    ensures SeekInv(Close(s).h, multiset{})
  {
    assert Seekers(map[]) == map[];
    forall id ensures SeekBalance(Close(s).h, multiset{}, id) {
      assert SeekBalance(s.h, multiset{}, id);
    }
  }

  lemma {:induction false} CloseTouches(s: State)
    requires ClaimInv(s)
    ensures Touches(s, Close(s))
  {
    var s2 := Close(s);
    forall key ensures ClaimMoves(s, s2, key)
               ensures Look(s2.d.disk, key) == Look(s.d.disk, key) || Look(s.d.claims, key) == Some(s.h.id)
    {
      if key in KeptOnDisk(s.h) {
        assert Holds(s, key.mxc);
      }
    }
  }

  lemma {:induction false} CloseSound(w: World, s: State)
    requires SharedSound(w, s.d) && HandlerSound(w, s.h)
    ensures SharedSound(w, Close(s).d)
  {
    assert Close(s).d == s.d.(claims := ReleaseAll(s.d.claims, s.h), disk := s.d.disk + KeptOnDisk(s.h));
    KeptIsSound(w, s.h);
    DiskSound(w, s.d, KeptOnDisk(s.h), ReleaseAll(s.d.claims, s.h));
  }

  lemma {:induction false} KeptIsSound(w: World, h: Handler)
    requires forall mxc :: mxc in h.open ==> MediaSound(w, mxc, h.open[mxc])
    ensures forall key :: key in KeptOnDisk(h) ==> MediaSound(w, key.mxc, KeptOnDisk(h)[key])
  {
  }

  lemma {:induction false} DiskSound(w: World, d: Shared, more: map<FileKey, MediaDownload>, claims: map<FileKey, HandlerId>)
    requires SharedSound(w, d) && forall key :: key in more ==> MediaSound(w, key.mxc, more[key])
    ensures SharedSound(w, d.(claims := claims, disk := d.disk + more))
  {
  }

  lemma {:induction false} CloseHandlerSound(w: World, s: State)
    requires HandlerSound(w, s.h)
    ensures HandlerSound(w, Close(s).h)
  {
  }

  lemma {:induction false} CloseOutcomes(s: State)
    requires OutcomesSound(s)
    ensures OutcomesSound(Close(s))
  {
    var q2 := Close(s).h.q;
    assert forall t :: t in q2.outcomes && t.outcome == Finished ==> t in s.h.q.outcomes;
  }

  lemma {:induction false} AbortKeeps(file: Mxc -> ServerFile, y: System, id: HandlerId)
    requires SysInv(file, y) && Alive(y, id)
    ensures SysInv(file, With(y, Close(At(y, id))))
  {
    var w := WorldOf(file, y, id);
    var s := At(y, id);
    assert OneInv(w, s) && s.h.id == id;
    CloseClaims(s);
    CloseSeeks(s);
    CloseTouches(s);
    CloseSound(w, s);
    CloseHandlerSound(w, s);
    CloseOutcomes(s);
    CloseBalances(s.h.q, w.due);
    SoundOfFile(w, World(file, multiset{}), Close(s).d);
    WithKeeps(file, y, Close(s));
  }

  /** The row of a file in the pool is marked complete although its handler is gone. */
  lemma {:induction false} RecordKeeps(file: Mxc -> ServerFile, y: System, id: HandlerId)
    requires SysInv(file, y) && Possible(file, y, RecordLands(id))
    ensures SysInv(file, After(file, y, RecordLands(id)))
  {
    var y2 := After(file, y, RecordLands(id));
    assert OneInv(WorldOf(file, y, id), At(y, id));
    forall other | other in y2.handlers ensures OneInv(WorldOf(file, y2, other), At(y2, other)) {
      assert OneInv(WorldOf(file, y, other), At(y, other));
      MoreComplete(WorldOf(file, y, other), At(y, other), y2.d);
    }
  }

  lemma {:induction false} MoreComplete(w: World, s: State, d2: Shared)
    requires OneInv(w, s) && d2 == s.d.(complete := d2.complete) && s.d.complete <= d2.complete
    requires SharedSound(w, d2)
    ensures OneInv(w, State(s.h, d2))
  {
    OtherOutcomes(s, d2);
    DownloadTable.SameClaimsKeep(s, State(s.h, d2));
  }

  /** No event breaks the invariant of the system. */
  lemma {:induction false} StepKeeps(file: Mxc -> ServerFile, y: System, e: Event)
    requires SysInv(file, y) && Possible(file, y, e)
    ensures SysInv(file, After(file, y, e))
  {
    match e
    case Begin(id, dir) => BeginKeeps(file, y, id, dir);
    case Run(id, move) =>
      assert OneInv(WorldOf(file, y, id), At(y, id));
      RunKeeps(file, y, id, move);
    case Put(target, manifest, waiters) =>
      assert y.(issued := Sum(y.dues)) == y;
      GiveKeeps(file, y, target, manifest, waiters, y.issued + multiset(waiters));
    case HandOver(id, target) => HandOverKeeps(file, y, id, target);
    case Abort(id) => AbortKeeps(file, y, id);
    case RecordLands(id) => RecordKeeps(file, y, id);
  }
}
