/** A reply that arrives keeps the invariant, whatever it carries. */
module DownloadReplies {
  import opened Files
  import opened Wrappers
  import opened Lines
  import opened Download
  import opened DownloadInv
  import DownloadTable
  import opened DownloadSteps

  // ---- Info ----

  /** What is verified from now on was promised by the sdk. The file's own cursor moves from `Info` to its next chunk. */
  lemma {:induction false} AcceptKeepsInv(w: World, s: State, mxc: Mxc, v: Verdict, entry: InFlight)
    requires Inv(w, s, Carried(entry.waiters, mxc), SeekIds(entry.waiters)) && Took(s.h, Info(mxc), entry)
    requires InfoContract(w, s.h, mxc, v) && v.refused.None?
    ensures Inv(w, s.(h := AcceptInfo(s.h, mxc)), Carried(entry.waiters, mxc), SeekIds(entry.waiters))
  {
    var held := SeekIds(entry.waiters);
    var cut := Carried(entry.waiters, mxc);
    if mxc in s.h.open {
      AcceptOpenKeepsInv(w, s, mxc, cut, held);
    } else if mxc in s.h.seekOnly {
      SeekOnlyKeepsInv(w, s, s.h.seekOnly[mxc := s.h.seekOnly[mxc].(verified := true)], cut, held);
    }
  }

  lemma {:induction false} AcceptOpenKeepsInv(w: World, s: State, mxc: Mxc, cut: Option<Mxc>, held: multiset<SeekId>)
    requires Inv(w, s, cut, held) && mxc in s.h.open && Describes(s.h.open[mxc].manifest, w.file(mxc))
    requires cut == Some(mxc) || !IsCursor(s.h, Info(mxc))
    ensures Inv(w, s.(h := AcceptInfo(s.h, mxc)), cut, held)
  {
    var m := s.h.open[mxc].(needsInfo := false);
    assert MediaSound(w, mxc, s.h.open[mxc]);
    FileKeepsInv(w, s, mxc, m, cut, held);
    SameProgress(s, mxc, m);
  }

  /** A change that lands nothing leaves the shown progress as it is. */
  lemma {:induction false} SameProgress(s: State, mxc: Mxc, m: MediaDownload)
    requires ProgressInv(s.h) && mxc in s.h.open && Next(m) == Next(s.h.open[mxc])
    ensures WithFile(s, mxc, m) == s.(h := s.h.(open := s.h.open[mxc := m]))
  {
    if mxc in s.h.q.downloading {
      assert s.h.q.downloading[mxc := s.h.q.downloading[mxc].(done := Next(m))] == s.h.q.downloading;
    }
  }

  lemma {:induction false} InfoKeepsInv(w: World, s: State, mxc: Mxc, entry: InFlight, v: Verdict, local: LocalReads)
    requires Inv(w, s, Carried(entry.waiters, mxc), SeekIds(entry.waiters)) && Took(s.h, Info(mxc), entry) && AtEvent(s.h)
    requires InfoContract(w, s.h, mxc, v)
    ensures Inv(w, InfoArrived(s, mxc, entry, v, local), None, multiset{})
  {
    var cut := Carried(entry.waiters, mxc);
    var next := InfoArrived(s, mxc, entry, v, local);
    if mxc !in s.h.open && mxc !in s.h.seekOnly {
      AnswerAllKeepsInv(w, s, entry.waiters, cut);
      assert next == s.(h := AnswerSeeks(s.h, entry.waiters));
    } else if v.refused.Some? {
      if IsBadReply(v.refused.value) && entry.retries.badReplies == 0 {
        var retries := entry.retries.(badReplies := 1);
        ResendTook(w, s, Info(mxc), entry, retries);
        assert next == s.(h := Resend(s.h, Info(mxc), entry.waiters, retries));
      } else {
        UnverifiedKeepsInv(w, s, mxc, Info(mxc), entry, v.refused.value);
        assert next == Unverified(s, mxc, entry, v.refused.value);
      }
    } else {
      AcceptKeepsInv(w, s, mxc, v, entry);
      var accepted := s.(h := AcceptInfo(s.h, mxc));
      SeekChunksKeepInv(w, accepted, mxc, entry.waiters, local, cut, SeekIds(entry.waiters));
      var asked := s.(h := RequestSeekChunks(AcceptInfo(s.h, mxc), mxc, entry.waiters, local));
      if HasMain(entry.waiters) {
        ContinueKeepsInv(w, asked, mxc, v.disk, multiset{});
        assert next == ContinueMain(asked, mxc, v.disk);
      } else {
        assert next == asked;
      }
    }
  }

  // ---- a chunk ----

  lemma {:induction false} LandKeepsInv(w: World, s: State, mxc: Mxc, plain: Bytes, held: multiset<SeekId>)
    requires Inv(w, s, Some(mxc), held) && mxc in s.h.open && mxc in s.h.q.downloading
    requires var m := s.h.open[mxc];
             !m.needsInfo && Next(m) < |Chunks(w.file(mxc))| && plain == Chunks(w.file(mxc))[Next(m)]
    ensures Inv(w, s.(h := LandArrived(s.h, mxc, plain)), Some(mxc), held)
  {
    var m := s.h.open[mxc];
    assert MediaSound(w, mxc, m);
    LandSound(w, mxc, m, plain);
    FileKeepsInv(w, s, mxc, Land(m, plain), Some(mxc), held);
    assert s.(h := LandArrived(s.h, mxc, plain)) == WithFile(s, mxc, Land(m, plain));
  }

  lemma {:induction false} StoreKeepsInv(w: World, s: State, mxc: Mxc, index: nat, plain: Bytes, cut: Option<Mxc>, held: multiset<SeekId>)
    requires Inv(w, s, cut, held) && mxc in s.h.open && !s.h.open[mxc].needsInfo
    requires index < |Chunks(w.file(mxc))| && plain == Chunks(w.file(mxc))[index]
    ensures Inv(w, s.(h := StoreArrived(s.h, mxc, index, plain)), cut, held)
  {
    var m := s.h.open[mxc];
    assert MediaSound(w, mxc, m);
    var m2 := m.(store := m.store[index := plain]);
    FileKeepsInv(w, s, mxc, m2, cut, held);
    SameProgress(s, mxc, m2);
  }

  /** The piece a GET is given is chunk `index` of the file, under the byte it starts at. */
  lemma {:induction false} ArrivedPieceSound(w: World, mxc: Mxc, index: nat, manifest: Manifest, plain: Bytes)
    requires index < |Chunks(w.file(mxc))| && plain == Chunks(w.file(mxc))[index] && Describes(manifest, w.file(mxc))
    ensures forall to: Waiting :: to.Seek? && HangsRight(to, Chunk(mxc, index)) ==>
              PieceSound(w, Piece(to, mxc, ChunkStart(index, manifest.chunkSize), plain))
  {
  }

  lemma {:induction false} GiveAllKeepsInv(w: World, s: State, waiters: seq<Waiting>, mxc: Mxc, start: nat, plain: Bytes, cut: Option<Mxc>)
    requires Inv(w, s, cut, SeekIds(waiters))
    requires forall to :: to in waiters && to.Seek? ==> PieceSound(w, Piece(to, mxc, start, plain))
    ensures Inv(w, s.(h := GivePiece(s.h, waiters, mxc, start, plain)), cut, multiset{})
  {
    var ids := SeekIds(waiters);
    assert ids == ids + multiset{};
    DownloadTable.GiveKeepsInv(w, s, waiters, mxc, start, plain, cut, ids, multiset{});
  }

  lemma {:induction false} ChunkKeepsInv(w: World, s: State, mxc: Mxc, index: nat, entry: InFlight, v: Verdict)
    requires Inv(w, s, Carried(entry.waiters, mxc), SeekIds(entry.waiters)) && Took(s.h, Chunk(mxc, index), entry) && AtEvent(s.h)
    requires ChunkContract(w, s.h, mxc, index, v)
    ensures Inv(w, ChunkArrived(s, mxc, index, entry, v), None, multiset{})
  {
    var cut := Carried(entry.waiters, mxc);
    var next := ChunkArrived(s, mxc, index, entry, v);
    if mxc !in s.h.open && mxc !in s.h.seekOnly {
      AnswerAllKeepsInv(w, s, entry.waiters, cut);
      assert next == s.(h := AnswerSeeks(s.h, entry.waiters));
    } else if v.refused.Some? {
      if (v.refused.value.Integrity? || v.refused.value.Protocol?) && entry.retries.badReplies == 0 {
        var retries := entry.retries.(badReplies := 1);
        ResendTook(w, s, Chunk(mxc, index), entry, retries);
        assert next == s.(h := Resend(s.h, Chunk(mxc, index), entry.waiters, retries));
      } else {
        UnverifiedKeepsInv(w, s, mxc, Chunk(mxc, index), entry, v.refused.value);
        assert next == Unverified(s, mxc, entry, v.refused.value);
      }
    } else if mxc !in s.h.open {
      ArrivedPieceSound(w, mxc, index, s.h.seekOnly[mxc].manifest, v.plain);
      var start := ChunkStart(index, s.h.seekOnly[mxc].manifest.chunkSize);
      GiveAllKeepsInv(w, s, entry.waiters, mxc, start, v.plain, cut);
      assert next == s.(h := GivePiece(s.h, entry.waiters, mxc, start, v.plain));
    } else {
      ChunkOpened(w, s, mxc, index, entry, v);
    }
  }

  lemma {:induction false} ChunkOpened(w: World, s: State, mxc: Mxc, index: nat, entry: InFlight, v: Verdict)
    requires Inv(w, s, Carried(entry.waiters, mxc), SeekIds(entry.waiters)) && Took(s.h, Chunk(mxc, index), entry) && AtEvent(s.h)
    requires ChunkContract(w, s.h, mxc, index, v) && v.refused.None? && mxc in s.h.open
    ensures Inv(w, ChunkArrived(s, mxc, index, entry, v), None, multiset{})
  {
    var m := s.h.open[mxc];
    var cut := Carried(entry.waiters, mxc);
    var next := ChunkArrived(s, mxc, index, entry, v);
    var start := ChunkStart(index, m.manifest.chunkSize);
    var given := s.(h := GivePiece(s.h, entry.waiters, mxc, start, v.plain));
    assert MediaSound(w, mxc, m);
    ArrivedPieceSound(w, mxc, index, m.manifest, v.plain);
    GiveAllKeepsInv(w, s, entry.waiters, mxc, start, v.plain, cut);
    var main := HasMain(entry.waiters);
    assert main ==> index == Next(m) && mxc in s.h.q.downloading;
    if v.unwritten.Some? {
      if main {
        FailKeepsInv(w, given, mxc, v.unwritten.value, false, cut, multiset{});
        assert next == FailMedia(given, mxc, v.unwritten.value, false);
      } else {
        assert next == given;
      }
    } else if main {
      LandKeepsInv(w, given, mxc, v.plain, multiset{});
      var landed := given.(h := LandArrived(given.h, mxc, v.plain));
      ContinueKeepsInv(w, landed, mxc, v.disk, multiset{});
      assert next == ContinueMain(landed, mxc, v.disk);
    } else {
      StoreKeepsInv(w, given, mxc, index, v.plain, cut, multiset{});
      assert next == given.(h := StoreArrived(given.h, mxc, index, v.plain));
    }
  }

  // ---- any reply ----

  lemma {:induction false} ReplyKeepsInv(w: World, s: State, v: Verdict, local: LocalReads)
    requires Inv(w, s, None, multiset{}) && AtEvent(s.h) && s.h.line.replies != [] && ReplyContract(w, s.h, v)
    ensures Inv(w, HandleReply(s, v, local), None, multiset{})
  {
    var reply := s.h.line.replies[0];
    var r := reply.action;
    var line := TakeReply(s.h.line);
    var next := HandleReply(s, v, local);
    if r !in s.h.inFlight {
      LineKeepsInv(w, s, line, None, multiset{});
      assert next == s.(h := s.h.(line := line));
    } else {
      var entry := s.h.inFlight[r];
      TakeKeepsInv(w, s, r, line);
      var taken := s.(h := s.h.(inFlight := s.h.inFlight - {r}, line := line));
      match reply.result
      case Ack =>
        if r.Info? {
          InfoKeepsInv(w, taken, r.mxc, entry, v, local);
          assert next == InfoArrived(taken, r.mxc, entry, v, local);
        } else {
          ChunkKeepsInv(w, taken, r.mxc, r.index, entry, v);
          assert next == ChunkArrived(taken, r.mxc, r.index, entry, v);
        }
      case Refused(error) =>
        FailedKeepsInv(w, taken, r, entry, error);
        assert next == RequestFailed(taken, r, entry, error);
    }
  }
}
