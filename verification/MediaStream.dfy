/** Reading a range of a file (media_stream.rs): the local original, the pool, or a downloader that is asked for one
    byte position at a time. Whatever the origin, the pieces are the slice. */
module MediaStreams {
  import opened Files
  import opened Wrappers
  import opened ByteSources

  const PIECE: nat := 0x1_0000

  /** What the file has from `position`, `want` bytes at most. */
  function Slice(plain: Bytes, position: nat, want: nat): Bytes {
    if position >= |plain| then [] else plain[position..Min(position + want, |plain|)]
  }

  method ReadAt(source: ByteSource, position: nat, want: nat) returns (piece: Result<Bytes, Error>)
    modifies source
    ensures piece.Ok? ==> piece.value == Slice(source.plain, position, want)
    ensures piece.Err? ==> piece.error == Io
    ensures source.failures == old(source.failures) + if piece.Err? then 1 else 0
  {
    source.SeekTo(position);
    piece := ReadUpTo(source, want);
  }

  /** A piece as a downloader answers: plain text and where it starts. */
  datatype SeekPiece = SeekPiece(start: nat, plain: Bytes)

  /** The piece is what it says: the bytes of the file from its start. */
  predicate IsRight(p: SeekPiece, plain: Bytes) {
    p.start + |p.plain| <= |plain| && p.plain == plain[p.start..p.start + |p.plain|]
  }

  predicate Covers(p: SeekPiece, position: nat) { p.start <= position < p.start + |p.plain| }

  /** What a GET at `position` takes out of a piece, up to `end`: nothing of a piece that does not cover the position. */
  method TakeOut(p: SeekPiece, position: nat, end: nat, ghost plain: Bytes) returns (taken: Result<Bytes, Error>)
    requires position < end
    ensures taken.Ok? <==> Covers(p, position)
    ensures taken.Err? ==> taken.error == Integrity
    ensures taken.Ok? ==> 0 < |taken.value| <= end - position
    ensures taken.Ok? && IsRight(p, plain) ==>
              position + |taken.value| <= |plain| && taken.value == plain[position..position + |taken.value|]
  {
    if position < p.start || position - p.start >= |p.plain| { return Err(Integrity); }
    var from := position - p.start;
    var to := Min(end - p.start, |p.plain|);
    taken := Ok(p.plain[from..to]);
    if IsRight(p, plain) {
      SliceOfSlice(plain, p.start, p.start + |p.plain|, from, to);
    }
  }

  lemma SliceOfSlice(s: Bytes, a: nat, b: nat, from: nat, to: nat)
    requires a <= b <= |s| && from <= to <= b - a
    ensures s[a..b][from..to] == s[a + from..a + to]
  {
    forall i | 0 <= i < to - from ensures s[a..b][from..to][i] == s[a + from..a + to][i] {
    }
  }

  datatype Origin = Local(file: ByteSource) | Remote

  /** One range being read: a local original or a pool file, or pieces asked of a downloader. */
  class MediaStream {
    const origin: Origin
    const end: nat
    var position: nat

    /** `size` is the file's length as the row has it; a range never goes past it. */
    constructor (origin: Origin, size: nat, start: nat, end: nat)
      ensures this.origin == origin && position == start && this.end == Min(end, size)
    {
      this.origin, this.end, position := origin, if end < size then end else size, start;
    }

    /** What the origin promises: a local file is the file, a downloader's piece is right. */
    ghost predicate Honest(answer: Result<SeekPiece, Error>, plain: Bytes) {
      if origin.Local? then origin.file.plain == plain else answer.Ok? ==> IsRight(answer.value, plain)
    }

    /** The next piece: never empty, and if the origin is honest exactly the bytes at the position. A piece that does not
        cover the position is an error and nothing is taken from it. */
    method NextPiece(answer: Result<SeekPiece, Error>, ghost plain: Bytes) returns (r: Result<Option<Bytes>, Error>)
      modifies this`position, if origin.Local? then {origin.file} else {}
      ensures r == Ok(None) <==> old(position) >= end
      ensures !(r.Ok? && r.value.Some?) ==> position == old(position)
      ensures r.Ok? && r.value.Some? ==>
                && 0 < |r.value.value| && position == old(position) + |r.value.value| <= end
                && (Honest(answer, plain) ==> position <= |plain| && r.value.value == plain[old(position)..position])
      ensures origin.Remote? && old(position) < end ==>
                (r.Err? <==> answer.Err? || !Covers(answer.value, old(position)))
                && (r.Err? ==> r.error == if answer.Err? then answer.error else Integrity)
      ensures origin.Local? && old(position) < end ==>
                (r.Err? <==> origin.file.failures > old(origin.file.failures) || old(position) >= |origin.file.plain|)
                && (r.Err? ==> r.error == Io)
      ensures origin.Local? ==> origin.file.failures >= old(origin.file.failures)
    {
      if position >= end { return Ok(None); }
      var piece: Bytes;
      if origin.Local? {
        var read := ReadAt(origin.file, position, Min(end - position, PIECE));
        if read.Err? { return Err(read.error); }
        piece := read.value;
      } else {
        if answer.Err? { return Err(answer.error); }
        var taken := TakeOut(answer.value, position, end, plain);
        if taken.Err? { return Err(taken.error); }
        piece := taken.value;
      }
      if piece == [] { return Err(Io); }
      position := position + |piece|;
      r := Ok(Some(piece));
    }

    /** A reader that asks until the range is done or broken: what it got is the slice up to where it stands, all of it when
        nothing broke. It always ends, and breaks only where it stands: on a read that failed, a downloader's error, or a piece
        that does not cover the position. */
    method ReadToEnd(ask: nat -> Result<SeekPiece, Error>, ghost plain: Bytes) returns (got: Bytes, broke: Option<Error>)
      requires position <= end <= |plain|
      requires forall at :: Honest(ask(at), plain)
      modifies this`position, if origin.Local? then {origin.file} else {}
      ensures old(position) <= position <= end && got == plain[old(position)..position]
      ensures broke.None? ==> got == plain[old(position)..end]
      ensures broke.Some? ==> position < end
      ensures broke.Some? && origin.Local? ==> broke == Some(Io) && origin.file.failures > old(origin.file.failures)
      ensures broke.Some? && origin.Remote? ==>
                match ask(position)
                case Err(error) => broke == Some(error)
                case Ok(piece) => broke == Some(Integrity) && !Covers(piece, position)
    {
      got, broke := [], None;
      ghost var start := position;
      while true
        invariant start <= position <= end && got == plain[start..position]
        invariant origin.Local? ==> origin.file.failures >= old(origin.file.failures)
        decreases end - position
      {
        var piece := NextPiece(ask(position), plain);
        match piece
        case Err(error) =>
          broke := Some(error);
          return;
        case Ok(None) => return;
        case Ok(Some(bytes)) => got := got + bytes;
      }
    }
  }

  // ---- which chunk a downloader answers with ----

  /** The piece a downloader makes of chunk `index` of a file. */
  function ChunkPiece(f: ServerFile, index: nat): SeekPiece
    requires index < |Chunks(f)|
  {
    SeekPiece(ChunkStart(index, f.chunkSize), Chunks(f)[index])
  }

  /** The chunk number was worked out by one cut and the chunk comes from a file cut another way: the piece is still right,
      and it covers the position exactly when both cuts give the same number. */
  lemma {:induction false} CoversIffSameNumber(f: ServerFile, position: nat, asked: nat)
    requires f.chunkSize > 0 && position < |f.plain| && asked < |Chunks(f)|
    ensures IsRight(ChunkPiece(f, asked), f.plain)
    ensures Covers(ChunkPiece(f, asked), position) <==> asked == position / f.chunkSize
  {
    var p := ChunkPiece(f, asked);
    CutIsSlice(f.plain, f.chunkSize, asked);
    var c := f.chunkSize;
    if Covers(p, position) {
      DivUnique(position, c, asked, position - asked * c);
    }
    if asked == position / c {
      assert position == asked * c + position % c;
    }
  }

  // ---- a file still being fetched in one go (matrix_download.rs) ----

  type ReadId = int
  datatype WaitingRead = WaitingRead(position: nat, id: ReadId)

  /** This read was given this piece. */
  datatype Given = Given(id: ReadId, piece: SeekPiece)

  /** How the fetch ends; complete, the file is in the pool, and reads go there. */
  datatype TransferEnd = Complete | Cancelled | Failed(error: Error)

  /** How the stream of the file ends by itself: all of it was handed on and what was written goes into the pool and on record,
      or something of that failed. */
  datatype StreamEnd = Whole | Broken(error: Error)

  /** What comes to the fetch: bytes of the file, and how much is sealed then; a GET; somebody who waits for the end; a cancel. */
  datatype Input = Piece(bytes: Bytes, sealedLen: nat) | Read(read: WaitingRead) | Wait(id: ReadId) | Cancel

  /** One fetch that other reads follow: what is written so far, how much of it is sealed, who waits. A read whose reply handle is
      dropped gets an error from that. */
  class TransferTask {
    var written: Bytes
    var sealedLen: nat
    var pool: Option<Bytes>
    var pending: seq<WaitingRead>
    var waiters: seq<ReadId>
    ghost var asked: multiset<ReadId>
    ghost var answered: multiset<ReadId>
    ghost var dropped: multiset<ReadId>
    ghost var given: set<Given>

    /** Every read asked for is waiting, was answered, or was dropped: once; every piece given is part of the file; the pool has all of it, if anything. */
    ghost predicate Valid(plain: Bytes)
      reads this
    {
      && written <= plain && sealedLen <= |written| && (pool.Some? ==> pool.value == plain)
      && asked == answered + dropped + Ids(pending)
      && AllRight(given, plain)
    }

    constructor (ghost plain: Bytes)
      ensures Valid(plain) && written == [] && pool == None && pending == [] && waiters == [] && asked == multiset{} && given == {}
    {
      written, sealedLen, pool, pending, waiters := [], 0, None, [], [];
      asked, answered, dropped, given := multiset{}, multiset{}, multiset{}, {};
    }

    /** The next bytes of the file came in; as much as the writer sealed can be read. */
    method PieceArrives(piece: Bytes, sealedNow: nat, unreadable: set<nat>, ghost plain: Bytes) returns (failed: bool)
      requires Valid(plain) && written + piece <= plain && sealedLen <= sealedNow <= |written + piece|
      modifies this
      ensures Valid(plain) && written == old(written) + piece && sealedLen == sealedNow
      ensures asked == old(asked) && waiters == old(waiters) && pool == old(pool) && pending == StillWaiting(old(pending), sealedLen)
      ensures !failed ==> given == old(given) + Answers(old(pending), plain[..sealedLen])
      ensures old(given) <= given && (failed <==> exists r :: r in Ready(old(pending), sealedLen) && r.position in unreadable)
    {
      TakeBytes(piece, sealedNow, plain);
      failed := AnswerReads(unreadable, plain);
    }

    method TakeBytes(piece: Bytes, sealedNow: nat, ghost plain: Bytes)
      requires Valid(plain) && written + piece <= plain && sealedLen <= sealedNow <= |written + piece|
      modifies this`written, this`sealedLen
      ensures Valid(plain) && written == old(written) + piece && sealedLen == sealedNow
    {
      written, sealedLen := written + piece, sealedNow;
    }

    /** A GET asks for a position. */
    method ReadArrives(read: WaitingRead, unreadable: set<nat>, ghost plain: Bytes) returns (failed: bool)
      requires Valid(plain)
      modifies this
      ensures Valid(plain) && asked == old(asked) + multiset{read.id}
      ensures written == old(written) && sealedLen == old(sealedLen) && waiters == old(waiters) && pool == old(pool)
      ensures pending == StillWaiting(old(pending) + [read], sealedLen)
      ensures !failed ==> given == old(given) + Answers(old(pending) + [read], plain[..sealedLen])
      ensures old(given) <= given && (failed <==> exists r :: r in Ready(old(pending) + [read], sealedLen) && r.position in unreadable)
    {
      WaitsFor(read, plain);
      failed := AnswerReads(unreadable, plain);
    }

    method WaitsFor(read: WaitingRead, ghost plain: Bytes)
      requires Valid(plain)
      modifies this`pending, this`asked
      ensures Valid(plain) && pending == old(pending) + [read] && asked == old(asked) + multiset{read.id}
    {
      pending := pending + [read];
      asked := asked + multiset{read.id};
      IdsAppend(old(pending), read);
    }

    /** Every read whose position is sealed is answered with what the file has there; the others keep waiting, in their order. If
        something sealed cannot be read back, that read and those after it are dropped and the fetch fails. */
    method AnswerReads(unreadable: set<nat>, ghost plain: Bytes) returns (failed: bool)
      requires Valid(plain)
      modifies this`pending, this`answered, this`dropped, this`given
      ensures Valid(plain) && pending == StillWaiting(old(pending), sealedLen)
      ensures failed <==> exists r :: r in Ready(old(pending), sealedLen) && r.position in unreadable
      ensures old(given) <= given <= old(given) + Answers(old(pending), plain[..sealedLen])
      ensures !failed ==> given == old(given) + Answers(old(pending), plain[..sealedLen]) && dropped == old(dropped)
    {
      var ready := TakeReady(plain);
      failed := AnswerThem(ready, unreadable, plain);
    }

    /** Every read asked for is waiting, was answered, was dropped, or is in the step's hands. */
    ghost predicate Accounted(held: multiset<ReadId>)
      reads this
    {
      asked == answered + dropped + held + Ids(pending)
    }

    /** The reads that can be answered now leave the waiting ones. */
    method TakeReady(ghost plain: Bytes) returns (ready: seq<WaitingRead>)
      requires Valid(plain)
      modifies this`pending
      ensures ready == Ready(old(pending), sealedLen) && pending == StillWaiting(old(pending), sealedLen)
      ensures Accounted(Ids(ready)) && (forall r :: r in ready ==> r.position < sealedLen)
      ensures Answers(ready, plain[..sealedLen]) == Answers(old(pending), plain[..sealedLen])
    {
      PartitionKeepsIds(pending, sealedLen);
      PartitionKeepsAnswers(pending, plain[..sealedLen]);
      ready, pending := Partition(pending, sealedLen);
      assert answered + dropped + Ids(ready) + Ids(pending) == answered + dropped + (Ids(ready) + Ids(pending));
    }

    method AnswerThem(ready: seq<WaitingRead>, unreadable: set<nat>, ghost plain: Bytes) returns (failed: bool)
      requires written <= plain && sealedLen <= |written| && (pool.Some? ==> pool.value == plain) && AllRight(given, plain)
      requires Accounted(Ids(ready)) && forall r :: r in ready ==> r.position < sealedLen
      modifies this`answered, this`dropped, this`given
      ensures Valid(plain) && (failed <==> exists r :: r in ready && r.position in unreadable)
      ensures old(given) <= given <= old(given) + Answers(ready, plain[..sealedLen])
      ensures !failed ==> given == old(given) + Answers(ready, plain[..sealedLen]) && dropped == old(dropped)
    {
      ghost var text := plain[..sealedLen];
      assert text == written[..sealedLen];
      AnswersAreRight(ready, plain, sealedLen);
      ghost var told, lost, gave;
      failed, told, lost, gave := AnswerAll(ready, unreadable, text);
      MoreAreRight(given, Answers(ready, text), given + gave, plain);
      Book(Ids(ready), told, lost, gave, plain);
    }

    /** What a step had in its hands was answered or dropped. */
    ghost method Book(held: multiset<ReadId>, told: multiset<ReadId>, lost: multiset<ReadId>, gave: set<Given>, plain: Bytes)
      requires written <= plain && sealedLen <= |written| && (pool.Some? ==> pool.value == plain) && AllRight(given + gave, plain)
      requires Accounted(held) && held == told + lost
      modifies this`answered, this`dropped, this`given
      ensures Valid(plain) && given == old(given) + gave && dropped == old(dropped) + lost
    {
      MovedOn(answered, dropped, held, told, lost, Ids(pending));
      answered, dropped, given := answered + told, dropped + lost, given + gave;
    }

    /** Answers these reads in turn from what is sealed, and stops at one that cannot be read back. */
    method AnswerAll(ready: seq<WaitingRead>, unreadable: set<nat>, ghost text: Bytes)
      returns (failed: bool, ghost told: multiset<ReadId>, ghost lost: multiset<ReadId>, ghost gave: set<Given>)
      requires sealedLen <= |written| && text == written[..sealedLen] && forall r :: r in ready ==> r.position < sealedLen
      ensures failed <==> exists r :: r in ready && r.position in unreadable
      ensures told + lost == Ids(ready) && gave <= Answers(ready, text)
      ensures !failed ==> gave == Answers(ready, text) && lost == multiset{}
    {
      failed, told, lost, gave := false, multiset{}, multiset{}, {};
      var i := 0;
      while i < |ready|
        invariant 0 <= i <= |ready| && forall k :: 0 <= k < i ==> ready[k].position !in unreadable
        invariant told + Ids(ready[i..]) == Ids(ready) && gave + Answers(ready[i..], text) == Answers(ready, text)
      {
        var r := ready[i];
        if r.position in unreadable { return true, told, Ids(ready[i..]), gave; }
        var piece := PieceOf(r.position);
        assert ready[i..][1..] == ready[i + 1..];
        told, gave := told + multiset{r.id}, gave + {Given(r.id, piece)};
        i := i + 1;
      }
    }

    /** What is sealed at this position, at most one piece. */
    method PieceOf(position: nat) returns (piece: SeekPiece)
      requires position < sealedLen <= |written|
      ensures piece == PieceAt(written[..sealedLen], position)
    {
      var to := Min(sealedLen, position + PIECE);
      piece := SeekPiece(position, written[position..to]);
      assert written[..sealedLen][position..to] == written[position..to];
    }

    /** What was written goes into the pool. */
    method Adopt(ghost plain: Bytes)
      requires Valid(plain) && written == plain
      modifies this`pool
      ensures Valid(plain) && pool == Some(written)
    {
      pool := Some(written);
    }

    /** The fetch is over: what is still in the inbox is taken in, then everyone is answered, from the pool if the file is there
        (whether this fetch wrote it or it was there before), and nobody is left. */
    method Finish(end: TransferEnd, late: seq<WaitingRead>, lateWaiters: seq<ReadId>, unreadable: set<nat>, ghost plain: Bytes)
      requires Valid(plain) && (end.Complete? ==> pool.Some?)
      modifies this
      ensures Valid(plain) && pending == [] && waiters == [] && pool == old(pool) && written == old(written)
      ensures asked == old(asked) + Ids(late) && asked == answered + dropped && dropped == old(dropped)
      ensures end.Complete? ==> AllGiven(old(pending) + late, unreadable, given, plain)
      ensures !end.Complete? ==> given == old(given)
      ensures old(given) <= given
    {
      TakeInLate(late, lateWaiters, plain);
      AnswerEveryone(end, unreadable, plain);
    }

    method AnswerEveryone(end: TransferEnd, unreadable: set<nat>, ghost plain: Bytes)
      requires Valid(plain) && (end.Complete? ==> pool.Some?)
      modifies this`pending, this`waiters, this`answered, this`given
      ensures Valid(plain) && pending == [] && waiters == [] && asked == answered + dropped
      ensures if end.Complete? then AllGiven(old(pending), unreadable, given, plain) else given == old(given)
      ensures old(given) <= given
    {
      if end.Complete? { GiveFromPool(unreadable, plain); }
      AnswerTheRest(plain);
    }

    method TakeInLate(late: seq<WaitingRead>, lateWaiters: seq<ReadId>, ghost plain: Bytes)
      requires Valid(plain)
      modifies this`pending, this`asked, this`waiters
      ensures Valid(plain) && pending == old(pending) + late && asked == old(asked) + Ids(late)
    {
      IdsTwice(pending, late);
      asked := asked + Ids(late);
      pending, waiters := pending + late, waiters + lateWaiters;
      assert answered + dropped + (Ids(old(pending)) + Ids(late)) == answered + dropped + Ids(old(pending)) + Ids(late);
    }

    /** Whoever was not given a piece gets the error. */
    method AnswerTheRest(ghost plain: Bytes)
      requires Valid(plain)
      modifies this`pending, this`waiters, this`answered
      ensures Valid(plain) && pending == [] && waiters == [] && asked == answered + dropped
    {
      assert answered + dropped + Ids(pending) == answered + Ids(pending) + dropped;
      answered := answered + Ids(pending);
      pending, waiters := [], [];
      assert answered + dropped + multiset{} == answered + dropped;
    }

    /** Each read gets its piece of the whole file, or an error. */
    method GiveFromPool(unreadable: set<nat>, ghost plain: Bytes)
      requires Valid(plain) && pool.Some?
      modifies this`given
      ensures Valid(plain) && AllGiven(pending, unreadable, given, plain) && old(given) <= given
    {
      var file := pool.value;
      var i := 0;
      while i < |pending|
        invariant 0 <= i <= |pending|
        invariant AllRight(given, plain) && old(given) <= given
        invariant forall k :: 0 <= k < i && pending[k].position < |plain| && pending[k].position !in unreadable ==>
                    Given(pending[k].id, PieceAt(plain, pending[k].position)) in given
      {
        var r := pending[i];
        if r.position < |file| && r.position !in unreadable {
          given := given + {Given(r.id, SeekPiece(r.position, file[r.position..Min(|file|, r.position + PIECE)]))};
        }
        i := i + 1;
      }
    }

    method TakeInput(input: Input, unreadable: set<nat>, ghost plain: Bytes) returns (over: Option<TransferEnd>)
      requires Valid(plain) && FitsNow(input, written, sealedLen, plain)
      modifies this
      ensures Valid(plain) && asked == old(asked) + ReadOf(input)
      ensures (over.Some? ==> !over.value.Complete?) && pool == old(pool)
      ensures written == if input.Piece? then old(written) + input.bytes else old(written)
      ensures sealedLen == if input.Piece? then input.sealedLen else old(sealedLen)
      ensures old(given) <= given
      ensures over.Some? ==> input.Cancel? || exists r :: (r in old(pending) || input == Read(r)) && r.position in unreadable
      ensures over.None? ==> forall r :: r in old(pending) || input == Read(r) ==> r in pending || IsServed(given, r)
      ensures over.None? ==> forall r :: r in pending ==> r in old(pending) || input == Read(r)
    {
      var failed := false;
      over := None;
      ghost var waited := if input.Read? then pending + [input.read] else pending;
      assert forall r :: r in waited <==> r in pending || input == Read(r);
      match input {
        case Piece(bytes, sealedNow) => {
          failed := PieceArrives(bytes, sealedNow, unreadable, plain);
          WaitsOrServed(waited, plain, sealedLen, given);
        }
        case Read(read) => {
          failed := ReadArrives(read, unreadable, plain);
          WaitsOrServed(waited, plain, sealedLen, given);
        }
        case Wait(id) => waiters := waiters + [id];
        case Cancel => over := Some(Cancelled);
      }
      if failed { over := Some(Failed(Io)); }
    }

    /** The whole fetch: everything that comes in turn, until the stream ends, the fetch is cancelled, or something sealed cannot be
        read back; and then the end. With the file there already nothing is fetched and all that comes is taken in at the end. If
        the stream ends whole, the pieces it gave are the file, one after the other; and so is what is in the pool then. Nothing but a
        stream that broke, a cancel or a read that failed keeps the file out of it, and with none of these every GET is served. */
    method Run(already: Option<Bytes>, inputs: seq<Input>, end: StreamEnd, unreadable: set<nat>, ghost plain: Bytes)
      requires Valid(plain) && pool == None && pending == [] && waiters == [] && given == {}
      requires Fits(inputs, written, sealedLen, plain)
      requires already.Some? ==> already.value == plain
      requires end.Whole? ==> written + BytesIn(inputs) == plain
      modifies this
      ensures Valid(plain) && pending == [] && waiters == [] && asked == answered + dropped
      ensures asked == old(asked) + ReadsIn(inputs)
      ensures pool.Some? ==> pool.value == plain && (already.Some? || (end.Whole? && pool.value == written))
      ensures already.Some? || (end.Whole? && !IsTroubled(inputs, unreadable)) ==> pool == Some(plain)
      ensures (already.Some? || end.Whole?) && !IsTroubled(inputs, unreadable) ==>
                forall r :: Read(r) in inputs && r.position < |plain| ==> IsServed(given, r)
    {
      var over: Option<TransferEnd>, rest := None, inputs;
      if already.Some? {
        pool, over := already, Some(Complete);
      } else {
        over, rest := TakeInputs(inputs, end, unreadable, plain);
      }
      if over.None? { over := EndsByItself(end, plain); }
      EndsWith(over.value, inputs, rest, unreadable, plain);
    }

    /** The end, for all that came and what is still in the inbox. */
    method EndsWith(end: TransferEnd, ghost inputs: seq<Input>, rest: seq<Input>, unreadable: set<nat>, ghost plain: Bytes)
      requires Valid(plain) && (end.Complete? ==> pool.Some?)
      requires end.Complete? ==> rest == inputs || (rest == [] && SoFar(inputs, pending, given))
      modifies this
      ensures Valid(plain) && pending == [] && waiters == [] && asked == answered + dropped && pool == old(pool) && written == old(written)
      ensures asked == old(asked) + ReadsIn(rest)
      ensures end.Complete? && !IsTroubled(inputs, unreadable) ==>
                forall r :: Read(r) in inputs && r.position < |plain| ==> IsServed(given, r)
    {
      var late, lateWaiters := Leftover(rest);
      ghost var waiting, before := pending + late, given;
      Finish(end, late, lateWaiters, unreadable, plain);
      if end.Complete? && !IsTroubled(inputs, unreadable) {
        StayServed(before, given);
        assert forall r :: r in late || r in old(pending) ==> r in waiting;
        AllServed(inputs, waiting, unreadable, given, plain);
      }
    }

    /** The stream has ended. */
    method EndsByItself(end: StreamEnd, ghost plain: Bytes) returns (over: Option<TransferEnd>)
      requires Valid(plain) && pool == None && (end.Whole? ==> written == plain)
      modifies this`pool
      ensures Valid(plain) && over.Some? && (over.value.Complete? <==> end.Whole?)
      ensures pool == if end.Whole? then Some(written) else None
    {
      match end {
        case Whole =>
          Adopt(plain);
          over := Some(Complete);
        case Broken(error) => over := Some(Failed(error));
      }
    }

    /** Everything that comes in turn, until it is all there or something ends the fetch. */
    method TakeInputs(inputs: seq<Input>, end: StreamEnd, unreadable: set<nat>, ghost plain: Bytes)
      returns (over: Option<TransferEnd>, rest: seq<Input>)
      requires Valid(plain) && pool == None && pending == [] && Fits(inputs, written, sealedLen, plain)
      requires end.Whole? ==> written + BytesIn(inputs) == plain
      modifies this
      ensures Valid(plain) && pool == None && asked + ReadsIn(rest) == old(asked) + ReadsIn(inputs)
      ensures over.Some? ==> !over.value.Complete? && IsTroubled(inputs, unreadable)
      ensures over.None? ==> rest == [] && (end.Whole? ==> written == plain) && SoFar(inputs, pending, given)
    {
      over, rest := None, inputs;
      ghost var gone: seq<Input> := [];
      while rest != [] && over.None?
        invariant Valid(plain) && pool == None && asked + ReadsIn(rest) == old(asked) + ReadsIn(inputs)
        invariant over.None? ==> Fits(rest, written, sealedLen, plain) && (end.Whole? ==> written + BytesIn(rest) == plain)
        invariant over.Some? ==> !over.value.Complete? && IsTroubled(inputs, unreadable)
        invariant gone + rest == inputs && (over.None? ==> SoFar(gone, pending, given))
        decreases |rest|
      {
        over := TakeNext(gone, rest, unreadable, plain);
        gone, rest := gone + [rest[0]], rest[1..];
      }
    }

    method TakeNext(ghost gone: seq<Input>, rest: seq<Input>, unreadable: set<nat>, ghost plain: Bytes) returns (over: Option<TransferEnd>)
      requires rest != [] && Valid(plain) && pool == None && FitsNow(rest[0], written, sealedLen, plain) && SoFar(gone, pending, given)
      modifies this
      ensures Valid(plain) && pool == None && asked == old(asked) + ReadOf(rest[0])
      ensures written + BytesIn(rest[1..]) == old(written) + BytesIn(rest)
      ensures written == (if rest[0].Piece? then old(written) + rest[0].bytes else old(written))
      ensures sealedLen == if rest[0].Piece? then rest[0].sealedLen else old(sealedLen)
      ensures over.Some? ==> !over.value.Complete? && IsTroubled(gone + rest, unreadable)
      ensures over.None? ==> SoFar(gone + [rest[0]], pending, given)
    {
      ghost var waited, before := pending, given;
      BytesInFirst(written, rest);
      over := TakeInput(rest[0], unreadable, plain);
      if over.Some? { Troubles(gone, rest, waited, before, unreadable); }
      if over.None? { SoFarMore(gone, rest[0], waited, before, pending, given); }
    }
  }

  /** Of the reads that came, each waits or is served, and no other waits. */
  ghost predicate SoFar(gone: seq<Input>, pending: seq<WaitingRead>, given: set<Given>) {
    && (forall r :: Read(r) in gone ==> r in pending || IsServed(given, r))
    && (forall r :: r in pending ==> Read(r) in gone)
  }

  lemma SoFarMore(gone: seq<Input>, input: Input, waited: seq<WaitingRead>, before: set<Given>, pending: seq<WaitingRead>,
      given: set<Given>)
    requires SoFar(gone, waited, before) && before <= given
    requires forall r :: r in waited || input == Read(r) ==> r in pending || IsServed(given, r)
    requires forall r :: r in pending ==> r in waited || input == Read(r)
    ensures SoFar(gone + [input], pending, given)
  {
    StayServed(before, given);
  }

  lemma Troubles(gone: seq<Input>, rest: seq<Input>, waited: seq<WaitingRead>, given: set<Given>, unreadable: set<nat>)
    requires rest != [] && SoFar(gone, waited, given)
    requires rest[0].Cancel? || exists r :: (r in waited || rest[0] == Read(r)) && r.position in unreadable
    ensures IsTroubled(gone + rest, unreadable)
  {
    assert rest[0] in gone + rest;
    if !rest[0].Cancel? {
      var r :| (r in waited || rest[0] == Read(r)) && r.position in unreadable;
      assert Read(r) in gone + rest;
    }
  }

  /** The read was given a piece that begins at its position. */
  ghost predicate IsServed(given: set<Given>, r: WaitingRead) { exists g :: g in given && g.id == r.id && g.piece.start == r.position }

  lemma StayServed(before: set<Given>, given: set<Given>)
    requires before <= given
    ensures forall r :: IsServed(before, r) ==> IsServed(given, r)
  {
  }

  /** The fetch is cancelled, or what a read wants cannot be read. */
  ghost predicate IsTroubled(inputs: seq<Input>, unreadable: set<nat>) {
    Cancel in inputs || exists r :: Read(r) in inputs && r.position in unreadable
  }

  /** A read goes on waiting or is served, and only those waiting before do. */
  lemma {:induction false} WaitsOrServed(pending: seq<WaitingRead>, plain: Bytes, sealedLen: nat, given: set<Given>)
    requires sealedLen <= |plain|
    ensures Answers(pending, plain[..sealedLen]) <= given ==>
              forall r :: r in pending ==> r in StillWaiting(pending, sealedLen) || IsServed(given, r)
    ensures forall r :: r in StillWaiting(pending, sealedLen) || r in Ready(pending, sealedLen) ==> r in pending
  {
    if pending != [] {
      WaitsOrServed(pending[1..], plain, sealedLen, given);
      assert pending == [pending[0]] + pending[1..];
    }
  }

  /** Whoever waited at the end of a complete fetch was given its piece of the whole file. */
  lemma AllServed(inputs: seq<Input>, waiting: seq<WaitingRead>, unreadable: set<nat>, given: set<Given>, plain: Bytes)
    requires !IsTroubled(inputs, unreadable) && AllGiven(waiting, unreadable, given, plain)
    requires forall r :: Read(r) in inputs ==> r in waiting || IsServed(given, r)
    ensures forall r :: Read(r) in inputs && r.position < |plain| ==> IsServed(given, r)
  {
    forall r | Read(r) in inputs && r.position < |plain| ensures IsServed(given, r) {
      if r in waiting { assert Given(r.id, PieceAt(plain, r.position)) in given; }
    }
  }

  /** The bytes of the file among what comes. */
  function BytesIn(inputs: seq<Input>): Bytes {
    if inputs == [] then []
    else if inputs[0].Piece? then inputs[0].bytes + BytesIn(inputs[1..])
    else BytesIn(inputs[1..])
  }

  lemma BytesInFirst(written: Bytes, inputs: seq<Input>)
    requires inputs != []
    ensures written + BytesIn(inputs) == (if inputs[0].Piece? then written + inputs[0].bytes else written) + BytesIn(inputs[1..])
  {
  }

  ghost predicate AllRight(given: set<Given>, plain: Bytes) {
    forall g :: g in given ==> IsRight(g.piece, plain) && 0 < |g.piece.plain| <= PIECE
  }

  lemma MoreAreRight(before: set<Given>, more: set<Given>, after: set<Given>, plain: Bytes)
    requires AllRight(before, plain) && AllRight(more, plain) && after <= before + more
    ensures AllRight(after, plain)
  {
  }

  lemma MovedOn(answered: multiset<ReadId>, dropped: multiset<ReadId>, held: multiset<ReadId>, told: multiset<ReadId>,
      lost: multiset<ReadId>, waiting: multiset<ReadId>)
    requires held == told + lost
    ensures answered + dropped + held + waiting == (answered + told) + (dropped + lost) + waiting
  {
  }

  /** Each of these reads that lies in the file and could be read got its own piece of it. */
  ghost predicate AllGiven(gets: seq<WaitingRead>, unreadable: set<nat>, given: set<Given>, plain: Bytes) {
    forall r :: r in gets && r.position < |plain| && r.position !in unreadable ==> Given(r.id, PieceAt(plain, r.position)) in given
  }

  /** The bytes come in the file's order, and only what was written is sealed. */
  predicate FitsNow(input: Input, written: Bytes, sealedLen: nat, plain: Bytes) {
    input.Piece? ==> written + input.bytes <= plain && sealedLen <= input.sealedLen <= |written + input.bytes|
  }

  predicate Fits(inputs: seq<Input>, written: Bytes, sealedLen: nat, plain: Bytes)
    decreases |inputs|
  {
    inputs == [] ||
    (FitsNow(inputs[0], written, sealedLen, plain) &&
     if inputs[0].Piece? then Fits(inputs[1..], written + inputs[0].bytes, inputs[0].sealedLen, plain)
     else Fits(inputs[1..], written, sealedLen, plain))
  }

  function ReadOf(input: Input): multiset<ReadId> { if input.Read? then multiset{input.read.id} else multiset{} }

  function ReadsIn(inputs: seq<Input>): multiset<ReadId> {
    if inputs == [] then multiset{} else ReadOf(inputs[0]) + ReadsIn(inputs[1..])
  }

  /** What is left in the inbox when the fetch is over: GETs and those who wait. */
  method Leftover(inputs: seq<Input>) returns (gets: seq<WaitingRead>, waiters: seq<ReadId>)
    ensures Ids(gets) == ReadsIn(inputs) && forall r :: Read(r) in inputs ==> r in gets
  {
    gets, waiters := [], [];
    var rest := inputs;
    while rest != []
      invariant Ids(gets) + ReadsIn(rest) == ReadsIn(inputs)
      invariant forall r :: Read(r) in inputs ==> r in gets || Read(r) in rest
      decreases |rest|
    {
      match rest[0] {
        case Read(read) => {
          IdsAppend(gets, read);
          gets := gets + [read];
        }
        case Wait(id) => waiters := waiters + [id];
        case _ =>
      }
      assert rest == [rest[0]] + rest[1..];
      rest := rest[1..];
    }
  }

  ghost function Ids(pending: seq<WaitingRead>): multiset<ReadId> {
    if pending == [] then multiset{} else multiset{pending[0].id} + Ids(pending[1..])
  }

  lemma {:induction false} IdsAppend(pending: seq<WaitingRead>, r: WaitingRead)
    ensures Ids(pending + [r]) == Ids(pending) + multiset{r.id}
  {
    if pending == [] {
      assert [] + [r] == [r] && [r][1..] == [];
    } else {
      assert (pending + [r])[0] == pending[0] && (pending + [r])[1..] == pending[1..] + [r];
      IdsAppend(pending[1..], r);
    }
  }

  lemma {:induction false} IdsTwice(a: seq<WaitingRead>, b: seq<WaitingRead>)
    ensures Ids(a + b) == Ids(a) + Ids(b)
  {
    if a == [] {
      assert a + b == b;
    } else {
      assert (a + b)[0] == a[0] && (a + b)[1..] == a[1..] + b;
      IdsTwice(a[1..], b);
    }
  }

  /** Splits the reads into those that can be answered and those that go on waiting. */
  method Partition(pending: seq<WaitingRead>, sealedLen: nat) returns (ready: seq<WaitingRead>, waiting: seq<WaitingRead>)
    ensures ready == Ready(pending, sealedLen) && waiting == StillWaiting(pending, sealedLen)
    ensures forall r :: r in ready ==> r.position < sealedLen
  {
    ready, waiting := [], [];
    var rest := pending;
    while rest != []
      invariant ready + Ready(rest, sealedLen) == Ready(pending, sealedLen)
      invariant waiting + StillWaiting(rest, sealedLen) == StillWaiting(pending, sealedLen)
      invariant forall r :: r in ready ==> r.position < sealedLen
      decreases |rest|
    {
      var r := rest[0];
      if r.position < sealedLen {
        assert ready + ([r] + Ready(rest[1..], sealedLen)) == (ready + [r]) + Ready(rest[1..], sealedLen);
        ready := ready + [r];
      } else {
        assert waiting + ([r] + StillWaiting(rest[1..], sealedLen)) == (waiting + [r]) + StillWaiting(rest[1..], sealedLen);
        waiting := waiting + [r];
      }
      rest := rest[1..];
    }
    assert ready + [] == ready && waiting + [] == waiting;
  }

  /** The reads whose position is sealed, in order. */
  function Ready(pending: seq<WaitingRead>, sealedLen: nat): seq<WaitingRead> {
    if pending == [] then []
    else if pending[0].position < sealedLen then [pending[0]] + Ready(pending[1..], sealedLen)
    else Ready(pending[1..], sealedLen)
  }

  lemma {:induction false} PartitionKeepsIds(pending: seq<WaitingRead>, sealedLen: nat)
    ensures Ids(pending) == Ids(Ready(pending, sealedLen)) + Ids(StillWaiting(pending, sealedLen))
  {
    if pending != [] {
      PartitionKeepsIds(pending[1..], sealedLen);
      var first := multiset{pending[0].id};
      var ready, waiting := Ready(pending[1..], sealedLen), StillWaiting(pending[1..], sealedLen);
      assert first + (Ids(ready) + Ids(waiting)) == (first + Ids(ready)) + Ids(waiting) == Ids(ready) + (first + Ids(waiting));
      if pending[0].position < sealedLen {
        assert ([pending[0]] + ready)[1..] == ready;
      } else {
        assert ([pending[0]] + waiting)[1..] == waiting;
      }
    }
  }

  lemma {:induction false} PartitionKeepsAnswers(pending: seq<WaitingRead>, text: Bytes)
    ensures Answers(Ready(pending, |text|), text) == Answers(pending, text)
  {
    if pending != [] {
      PartitionKeepsAnswers(pending[1..], text);
      var ready := Ready(pending[1..], |text|);
      assert ([pending[0]] + ready)[1..] == ready;
    }
  }

  /** The reads whose position is not sealed yet, in order. */
  function StillWaiting(pending: seq<WaitingRead>, sealedLen: nat): seq<WaitingRead> {
    if pending == [] then []
    else if pending[0].position < sealedLen then StillWaiting(pending[1..], sealedLen)
    else [pending[0]] + StillWaiting(pending[1..], sealedLen)
  }

  /** The piece a read at `position` gets of the text sealed so far. */
  function PieceAt(text: Bytes, position: nat): SeekPiece { SeekPiece(position, Slice(text, position, PIECE)) }

  /** What the reads whose position is sealed are given, each its own piece. */
  ghost function Answers(pending: seq<WaitingRead>, text: Bytes): set<Given> {
    if pending == [] then {}
    else (if pending[0].position < |text| then {Given(pending[0].id, PieceAt(text, pending[0].position))} else {})
         + Answers(pending[1..], text)
  }

  /** Exactly the sealed reads, each with what the file has at its position. */
  lemma {:induction false} AnswersAre(pending: seq<WaitingRead>, plain: Bytes, sealedLen: nat)
    requires sealedLen <= |plain|
    ensures forall g :: g in Answers(pending, plain[..sealedLen]) <==>
              exists r :: r in pending && r.position < sealedLen && g == Given(r.id, PieceAt(plain[..sealedLen], r.position))
  {
    if pending != [] {
      AnswersAre(pending[1..], plain, sealedLen);
      assert pending == [pending[0]] + pending[1..];
    }
  }

  lemma {:induction false} AnswersAreRight(pending: seq<WaitingRead>, plain: Bytes, sealedLen: nat)
    requires sealedLen <= |plain|
    ensures AllRight(Answers(pending, plain[..sealedLen]), plain)
  {
    if pending != [] {
      AnswersAreRight(pending[1..], plain, sealedLen);
      var position := pending[0].position;
      if position < sealedLen {
        var to := Min(position + PIECE, sealedLen);
        assert plain[..sealedLen][position..to] == plain[position..to];
      }
    }
  }
}
