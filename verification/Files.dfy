/** What a file is and how it is cut into chunks: the plain bytes on the server, the chunk size a manifest
    claims, and the arithmetic between byte positions and chunk numbers (download_queue.rs). */
module Files {
  type Bytes = seq<bv8>
  datatype Mxc = Mxc(number: int)

  const U32_MAX: nat := 0xFFFF_FFFF

  /** The file an mxc names, as its sender cut it. */
  datatype ServerFile = ServerFile(chunkSize: nat, plain: Bytes)

  /** What a GET or a job says the file is (keys left out). Unverified until `Info` was checked against it. */
  datatype Manifest = Manifest(mxc: Mxc, chunkSize: nat, size: nat)

  predicate Describes(m: Manifest, f: ServerFile) {
    m.chunkSize == f.chunkSize && m.size == |f.plain|
  }

  /** How many chunks a plain text of `size` bytes has; there is no chunk size 0. */
  function ChunkCount(size: nat, chunkSize: nat): nat {
    if size == 0 || chunkSize == 0 then 0
    else if size <= chunkSize then 1
    else 1 + ChunkCount(size - chunkSize, chunkSize)
  }

  /** The reference cut: full chunks from the front, the last one may be short. */
  function Cut(plain: Bytes, chunkSize: nat): seq<Bytes> {
    if plain == [] || chunkSize == 0 then []
    else if |plain| <= chunkSize then [plain]
    else [plain[..chunkSize]] + Cut(plain[chunkSize..], chunkSize)
  }

  function Chunks(f: ServerFile): seq<Bytes> { Cut(f.plain, f.chunkSize) }

  function Concat(chunks: seq<Bytes>): Bytes {
    if chunks == [] then [] else chunks[0] + Concat(chunks[1..])
  }

  function Min(a: int, b: int): int { if a < b then a else b }

  lemma {:induction false} CutCount(plain: Bytes, chunkSize: nat)
    ensures |Cut(plain, chunkSize)| == ChunkCount(|plain|, chunkSize)
    decreases |plain|
  {
    if plain != [] && chunkSize != 0 && |plain| > chunkSize {
      CutCount(plain[chunkSize..], chunkSize);
    }
  }

  /** Putting the chunks back together gives the file. */
  lemma {:induction false} CutConcat(plain: Bytes, chunkSize: nat)
    requires chunkSize > 0
    ensures Concat(Cut(plain, chunkSize)) == plain
    decreases |plain|
  {
    if |plain| > chunkSize {
      var rest := plain[chunkSize..];
      CutConcat(rest, chunkSize);
      var cut := Cut(plain, chunkSize);
      assert cut[0] == plain[..chunkSize] && cut[1..] == Cut(rest, chunkSize);
      assert plain == plain[..chunkSize] + rest;
    } else if plain != [] {
      var cut := Cut(plain, chunkSize);
      assert cut == [plain] && cut[1..] == [];
      assert Concat(cut) == plain + [];
    }
  }

  lemma {:induction false} ConcatAppend(chunks: seq<Bytes>, last: Bytes)
    ensures Concat(chunks + [last]) == Concat(chunks) + last
  {
    if chunks == [] {
      assert chunks + [last] == [last] && [last][1..] == [];
      assert Concat([last]) == last + [];
    } else {
      ConcatAppend(chunks[1..], last);
      assert (chunks + [last])[1..] == chunks[1..] + [last];
      assert (chunks + [last])[0] == chunks[0];
    }
  }

  /** Where chunk `index` begins. */
  function ChunkStart(index: nat, chunkSize: nat): nat { index * chunkSize }

  datatype Position = Index(index: nat) | NoChunk

  /** Which chunk covers a byte position: none when the chunk size is 0 or the number does not fit u32. */
  function ChunkIndexAt(position: nat, chunkSize: nat): Position {
    if chunkSize == 0 then NoChunk
    else if position / chunkSize > U32_MAX then NoChunk
    else Index(position / chunkSize)
  }

  lemma StartOfNext(index: nat, chunkSize: nat)
    requires index > 0
    ensures ChunkStart(index, chunkSize) == ChunkStart(index - 1, chunkSize) + chunkSize
  {
    assert (index - 1 + 1) * chunkSize == (index - 1) * chunkSize + chunkSize;
  }

  /** Chunk `index` is exactly the slice of the file that starts at `ChunkStart`. */
  lemma {:induction false} CutIsSlice(plain: Bytes, chunkSize: nat, index: nat)
    requires index < |Cut(plain, chunkSize)|
    ensures ChunkStart(index, chunkSize) < |plain|
    ensures var start := ChunkStart(index, chunkSize);
            Cut(plain, chunkSize)[index] == plain[start..Min(start + chunkSize, |plain|)]
    decreases |plain|
  {
    if index > 0 {
      var rest := plain[chunkSize..];
      StartOfNext(index, chunkSize);
      CutIsSlice(rest, chunkSize, index - 1);
      var start := ChunkStart(index - 1, chunkSize);
      var end := Min(start + chunkSize, |rest|);
      assert rest[start..end] == plain[chunkSize + start..chunkSize + end];
    } else {
      assert ChunkStart(0, chunkSize) == 0;
    }
  }

  /** A position inside the file falls in the chunk that `ChunkIndexAt` names, and in no other. */
  lemma IndexCovers(plain: Bytes, chunkSize: nat, position: nat)
    requires position < |plain| && chunkSize > 0 && position / chunkSize <= U32_MAX
    ensures ChunkIndexAt(position, chunkSize) == Index(position / chunkSize)
    ensures position / chunkSize < |Cut(plain, chunkSize)|
    ensures var start := ChunkStart(position / chunkSize, chunkSize);
            start <= position < start + |Cut(plain, chunkSize)[position / chunkSize]|
  {
    var index := position / chunkSize;
    IndexInside(plain, chunkSize, position);
    CutIsSlice(plain, chunkSize, index);
    assert position == index * chunkSize + position % chunkSize;
  }

  lemma {:induction false} IndexInside(plain: Bytes, chunkSize: nat, position: nat)
    requires position < |plain| && chunkSize > 0
    ensures position / chunkSize < |Cut(plain, chunkSize)|
    decreases |plain|
  {
    if |plain| > chunkSize && position >= chunkSize {
      IndexInside(plain[chunkSize..], chunkSize, position - chunkSize);
      DivStep(position, chunkSize);
    } else {
      assert position < chunkSize;
      DivSmall(position, chunkSize);
    }
  }

  lemma DivStep(a: nat, b: nat)
    requires a >= b > 0
    ensures a / b == (a - b) / b + 1
  {
    assert a - b == ((a - b) / b) * b + (a - b) % b;
    assert a == ((a - b) / b + 1) * b + (a - b) % b;
    DivUnique(a, b, (a - b) / b + 1, (a - b) % b);
  }

  lemma DivSmall(a: nat, b: nat)
    requires a < b
    ensures a / b == 0
  {
    DivUnique(a, b, 0, a);
  }

  lemma DivUnique(a: nat, b: nat, quotient: nat, rest: nat)
    requires b > 0 && rest < b && a == quotient * b + rest
    ensures a / b == quotient
  {
    var d := a / b - quotient;
    assert a == (a / b) * b + a % b;
    assert (a / b) * b - quotient * b == d * b;
    assert d >= 1 ==> d * b >= b;
    assert d <= -1 ==> d * b <= 0 - b;
  }
}
