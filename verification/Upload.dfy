/** Sending a file in chunks (attachment_ops.rs): a body of known size can be put again after it was cut off, a stream
    cannot. The server takes only the chunk it wants next. */
module Uploads {
  import opened Files
  import opened Wrappers
  import opened ByteSources

  const MAX_CHUNK_INDEX: nat := 0xFFFF_FFFD

  datatype Ack = Ack(received: nat, truncated: bool, finished: bool)

  /** The server's side of one upload: the chunks it has taken, how much of their bytes it keeps, and the last chunk of a request
      that was cut off, which may still arrive. It may lose the answer after taking a chunk. `unseen`: since the last status a
      late chunk went over the size limit, and nobody was told. `failures` counts the calls that the link did not bring back,
      `sends` the chunks sent. */
  class UploadServer {
    var received: seq<Bytes>
    var stored: Bytes
    var truncated: bool
    var finished: bool
    var late: Option<(nat, Bytes)>
    ghost var unseen: bool
    ghost var failures: nat
    ghost var sends: nat

    constructor ()
      ensures received == [] && stored == [] && !truncated && !finished && late == None && !unseen && failures == 0 && sends == 0
    {
      received, stored, truncated, finished, late, unseen := [], [], false, false, None, false;
      failures, sends := 0, 0;
    }

    /** Everything the server has or may still get is chunk by chunk the cut of `whole`; it keeps all of that until it truncates. */
    ghost predicate Holds(cut: seq<Bytes>)
      reads this
    {
      && received <= cut && (late.Some? ==> late.value.0 < |cut| && late.value.1 == cut[late.value.0])
      && stored <= Concat(received) && (!truncated ==> stored == Concat(received))
    }

    /** A chunk is taken. Over the size limit only the beginning of it is kept, and nothing after it. */
    method Take(plain: Bytes, ghost cut: seq<Bytes>) returns (full: bool)
      requires Holds(cut) && |received| < |cut| && plain == cut[|received|]
      modifies this`received, this`stored, this`truncated
      ensures Holds(cut) && received == old(received) + [plain] && truncated == (old(truncated) || full)
    {
      full := *;
      var kept: nat :| kept <= |plain|;
      ConcatAppend(received, plain);
      received := received + [plain];
      if !truncated { stored := stored + if full then plain[..kept] else plain; }
      truncated := truncated || full;
    }

    /** A chunk of an earlier request arrives after all, or never does. */
    method LateArrives(ghost cut: seq<Bytes>)
      requires Holds(cut)
      modifies this`received, this`stored, this`truncated, this`unseen, this`late
      ensures Holds(cut) && old(received) <= received && finished == old(finished)
      ensures old(late).None? ==> late.None? && received == old(received)
      ensures (old(unseen) ==> unseen) && (old(truncated) ==> truncated) && (truncated ==> old(truncated) || unseen)
      ensures received == old(received) ==> truncated == old(truncated)
    {
      var arrives: bool := *;
      if arrives && late.Some? {
        if late.value.0 == |received| {
          var full := Take(late.value.1, cut);
          unseen := unseen || full;
        }
        late := None;
      }
    }

    method Status(ghost cut: seq<Bytes>) returns (status: Result<Ack, Error>)
      requires Holds(cut)
      modifies this
      ensures Holds(cut) && old(received) <= received && sends == old(sends)
      ensures failures == old(failures) + (if status.Err? then 1 else 0) && (status.Err? ==> status.error == Network)
      ensures old(late).None? ==> late.None? && received == old(received)
      ensures status.Ok? ==> status.value.received == |received| && status.value.truncated == truncated && !unseen
      ensures received == old(received) ==> truncated == old(truncated)
    {
      LateArrives(cut);
      var fails: bool := *;
      if fails { failures := failures + 1; } else { unseen := false; }
      status := if fails then Err(Network) else Ok(Ack(|received|, truncated, finished));
    }

    /** Only the next chunk is taken; any other is refused with the number wanted. */
    method SendChunk(index: nat, plain: Bytes, isLast: bool, ghost cut: seq<Bytes>) returns (sent: Result<Ack, Error>)
      requires Holds(cut) && index < |cut| && plain == cut[index]
      modifies this
      ensures Holds(cut) && old(received) <= received && sends == old(sends) + 1
      ensures sent.Err? ==> sent.error.Network? || sent.error.OutOfOrder?
      ensures failures == old(failures) + if sent.Err? && sent.error.Network? then 1 else 0
      ensures old(late).None? && sent.Ok? ==> late.None?
      ensures old(late).None? && index == |old(received)| ==> !(sent.Err? && sent.error.OutOfOrder?)
      ensures sent.Ok? ==> |received| == index + 1 == sent.value.received && sent.value.finished == finished
      ensures sent.Ok? && sent.value.truncated ==> truncated && finished
      ensures (old(truncated) ==> truncated) && (old(unseen) ==> unseen)
      ensures truncated && (sent.Err? ==> sent.error.OutOfOrder?) ==>
                old(truncated) || unseen || (sent.Ok? && sent.value.truncated)
      ensures sent.Err? && sent.error.OutOfOrder? ==> sent.error.expected == |received| && sent.error.expected != index
    {
      sends := sends + 1;
      LateArrives(cut);
      var cutOff: bool := *;
      if cutOff {
        failures := failures + 1;
        late := Some((index, plain));
        return Err(Network);
      }
      if index != |received| { return Err(OutOfOrder(|received|)); }
      var full := Take(plain, cut);
      finished := finished || isLast || full;
      var answerLost: bool := *;
      if answerLost { failures := failures + 1; }
      sent := if answerLost then Err(Network) else Ok(Ack(index + 1, full, finished));
    }
  }

  /** The number of the chunk the server wants, as far as the client can count. */
  function Wanted(expected: nat): nat { if expected <= U32_MAX then expected else U32_MAX }

  /** So far the body was read and hashed up to the start of chunk `index`. */
  ghost predicate Hashed(body: ByteSource, whole: Bytes, chunkSize: nat, index: nat, hashed: Bytes)
    reads body
  {
    hashed <= whole && |hashed| == Min(index * chunkSize, |whole|) && body.at == |hashed| && body.at <= |body.plain|
  }

  /** The next chunk in full, or an error if the body ends before. */
  method ReadChunkOf(body: ByteSource, size: nat, chunkSize: nat, index: nat, ghost whole: Bytes, ghost hashed: Bytes)
    returns (got: Result<Bytes, Error>)
    requires |whole| == size && chunkSize > 0 && index < |Cut(whole, chunkSize)|
    requires (body.plain <= whole || whole <= body.plain) && Hashed(body, whole, chunkSize, index, hashed)
    modifies body
    ensures got.Ok? ==> got.value == Cut(whole, chunkSize)[index] && Hashed(body, whole, chunkSize, index + 1, hashed + got.value)
    ensures got.Err? ==> if body.failures == old(body.failures) then got.error == Usage && body.plain != whole else got.error == Io
    ensures got.Ok? ==> body.failures == old(body.failures)
    ensures body.failures >= old(body.failures)
  {
    ChunkAt(whole, chunkSize, index);
    var plainLen := Min(chunkSize, size - index * chunkSize);
    got := ReadUpTo(body, plainLen);
    if got.Ok? {
      if |got.value| < plainLen { return Err(Usage); }
      ReadIsChunk(body.plain, whole, |hashed|, plainLen, got.value);
    }
  }

  /** One chunk the server may not have yet. If it has it after all, and later ones with it, those need not be sent either. */
  method PutChunk(server: UploadServer, index: nat, plain: Bytes, isLast: bool, truncated: bool, ghost cut: seq<Bytes>)
    returns (put: Result<(nat, bool), Error>)
    requires server.Holds(cut) && index < |cut| <= MAX_CHUNK_INDEX + 1 && plain == cut[index] && index <= |server.received|
    requires (truncated ==> server.truncated) && (server.truncated ==> truncated || server.unseen)
    modifies server
    ensures server.Holds(cut) && old(server.received) <= server.received && server.sends == old(server.sends) + 1
    ensures put.Ok? ==> index < put.value.0 <= |server.received|
    ensures put.Ok? ==> (put.value.1 ==> server.truncated) && (server.truncated ==> put.value.1 || server.unseen)
    ensures server.failures == old(server.failures) + (if put.Err? then 1 else 0) && (put.Err? ==> put.error == Network)
  {
    var ack := server.SendChunk(index, plain, isLast, cut);
    match ack
    case Ok(a) => put := Ok((a.received, truncated || a.truncated));
    case Err(error) =>
      if error.OutOfOrder? && error.expected > index { return Ok((Wanted(error.expected), truncated)); }
      put := Err(error);
  }

  /** There are chunks of this size, and not too many. */
  predicate IsSendable(size: nat, chunkSize: nat) { chunkSize > 0 && ChunkCount(size, chunkSize) <= MAX_CHUNK_INDEX + 1 }

  /** A body of known size: every chunk is read and hashed, those the server has are not sent again. Ok if and only if the body is
      the one the upload was created for and nothing failed, whatever the server had already; then it has taken every chunk. Any
      other answer names what failed. Never anything but the cut. If it says
      that nothing was truncated, the server keeps the whole file, unless a late chunk of an earlier request went over the size
      limit in the meantime. */
  method SendSizedBody(server: UploadServer, size: nat, chunkSize: nat, body: ByteSource, ghost whole: Bytes)
    returns (sent: Result<bool, Error>, hashed: Bytes)
    requires |whole| == size && server.Holds(Cut(whole, chunkSize))
    requires body.at == 0 && (body.plain <= whole || whole <= body.plain)
    modifies server, body
    ensures server.Holds(Cut(whole, chunkSize)) && old(server.received) <= server.received
    ensures sent.Ok? ==> body.plain == whole && hashed == whole
    ensures sent.Ok? ==> server.received == Cut(whole, chunkSize)
    ensures sent.Ok? && sent.value ==> server.truncated
    ensures sent.Ok? && !sent.value ==> server.stored == whole || server.unseen
    ensures sent.Ok? <==> && IsSendable(size, chunkSize) && body.plain == whole
                          && server.failures == old(server.failures) && body.failures == old(body.failures)
    ensures sent.Err? && sent.error != Usage ==>
              || (sent.error == Network && server.failures > old(server.failures))
              || (sent.error == Io && body.failures > old(body.failures))
    ensures sent.Err? && sent.error == Usage ==> !IsSendable(size, chunkSize) || body.plain != whole
    ensures server.failures >= old(server.failures) && body.failures >= old(body.failures)
    ensures server.sends - old(server.sends) <= |Cut(whole, chunkSize)| - |old(server.received)|
  {
    hashed := [];
    CutCount(whole, chunkSize);
    if chunkSize == 0 || ChunkCount(size, chunkSize) > MAX_CHUNK_INDEX + 1 { return Err(Usage), hashed; }
    ghost var cut := Cut(whole, chunkSize);
    var total := ChunkCount(size, chunkSize);
    var status := server.Status(cut);
    if status.Err? { return Err(status.error), hashed; }
    var nextWanted := status.value.received;
    var truncated := status.value.truncated;
    ghost var had := nextWanted;
    var index := 0;
    while index < total
      invariant 0 <= index <= total == |cut| && Hashed(body, whole, chunkSize, index, hashed)
      invariant server.Holds(cut) && old(server.received) <= server.received
      invariant nextWanted <= |server.received| && index <= |server.received|
      invariant server.failures == old(server.failures) && body.failures == old(body.failures)
      invariant had <= nextWanted && server.sends - old(server.sends) <= if index > had then index - had else 0
      invariant truncated ==> server.truncated
      invariant server.truncated ==> truncated || server.unseen
    {
      var got := ReadChunkOf(body, size, chunkSize, index, whole, hashed);
      if got.Err? { return Err(got.error), hashed; }
      var plain := got.value;
      hashed := hashed + plain;
      if index >= nextWanted {
        var put := PutChunk(server, index, plain, index + 1 == total, truncated, cut);
        if put.Err? { return Err(put.error), hashed; }
        nextWanted, truncated := put.value.0, put.value.1;
      }
      index := index + 1;
    }
    TotalCovers(size, chunkSize);
    var oneMore := body.Read(1);
    if oneMore.Err? { return Err(oneMore.error), hashed; }
    if oneMore.value != [] { return Err(Usage), hashed; }
    CutConcat(whole, chunkSize);
    sent := Ok(truncated);
  }

  /** Any number of requests that were cut off anywhere, then the whole body again: what the server ends up with is what one
      request would have left; and that last request works unless something failed in it (`failures`). */
  method PutAgainAndAgain(server: UploadServer, whole: Bytes, chunkSize: nat, cutOffs: seq<nat>)
    returns (sent: Result<bool, Error>, ghost failures: nat)
    requires server.Holds(Cut(whole, chunkSize))
    modifies server
    ensures server.Holds(Cut(whole, chunkSize)) && old(server.received) <= server.received
    ensures sent.Ok? ==> server.received == Cut(whole, chunkSize) && (chunkSize > 0 ==> Concat(server.received) == whole)
    ensures sent.Ok? && !sent.value ==> server.stored == whole || server.unseen
    ensures sent.Ok? <==> IsSendable(|whole|, chunkSize) && failures == 0
  {
    var i := 0;
    while i < |cutOffs|
      invariant server.Holds(Cut(whole, chunkSize)) && old(server.received) <= server.received
    {
      var part := new ByteSource(whole[..Min(cutOffs[i], |whole|)]);
      var _, _ := SendSizedBody(server, |whole|, chunkSize, part, whole);
      i := i + 1;
    }
    var body := new ByteSource(whole);
    ghost var before := server.failures;
    var hashed;
    sent, hashed := SendSizedBody(server, |whole|, chunkSize, body, whole);
    failures := server.failures - before + body.failures;
    if chunkSize > 0 { CutConcat(whole, chunkSize); }
  }

  /** A stream of unknown length: always one chunk in hand, so that the last one can say it is the last. A second attempt is
      refused. Ok: everything sent is the cut of the stream, all of it unless the server ended the upload early. */
  method SendStreamedBody(server: UploadServer, chunkSize: nat, body: ByteSource)
    returns (sent: Result<(nat, bool), Error>, hashed: Bytes)
    requires chunkSize > 0 && body.at == 0
    requires server.Holds(Cut(body.plain, chunkSize))
    modifies server, body
    ensures server.Holds(Cut(body.plain, chunkSize)) && old(server.received) <= server.received
    ensures |old(server.received)| > 0 ==> sent.Err?
    ensures body.plain == [] ==> sent.Err?
    ensures sent.Ok? ==> hashed <= body.plain && sent.value.0 == |hashed| > 0 && hashed == Concat(server.received)
    ensures sent.Ok? ==> server.received == Cut(body.plain, chunkSize) || server.finished
    ensures sent.Ok? && hashed == body.plain ==> server.received == Cut(body.plain, chunkSize)
    ensures sent.Ok? && !sent.value.1 ==> server.stored == hashed || server.unseen || old(server.truncated)
    ensures sent.Ok? ==> server.failures == old(server.failures) && body.failures == old(body.failures)
    ensures && server.failures == old(server.failures) && body.failures == old(body.failures)
            && old(server.received) == [] && old(server.late) == None && body.plain != [] && IsSendable(|body.plain|, chunkSize)
            ==> sent.Ok?
    ensures sent.Err? && sent.error == Network ==> server.failures > old(server.failures)
    ensures sent.Err? && sent.error == Io ==> body.failures > old(body.failures)
  {
    hashed := [];
    ghost var cut := Cut(body.plain, chunkSize);
    var status := server.Status(cut);
    if status.Err? { return Err(status.error), hashed; }
    if status.value.received != 0 { return Err(Usage), hashed; }
    CutCount(body.plain, chunkSize);
    var first := ReadUpTo(body, chunkSize);
    if first.Err? { return Err(first.error), hashed; }
    var pending := first.value;
    if pending == [] { return Err(Usage), hashed; }
    FirstChunk(body.plain, chunkSize);
    var index := 0;
    while true
      invariant InHand(body, chunkSize, index, pending, hashed)
      invariant server.Holds(cut) && |server.received| >= index && old(server.received) <= server.received
      invariant |old(server.received)| == 0 && server.failures == old(server.failures) && body.failures == old(body.failures)
      invariant old(server.late) == None ==> server.late.None? && |server.received| == index
      invariant server.truncated ==> old(server.truncated) || server.unseen
      decreases |cut| - index
    {
      var ahead := ReadAhead(body, chunkSize, index, pending, hashed);
      if ahead.Err? { return Err(ahead.error), hashed; }
      var isLast := ahead.value == [];
      MoreHashed(body.plain, chunkSize, index, hashed, pending);
      hashed := hashed + pending;
      if index > MAX_CHUNK_INDEX { return Err(Usage), hashed; }
      var ack := server.SendChunk(index, pending, isLast, cut);
      if ack.Err? { return Err(ack.error), hashed; }
      assert server.received == cut[..index + 1];
      if isLast || ack.value.finished { return Ok((|hashed|, ack.value.truncated)), hashed; }
      index := index + 1;
      if index > U32_MAX { return Err(Usage), hashed; }
      pending := ahead.value;
    }
  }

  /** Chunk `index` of the stream is in hand, those before it are hashed and gone. */
  ghost predicate InHand(body: ByteSource, chunkSize: nat, index: nat, pending: Bytes, hashed: Bytes)
    reads body
  {
    var cut := Cut(body.plain, chunkSize);
    && index < |cut| && pending == cut[index] && pending != []
    && |hashed| == index * chunkSize && hashed == Concat(cut[..index]) && hashed <= body.plain
    && body.at == |hashed| + |pending| <= |body.plain|
  }

  /** The chunk after the one in hand; empty means the one in hand is the last. */
  method ReadAhead(body: ByteSource, chunkSize: nat, index: nat, pending: Bytes, ghost hashed: Bytes) returns (ahead: Result<Bytes, Error>)
    requires chunkSize > 0 && InHand(body, chunkSize, index, pending, hashed)
    modifies body
    ensures ahead.Ok? ==> (ahead.value == [] <==> index + 1 == |Cut(body.plain, chunkSize)|)
    ensures ahead.Ok? && ahead.value != [] ==> InHand(body, chunkSize, index + 1, ahead.value, hashed + pending)
    ensures body.failures == old(body.failures) + (if ahead.Err? then 1 else 0) && (ahead.Err? ==> ahead.error == Io)
  {
    NextChunk(body.plain, chunkSize, index);
    MoreHashed(body.plain, chunkSize, index, hashed, pending);
    if |pending| < chunkSize { return Ok([]); }
    ahead := ReadUpTo(body, chunkSize);
  }

  // ---- cutting, step by step ----

  /** Chunk `index` is the next `chunkSize` bytes, or what is left. */
  lemma {:induction false} ChunkAt(whole: Bytes, chunkSize: nat, index: nat)
    requires chunkSize > 0 && index < |Cut(whole, chunkSize)|
    ensures index * chunkSize < |whole|
    ensures var len := Min(chunkSize, |whole| - index * chunkSize);
            && 0 < len && Cut(whole, chunkSize)[index] == whole[index * chunkSize..index * chunkSize + len]
            && Min((index + 1) * chunkSize, |whole|) == index * chunkSize + len
  {
    CutIsSlice(whole, chunkSize, index);
    assert (index + 1) * chunkSize == index * chunkSize + chunkSize;
  }

  /** After chunk `index` comes another exactly when bytes are left, and it is the next of them. */
  lemma {:induction false} NextChunk(whole: Bytes, chunkSize: nat, index: nat)
    requires chunkSize > 0 && index < |Cut(whole, chunkSize)|
    ensures var after := index * chunkSize + |Cut(whole, chunkSize)[index]|;
            && |Cut(whole, chunkSize)[index]| <= chunkSize && after <= |whole|
            && (index + 1 < |Cut(whole, chunkSize)| <==> after < |whole|)
            && (index + 1 < |Cut(whole, chunkSize)| ==>
                  |Cut(whole, chunkSize)[index]| == chunkSize
                  && Cut(whole, chunkSize)[index + 1] == whole[after..Min(after + chunkSize, |whole|)])
            && (|Cut(whole, chunkSize)[index]| == chunkSize ==> after == (index + 1) * chunkSize)
  {
    ChunkAt(whole, chunkSize, index);
    assert (index + 1) * chunkSize == index * chunkSize + chunkSize;
    if index + 1 < |Cut(whole, chunkSize)| {
      ChunkAt(whole, chunkSize, index + 1);
    } else {
      CutCount(whole, chunkSize);
      TotalCovers(|whole|, chunkSize);
      assert |Cut(whole, chunkSize)| * chunkSize == index * chunkSize + chunkSize;
    }
  }

  lemma {:induction false} FirstChunk(whole: Bytes, chunkSize: nat)
    requires chunkSize > 0 && whole != []
    ensures |Cut(whole, chunkSize)| > 0 && Cut(whole, chunkSize)[0] == whole[0..Min(chunkSize, |whole|)]
  {
  }

  lemma {:induction false} MoreHashed(whole: Bytes, chunkSize: nat, index: nat, hashed: Bytes, chunk: Bytes)
    requires chunkSize > 0 && index < |Cut(whole, chunkSize)| && chunk == Cut(whole, chunkSize)[index]
    requires hashed == Concat(Cut(whole, chunkSize)[..index]) && |hashed| == index * chunkSize && hashed <= whole
    ensures hashed + chunk == Concat(Cut(whole, chunkSize)[..index + 1]) && hashed + chunk <= whole
  {
    var cut := Cut(whole, chunkSize);
    ChunkAt(whole, chunkSize, index);
    ConcatAppend(cut[..index], chunk);
    assert cut[..index + 1] == cut[..index] + [chunk];
    assert whole[..|hashed|] + whole[|hashed|..|hashed| + |chunk|] == whole[..|hashed| + |chunk|];
  }

  /** What a full read of the next chunk gives is that chunk, also of a body that is cut off or too long. */
  lemma ReadIsChunk(body: Bytes, whole: Bytes, at: nat, len: nat, got: Bytes)
    requires body <= whole || whole <= body
    requires at + len <= |body| && at + len <= |whole| && got == body[at..at + len]
    ensures got == whole[at..at + len] && whole[..at] + got == whole[..at + len]
  {
  }

  /** All chunks together are at least as long as the file. */
  lemma {:induction false} TotalCovers(size: nat, chunkSize: nat)
    requires chunkSize > 0
    ensures ChunkCount(size, chunkSize) * chunkSize >= size
    decreases size
  {
    if size > chunkSize {
      TotalCovers(size - chunkSize, chunkSize);
      assert (1 + ChunkCount(size - chunkSize, chunkSize)) * chunkSize
          == chunkSize + ChunkCount(size - chunkSize, chunkSize) * chunkSize;
    } else if size > 0 {
      assert 1 * chunkSize == chunkSize;
    }
  }
}
