/** Something bytes are read from: a file of this machine or the body of a request. A read may be short. */
module ByteSources {
  import opened Files
  import opened Wrappers

  /** A read gives at least one byte unless nothing was wanted or the source is at its end, or it fails; `failures` counts those. */
  class ByteSource {
    const plain: Bytes
    var at: nat
    ghost var failures: nat

    constructor (plain: Bytes)
      ensures this.plain == plain && at == 0 && failures == 0
    {
      this.plain, at, failures := plain, 0, 0;
    }

    method SeekTo(position: nat)
      modifies this`at
      ensures at == position
    {
      at := position;
    }

    method Read(want: nat) returns (read: Result<Bytes, Error>)
      modifies this
      ensures read.Err? ==> at == old(at) && read.error == Io
      ensures failures == old(failures) + if read.Err? then 1 else 0
      ensures read.Ok? ==>
                && at == old(at) + |read.value| && |read.value| <= want
                && (read.value == [] <==> want == 0 || old(at) >= |plain|)
                && (read.value != [] ==> at <= |plain| && read.value == plain[old(at)..at])
    {
      var fails: bool := *;
      if fails {
        failures := failures + 1;
        return Err(Io);
      }
      if want == 0 || at >= |plain| { return Ok([]); }
      var n: nat :| 1 <= n <= want && at + n <= |plain|;
      read := Ok(plain[at..at + n]);
      at := at + n;
    }
  }

  /** Short reads are put together until `want` bytes are there or the source ends. */
  method ReadUpTo(source: ByteSource, want: nat) returns (got: Result<Bytes, Error>)
    modifies source
    ensures old(source.at) <= source.at
    ensures got.Ok? ==> source.at == old(source.at) + |got.value| && |got.value| <= want
    ensures got.Ok? ==> got.value == if old(source.at) >= |source.plain| then []
                                     else source.plain[old(source.at)..Min(old(source.at) + want, |source.plain|)]
    ensures old(source.at) <= |source.plain| ==> source.at <= |source.plain|
    ensures got.Err? ==> got.error == Io
    ensures source.failures == old(source.failures) + if got.Err? then 1 else 0
  {
    var filled: Bytes := [];
    ghost var from := source.at;
    while |filled| < want
      invariant |filled| <= want && source.at == from + |filled| && source.failures == old(source.failures)
      invariant filled != [] ==> source.at <= |source.plain| && filled == source.plain[from..source.at]
      decreases want - |filled|
    {
      var read := source.Read(want - |filled|);
      if read.Err? { return Err(read.error); }
      if read.value == [] { break; }
      filled := filled + read.value;
    }
    got := Ok(filled);
  }
}
