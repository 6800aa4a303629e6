/** Capturing a script's output stream into a log file of bounded size. */
module LogCapture {
  import opened Artifacts

  /** What one read yields; an empty one is the end of the stream. */
  datatype Read = Data(bytes: Bytes) | Failed

  /** The stream as far as it can be read, and whether reading it ends in a failure. */
  function Stream(pieces: seq<Read>): Bytes {
    if pieces == [] || pieces[0].Failed? || pieces[0].bytes == [] then [] else pieces[0].bytes + Stream(pieces[1..])
  }

  predicate Breaks(pieces: seq<Read>) {
    pieces != [] && (pieces[0].Failed? || (pieces[0].bytes != [] && Breaks(pieces[1..])))
  }

  function Min(a: nat, b: nat): nat {
    if a < b then a else b
  }

  /** The log holds the first `limit` bytes of the stream, and the limit is signaled exactly when there
      are more, whatever sizes the reads come in; a failed read matters only while the limit is not
      exceeded. `room` is how many bytes the file can take before writing to it fails, which ends the
      capture without a signal if it comes first. */
  method CaptureOutput(pieces: seq<Read>, limit: nat, room: nat) returns (log: Bytes, signaled: bool, failed: bool)
    ensures log == Stream(pieces)[..Min(Min(|Stream(pieces)|, limit), room)]
    ensures signaled <==> limit < |Stream(pieces)| && limit <= room
    ensures failed <==> room < Min(|Stream(pieces)|, limit) || (Breaks(pieces) && |Stream(pieces)| <= limit)
  {
    hide Stream, Breaks;
    log, signaled, failed := [], false, false;
    var n := 0;
    ghost var stream := Stream(pieces);
    assert pieces[0..] == pieces;
    while true
      invariant n <= |pieces| && |log| <= limit && |log| <= room && |log| <= |stream|
      invariant log == stream[..|log|] && stream[|log|..] == Stream(pieces[n..])
      invariant Breaks(pieces) == Breaks(pieces[n..])
      decreases |pieces| - n
    {
      FromPiece(pieces, n);
      if n == |pieces| {
        return;
      }
      if pieces[n].Failed? {
        failed := true;
        return;
      }
      var read := pieces[n].bytes;
      if read == [] {
        return;
      }
      var remaining := limit - |log|;
      if remaining == 0 {
        signaled := true;
        return;
      }
      var toWrite := Min(remaining, |read|);
      if room - |log| < toWrite {
        Extends(stream, |log|, read, Stream(pieces[n + 1..]), room - |log|);
        log := log + read[..room - |log|];
        failed := true;
        return;
      }
      Extends(stream, |log|, read, Stream(pieces[n + 1..]), toWrite);
      log := log + read[..toWrite];
      if toWrite < |read| {
        signaled := true;
        return;
      }
      n := n + 1;
    }
  }

  /** Writing part of the next read extends what has been written of the stream. */
  lemma Extends(stream: Bytes, written: nat, read: Bytes, rest: Bytes, k: nat)
    requires written <= |stream| && stream[written..] == read + rest && k <= |read|
    ensures written + k <= written + |read| <= |stream|
    ensures stream[..written] + read[..k] == stream[..written + k]
    ensures k == |read| ==> stream[written + k..] == rest
  {
    assert |stream| - written == |read| + |rest|;
    assert forall i :: 0 <= i < k ==> stream[written + i] == stream[written..][i] == read[i];
    if k == |read| {
      assert forall i :: 0 <= i < |rest| ==> stream[written + k + i] == stream[written..][k + i] == rest[i];
    }
  }

  /** The stream and its failure from the `n`-th piece on. */
  lemma FromPiece(pieces: seq<Read>, n: nat)
    requires n <= |pieces|
    ensures
      var more := n < |pieces| && pieces[n].Data? && pieces[n].bytes != [];
      && Stream(pieces[n..]) == (if more then pieces[n].bytes + Stream(pieces[n + 1..]) else [])
      && Breaks(pieces[n..]) == (if more then Breaks(pieces[n + 1..]) else n < |pieces| && pieces[n].Failed?)
  {
    if n < |pieces| {
      assert pieces[n..][1..] == pieces[n + 1..];
    }
  }

  function Chunked(chunks: seq<Bytes>): seq<Read> {
    seq(|chunks|, i requires 0 <= i < |chunks| => Data(chunks[i]))
  }

  function Flatten(chunks: seq<Bytes>): Bytes {
    if chunks == [] then [] else chunks[0] + Flatten(chunks[1..])
  }

  /** However a stream is cut, its pieces read back as that stream. */
  lemma {:induction false} CuttingIsImmaterial(chunks: seq<Bytes>)
    requires forall i :: 0 <= i < |chunks| ==> chunks[i] != []
    ensures Stream(Chunked(chunks)) == Flatten(chunks) && !Breaks(Chunked(chunks))
  {
    if chunks != [] {
      assert Chunked(chunks)[1..] == Chunked(chunks[1..]);
      CuttingIsImmaterial(chunks[1..]);
    }
  }
}
