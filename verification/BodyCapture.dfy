/**
 * Capturing a body for inspection and putting it back (readAndRestore, internal/mitmproxy/proxy.go).
 * A body is a stream that may never end; whoever reads it later must see what was there before.
 */
module BodyCapture {

  import opened Basics

  /** What a reader meets at one position: a byte, the end, or an error. */
  datatype Item = Byte(b: nat) | Eof | Fail

  type Stream = nat -> Item

  /** A reader gets past bytes only; up to and including the first other item, f and g agree. */
  ghost predicate SameStream(f: Stream, g: Stream) {
    forall j: nat :: (forall i: nat :: i < j ==> f(i).Byte?) ==> f(j) == g(j)
  }

  /** The stream holds exactly these bytes and then ends without an error. */
  ghost predicate Holds(f: Stream, data: seq<nat>) {
    && f(|data|) == Eof
    && forall i: nat :: i < |data| ==> f(i) == Byte(data[i])
  }

  /** f starts with these bytes. */
  ghost predicate StartsWith(f: Stream, data: seq<nat>) {
    forall i: nat :: i < |data| ==> f(i) == Byte(data[i])
  }

  /** The io.ReadCloser of a request or response. */
  class Reader {
    const at: Stream
    var pos: nat
    var closed: bool

    constructor (at: Stream)
      ensures this.at == at && pos == 0 && !closed
    {
      this.at, pos, closed := at, 0, false;
    }

    /** What is still to be read. */
    ghost function Rest(): Stream
      reads this
    {
      var p := pos;
      (j: nat) => at(p + j)
    }

    /**
     * Delivers as many bytes as it likes, but at least one if there is one. An error may be
     * reported together with the last bytes before it or by the next read.
     */
    method Read(max: nat) returns (chunk: seq<nat>, failed: bool)
      requires max > 0
      modifies this`pos
      ensures |chunk| <= max && pos == old(pos) + |chunk|
      ensures forall i: nat :: i < |chunk| ==> at(old(pos) + i) == Byte(chunk[i])
      ensures chunk == [] ==> !at(pos).Byte? && (failed <==> at(pos) == Fail)
      ensures failed ==> at(pos) == Fail
    {
      chunk := [];
      while |chunk| < max && at(pos).Byte?
        invariant |chunk| <= max && pos == old(pos) + |chunk|
        invariant forall i: nat :: i < |chunk| ==> at(old(pos) + i) == Byte(chunk[i])
      {
        chunk := chunk + [at(pos).b];
        pos := pos + 1;
        if * {
          break;
        }
      }
      var early: bool := *;
      failed := at(pos) == Fail && (chunk == [] || early);
    }
  }

  /** io.ReadAll(io.LimitReader(r, n)); a limit of zero or less reads as empty. */
  method ReadAllLimited(r: Reader, n: int) returns (data: seq<nat>, failed: bool)
    modifies r`pos
    ensures r.pos == old(r.pos) + |data| && (|data| <= n || data == [])
    ensures forall i: nat :: i < |data| ==> r.at(old(r.pos) + i) == Byte(data[i])
    ensures failed ==> n > 0 && r.at(r.pos) == Fail
    ensures !failed ==> |data| >= n || r.at(r.pos) == Eof
  {
    data := [];
    while |data| < n
      invariant r.pos == old(r.pos) + |data| && (|data| <= n || data == [])
      invariant forall i: nat :: i < |data| ==> r.at(old(r.pos) + i) == Byte(data[i])
    {
      ghost var start := r.pos;
      var chunk, stopped := r.Read(n - |data|);
      assert forall i: nat :: i < |chunk| ==> r.at(start + i) == Byte(chunk[i]);
      data := data + chunk;
      if chunk == [] || stopped {
        return data, stopped;
      }
    }
    failed := false;
  }

  /** What the request or response carries afterwards. */
  datatype Body =
    | Restored(prefix: seq<nat>, original: Reader)  // the prefix, then the original; closing closes the original
    | Buffered(data: seq<nat>)                      // the captured bytes; closing does nothing

  /** What whoever reads the body afterwards will see. */
  ghost function Later(body: Body): Stream
    reads if body.Restored? then {body.original} else {}
  {
    match body
    case Restored(prefix, original) =>
      var rest := original.Rest();
      (j: nat) => if j < |prefix| then Byte(prefix[j]) else rest(j - |prefix|)
    case Buffered(data) =>
      (j: nat) => if j < |data| then Byte(data[j]) else Eof
  }

  /** limit + 1 as Go computes it on int64. */
  function Increment(limit: int): int {
    if limit == MAX_INT64 then MIN_INT64 else limit + 1
  }

  datatype Capture = Capture(data: seq<nat>, complete: bool, failed: bool)

  /** A stream that starts with more than n bytes, or with bytes and then an error, does not end within n. */
  lemma EndsElsewhere(f: Stream, start: seq<nat>, n: int)
    requires StartsWith(f, start) && (|start| > n || f(|start|) == Fail)
    ensures forall data: seq<nat> :: |data| <= n ==> !Holds(f, data)
  {
  }

  /** Captured bytes stand for the stream they came from exactly when it ends after them. */
  lemma BufferedAgrees(f: Stream, g: Stream, data: seq<nat>)
    requires StartsWith(f, data) && Holds(g, data)
    requires forall j: nat :: j > |data| ==> g(j) == Eof
    ensures SameStream(f, g) <==> f(|data|) == Eof
  {
    var end: nat := |data|;
    assert SameStream(f, g) ==> f(end) == g(end);
    if f(end) == Eof {
      forall j: nat | forall i: nat :: i < j ==> f(i).Byte?
        ensures f(j) == g(j)
      {
        assert end < j ==> f(end).Byte?;
      }
    }
  }

  /**
   * On every path the body reads later as it would have read before, unless the limit is the largest
   * int64: then limit + 1 wraps around, nothing is read, and whatever the body held is replaced by an
   * empty body that is reported as complete.
   */
  method ReadAndRestore(original: Reader, limit: int, closeFails: bool) returns (c: Capture, body: Body)
    requires MIN_INT64 <= limit <= MAX_INT64
    modifies original
    ensures SameStream(old(original.Rest()), Later(body)) <==> limit < MAX_INT64 || old(original.Rest())(0) == Eof
    ensures c.complete ==> |c.data| <= limit && !closeFails
    ensures c.complete && limit < MAX_INT64 ==> Holds(old(original.Rest()), c.data)
    ensures !c.complete && !closeFails ==> forall data: seq<nat> :: |data| <= limit ==>
            !Holds(old(original.Rest()), data)
    ensures !c.complete ==> c.data == []
    ensures c.failed ==>
              && !c.complete
              && (closeFails
                  || exists start :: StartsWith(old(original.Rest()), start) && old(original.Rest())(|start|) == Fail)
    ensures !c.complete && !c.failed ==> exists start :: |start| > limit && StartsWith(old(original.Rest()), start)
    ensures body.Buffered? ==> original.closed
    ensures body.Restored? ==> body.original == original && original.closed == old(original.closed)
  {
    ghost var before := original.Rest();
    var data, failed := ReadAllLimited(original, Increment(limit));
    assert StartsWith(before, data);
    assert before(|data|) == original.at(original.pos);
    if failed {
      EndsElsewhere(before, data, limit);
      body := Restored(data, original);
      return Capture([], false, true), body;
    }
    if |data| > limit {
      EndsElsewhere(before, data, limit);
      body := Restored(data, original);
      return Capture([], false, false), body;
    }
    body := Buffered(data);
    original.closed := true;
    BufferedAgrees(before, Later(body), data);
    assert limit == MAX_INT64 ==> data == [];
    c := if closeFails then Capture([], false, true) else Capture(data, true, false);
  }
}
