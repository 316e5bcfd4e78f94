/** The data loops between a connection and a stream. */
module ForwarderLoops {
  import opened Common

  function Flatten(chunks: seq<seq<byte>>): seq<byte> {
    if chunks == [] then [] else Flatten(chunks[..|chunks| - 1]) + chunks[|chunks| - 1]
  }

  function IfNonEmpty(data: seq<byte>): Option<seq<byte>> {
    if data == [] then None else Some(data)
  }

  function NonEmpty(chunks: seq<seq<byte>>): seq<seq<byte>> {
    FilterMap(IfNonEmpty, chunks)
  }

  lemma NonEmptyNext(chunks: seq<seq<byte>>, k: nat)
    requires k < |chunks|
    ensures NonEmpty(chunks[..k + 1]) == NonEmpty(chunks[..k]) + if chunks[k] == [] then [] else [chunks[k]]
  {
    assert chunks[..k + 1] == chunks[..k] + [chunks[k]];
    FilterMapConcat(IfNonEmpty, chunks[..k], [chunks[k]]);
  }

  lemma FlattenPut(chunks: seq<seq<byte>>, chunk: seq<byte>)
    ensures Flatten(chunks + [chunk]) == Flatten(chunks) + chunk
  {
    assert (chunks + [chunk])[..|chunks|] == chunks;
  }

  lemma NonEmptyCount(chunks: seq<seq<byte>>, k: nat)
    requires k <= |chunks|
    ensures |NonEmpty(chunks[..k])| <= |NonEmpty(chunks)|
  {
    assert chunks == chunks[..k] + chunks[k..];
    FilterMapConcat(IfNonEmpty, chunks[..k], chunks[k..]);
  }

  /** Skipping empty messages changes no byte. */
  lemma {:induction false} NonEmptyKeepsBytes(chunks: seq<seq<byte>>)
    ensures Flatten(NonEmpty(chunks)) == Flatten(chunks)
  {
    if chunks != [] {
      var k := |chunks| - 1;
      NonEmptyKeepsBytes(chunks[..k]);
      NonEmptyNext(chunks, k);
      assert chunks[..k + 1] == chunks;
      hide NonEmpty;
      FlattenPut(NonEmpty(chunks[..k]), chunks[k]);
      assert NonEmpty(chunks[..k]) + [] == NonEmpty(chunks[..k]);
      assert Flatten(chunks) == Flatten(chunks[..k]) + chunks[k];
    }
  }

  /** A connection that accepts some more writes and then fails, perhaps in the middle of one. */
  class Conn {
    var writes: seq<seq<byte>>
    var torn: seq<byte>
    var budget: nat
    var tear: nat

    constructor (budget: nat, tear: nat)
      ensures writes == [] && torn == [] && this.budget == budget && this.tear == tear
    {
      writes, torn, this.budget, this.tear := [], [], budget, tear;
    }

    /** Go's contract for Write: all of the data, or an error and less than all of it. */
    method Write(data: seq<byte>) returns (n: nat, err: bool)
      modifies this
      ensures !err ==> n == |data| && writes == old(writes) + [data] && torn == old(torn)
      ensures err ==> n <= |data| && (data != [] ==> n < |data|) && writes == old(writes) && torn == data[..n]
      ensures (err <==> old(budget) == 0) && budget == (if err then 0 else old(budget) - 1) && tear == old(tear)
      ensures err ==> n == if tear < |data| then tear else 0
    {
      if budget > 0 {
        budget := budget - 1;
        writes := writes + [data];
        return |data|, false;
      }
      n := if tear < |data| then tear else 0;
      torn := data[..n];
      err := true;
    }
  }

  /** tcpFwdStream2Conn and udpFwdStream2Conn: every non-empty message is written once, whole and in order. */
  method StreamToConn(messages: seq<seq<byte>>, dst: Conn) returns (taken: nat, err: bool)
    requires dst.torn == []
    modifies dst
    ensures taken <= |messages| && dst.writes == old(dst.writes) + NonEmpty(messages[..taken])
    ensures !err ==> taken == |messages| && dst.torn == []
    ensures err ==> taken < |messages| && messages[taken] != [] && dst.torn < messages[taken]
    ensures err <==> |NonEmpty(messages)| > old(dst.budget)
    ensures err ==> |NonEmpty(messages[..taken])| == old(dst.budget)
    ensures err ==> |dst.torn| == if old(dst.tear) < |messages[taken]| then old(dst.tear) else 0
  {
    taken := 0;
    err := false;
    while taken < |messages|
      invariant taken <= |messages| && !err && dst.torn == []
      invariant dst.writes == old(dst.writes) + NonEmpty(messages[..taken])
      invariant dst.budget + |NonEmpty(messages[..taken])| == old(dst.budget) && dst.tear == old(dst.tear)
    {
      var data := messages[taken];
      var nBytes, nBytesW := |data|, 0;
      NonEmptyNext(messages, taken);
      while nBytesW < nBytes
        invariant nBytesW == 0 || nBytesW == nBytes
        invariant dst.torn == []
        invariant dst.writes == old(dst.writes) + NonEmpty(messages[..taken]) + if nBytesW == 0 then [] else [data]
        invariant dst.budget + |NonEmpty(messages[..taken])| + (if nBytesW == 0 then 0 else 1) == old(dst.budget)
        invariant dst.tear == old(dst.tear)
      {
        var n;
        n, err := dst.Write(data);
        if err {
          NonEmptyCount(messages, taken + 1);
          return;
        }
        nBytesW := nBytesW + n;
      }
      taken := taken + 1;
    }
    assert messages[..taken] == messages;
  }

  lemma PrefixInside(a: seq<byte>, b: seq<byte>, c: seq<byte>, all: seq<byte>)
    requires b <= c && a + c <= all
    ensures a + b <= all
  {
    assert a + c == (a + b) + c[|b|..];
  }

  lemma {:induction false} FlattenPrefix(chunks: seq<seq<byte>>, k: nat)
    requires k <= |chunks|
    ensures Flatten(chunks[..k]) <= Flatten(chunks)
  {
    if k == |chunks| {
      assert chunks[..k] == chunks;
    } else {
      FlattenPrefix(chunks[..|chunks| - 1], k);
      assert chunks[..|chunks| - 1][..k] == chunks[..k];
    }
  }

  /** On a byte stream this delivers a prefix of what was sent, however it was cut into messages. */
  lemma DeliversPrefix(messages: seq<seq<byte>>, taken: nat, torn: seq<byte>)
    requires taken <= |messages| && if taken == |messages| then torn == [] else torn <= messages[taken]
    ensures Flatten(NonEmpty(messages[..taken])) + torn <= Flatten(messages)
  {
    hide NonEmpty, Flatten;
    var before := messages[..taken];
    NonEmptyKeepsBytes(before);
    if taken == |messages| {
      assert before == messages;
    } else {
      FlattenPut(before, messages[taken]);
      assert messages[..taken + 1] == before + [messages[taken]];
      FlattenPrefix(messages, taken + 1);
      PrefixInside(Flatten(before), torn, messages[taken], Flatten(messages));
    }
  }

  function Min(a: nat, b: nat): nat {
    if a < b then a else b
  }

  /** The next read returns as much as it may: what was asked for, the buffer's size, or what is left. */
  function ReadSize(size: nat, limit: nat, left: nat): nat {
    Min(Min(size, limit), left)
  }

  /** The messages that reads of these sizes make of the input. */
  ghost predicate Cut(input: seq<byte>, sizes: seq<nat>, limit: nat, sent: seq<seq<byte>>) {
    |sent| <= |sizes| && Flatten(sent) <= input &&
    forall k :: 0 <= k < |sent| ==>
      |Flatten(sent[..k])| <= |input| && |sent[k]| == ReadSize(sizes[k], limit, |input| - |Flatten(sent[..k])|)
  }

  lemma NothingCut(input: seq<byte>, sizes: seq<nat>, limit: nat)
    ensures Cut(input, sizes, limit, [])
  {}

  lemma CutPut(input: seq<byte>, sizes: seq<nat>, limit: nat, sent: seq<seq<byte>>, data: seq<byte>)
    requires Cut(input, sizes, limit, sent) && |sent| < |sizes| && Flatten(sent) + data <= input
    requires |data| == ReadSize(sizes[|sent|], limit, |input| - |Flatten(sent)|)
    ensures Cut(input, sizes, limit, sent + [data])
  {
    hide Flatten, ReadSize;
    FlattenPut(sent, data);
    var more := sent + [data];
    forall k | 0 <= k < |more|
      ensures |Flatten(more[..k])| <= |input|
      ensures |more[k]| == ReadSize(sizes[k], limit, |input| - |Flatten(more[..k])|)
    {
      assert more[..k] == if k < |sent| then sent[..k] else sent;
      assert sent[..|sent|] == sent;
    }
  }

  /** After k reads that each ask for something, k bytes have been sent, or all there were. */
  lemma {:induction false} ReadsProgress(input: seq<byte>, sizes: seq<nat>, limit: nat, sent: seq<seq<byte>>, k: nat)
    requires Cut(input, sizes, limit, sent) && k <= |sent| && limit > 0 && forall j :: 0 <= j < |sizes| ==> sizes[j] > 0
    ensures |Flatten(sent[..k])| >= Min(k, |input|)
  {
    if k > 0 {
      ReadsProgress(input, sizes, limit, sent, k - 1);
      assert sent[..k] == sent[..k - 1] + [sent[k - 1]];
      FlattenPut(sent[..k - 1], sent[k - 1]);
    }
  }

  /** So nothing is lost: enough reads send the whole input. */
  lemma AllIsSent(input: seq<byte>, sizes: seq<nat>, limit: nat, sent: seq<seq<byte>>)
    requires Cut(input, sizes, limit, sent) && |sent| >= |input|
    requires limit > 0 && forall j :: 0 <= j < |sizes| ==> sizes[j] > 0
    ensures Flatten(sent) == input
  {
    ReadsProgress(input, sizes, limit, sent, |sent|);
    assert sent[..|sent|] == sent;
  }

  /**
   * tcpFwdConn2Stream: read into one reused buffer, send what was read. The reads return as much as
   * `sizes` says, the buffer and the input allow; sending fails from message `sendsOk` on.
   */
  method ConnToStream(input: seq<byte>, sizes: seq<nat>, limit: nat, sendsOk: nat)
      returns (sent: seq<seq<byte>>, consumed: nat)
    ensures consumed <= |input| && Flatten(sent) <= input[..consumed]
    ensures forall k :: 0 <= k < |sent| ==> |sent[k]| <= limit
    ensures |sent| < sendsOk ==> |sent| == |sizes| && Flatten(sent) == input[..consumed]
    ensures |sent| == Min(sendsOk, |sizes|) && Cut(input, sizes, limit, sent)
    ensures consumed == |Flatten(sent)| +
              if |sent| < |sizes| then ReadSize(sizes[|sent|], limit, |input| - |Flatten(sent)|) else 0
  {
    hide Cut;
    NothingCut(input, sizes, limit);
    var buf := new byte[limit](_ => 0);
    sent, consumed := [], 0;
    for k := 0 to |sizes|
      invariant consumed <= |input| && Flatten(sent) == input[..consumed]
      invariant |sent| == k <= sendsOk && Cut(input, sizes, limit, sent)
      invariant forall j :: 0 <= j < |sent| ==> |sent[j]| <= limit
    {
      var left := |input| - consumed;
      var nBytes := if sizes[k] <= limit && sizes[k] <= left then sizes[k] else if limit <= left then limit else left;
      forall j | 0 <= j < nBytes {
        buf[j] := input[consumed + j];
      }
      var data := buf[..nBytes];
      assert data == input[consumed..consumed + nBytes];
      assert input[..consumed] + data == input[..consumed + nBytes];
      consumed := consumed + nBytes;
      if k >= sendsOk {
        return;
      }
      FlattenPut(sent, data);
      CutPut(input, sizes, limit, sent, data);
      sent := sent + [data];
    }
  }
}
