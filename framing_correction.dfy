/**
 * The framer drops a lone unread byte at the end of a pass (lines 419-429 read
 * a prefix only when at least two bytes are unread, and write no leftover
 * otherwise).  When a read boundary falls between the two bytes of a length
 * prefix, the first byte is lost and the stream is misread from then on.  This
 * module exhibits that, and proves that carrying the lone byte as the leftover
 * makes the packets independent of how the stream is cut into chunks.
 */
module FramingCorrection {
  import opened Common
  import opened Framing
  import opened FramingProperties

  /** A 10-byte frame whose 2-byte prefix declares an 8-byte body. */
  const EightByteFrame: seq<byte> := [8, 0, 1, 2, 3, 4, 5, 6, 7, 8]

  /**
   * As written: the frame fed whole yields its body; cut after its first byte,
   * the first call yields nothing and leaves no leftover, and the second call
   * reads `0, 1` as a 256-byte prefix: whatever bytes follow, the first packet
   * it can yield is 256 bytes long, not the 8-byte body.
   */
  lemma SplitPrefixIsLost()
    ensures Receive(None, EightByteFrame).packets == [EightByteFrame[2..]]
    ensures Receive(None, EightByteFrame[..1]) == Received([], None)
    ensures Receive(None, EightByteFrame[1..]).packets == []
    ensures Receive(None, EightByteFrame[1..]).leftover == Some(EightByteFrame[1..])
    ensures forall more :: Receive(None, EightByteFrame[1..] + more).packets == []
                        || |Receive(None, EightByteFrame[1..] + more).packets[0]| == 256
  {
    var f := EightByteFrame;
    assert Pending(None) + f == f;
    assert Pending(None) + f[..1] == f[..1];
    assert Pending(None) + f[1..] == f[1..];
    assert ReadLength(f[0], f[1]) == 8;
    ParseStep(f);
    assert f[10..] == [] && f[2..10] == f[2..];
    assert Parse(f[10..]) == Parsed([], None, []);
    assert Parse(f).packets == [f[2..]];
    assert ReadLength(f[1..][0], f[1..][1]) == 256;
    forall more | true
      ensures Receive(None, f[1..] + more).packets == [] || |Receive(None, f[1..] + more).packets[0]| == 256
    {
      var g := f[1..] + more;
      assert Pending(None) + g == g;
      assert g[0] == 0 && g[1] == 1;
      if 256 <= |g| - 2 {
        ParseStep(g);
      }
    }
  }

  /** The pass of ByteArrayToPackets with the fix: a lone unread byte is written as the leftover. */
  function ParseFixed(data: seq<byte>): (r: Parsed)
    ensures r.packets == Parse(data).packets && r.residual == Parse(data).residual
    ensures |r.residual| == 1 ==> r.leftover == Some(r.residual)
  {
    var p := Parse(data);
    if |p.residual| == 1 then p.(leftover := Some(p.residual)) else p
  }

  /** HandleReceivedData with the fixed pass. */
  function ReceiveFixed(leftover: Option<seq<byte>>, chunk: seq<byte>): (r: Received)
    ensures r.packets == Parse(Pending(leftover) + chunk).packets
  {
    var reset := if Pending(leftover) != [] then None else leftover;
    var p := ParseFixed(Pending(leftover) + chunk);
    Received(p.packets, if p.leftover.Some? then p.leftover else reset)
  }

  /** Feeding the chunks one call after another, carrying the leftover. */
  function ReceiveAllFixed(leftover: Option<seq<byte>>, chunks: seq<seq<byte>>): Received
    decreases |chunks|
  {
    if chunks == [] then Received([], leftover)
    else
      var first := ReceiveFixed(leftover, chunks[0]);
      var rest := ReceiveAllFixed(first.leftover, chunks[1..]);
      Received(first.packets + rest.packets, rest.leftover)
  }

  function Concat(chunks: seq<seq<byte>>): seq<byte>
    decreases |chunks|
  {
    if chunks == [] then [] else chunks[0] + Concat(chunks[1..])
  }

  /** Once a pass stops on a zero prefix, bytes appended later do not restart it. */
  lemma ZeroStopPersists(a: seq<byte>, b: seq<byte>)
    requires ZeroStop(Parse(a))
    ensures ZeroStop(Parse(a + b))
  {
    var res := Parse(a).residual;
    ParseAppend(a, b);
    assert (res + b)[0] == res[0] && (res + b)[1] == res[1];
    assert (res + b)[0..] == res + b;
  }

  /** Unless a pass stops on a zero prefix, the fixed call keeps every unread byte pending. */
  lemma FixedKeepsResidual(leftover: Option<seq<byte>>, chunk: seq<byte>)
    requires !ZeroStop(Parse(Pending(leftover) + chunk))
    ensures Pending(ReceiveFixed(leftover, chunk).leftover) == Parse(Pending(leftover) + chunk).residual
  {
    ParseStops(Pending(leftover) + chunk);
  }

  /**
   * With the fix, feeding a stream in any number of chunks emits what one pass
   * over the whole stream emits, and leaves its unread bytes pending, provided
   * that pass does not stop on a zero prefix.
   */
  lemma {:induction false} FixedFeedMatchesWhole(leftover: Option<seq<byte>>, chunks: seq<seq<byte>>)
    requires chunks != []
    requires !ZeroStop(Parse(Pending(leftover) + Concat(chunks)))
    ensures ReceiveAllFixed(leftover, chunks).packets == Parse(Pending(leftover) + Concat(chunks)).packets
    ensures Pending(ReceiveAllFixed(leftover, chunks).leftover) == Parse(Pending(leftover) + Concat(chunks)).residual
    decreases |chunks|
  {
    var w, c, cs := Pending(leftover), chunks[0], chunks[1..];
    assert w + Concat(chunks) == (w + c) + Concat(cs) by {
      AppendAssociative(w, c, Concat(cs));
    }
    assert !ZeroStop(Parse(w + c)) by {
      if ZeroStop(Parse(w + c)) {
        ZeroStopPersists(w + c, Concat(cs));
      }
    }
    var first := ReceiveFixed(leftover, c);
    assert Pending(first.leftover) == Parse(w + c).residual by {
      FixedKeepsResidual(leftover, c);
    }
    if cs == [] {
      assert (w + c) + Concat(cs) == w + c;
    } else {
      ParseAppend(w + c, Concat(cs));
      FixedFeedMatchesWhole(first.leftover, cs);
    }
  }

  /**
   * With the fix, a stream of valid frames cut into any chunks yields exactly
   * its packets, in order, and nothing is left pending.
   */
  lemma FixedChunkInvariance(ps: seq<seq<byte>>, chunks: seq<seq<byte>>)
    requires ValidBodies(ps)
    requires Concat(chunks) == Framed(ps)
    ensures ReceiveAllFixed(None, chunks).packets == ps
    ensures Pending(ReceiveAllFixed(None, chunks).leftover) == []
  {
    FramedRoundTrip(ps);
    if chunks != [] {
      assert Pending(None) + Concat(chunks) == Framed(ps);
      FixedFeedMatchesWhole(None, chunks);
    }
  }
}
