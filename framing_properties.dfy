/**
 * What the framer promises: every packet is exactly the bytes its prefix
 * announces, the working buffer is the emitted frames followed by an unread
 * residual, the leftover is always an incomplete frame, and splitting the stream
 * between calls does not change the packets as long as the first call did not
 * stop on a single unread byte or on a zero prefix.
 */
module FramingProperties {
  import opened Common
  import opened Framing

  /** The prefix bytes read back are the prefix bytes written. */
  lemma PrefixRoundTrip(lo: byte, hi: byte)
    ensures LengthPrefix(ReadLength(lo, hi)) == [lo, hi]
  {
    var n := ReadLength(lo, hi);
    assert n == lo as nat + 256 * hi as nat;
    assert n % 256 == lo as nat && n / 256 == hi as nat;
  }

  /** Parsing from read index `i` is parsing the unread suffix. */
  lemma {:induction false} ParseFromSuffix(s: seq<byte>, i: nat)
    requires i <= |s|
    ensures ParseFrom(s, i) == Parse(s[i..])
    decreases |s| - i
  {
    var t := s[i..];
    assert t[0..] == t;
    if |s| - i >= 2 {
      var n := ReadLength(s[i], s[i + 1]);
      assert t[0] == s[i] && t[1] == s[i + 1];
      if n > 0 && |s| - (i + 2) >= n {
        ParseFromSuffix(s, i + 2 + n);
        ParseFromSuffix(t, 2 + n);
        assert t[2 + n..] == s[i + 2 + n..];
        assert t[2..2 + n] == s[i + 2..i + 2 + n];
      }
    }
  }

  /** ValidBodies of a non-empty sequence is ValidBody of its head and ValidBodies of its tail. */
  lemma ValidBodiesCons(ps: seq<seq<byte>>)
    requires ps != []
    ensures ValidBodies(ps) <==> ValidBody(ps[0]) && ValidBodies(ps[1..])
  {
    if ValidBody(ps[0]) && ValidBodies(ps[1..]) {
      forall k | 0 <= k < |ps| ensures ValidBody(ps[k]) {
        if k > 0 { assert ps[k] == ps[1..][k - 1]; }
      }
    }
  }

  /** Parse emits the body of the first frame and then parses what follows it. */
  lemma ParseStep(data: seq<byte>)
    requires |data| >= 2 && 0 < ReadLength(data[0], data[1]) <= |data| - 2
    ensures var n := ReadLength(data[0], data[1]);
      var rest := Parse(data[2 + n..]);
      Parse(data) == rest.(packets := [data[2..2 + n]] + rest.packets)
  {
    ParseFromSuffix(data, 2 + ReadLength(data[0], data[1]));
  }

  /** A pass ends for one of the three reasons of lines 421-443. */
  lemma {:induction false} ParseStops(data: seq<byte>)
    ensures StoppedCorrectly(Parse(data))
    decreases |data|
  {
    assert data[0..] == data;
    if |data| >= 2 && 0 < ReadLength(data[0], data[1]) <= |data| - 2 {
      ParseStep(data);
      ParseStops(data[2 + ReadLength(data[0], data[1])..]);
    }
  }

  /** The bytes of one frame followed by `rest`, regrouped. */
  lemma FrameSplit(data: seq<byte>, ps: seq<seq<byte>>, residual: seq<byte>)
    requires |data| >= 2 && 0 < ReadLength(data[0], data[1]) <= |data| - 2
    requires ValidBodies(ps)
    requires data[2 + ReadLength(data[0], data[1])..] == Framed(ps) + residual
    ensures var body := data[2..2 + ReadLength(data[0], data[1])];
      ValidBodies([body] + ps) && data == Framed([body] + ps) + residual
  {
    var n := ReadLength(data[0], data[1]);
    var body := data[2..2 + n];
    var qs := [body] + ps;
    assert qs[0] == body && qs[1..] == ps;
    ValidBodiesCons(qs);
    PrefixRoundTrip(data[0], data[1]);
    assert data == [data[0], data[1]] + body + data[2 + n..];
    assert Framed(qs) == LengthPrefix(n) + body + Framed(ps);
  }

  /**
   * The working buffer is the frames of the emitted packets, each body exactly
   * as long as its prefix says (1 to 65535 bytes), followed by the unread
   * residual; and the pass stopped for one of the three reasons the code has.
   */
  lemma {:induction false} ParseDecomposes(data: seq<byte>)
    ensures var r := Parse(data);
      && ValidBodies(r.packets)
      && data == Framed(r.packets) + r.residual
      && StoppedCorrectly(r)
    decreases |data|
  {
    ParseStops(data);
    assert data[0..] == data;
    if |data| >= 2 && 0 < ReadLength(data[0], data[1]) <= |data| - 2 {
      var tail := data[2 + ReadLength(data[0], data[1])..];
      ParseStep(data);
      ParseDecomposes(tail);
      FrameSplit(data, Parse(tail).packets, Parse(tail).residual);
    }
  }

  /** A pass over one frame followed by `rest` emits its body and then parses `rest`. */
  lemma ParseFrameHead(body: seq<byte>, rest: seq<byte>)
    requires ValidBody(body)
    ensures Parse(LengthPrefix(|body|) + body + rest) == Parse(rest).(packets := [body] + Parse(rest).packets)
  {
    var n := |body|;
    var x := LengthPrefix(n) + body + rest;
    assert x[0] == LengthPrefix(n)[0] && x[1] == LengthPrefix(n)[1];
    assert x[2..2 + n] == body;
    assert x[2 + n..] == rest;
    ParseFromSuffix(x, 2 + n);
  }

  /** Parsing the frames of `ps` yields `ps` and then whatever `t` yields. */
  lemma {:induction false} ParseFramed(ps: seq<seq<byte>>, t: seq<byte>)
    requires ValidBodies(ps)
    ensures Parse(Framed(ps) + t) == Parse(t).(packets := ps + Parse(t).packets)
  {
    if ps == [] {
      assert Framed(ps) + t == t;
    } else {
      var tail := ps[1..];
      ValidBodiesCons(ps);
      var rest := Framed(tail) + t;
      assert Framed(ps) + t == LengthPrefix(|ps[0]|) + ps[0] + rest by {
        assert Framed(ps) == LengthPrefix(|ps[0]|) + ps[0] + Framed(tail);
      }
      ParseFrameHead(ps[0], rest);
      ParseFramed(tail, t);
      assert [ps[0]] + (tail + Parse(t).packets) == ps + Parse(t).packets by {
        assert ps == [ps[0]] + tail;
      }
    }
  }

  /** Framing the bodies `ps` and parsing the result gives back exactly `ps`. */
  lemma FramedRoundTrip(ps: seq<seq<byte>>)
    requires ValidBodies(ps)
    ensures Parse(Framed(ps)) == Parsed(ps, None, [])
  {
    ParseFramed(ps, []);
    assert Framed(ps) + [] == Framed(ps);
  }

  /** A leftover is always absent, empty, or an incomplete frame with its prefix. */
  predicate PartialFrame(w: seq<byte>) {
    w == [] || (2 <= |w| && 0 < ReadLength(w[0], w[1]) && |w| < ReadLength(w[0], w[1]) + 2)
  }

  /**
   * Whatever any call leaves behind, from any leftover, is empty or holds
   * fewer bytes than the frame it starts; when the call writes it, it starts
   * at that frame's prefix and holds all unread bytes.
   */
  lemma LeftoverIsPartialFrame(leftover: Option<seq<byte>>, chunk: seq<byte>)
    ensures PartialFrame(Pending(Receive(leftover, chunk).leftover))
    ensures Parse(Pending(leftover) + chunk).leftover.Some? ==>
      Receive(leftover, chunk).leftover == Some(Parse(Pending(leftover) + chunk).residual)
  {
    ParseDecomposes(Pending(leftover) + chunk);
  }

  /**
   * Appending bytes after a buffer does not change the packets emitted from
   * its complete frames: the pass continues from the unread residual.
   */
  lemma {:induction false} ParseAppend(a: seq<byte>, b: seq<byte>)
    ensures var r := Parse(Parse(a).residual + b);
      Parse(a + b) == r.(packets := Parse(a).packets + r.packets)
  {
    var ra := Parse(a);
    ParseDecomposes(a);
    assert a + b == Framed(ra.packets) + (ra.residual + b);
    ParseFramed(ra.packets, ra.residual + b);
  }

  /** Parsing stopped at a frame boundary or on an incomplete frame it carried. */
  predicate CleanStop(r: Parsed) {
    r.residual == [] || r.leftover.Some?
  }

  /**
   * Feeding `s1` and then `s2` emits the same packets, and leaves the same
   * bytes pending, as feeding `s1 + s2`, provided the pass over `s1` did not
   * stop on exactly one unread byte or on a zero prefix.
   */
  lemma {:induction false} ChunkSplit(leftover: Option<seq<byte>>, s1: seq<byte>, s2: seq<byte>)
    requires CleanStop(Parse(Pending(leftover) + s1))
    ensures var first := Receive(leftover, s1);
      var second := Receive(first.leftover, s2);
      var whole := Receive(leftover, s1 + s2);
      && first.packets + second.packets == whole.packets
      && Pending(second.leftover) == Pending(whole.leftover)
  {
    var w := Pending(leftover);
    ParseStops(w + s1);
    assert Pending(Receive(leftover, s1).leftover) == Parse(w + s1).residual;
    assert w + (s1 + s2) == (w + s1) + s2;
    ParseAppend(w + s1, s2);
  }
}
