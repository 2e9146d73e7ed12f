/**
 * The stream framer of PacketManager: a byte stream is a sequence of frames,
 * each a 2-byte unsigned length prefix (read as BitConverter.ToUInt16 does on a
 * little-endian host) followed by that many body bytes.  Incomplete frames are
 * carried to the next call through the leftover buffer.
 */
module Framing {
  import opened Common

  /** The largest length a 2-byte prefix can declare. */
  const MaxFrameLength: nat := 65535

  /** The length declared by the two prefix bytes `lo`, `hi` (little-endian). */
  function ReadLength(lo: byte, hi: byte): (n: nat)
    ensures n <= MaxFrameLength
  {
    lo as nat + 256 * hi as nat
  }

  /** The two prefix bytes that declare length `n`. */
  function LengthPrefix(n: nat): (p: seq<byte>)
    requires n <= MaxFrameLength
    ensures |p| == 2 && ReadLength(p[0], p[1]) == n
  {
    [(n % 256) as byte, (n / 256) as byte]
  }

  /** A packet body that a frame can carry: non-empty and within the prefix's range. */
  predicate ValidBody(p: seq<byte>) {
    1 <= |p| <= MaxFrameLength
  }

  predicate ValidBodies(ps: seq<seq<byte>>) {
    forall i :: 0 <= i < |ps| ==> ValidBody(ps[i])
  }

  /** The byte stream that carries the bodies `ps`, each behind its own length prefix. */
  function Framed(ps: seq<seq<byte>>): (s: seq<byte>)
    requires ValidBodies(ps)
  {
    if ps == [] then [] else LengthPrefix(|ps[0]|) + ps[0] + Framed(ps[1..])
  }

  /**
   * What one pass of ByteArrayToPackets yields over a working buffer:
   *  - `packets`: the bodies emitted, in stream order;
   *  - `leftover`: what was written through the `ref leftover` parameter, if anything;
   *  - `residual`: the unread bytes at the point where parsing stopped.
   */
  datatype Parsed = Parsed(packets: seq<seq<byte>>, leftover: Option<seq<byte>>, residual: seq<byte>)

  /** Parsing stopped because the next prefix declared length 0. */
  predicate ZeroStop(r: Parsed) {
    |r.residual| >= 2 && ReadLength(r.residual[0], r.residual[1]) == 0
  }

  /**
   * How a pass may end: fewer than 2 unread bytes and nothing written; a zero
   * prefix and nothing written; or an incomplete frame, whose unread bytes,
   * prefix included, are written as the leftover.
   */
  predicate StoppedCorrectly(r: Parsed) {
    || (|r.residual| < 2 && r.leftover == None)
    || (ZeroStop(r) && r.leftover == None)
    || (|r.residual| >= 2 && 0 < ReadLength(r.residual[0], r.residual[1])
        && |r.residual| - 2 < ReadLength(r.residual[0], r.residual[1])
        && r.leftover == Some(r.residual))
  }

  /**
   * The specification of ByteArrayToPackets (PacketManager.cs, lines 409-462),
   * from read index `i` on.
   */
  function ParseFrom(data: seq<byte>, i: nat): (r: Parsed)
    requires i <= |data|
    decreases |data| - i
  {
    if |data| - i < 2 then Parsed([], None, data[i..])
    else
      var n := ReadLength(data[i], data[i + 1]);
      if n == 0 then Parsed([], None, data[i..])
      else if |data| - (i + 2) < n then Parsed([], Some(data[i..]), data[i..])
      else
        var rest := ParseFrom(data, i + 2 + n);
        rest.(packets := [data[i + 2..i + 2 + n]] + rest.packets)
  }

  function Parse(data: seq<byte>): Parsed {
    ParseFrom(data, 0)
  }

  /** The bytes a leftover holds; a null leftover holds none. */
  function Pending(leftover: Option<seq<byte>>): seq<byte> {
    if leftover.Some? then leftover.value else []
  }

  /** The packets of one HandleReceivedData call and the leftover it leaves behind. */
  datatype Received = Received(packets: seq<seq<byte>>, leftover: Option<seq<byte>>)

  /**
   * The specification of HandleReceivedData (lines 385-407): a non-empty leftover
   * is placed in front of the chunk and reset to null; the pass over the working
   * buffer may then write a new one.  A null or empty leftover is left as it is
   * unless the pass writes one.
   */
  function Receive(leftover: Option<seq<byte>>, chunk: seq<byte>): (r: Received)
    ensures r.packets == Parse(Pending(leftover) + chunk).packets
    ensures Pending(r.leftover) == Pending(Parse(Pending(leftover) + chunk).leftover)
  {
    var reset := if Pending(leftover) != [] then None else leftover;
    var p := Parse(Pending(leftover) + chunk);
    Received(p.packets, if p.leftover.Some? then p.leftover else reset)
  }

  /** The contents of a C# `byte[]` reference that may be null. */
  function Contents(a: array?<byte>): (r: Option<seq<byte>>)
    reads a
    ensures r.Some? <==> a != null
    ensures a != null ==> r.value == a[..]
  {
    if a == null then None else Some(a[..])
  }

  /** A fresh array holding the `count` bytes of `data` from index `from` on. */
  method CopyRange(data: array<byte>, from: nat, count: nat) returns (copy: array<byte>)
    requires from + count <= data.Length
    ensures fresh(copy) && copy[..] == data[from..from + count]
  {
    copy := new byte[count];
    for i := 0 to count
      invariant forall j :: 0 <= j < i ==> copy[j] == data[from + j]
    {
      copy[i] := data[from + i];
    }
  }

  /**
   * ByteArrayToPackets: walks `data` with a read index; `leftover` is the value
   * of the `ref` parameter on entry and `leftoverOut` its value on return.
   */
  method ByteArrayToPackets(data: array<byte>, leftover: array?<byte>)
    returns (packets: seq<seq<byte>>, leftoverOut: array?<byte>)
    ensures var p := Parse(data[..]);
      && packets == p.packets
      && (p.leftover.Some? ==> Contents(leftoverOut) == p.leftover)
      && (p.leftover.None? ==> leftoverOut == leftover)
    ensures leftoverOut != leftover ==> fresh(leftoverOut)
    ensures Parse(data[..]).leftover.Some? ==> fresh(leftoverOut)
  {
    ghost var all := data[..];
    ghost var whole := Parse(all);
    packets := [];
    leftoverOut := leftover;
    var readIndex := 0;
    while true
      invariant 0 <= readIndex <= data.Length
      invariant whole.packets == packets + ParseFrom(all, readIndex).packets
      invariant whole.leftover == ParseFrom(all, readIndex).leftover
      invariant leftoverOut == leftover
      decreases data.Length - readIndex
    {
      ghost var start := readIndex;
      ghost var here := ParseFrom(all, start);
      var packetLength := 0;
      var unreadDataLength := data.Length - readIndex;
      if unreadDataLength > 1 {
        packetLength := ReadLength(data[readIndex], data[readIndex + 1]);
        readIndex := readIndex + 2;
      }
      if packetLength <= 0 {
        assert here.packets == [] && here.leftover == None;
        break;
      }
      if data.Length - readIndex < packetLength {
        // index 2 bytes earlier, so that the leftover keeps the length prefix
        leftoverOut := CopyRange(data, readIndex - 2, unreadDataLength);
        assert leftoverOut[..] == all[start..];
        assert here.packets == [] && here.leftover == Some(all[start..]);
        break;
      }
      var packetData := CopyRange(data, readIndex, packetLength);
      readIndex := readIndex + packetLength;
      ghost var rest := ParseFrom(all, readIndex);
      assert here.packets == [packetData[..]] + rest.packets && here.leftover == rest.leftover;
      AppendAssociative(packets, [packetData[..]], rest.packets);
      packets := packets + [packetData[..]];
    }
  }

  /**
   * HandleReceivedData: `leftoverData` is the `ref` parameter on entry and
   * `leftoverOut` its value on return.
   */
  method HandleReceivedData(receivedData: array<byte>, leftoverData: array?<byte>)
    returns (packets: seq<seq<byte>>, leftoverOut: array?<byte>)
    ensures packets == Receive(Contents(leftoverData), receivedData[..]).packets
    ensures Contents(leftoverOut) == Receive(Contents(leftoverData), receivedData[..]).leftover
    ensures leftoverOut != null && leftoverOut != leftoverData ==> fresh(leftoverOut)
    ensures Parse(Pending(Contents(leftoverData)) + receivedData[..]).leftover.Some? ==> fresh(leftoverOut)
  {
    ghost var before, chunk := Contents(leftoverData), receivedData[..];
    var currentData := receivedData;
    leftoverOut := leftoverData;
    if leftoverData != null && leftoverData.Length > 0 {
      currentData := new byte[leftoverData.Length + receivedData.Length];
      for i := 0 to leftoverData.Length
        invariant forall j :: 0 <= j < i ==> currentData[j] == leftoverData[j]
      {
        currentData[i] := leftoverData[i];
      }
      for i := 0 to receivedData.Length
        invariant forall j :: 0 <= j < leftoverData.Length ==> currentData[j] == leftoverData[j]
        invariant forall j :: 0 <= j < i ==> currentData[leftoverData.Length + j] == receivedData[j]
      {
        currentData[leftoverData.Length + i] := receivedData[i];
      }
      assert currentData[..] == leftoverData[..] + receivedData[..];
      leftoverOut := null;
    } else {
      assert Pending(before) + chunk == chunk;
    }
    packets, leftoverOut := ByteArrayToPackets(currentData, leftoverOut);
  }
}
