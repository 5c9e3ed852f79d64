/** A message cut into numbered packets: a header that carries the size, then the
    slices. Packet i (counted from 1) has the id i modulo MAX_PACKET_ID. */
module Packets {
  import opened Modular

  newtype byte = x: int | 0 <= x < 256

  type Bytes = seq<byte>

  datatype Packet = Packet(id: nat, body: Bytes)

  /** (2 << 15) - 1: the code's own value, although its comment says 2**15 - 1. */
  const MAX_PACKET_ID: nat := 65535

  const HEADER_SIZE: nat := 8

  const SIZE_RANGE: nat := 0x1_0000_0000_0000_0000

  // ------------------------------------------------------------- the header

  /** A number written over the bytes of a buffer, lowest byte first. */
  function Encode(n: nat, buffer: Bytes): (b: Bytes)
    ensures |b| == |buffer|
  {
    if buffer == [] then [] else [(n % 256) as byte] + Encode(n / 256, buffer[1..])
  }

  function Zeros(k: nat): (b: Bytes)
    ensures |b| == k
  {
    seq(k, _ => 0)
  }

  /** The header's body: the size over eight zero bytes. */
  function HeaderBody(size: nat): (b: Bytes)
    ensures |b| == HEADER_SIZE
  {
    Encode(size, Zeros(HEADER_SIZE))
  }

  function Decode(b: Bytes): nat {
    if b == [] then 0 else b[0] as nat + 256 * Decode(b[1..])
  }

  function Power256(k: nat): (p: nat)
    ensures p > 0
  {
    if k == 0 then 1 else 256 * Power256(k - 1)
  }

  lemma {:induction false} DecodeEncode(n: nat, buffer: Bytes)
    requires n < Power256(|buffer|)
    ensures Decode(Encode(n, buffer)) == n
  {
    if buffer != [] {
      DecodeEncode(n / 256, buffer[1..]);
      assert Encode(n, buffer)[1..] == Encode(n / 256, buffer[1..]);
    }
  }

  /** A size survives the header. */
  lemma HeaderRoundTrip(n: nat)
    requires n < SIZE_RANGE
    ensures Decode(HeaderBody(n)) == n
  {
    assert Power256(2) == 65536;
    assert Power256(4) == 0x1_0000_0000;
    assert Power256(6) == 0x1_0000_0000_0000;
    assert Power256(8) == SIZE_RANGE;
    DecodeEncode(n, Zeros(HEADER_SIZE));
  }

  // ------------------------------------------------------------- the slices

  /** Data packets needed for a message. */
  function SliceCount(size: nat, packetSize: nat): nat
    requires packetSize > 0
  {
    size / packetSize + if size % packetSize != 0 then 1 else 0
  }

  function Smaller(a: nat, b: nat): nat {
    if a < b then a else b
  }

  /** Slice k, counted from 0; the last one may be short. */
  function Slice(msg: Bytes, packetSize: nat, k: nat): Bytes
    requires k * packetSize <= |msg|
  {
    msg[k * packetSize..Smaller((k + 1) * packetSize, |msg|)]
  }

  lemma SliceBounds(size: nat, packetSize: nat, k: nat)
    requires packetSize > 0 && k < SliceCount(size, packetSize)
    ensures 0 <= k * packetSize < size
    ensures k + 1 < SliceCount(size, packetSize) ==> (k + 1) * packetSize < size
    ensures k + 1 == SliceCount(size, packetSize) ==> size <= (k + 1) * packetSize
  {
    var q, r := size / packetSize, size % packetSize;
    assert size == packetSize * q + r;
    assert 0 <= r < packetSize;
    if k < q {
      MultipleAtLeast(q - k, packetSize);
      assert packetSize * (q - k) == packetSize * q - packetSize * k;
    }
    assert (k + 1) * packetSize == packetSize * k + packetSize;
    if k + 1 < q {
      MultipleAtLeast(q - (k + 1), packetSize);
      assert packetSize * (q - (k + 1)) == packetSize * q - packetSize * (k + 1);
    }
  }

  /** The first n slices of a message, with their ids. */
  function Slices(msg: Bytes, packetSize: nat, n: nat): (ps: seq<Packet>)
    requires packetSize > 0 && n <= SliceCount(|msg|, packetSize)
    ensures |ps| == n
  {
    if n == 0 then [] else
      SliceBounds(|msg|, packetSize, n - 1);
      Slices(msg, packetSize, n - 1) + [Packet((n + 1) % MAX_PACKET_ID, Slice(msg, packetSize, n - 1))]
  }

  /** What packetize leaves in the output buffer, without its dummy element. */
  function Packetized(msg: Bytes, packetSize: nat): (ps: seq<Packet>)
    requires packetSize > 0
    ensures |ps| == 1 + SliceCount(|msg|, packetSize)
  {
    [Packet(1, HeaderBody(|msg|))] + Slices(msg, packetSize, SliceCount(|msg|, packetSize))
  }

  /** What the receiver writes: the bodies one after the other. */
  function Joined(ps: seq<Packet>): Bytes {
    if ps == [] then [] else Joined(ps[..|ps| - 1]) + ps[|ps| - 1].body
  }

  lemma SliceContinues(msg: Bytes, packetSize: nat, k: nat)
    requires 0 <= k * packetSize < |msg|
    ensures msg[..Smaller(k * packetSize, |msg|)] + Slice(msg, packetSize, k)
         == msg[..Smaller((k + 1) * packetSize, |msg|)]
  {
    var start, end := k * packetSize, (k + 1) * packetSize;
    assert end == start + packetSize;
    assert msg[..start] + msg[start..Smaller(end, |msg|)] == msg[..Smaller(end, |msg|)];
  }

  /** The first n slices joined are the message up to where they end. */
  lemma {:induction false} JoinedSlices(msg: Bytes, packetSize: nat, n: nat)
    requires packetSize > 0 && n <= SliceCount(|msg|, packetSize)
    ensures n > 0 ==> (n - 1) * packetSize < |msg|
    ensures Joined(Slices(msg, packetSize, n)) == msg[..Smaller(n * packetSize, |msg|)]
  {
    if n > 0 {
      JoinedSlices(msg, packetSize, n - 1);
      SliceBounds(|msg|, packetSize, n - 1);
      var ps := Slices(msg, packetSize, n);
      assert ps[..n - 1] == Slices(msg, packetSize, n - 1);
      SliceContinues(msg, packetSize, n - 1);
    }
  }

  /** Joining all slices gives the message back. */
  lemma PacketizeRoundTrip(msg: Bytes, packetSize: nat)
    requires packetSize > 0
    ensures Joined(Packetized(msg, packetSize)[1..]) == msg
  {
    var n := SliceCount(|msg|, packetSize);
    JoinedSlices(msg, packetSize, n);
    if n > 0 {
      SliceBounds(|msg|, packetSize, n - 1);
      assert |msg| <= n * packetSize;
    } else {
      assert |msg| == packetSize * (|msg| / packetSize) + |msg| % packetSize;
    }
    assert Packetized(msg, packetSize)[1..] == Slices(msg, packetSize, n);
  }

  lemma {:induction false} SliceAt(msg: Bytes, packetSize: nat, n: nat, k: nat)
    requires packetSize > 0 && k < n <= SliceCount(|msg|, packetSize)
    ensures k * packetSize < |msg|
    ensures Slices(msg, packetSize, n)[k] == Packet((k + 2) % MAX_PACKET_ID, Slice(msg, packetSize, k))
  {
    SliceBounds(|msg|, packetSize, k);
    if k < n - 1 {
      SliceAt(msg, packetSize, n - 1, k);
    }
  }

  /** Every packet carries its number, and data packets are not empty. */
  lemma PacketAt(msg: Bytes, packetSize: nat, i: nat)
    requires packetSize > 0 && 1 <= i <= |Packetized(msg, packetSize)|
    ensures Packetized(msg, packetSize)[i - 1].id == i % MAX_PACKET_ID
    ensures i >= 2 ==> |Packetized(msg, packetSize)[i - 1].body| > 0
  {
    if i >= 2 {
      SliceAt(msg, packetSize, SliceCount(|msg|, packetSize), i - 2);
      SliceBounds(|msg|, packetSize, i - 2);
      assert (i - 1) * packetSize == (i - 2) * packetSize + packetSize;
    }
  }

  /** Sizes of joined bodies, to compare byte counts. */
  lemma {:induction false} JoinedGrows(ps: seq<Packet>, k: nat)
    requires k < |ps| && forall j :: 0 <= j < |ps| ==> |ps[j].body| > 0
    ensures |Joined(ps[..k])| < |Joined(ps)|
  {
    var front := ps[..|ps| - 1];
    if k < |front| {
      JoinedGrows(front, k);
      assert front[..k] == ps[..k];
    } else {
      assert ps[..k] == front;
    }
  }
}
