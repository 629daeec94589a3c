/**
 * Framing of one upload data packet (CBD_Api.py, `uploadFile`): the chunk,
 * the 4-byte little-endian file offset, one XOR checksum byte over chunk and
 * offset, and the fixed trailer byte 0x83.
 */
module Packet {
  import opened Wrappers

  /** Bytes read from the file per packet (`readamt`). */
  const ChunkSize: nat := 1280
  /** The last byte of every data packet. */
  const Trailer: bv8 := 0x83
  /** `offs.to_bytes(length=4)` raises OverflowError from this offset on. */
  const OffsetLimit: nat := 0x1_0000_0000

  /** XOR of all bytes of `s`, starting from 0. */
  function XorAll(s: seq<bv8>): bv8 {
    if s == [] then 0 else XorAll(s[..|s| - 1]) ^ s[|s| - 1]
  }

  /** The checksum of a concatenation is the XOR of the two checksums. */
  lemma {:induction false} XorAppend(a: seq<bv8>, b: seq<bv8>)
    ensures XorAll(a + b) == XorAll(a) ^ XorAll(b)
  {
    if b == [] {
      assert a + b == a;
    } else {
      XorAppend(a, b[..|b| - 1]);
      assert (a + b)[..|a + b| - 1] == a + b[..|b| - 1];
    }
  }

  /** `n.to_bytes(length=4, byteorder='little')`: the low byte first. */
  function LE4(n: nat): (b: seq<bv8>)
    requires n < OffsetLimit
    ensures |b| == 4
  {
    var v := n as bv32;
    [(v & 0xFF) as bv8, ((v >> 8) & 0xFF) as bv8, ((v >> 16) & 0xFF) as bv8, (v >> 24) as bv8]
  }

  /** The 32-bit value of four little-endian bytes, as the device reads the offset field. */
  function LE4Bits(b: seq<bv8>): bv32
    requires |b| == 4
  {
    (b[0] as bv32) | ((b[1] as bv32) << 8) | ((b[2] as bv32) << 16) | ((b[3] as bv32) << 24)
  }

  /** The four offset bytes read back as the offset. */
  lemma LE4RoundTrip(n: nat)
    requires n < OffsetLimit
    ensures LE4Bits(LE4(n)) == n as bv32
  {
  }

  /** The data packet for `chunk` at file offset `offs` (CBD_Api.py:244-250). */
  function Frame(chunk: seq<bv8>, offs: nat): seq<bv8>
    requires offs < OffsetLimit
  {
    var dc := LE4(offs);
    chunk + dc + [XorAll(chunk + dc), Trailer]
  }

  /**
   * A packet is `|chunk| + 6` bytes: the chunk, the offset, a checksum that
   * makes the XOR of everything before the trailer zero, and the trailer.
   */
  lemma {:induction false} PacketLayout(chunk: seq<bv8>, offs: nat)
    requires offs < OffsetLimit
    ensures var p := Frame(chunk, offs);
      && |p| == |chunk| + 6
      && p[..|chunk|] == chunk
      && p[|chunk|..|chunk| + 4] == LE4(offs)
      && XorAll(p[..|chunk| + 5]) == 0
      && p[|chunk| + 5] == Trailer
  {
    var p := Frame(chunk, offs);
    var body := chunk + LE4(offs);
    assert p[..|chunk| + 5] == body + [XorAll(body)];
    assert p[..|chunk| + 5][..|body|] == body;
  }

  /** What the device does with a datagram: check trailer and checksum, then split. */
  function Unframe(p: seq<bv8>): Option<(seq<bv8>, bv32)> {
    if |p| < 6 || p[|p| - 1] != Trailer || XorAll(p[..|p| - 1]) != 0 then None
    else Some((p[..|p| - 6], LE4Bits(p[|p| - 6..|p| - 2])))
  }

  /** Unframing a packet gives back the chunk and the offset it was built from. */
  lemma UnframeFrame(chunk: seq<bv8>, offs: nat)
    requires offs < OffsetLimit
    ensures Unframe(Frame(chunk, offs)) == Some((chunk, offs as bv32))
  {
    var p := Frame(chunk, offs);
    PacketLayout(chunk, offs);
    LE4RoundTrip(offs);
    assert p[..|p| - 1] == p[..|chunk| + 5];
    assert p[|p| - 6..|p| - 2] == p[|chunk|..|chunk| + 4];
  }

  /** The two `for c in ...: cxor = cxor ^ c` loops of `uploadFile` (CBD_Api.py:245-247). */
  method Checksum(dd: seq<bv8>, dc: seq<bv8>) returns (cxor: bv8)
    ensures cxor == XorAll(dd + dc)
  {
    cxor := 0;
    for i := 0 to |dd|
      invariant cxor == XorAll(dd[..i])
    {
      assert dd[..i + 1][..i] == dd[..i];
      cxor := cxor ^ dd[i];
    }
    assert dd[..|dd|] == dd;
    for i := 0 to |dc|
      invariant cxor == XorAll(dd) ^ XorAll(dc[..i])
    {
      assert dc[..i + 1][..i] == dc[..i];
      cxor := cxor ^ dc[i];
    }
    assert dc[..|dc|] == dc;
    XorAppend(dd, dc);
  }

  /**
   * Lines 244-250 of `uploadFile`: the offset bytes, the checksum and the two
   * appends. `to_bytes` raises for an offset outside 0 .. 2^32 - 1.
   */
  method BuildPacket(dd: seq<bv8>, offs: int) returns (r: Result<seq<bv8>>)
    ensures 0 <= offs < OffsetLimit ==> r == Ok(Frame(dd, offs))
    ensures !(0 <= offs < OffsetLimit) ==> r == Raised(OverflowError)
  {
    if offs < 0 || offs >= OffsetLimit {
      return Raised(OverflowError);
    }
    var dc := LE4(offs);
    ghost var le := dc;
    var cxor := Checksum(dd, dc);
    dc := dc + [cxor];
    dc := dc + [Trailer];
    assert dd + dc == dd + le + [XorAll(dd + le), Trailer];
    r := Ok(dd + dc);
  }
}
