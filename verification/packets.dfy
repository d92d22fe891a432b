/**
 * The two wire formats the chair accepts.  Both carry the six axes as
 * 4-byte float encodings in the order pitch, roll, yaw, sway, surge, heave.
 * The float encoding (`BitConverter.GetBytes(float)`: IEEE-754 bits in host
 * byte order) is a parameter `floatBytes`; nothing here depends on its bits.
 */
module Packets {
  import opened Motion

  newtype byte = b: int | 0 <= b < 256

  /** What `BitConverter.GetBytes(float)` returns: exactly four bytes. */
  type Bytes4 = s: seq<byte> | |s| == 4 witness [0, 0, 0, 0]

  const StandardHeader: seq<byte> := [0xEB, 0x90, 0x01, 0x0A]
  const AltHeader: seq<byte> := [0xEB, 0x90, 0x02, 0x7B]
  const AltTrailer: seq<byte> := [0x0A, 0x0A, 0x0A, 0xFF]
  const StandardLength: nat := 32
  const AltLength: nat := 123

  /** Offset of the first axis encoding in each format. */
  const StandardAxisOffset: nat := 4
  const AltAxisOffset: nat := 16

  function Zeros(n: nat): (z: seq<byte>)
    ensures |z| == n && forall i :: 0 <= i < n ==> z[i] == 0
  {
    seq(n, _ => 0)
  }

  /** The six axis encodings back to back, in wire order. */
  function AxisBlock(p: Pose, floatBytes: real -> Bytes4): seq<byte>
  {
    floatBytes(p.pitch) + floatBytes(p.roll) + floatBytes(p.yaw)
    + floatBytes(p.sway) + floatBytes(p.surge) + floatBytes(p.heave)
  }

  /** The bytes 40-51 of the alternative format: 00 00 80 3F, three times. */
  const AltMarkers: seq<byte> := [0, 0, 0x80, 0x3F, 0, 0, 0x80, 0x3F, 0, 0, 0x80, 0x3F]

  /** The marker run follows the encoder's rule: 0x3F where the offset is 3 mod 4, 0x80 where it is 2 mod 4. */
  lemma MarkerRule(r: int)
    requires 0 <= r < 12
    ensures AltMarkers[r] == if r % 4 == 3 then 0x3F else if r % 4 == 2 then 0x80 else 0
  {
    if r < 4 {} else if r < 8 { assert r % 4 == r - 4; } else { assert r % 4 == r - 8; }
  }

  /** The EB 90 01 packet as a wire layout: header, axes, four reserved zero bytes. */
  function StandardPacket(p: Pose, floatBytes: real -> Bytes4): seq<byte>
  {
    StandardHeader + AxisBlock(p, floatBytes) + Zeros(4)
  }

  /**
   * The EB 90 02 packet as a wire layout: header, twelve zero bytes, axes,
   * the marker run, sixty-seven zero bytes and the trailer.
   */
  function AltPacket(p: Pose, floatBytes: real -> Bytes4): seq<byte>
  {
    AltHeader + Zeros(12) + AxisBlock(p, floatBytes) + AltMarkers + Zeros(67) + AltTrailer
  }

  /** The packet sent for a pose: EB 90 02 exactly when the alternative protocol is selected. */
  function PacketFor(p: Pose, useAltProtocol: bool, floatBytes: real -> Bytes4): seq<byte>
  {
    if useAltProtocol then AltPacket(p, floatBytes) else StandardPacket(p, floatBytes)
  }

  /** Byte `r` of the axis block: byte r mod 4 of the axis in slot r div 4. */
  function SlotByte(p: Pose, floatBytes: real -> Bytes4, r: int): byte
    requires 0 <= r < 24
  {
    if r < 4 then floatBytes(p.pitch)[r]
    else if r < 8 then floatBytes(p.roll)[r - 4]
    else if r < 12 then floatBytes(p.yaw)[r - 8]
    else if r < 16 then floatBytes(p.sway)[r - 12]
    else if r < 20 then floatBytes(p.surge)[r - 16]
    else floatBytes(p.heave)[r - 20]
  }

  /** Byte `i` of an EB 90 01 packet, stated index by index. */
  function StandardByte(p: Pose, floatBytes: real -> Bytes4, i: int): byte
    requires 0 <= i < StandardLength
  {
    if i < 4 then StandardHeader[i]
    else if i < 28 then SlotByte(p, floatBytes, i - StandardAxisOffset)
    else 0
  }

  /** Byte `i` of an EB 90 02 packet, stated index by index. */
  function AltByte(p: Pose, floatBytes: real -> Bytes4, i: int): byte
    requires 0 <= i < AltLength
  {
    if i < 4 then AltHeader[i]
    else if 16 <= i < 40 then SlotByte(p, floatBytes, i - AltAxisOffset)
    else if 40 <= i < 52 && (i - 40) % 4 == 3 then 0x3F
    else if 40 <= i < 52 && (i - 40) % 4 == 2 then 0x80
    else if 119 <= i then AltTrailer[i - 119]
    else 0
  }

  /** The axis block is 24 bytes and its byte r is slot byte r. */
  lemma AxisBlockLayout(p: Pose, floatBytes: real -> Bytes4)
    ensures |AxisBlock(p, floatBytes)| == 24
    ensures forall r :: 0 <= r < 24 ==> AxisBlock(p, floatBytes)[r] == SlotByte(p, floatBytes, r)
  {
  }

  /**
   * The EB 90 01 layout agrees with the byte-by-byte description: 32 bytes,
   * header EB 90 01 0A, the six axis encodings at 4..27, zeros at 28..31.
   */
  lemma StandardLayout(p: Pose, floatBytes: real -> Bytes4)
    ensures |StandardPacket(p, floatBytes)| == StandardLength
    ensures forall i :: 0 <= i < StandardLength ==> StandardPacket(p, floatBytes)[i] == StandardByte(p, floatBytes, i)
  {
    AxisBlockLayout(p, floatBytes);
    var pk := StandardPacket(p, floatBytes);
    forall i | 0 <= i < StandardLength
      ensures pk[i] == StandardByte(p, floatBytes, i)
    {
      if 4 <= i < 28 {
        assert pk[i] == AxisBlock(p, floatBytes)[i - 4];
      }
    }
  }

  /**
   * The EB 90 02 layout agrees with the byte-by-byte description: 123 bytes,
   * header EB 90 02 7B, the axes at 16..39, 0x80 and 0x3F in the marker run,
   * trailer 0A 0A 0A FF, zero everywhere else.
   */
  lemma AltLayout(p: Pose, floatBytes: real -> Bytes4)
    ensures |AltPacket(p, floatBytes)| == AltLength
    ensures forall i :: 0 <= i < AltLength ==> AltPacket(p, floatBytes)[i] == AltByte(p, floatBytes, i)
  {
    AxisBlockLayout(p, floatBytes);
    var pk := AltPacket(p, floatBytes);
    var head := AltHeader + Zeros(12);
    var withAxes := head + AxisBlock(p, floatBytes);
    var withMarkers := withAxes + AltMarkers;
    var body := withMarkers + Zeros(67);
    assert pk == body + AltTrailer;
    forall i | 0 <= i < AltLength
      ensures pk[i] == AltByte(p, floatBytes, i)
    {
      if i < 16 {
        assert pk[i] == head[i];
      } else if i < 40 {
        assert pk[i] == withAxes[i];
        assert pk[i] == AxisBlock(p, floatBytes)[i - 16];
      } else if i < 52 {
        assert pk[i] == withMarkers[i] == AltMarkers[i - 40];
      } else if i < 119 {
        assert pk[i] == body[i] == Zeros(67)[i - 52];
      } else {
        assert pk[i] == AltTrailer[i - 119];
      }
    }
  }

  /** Where the six axis slots start in the selected format. */
  function AxisOffset(useAltProtocol: bool): nat
  {
    if useAltProtocol then AltAxisOffset else StandardAxisOffset
  }

  /** Reads a 24-byte axis block back as six floats, with `fromBytes` as the float decoder. */
  function DecodeBlock(b: seq<byte>, fromBytes: seq<byte> -> real): Pose
    requires |b| == 24
  {
    Pose(fromBytes(b[0..4]), fromBytes(b[4..8]), fromBytes(b[8..12]),
         fromBytes(b[12..16]), fromBytes(b[16..20]), fromBytes(b[20..24]))
  }

  /** Slot k of the axis block holds the encoding of axis k. */
  lemma {:induction false} AxisBlockSlots(p: Pose, floatBytes: real -> Bytes4)
    ensures |AxisBlock(p, floatBytes)| == 24
    ensures AxisBlock(p, floatBytes)[0..4] == floatBytes(p.pitch)
    ensures AxisBlock(p, floatBytes)[4..8] == floatBytes(p.roll)
    ensures AxisBlock(p, floatBytes)[8..12] == floatBytes(p.yaw)
    ensures AxisBlock(p, floatBytes)[12..16] == floatBytes(p.sway)
    ensures AxisBlock(p, floatBytes)[16..20] == floatBytes(p.surge)
    ensures AxisBlock(p, floatBytes)[20..24] == floatBytes(p.heave)
  {
    var b := AxisBlock(p, floatBytes);
    var b1 := floatBytes(p.pitch) + floatBytes(p.roll);
    var b2 := b1 + floatBytes(p.yaw);
    var b3 := b2 + floatBytes(p.sway);
    var b4 := b3 + floatBytes(p.surge);
    assert b == b4 + floatBytes(p.heave);
    assert b[0..4] == b1[0..4];
    assert b[4..8] == b1[4..8];
    assert b[8..12] == b2[8..12];
    assert b[12..16] == b3[12..16];
    assert b[16..20] == b4[16..20];
  }

  /**
   * The protocol flag picks the packet: its length, its header (which tells
   * the two apart at byte 2) and the offset of the axis block it carries.
   */
  lemma PacketCarriesAxes(p: Pose, useAltProtocol: bool, floatBytes: real -> Bytes4)
    ensures |PacketFor(p, useAltProtocol, floatBytes)| == if useAltProtocol then AltLength else StandardLength
    ensures PacketFor(p, useAltProtocol, floatBytes)[AxisOffset(useAltProtocol) .. AxisOffset(useAltProtocol) + 24]
         == AxisBlock(p, floatBytes)
    ensures PacketFor(p, useAltProtocol, floatBytes)[..4] == if useAltProtocol then AltHeader else StandardHeader
    ensures PacketFor(p, useAltProtocol, floatBytes)[2] == 0x02 <==> useAltProtocol
  {
    var b := AxisBlock(p, floatBytes);
    AxisBlockLayout(p, floatBytes);
    if useAltProtocol {
      var head := AltHeader + Zeros(12);
      assert AltPacket(p, floatBytes) == (head + b) + (AltMarkers + Zeros(67) + AltTrailer);
      assert (head + b)[16..40] == b;
    } else {
      assert StandardPacket(p, floatBytes) == (StandardHeader + b) + Zeros(4);
      assert (StandardHeader + b)[4..28] == b;
    }
  }

  /**
   * Decoding the six floats at the axis offset gives back the pose the
   * packet was built from, in either format, for any decoder that reads
   * back each of the pose's six encoded values.
   */
  lemma PacketRoundTrip(p: Pose, useAltProtocol: bool, floatBytes: real -> Bytes4, fromBytes: seq<byte> -> real)
    requires forall k :: 0 <= k < 6 ==> fromBytes(floatBytes(AxisAt(p, k))) == AxisAt(p, k)
    ensures |PacketFor(p, useAltProtocol, floatBytes)| >= AxisOffset(useAltProtocol) + 24
    ensures DecodeBlock(PacketFor(p, useAltProtocol, floatBytes)[AxisOffset(useAltProtocol) .. AxisOffset(useAltProtocol) + 24],
                        fromBytes) == p
  {
    PacketCarriesAxes(p, useAltProtocol, floatBytes);
    AxisBlockSlots(p, floatBytes);
    assert fromBytes(floatBytes(AxisAt(p, 0))) == AxisAt(p, 0);
    assert fromBytes(floatBytes(AxisAt(p, 1))) == AxisAt(p, 1);
    assert fromBytes(floatBytes(AxisAt(p, 2))) == AxisAt(p, 2);
    assert fromBytes(floatBytes(AxisAt(p, 3))) == AxisAt(p, 3);
    assert fromBytes(floatBytes(AxisAt(p, 4))) == AxisAt(p, 4);
    assert fromBytes(floatBytes(AxisAt(p, 5))) == AxisAt(p, 5);
  }

  /**
   * The neutral pose sent before a disconnect: when 0.0f encodes as four
   * zero bytes, all 24 axis bytes of the packet are zero.
   */
  lemma NeutralPacket(useAltProtocol: bool, floatBytes: real -> Bytes4)
    requires floatBytes(0.0) == [0, 0, 0, 0]
    ensures PacketFor(Neutral, useAltProtocol, floatBytes)[AxisOffset(useAltProtocol) .. AxisOffset(useAltProtocol) + 24]
         == Zeros(24)
  {
    PacketCarriesAxes(Neutral, useAltProtocol, floatBytes);
    AxisBlockLayout(Neutral, floatBytes);
    assert AxisBlock(Neutral, floatBytes) == Zeros(24);
  }

  /** After the marker loop, a buffer holding the header and axes carries the marker run at 40..51. */
  lemma MarkersWritten(d: seq<byte>, before: seq<byte>, written: seq<byte>)
    requires |written| == 40 && before == written + Zeros(83) && |d| == 123
    requires forall j :: 0 <= j < 123 ==>
      d[j] == if 40 <= j < 52 && (j - 40) % 4 == 3 then 0x3F
              else if 40 <= j < 52 && (j - 40) % 4 == 2 then 0x80
              else before[j]
    ensures d == written + AltMarkers + Zeros(71)
  {
    forall j | 0 <= j < 123
      ensures d[j] == (written + AltMarkers + Zeros(71))[j]
    {
      if 40 <= j < 52 {
        MarkerRule(j - 40);
      }
    }
  }

  /** `Buffer.BlockCopy(src, 0, dst, dstOffset, src.Length)`. */
  method BlockCopy(src: seq<byte>, dst: array<byte>, dstOffset: nat)
    requires dstOffset + |src| <= dst.Length
    modifies dst
    ensures forall i :: 0 <= i < dst.Length ==>
      dst[i] == if dstOffset <= i < dstOffset + |src| then src[i - dstOffset] else old(dst[i])
  {
    forall i | 0 <= i < |src| {
      dst[dstOffset + i] := src[i];
    }
  }

  /**
   * The six `Buffer.BlockCopy` calls of an encoder: the axis encodings in
   * wire order from `offset` on, nothing else in the buffer changed.
   */
  method WriteAxes(data: array<byte>, offset: nat, p: Pose, floatBytes: real -> Bytes4)
    requires offset + 24 <= data.Length
    modifies data
    ensures data[..] == old(data[..])[..offset] + AxisBlock(p, floatBytes) + old(data[..])[offset + 24..]
  {
    BlockCopy(floatBytes(p.pitch), data, offset);
    BlockCopy(floatBytes(p.roll), data, offset + 4);
    assert forall i :: 0 <= i < data.Length ==>
      data[i] == if offset <= i < offset + 8 then SlotByte(p, floatBytes, i - offset) else old(data[i]);
    BlockCopy(floatBytes(p.yaw), data, offset + 8);
    assert forall i :: 0 <= i < data.Length ==>
      data[i] == if offset <= i < offset + 12 then SlotByte(p, floatBytes, i - offset) else old(data[i]);
    BlockCopy(floatBytes(p.sway), data, offset + 12);
    assert forall i :: 0 <= i < data.Length ==>
      data[i] == if offset <= i < offset + 16 then SlotByte(p, floatBytes, i - offset) else old(data[i]);
    BlockCopy(floatBytes(p.surge), data, offset + 16);
    assert forall i :: 0 <= i < data.Length ==>
      data[i] == if offset <= i < offset + 20 then SlotByte(p, floatBytes, i - offset) else old(data[i]);
    BlockCopy(floatBytes(p.heave), data, offset + 20);
    assert forall i :: 0 <= i < data.Length ==>
      data[i] == if offset <= i < offset + 24 then SlotByte(p, floatBytes, i - offset) else old(data[i]);
    AxisBlockLayout(p, floatBytes);
  }

  /**
   * The marker loop of the EB 90 02 builder: a pass over the whole buffer
   * that writes 0x80 and 0x3F into the last two bytes of each of the three
   * 4-byte slots from offset 40, leaving every other byte as it was.
   */
  method WriteMarkers(data: array<byte>, ghost written: seq<byte>)
    requires data.Length == 123 && |written| == 40 && data[..] == written + Zeros(83)
    modifies data
    ensures data[..] == written + AltMarkers + Zeros(71)
  {
    ghost var before := data[..];
    for i := 0 to data.Length
      invariant forall j :: 0 <= j < data.Length ==>
        data[j] == if j < i && 40 <= j < 52 && (j - 40) % 4 == 3 then 0x3F
                   else if j < i && 40 <= j < 52 && (j - 40) % 4 == 2 then 0x80
                   else before[j]
    {
      if i >= 40 && i < 52 && (i - 40) % 4 == 3 {
        data[i] := 0x3F;
      } else if i >= 40 && i < 52 && (i - 40) % 4 == 2 {
        data[i] := 0x80;
      }
    }
    MarkersWritten(data[..], before, written);
  }

  /** The end marker: 0A 0A 0A FF over the last four bytes of the buffer, the rest unchanged. */
  method WriteTrailer(data: array<byte>)
    requires data.Length >= 4
    modifies data
    ensures data[..] == old(data[..])[..data.Length - 4] + AltTrailer
  {
    data[data.Length - 4] := 0x0A;
    data[data.Length - 3] := 0x0A;
    data[data.Length - 2] := 0x0A;
    data[data.Length - 1] := 0xFF;
    assert data[..data.Length - 4] == old(data[..])[..data.Length - 4];
    assert data[data.Length - 4..] == AltTrailer;
    assert data[..] == data[..data.Length - 4] + data[data.Length - 4..];
  }

  /** Builds the 32-byte EB 90 01 packet for a pose, filling a zeroed buffer in place. */
  method CreateEB9001Packet(p: Pose, floatBytes: real -> Bytes4) returns (data: array<byte>)
    ensures fresh(data)
    ensures data[..] == StandardPacket(p, floatBytes)
  {
    data := new byte[32](_ => 0);
    data[0] := 0xEB;
    data[1] := 0x90;
    data[2] := 0x01;
    data[3] := 0x0A;
    assert data[..] == StandardHeader + Zeros(28);
    WriteAxes(data, 4, p, floatBytes);
    assert data[..] == StandardHeader + AxisBlock(p, floatBytes) + Zeros(4);
    data[28] := 0;
    data[29] := 0;
    data[30] := 0;
    data[31] := 0;
    assert data[..] == StandardHeader + AxisBlock(p, floatBytes) + Zeros(4);
  }

  /**
   * Builds the 123-byte EB 90 02 packet for a pose: header, axes at offset 16,
   * the marker loop over the whole buffer, then the trailer.
   */
  method CreateEB9002Packet(p: Pose, floatBytes: real -> Bytes4) returns (data: array<byte>)
    ensures fresh(data)
    ensures data[..] == AltPacket(p, floatBytes)
  {
    data := new byte[123](_ => 0);
    data[0] := 0xEB;
    data[1] := 0x90;
    data[2] := 0x02;
    data[3] := 0x7B;
    assert data[..] == AltHeader + Zeros(12) + Zeros(107);
    var offset := 16;
    WriteAxes(data, offset, p, floatBytes);
    ghost var written := AltHeader + Zeros(12) + AxisBlock(p, floatBytes);
    assert data[..] == written + Zeros(83);
    WriteMarkers(data, written);
    ghost var body := written + AltMarkers + Zeros(67);
    assert data[..] == body + Zeros(4);
    WriteTrailer(data);
    assert (body + Zeros(4))[..119] == body;
  }
}
