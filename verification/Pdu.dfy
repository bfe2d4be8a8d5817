/**
 The header in front of every message (src/protocol_interface.h): a magic byte, then the length of the
 message and the length of the value. The macros go through htonl and ntohl and then pick the word
 apart from its low end, so what reaches the wire depends on the byte order of the host.
 */
module Pdu {
  import opened Common
  import opened Vectors

  const KP_MAGIC: Byte := 0x46
  const KP_PLENGTH := 9

  datatype Host = LittleEndian | BigEndian

  datatype Pdu = Fields(magic: Byte, msglen: Word, vallen: Word)

  // (w & mask) >> shift for the i-th byte from the low end
  function ByteOf(w: Word, i: nat): Byte
    requires i < 4
  {
    match i
    case 0 => w % 0x100
    case 1 => w / 0x100 % 0x100
    case 2 => w / 0x1_0000 % 0x100
    case 3 => w / 0x100_0000
  }

  // b3 << 24 | b2 << 16 | b1 << 8 | b0
  function Word4(b3: Byte, b2: Byte, b1: Byte, b0: Byte): Word {
    b3 * 0x100_0000 + b2 * 0x1_0000 + b1 * 0x100 + b0
  }

  // htonl and ntohl
  function Swap(host: Host, w: Word): Word {
    if host == BigEndian then w else Word4(ByteOf(w, 0), ByteOf(w, 1), ByteOf(w, 2), ByteOf(w, 3))
  }

  // PACK_PDU
  function Pack(host: Host, p: Pdu): Bytes {
    var m := Swap(host, p.msglen);
    var v := Swap(host, p.vallen);
    [p.magic, ByteOf(m, 0), ByteOf(m, 1), ByteOf(m, 2), ByteOf(m, 3),
     ByteOf(v, 0), ByteOf(v, 1), ByteOf(v, 2), ByteOf(v, 3)]
  }

  // UNPACK_PDU
  function Unpack(host: Host, h: Bytes): Pdu
    requires |h| == KP_PLENGTH
  {
    Fields(h[0], Swap(host, Word4(h[4], h[3], h[2], h[1])), Swap(host, Word4(h[8], h[7], h[6], h[5])))
  }

  // The layout the protocol prescribes: lengths with their high byte first.
  function Wire(p: Pdu): Bytes {
    [p.magic, ByteOf(p.msglen, 3), ByteOf(p.msglen, 2), ByteOf(p.msglen, 1), ByteOf(p.msglen, 0),
     ByteOf(p.vallen, 3), ByteOf(p.vallen, 2), ByteOf(p.vallen, 1), ByteOf(p.vallen, 0)]
  }

  lemma WordOfBytes(w: Word)
    ensures Word4(ByteOf(w, 3), ByteOf(w, 2), ByteOf(w, 1), ByteOf(w, 0)) == w
  {
    assert w / 0x1_0000 / 0x100 == w / 0x100_0000;
    assert w / 0x100 / 0x100 == w / 0x1_0000;
  }

  lemma BytesOfWord(b3: Byte, b2: Byte, b1: Byte, b0: Byte)
    ensures var w := Word4(b3, b2, b1, b0);
      ByteOf(w, 3) == b3 && ByteOf(w, 2) == b2 && ByteOf(w, 1) == b1 && ByteOf(w, 0) == b0
  {
    var w := Word4(b3, b2, b1, b0);
    assert w / 0x100 == b3 * 0x1_0000 + b2 * 0x100 + b1;
    assert w / 0x1_0000 == b3 * 0x100 + b2;
    assert w / 0x100_0000 == b3;
  }

  lemma SwapTwice(host: Host, w: Word)
    ensures Swap(host, Swap(host, w)) == w
  {
    BytesOfWord(ByteOf(w, 0), ByteOf(w, 1), ByteOf(w, 2), ByteOf(w, 3));
    WordOfBytes(w);
  }

  // On every host, unpacking a packed header restores it,
  lemma UnpackPack(host: Host, p: Pdu)
    ensures Unpack(host, Pack(host, p)) == p
  {
    hide ByteOf, Word4, Swap;
    WordOfBytes(Swap(host, p.msglen));
    WordOfBytes(Swap(host, p.vallen));
    SwapTwice(host, p.msglen);
    SwapTwice(host, p.vallen);
  }

  // and packing an unpacked header restores its bytes.
  lemma PackUnpack(host: Host, h: Bytes)
    requires |h| == KP_PLENGTH
    ensures Pack(host, Unpack(host, h)) == h
  {
    hide ByteOf, Word4, Swap;
    SwapTwice(host, Word4(h[4], h[3], h[2], h[1]));
    SwapTwice(host, Word4(h[8], h[7], h[6], h[5]));
    BytesOfWord(h[4], h[3], h[2], h[1]);
    BytesOfWord(h[8], h[7], h[6], h[5]);
  }

  predicate Palindrome(w: Word) {
    ByteOf(w, 0) == ByteOf(w, 3) && ByteOf(w, 1) == ByteOf(w, 2)
  }

  // The wire carries what the protocol prescribes exactly on a little-endian host, or when both lengths
  // read the same from either end: on a big-endian host the lengths go out low byte first.
  lemma PackIsWireIff(host: Host, p: Pdu)
    ensures Pack(host, p) == Wire(p) <==> host == LittleEndian || (Palindrome(p.msglen) && Palindrome(p.vallen))
  {
    if host == LittleEndian {
      BytesOfWord(ByteOf(p.msglen, 0), ByteOf(p.msglen, 1), ByteOf(p.msglen, 2), ByteOf(p.msglen, 3));
      BytesOfWord(ByteOf(p.vallen, 0), ByteOf(p.vallen, 1), ByteOf(p.vallen, 2), ByteOf(p.vallen, 3));
      hide ByteOf, Word4;
    } else {
      hide ByteOf;
      var packed, wire := Pack(host, p), Wire(p);
      if packed == wire {
        assert packed[1] == wire[1] && packed[2] == wire[2] && packed[5] == wire[5] && packed[6] == wire[6];
      }
    }
  }

  // A prescribed header read back: each host understands it exactly when it would have written it.
  lemma UnpackWireIff(host: Host, p: Pdu)
    ensures Unpack(host, Wire(p)) == p <==> Pack(host, p) == Wire(p)
  {
    hide ByteOf, Word4, Swap;
    PackUnpack(host, Wire(p));
    UnpackPack(host, p);
  }

  function Number(b: Bytes): int
    requires |b| == 4
  {
    0x100_0000 * b[0] as int + 0x1_0000 * b[1] as int + 0x100 * b[2] as int + b[3] as int
  }

  // Read as numbers, the bytes of the prescribed layout are the magic and the two lengths.
  lemma WireReads(p: Pdu)
    ensures |Wire(p)| == 9 && Wire(p)[0] == p.magic
    ensures Number(Wire(p)[1..5]) == p.msglen && Number(Wire(p)[5..9]) == p.vallen
  {
    WordOfBytes(p.msglen);
    WordOfBytes(p.vallen);
  }
}
