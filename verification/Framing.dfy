/**
 Messages on the byte stream: the sender writes a header, a message and a value (src/put.c,
 src/protocol_interface.c), the receiver reads nine bytes and then as many as they announce
 (src/ktli.c, src/open.c).
 */
module Framing {
  import opened Common
  import opened Vectors
  import opened Pdu
  import opened Socket

  datatype Packet = Packet(msg: Bytes, val: Bytes)

  // A size_t stored in a uint32_t.
  function Truncated(n: nat): Word {
    n % WORDS
  }

  function Header(host: Host, p: Packet): Bytes {
    Pack(host, Fields(KP_MAGIC, Truncated(|p.msg|), Truncated(|p.val|)))
  }

  function Frame(host: Host, p: Packet): Bytes {
    Header(host, p) + p.msg + p.val
  }

  // The value length of a put: one vector after the other, in 32 bits
  method ValueLength(vals: seq<Bytes>) returns (vallen: Word)
    ensures vallen == Truncated(|Joined(vals)|)
  {
    vallen := 0;
    for i := 0 to |vals|
      invariant vallen == Truncated(|Joined(vals[..i])|)
    {
      JoinedUpTo(vals, i);
      WrapAdds(|Joined(vals[..i])|, |vals[i]|);
      vallen := (vallen + |vals[i]|) % WORDS;
    }
    assert vals[..|vals|] == vals;
  }

  // The vectors handed to the socket are one frame.
  lemma VectorsAreFrame(host: Host, p: Packet, vals: seq<Bytes>)
    requires p.val == Joined(vals)
    ensures Joined([Header(host, p), p.msg] + vals) == Frame(host, p)
  {
    hide Header;
    var h := Header(host, p);
    JoinedPut(h, p.msg, vals);
    assert h + (p.msg + p.val) == h + p.msg + p.val;
  }

  lemma JoinedPut(h: Bytes, m: Bytes, vals: seq<Bytes>)
    ensures Joined([h, m] + vals) == h + (m + Joined(vals))
  {
    var vec := [h, m] + vals;
    assert vec[1..] == [m] + vals && vec[1..][1..] == vals;
  }

  // ki_setseq, once the message with its sequence number and its checksum is packed anew
  method SetSeq(host: Host, pdu: array<Byte>, newmsg: Bytes)
    requires pdu.Length == KP_PLENGTH
    modifies pdu
    ensures forall p :: old(pdu[..]) == Header(host, p) ==> pdu[..] == Header(host, p.(msg := newmsg))
    ensures pdu[..] == Pack(host, Unpack(host, old(pdu[..])).(msglen := Truncated(|newmsg|)))
  {
    var h := Unpack(host, pdu[..]).(msglen := Truncated(|newmsg|));
    var bytes := Pack(host, h);
    forall i | 0 <= i < KP_PLENGTH {
      pdu[i] := bytes[i];
    }
    assert pdu[..] == bytes;
    forall p | old(pdu[..]) == Header(host, p) ensures pdu[..] == Header(host, p.(msg := newmsg)) {
      UnpackPack(host, Fields(KP_MAGIC, Truncated(|p.msg|), Truncated(|p.val|)));
    }
  }

  datatype Read =
    | Message(packet: Packet, rest: Bytes)
    | CutOff         // the stream ends before the message does
    | BadLength      // no buffer of the announced length can be had

  // The helpers answer with an int32_t that becomes a size_t: from half the range on, no allocation
  // of that size succeeds.
  predicate Allocatable(len: Word) {
    len < 0x8000_0000
  }

  // What ktli_recvmsg finds at the front of the stream.
  function ReadOne(host: Host, stream: Bytes): Read {
    if |stream| < KP_PLENGTH then CutOff
    else
      var h := Unpack(host, stream[..KP_PLENGTH]);
      var m := KP_PLENGTH + h.msglen;
      if !Allocatable(h.msglen) || !Allocatable(h.vallen) then BadLength
      else if |stream| < m + h.vallen then CutOff
      else Message(Packet(stream[KP_PLENGTH..m], stream[m..m + h.vallen]), stream[m + h.vallen..])
  }

  // One receive into a buffer of the header's size
  method ReadHeader(stream: Bytes, calls: seq<Call>) returns (out: Outcome, header: Bytes)
    ensures out == Exchange(calls, 0, KP_PLENGTH, |stream|).0
    ensures out.Moved? ==> |stream| >= KP_PLENGTH && header == stream[..KP_PLENGTH]
  {
    var bufs := new Bytes[1](_ => seq(KP_PLENGTH, _ => 0));
    JoinedOne(bufs[0]);
    assert bufs[..] == [bufs[0]];
    var used;
    out, used := Receive(bufs, stream, calls);
    header := bufs[0];
    JoinedOne(bufs[0]);
    assert bufs[..] == [bufs[0]];
  }

  // One receive into a buffer for the message and one for the value
  method ReadBody(stream: Bytes, msglen: nat, vallen: nat, calls: seq<Call>) returns (out: Outcome, p: Packet)
    ensures out == Exchange(calls, 0, msglen + vallen, |stream|).0
    ensures out.Moved? ==> |stream| >= msglen + vallen && p == Packet(stream[..msglen], stream[msglen..msglen + vallen])
  {
    var bufs := new Bytes[2](i => if i == 0 then seq(msglen, _ => 0) else seq(vallen, _ => 0));
    ghost var blank := bufs[..];
    assert blank == [bufs[0], bufs[1]];
    JoinedTwo(bufs[0], bufs[1]);
    var used;
    out, used := Receive(bufs, stream, calls);
    p := Packet(bufs[0], bufs[1]);
    SoFar(blank, bufs[..], stream, used);
    SameLengths(blank, bufs[..]);
    assert bufs[..] == [p.msg, p.val];
    JoinedTwo(p.msg, p.val);
    assert out.Moved? ==> p.msg == (p.msg + p.val)[..msglen] && p.val == (p.msg + p.val)[msglen..];
  }

  // Both receives move all they are asked for, and the lengths in between can be allocated.
  predicate Receivable(host: Host, stream: Bytes, hdrCalls: seq<Call>, bodyCalls: seq<Call>) {
    && Exchange(hdrCalls, 0, KP_PLENGTH, |stream|).0.Moved?
    && var h := Unpack(host, stream[..KP_PLENGTH]);
      && Allocatable(h.msglen) && Allocatable(h.vallen)
      && Exchange(bodyCalls, 0, h.msglen + h.vallen, |stream| - KP_PLENGTH).0.Moved?
  }

  // ktli_recvmsg up to the matching: the header, then message and value in one receive
  method RecvMsg(host: Host, stream: Bytes, hdrCalls: seq<Call>, bodyCalls: seq<Call>)
    returns (ok: bool, p: Packet, used: nat)
    ensures ok ==> used <= |stream| && ReadOne(host, stream) == Message(p, stream[used..])
    ensures ok <==> Receivable(host, stream, hdrCalls, bodyCalls)
  {
    hide Exchange, Unpack;
    ok, p, used := false, Packet([], []), 0;
    var out, header := ReadHeader(stream, hdrCalls);
    if out.Moved? {
      var h := Unpack(host, header);
      if Allocatable(h.msglen) && Allocatable(h.vallen) {
        out, p := ReadBody(stream[KP_PLENGTH..], h.msglen, h.vallen, bodyCalls);
        if out.Moved? {
          ok, used := true, KP_PLENGTH + h.msglen + h.vallen;
          BodyAt(stream, h.msglen, h.vallen);
        }
      }
    }
  }

  lemma BodyAt(stream: Bytes, m: nat, v: nat)
    requires KP_PLENGTH + m + v <= |stream|
    ensures stream[KP_PLENGTH..][..m] == stream[KP_PLENGTH..KP_PLENGTH + m]
    ensures stream[KP_PLENGTH..][m..m + v] == stream[KP_PLENGTH + m..KP_PLENGTH + m + v]
  {
  }

  lemma JoinedOne(a: Bytes)
    ensures Joined([a]) == a
  {
    assert [a][1..] == [];
  }

  lemma JoinedTwo(a: Bytes, b: Bytes)
    ensures Joined([a, b]) == a + b
  {
    JoinedOne(b);
    assert [a, b][1..] == [b];
  }

  predicate Fits(p: Packet) {
    |p.msg| < 0x8000_0000 && |p.val| < 0x8000_0000
  }

  lemma Middle(a: Bytes, b: Bytes, c: Bytes)
    ensures (a + b + c)[..|a|] == a
    ensures (a + b + c)[|a|..|a| + |b|] == b
    ensures (a + b + c)[|a| + |b|..] == c
  {
  }

  lemma Regroup(a: Bytes, b: Bytes, c: Bytes, d: Bytes)
    ensures a + b + c + d == a + b + (c + d)
  {
  }

  lemma FrameParts(host: Host, p: Packet, rest: Bytes)
    ensures var s := Frame(host, p) + rest;
      && |s| == KP_PLENGTH + |p.msg| + |p.val| + |rest|
      && Unpack(host, s[..KP_PLENGTH]) == Fields(KP_MAGIC, Truncated(|p.msg|), Truncated(|p.val|))
      && s[KP_PLENGTH..KP_PLENGTH + |p.msg|] == p.msg
      && s[KP_PLENGTH + |p.msg|..KP_PLENGTH + |p.msg| + |p.val|] == p.val
      && s[KP_PLENGTH + |p.msg| + |p.val|..] == rest
  {
    UnpackPack(host, Fields(KP_MAGIC, Truncated(|p.msg|), Truncated(|p.val|)));
    HeaderLength(host, p);
    var h := Header(host, p);
    Middle(h, p.msg, p.val + rest);
    Regroup(h, p.msg, p.val, rest);
    Middle(h + p.msg, p.val, rest);
    hide Pack, Unpack, Truncated;
  }

  lemma HeaderLength(host: Host, p: Packet)
    ensures |Header(host, p)| == KP_PLENGTH
  {
  }

  // A frame is read back, with nothing of what follows, exactly when both its parts are shorter than
  // two gigabytes.
  lemma {:induction false} ReadFrameIff(host: Host, p: Packet, rest: Bytes)
    ensures ReadOne(host, Frame(host, p) + rest) == Message(p, rest)
       <==> |p.msg| < 0x8000_0000 && |p.val| < 0x8000_0000
  {
    FrameParts(host, p, rest);
    hide Frame, Unpack;
  }

  function Stream(host: Host, ps: seq<Packet>): Bytes {
    if ps == [] then [] else Frame(host, ps[0]) + Stream(host, ps[1..])
  }

  // The receiver, one message after another, and what it leaves unread.
  function ReadAll(host: Host, stream: Bytes): (seq<Packet>, Bytes)
    decreases |stream|
  {
    match ReadOne(host, stream)
    case CutOff => ([], stream)
    case BadLength => ([], stream)
    case Message(p, rest) => var r := ReadAll(host, rest); ([p] + r.0, r.1)
  }

  // What is read off the front of a frame, if it is that packet, ends where the frame ends.
  lemma FrontOfFrame(host: Host, p: Packet, rest: Bytes)
    ensures var r := ReadOne(host, Frame(host, p) + rest);
      && (Fits(p) ==> r == Message(p, rest))
      && (!Fits(p) ==> !(r.Message? && r.packet == p))
  {
    ReadFrameIff(host, p, rest);
    FrameParts(host, p, rest);
    hide Frame, Unpack;
  }

  lemma ReadAllFrom(host: Host, p: Packet, rest: Bytes, ps: seq<Packet>)
    requires ps != [] && p == ps[0]
    ensures ReadAll(host, Frame(host, p) + rest) == (ps, []) <==> Fits(p) && ReadAll(host, rest) == (ps[1..], [])
  {
    FrontOfFrame(host, p, rest);
    hide Frame, ReadOne, Fits;
    assert ps == [ps[0]] + ps[1..];
  }

  // Reading nine bytes, then the message and the value by the decoded lengths, over and over, gives back
  // the list of packets and leaves nothing, exactly when every packet fits.
  lemma {:induction false} ReadAllIff(host: Host, ps: seq<Packet>)
    ensures ReadAll(host, Stream(host, ps)) == (ps, []) <==> forall p :: p in ps ==> Fits(p)
  {
    if ps != [] {
      ReadAllIff(host, ps[1..]);
      ReadAllFrom(host, ps[0], Stream(host, ps[1..]), ps);
      hide ReadAll, Fits, Frame;
      assert ps == [ps[0]] + ps[1..];
    }
  }

  // Two different packets never begin alike, whatever follows them.
  lemma {:induction false} FramesArePrefixFree(host: Host, p: Packet, x: Bytes, q: Packet, y: Bytes)
    requires Fits(p) && Fits(q) && Frame(host, p) + x == Frame(host, q) + y
    ensures p == q && x == y
  {
    ReadFrameIff(host, p, x);
    ReadFrameIff(host, q, y);
  }

  // On a little-endian host a frame begins with an F and the two lengths, high byte first, in 32 bits.
  lemma HeaderReads(p: Packet)
    ensures var h := Header(LittleEndian, p);
      && |h| == 9 && h[0] == 70
      && Number(h[1..5]) == |p.msg| % 0x1_0000_0000 && Number(h[5..9]) == |p.val| % 0x1_0000_0000
  {
    PackIsWireIff(LittleEndian, Fields(KP_MAGIC, Truncated(|p.msg|), Truncated(|p.val|)));
    WireReads(Fields(KP_MAGIC, Truncated(|p.msg|), Truncated(|p.val|)));
    hide Pack, Wire;
  }

  // A message that is not all there is not read, wherever it is cut off;
  lemma CutFrameIsCutOff(host: Host, p: Packet, n: nat)
    requires Fits(p) && n < |Frame(host, p)|
    ensures ReadOne(host, Frame(host, p)[..n]) == CutOff
  {
    var f := Frame(host, p);
    hide Frame, Unpack, ReadOne;
    FrameBegins(host, p);
    if n >= KP_PLENGTH {
      FrontOfFront(f, n, KP_PLENGTH);
    }
    TooShort(host, f[..n], Fields(KP_MAGIC, |p.msg|, |p.val|));
  }

  lemma FrameBegins(host: Host, p: Packet)
    requires Fits(p)
    ensures |Frame(host, p)| == KP_PLENGTH + |p.msg| + |p.val|
    ensures Unpack(host, Frame(host, p)[..KP_PLENGTH]) == Fields(KP_MAGIC, |p.msg|, |p.val|)
  {
    hide Frame, Unpack;
    FrameParts(host, p, []);
    assert Frame(host, p) + [] == Frame(host, p);
  }

  lemma FrontOfFront(f: Bytes, n: nat, m: nat)
    requires m <= n <= |f|
    ensures f[..n][..m] == f[..m]
  {
  }

  lemma TooShort(host: Host, stream: Bytes, h: Pdu)
    requires |stream| >= KP_PLENGTH ==> Unpack(host, stream[..KP_PLENGTH]) == h
    requires |stream| < KP_PLENGTH + h.msglen + h.vallen && h.msglen < 0x8000_0000 && h.vallen < 0x8000_0000
    ensures ReadOne(host, stream) == CutOff
  {
    hide Unpack;
  }

  // and one that announces two gigabytes or more is refused, whatever follows.
  lemma TooLongIsRefused(host: Host, p: Packet, rest: Bytes)
    requires |p.msg| % 0x1_0000_0000 >= 0x8000_0000 || |p.val| % 0x1_0000_0000 >= 0x8000_0000
    ensures ReadOne(host, Frame(host, p) + rest) == BadLength
  {
    FrameParts(host, p, rest);
    hide Frame, Unpack;
  }
}
