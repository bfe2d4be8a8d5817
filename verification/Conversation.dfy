/**
 A conversation from end to end: one side sends messages, each scattered over its vectors, through a socket
 (src/ktli_socket.c); the other reads what arrives, message by message (src/ktli.c).
 */
module Conversation {
  import opened Vectors
  import opened Pdu
  import opened Socket
  import opened Framing

  // A message as a request holds it: its value is still in the caller's vectors.
  datatype Outgoing = Outgoing(msg: Bytes, vals: seq<Bytes>)

  function Meant(o: Outgoing): Packet {
    Packet(o.msg, Joined(o.vals))
  }

  function Packets(os: seq<Outgoing>): seq<Packet> {
    seq(|os|, i requires 0 <= i < |os| => Meant(os[i]))
  }

  function VectorsOf(host: Host, o: Outgoing): seq<Bytes> {
    [Header(host, Meant(o)), o.msg] + o.vals
  }

  // The calls of one send move all of a frame.
  predicate SendMoves(host: Host, p: Packet, calls: seq<Call>) {
    var n := |Frame(host, p)|;
    Exchange(calls, 0, n, n).0.Moved?
  }

  // The calls of the two receives move all of one message, with so many bytes to be had.
  predicate ReadMoves(p: Packet, avail: nat, hdrCalls: seq<Call>, bodyCalls: seq<Call>) {
    && Exchange(hdrCalls, 0, KP_PLENGTH, avail).0.Moved?
    && avail >= KP_PLENGTH
    && Exchange(bodyCalls, 0, |p.msg| + |p.val|, avail - KP_PLENGTH).0.Moved?
  }

  predicate AllFit(ps: seq<Packet>) {
    forall p :: p in ps ==> Fits(p)
  }

  lemma {:induction false} StreamSplit(host: Host, ps: seq<Packet>, i: nat)
    requires i <= |ps|
    ensures Stream(host, ps) == Stream(host, ps[..i]) + Stream(host, ps[i..])
  {
    if i == 0 {
      assert ps[0..] == ps;
    } else {
      StreamSplit(host, ps[1..], i - 1);
      StreamFront(host, ps);
      StreamFront(host, ps[..i]);
      hide Frame, Stream;
      assert ps[..i][1..] == ps[1..][..i - 1] && ps[1..][i - 1..] == ps[i..];
      SameJoin(Frame(host, ps[0]), Stream(host, ps[..i][1..]), Stream(host, ps[i..]));
    }
  }

  lemma StreamFront(host: Host, ps: seq<Packet>)
    requires ps != []
    ensures Stream(host, ps) == Frame(host, ps[0]) + Stream(host, ps[1..])
  {
  }

  lemma SameJoin(a: Bytes, b: Bytes, c: Bytes)
    ensures a + (b + c) == (a + b) + c
  {
  }

  lemma StreamMore(host: Host, ps: seq<Packet>, i: nat)
    requires i < |ps|
    ensures Stream(host, ps[..i + 1]) == Stream(host, ps[..i]) + Frame(host, ps[i])
    ensures Stream(host, ps[i..]) == Frame(host, ps[i]) + Stream(host, ps[i + 1..])
  {
    hide Frame;
    StreamSplit(host, ps[..i + 1], i);
    assert ps[..i + 1][..i] == ps[..i] && ps[..i + 1][i..] == [ps[i]];
    assert [ps[i]][1..] == [];
    assert ps[i..][1..] == ps[i + 1..];
  }

  // Whatever message is read off the front of a stream that may be cut short, it is the first one sent.
  lemma ReadOfCut(host: Host, p: Packet, after: Bytes, stream: Bytes, q: Packet, rest: Bytes)
    requires Fits(p) && stream <= Frame(host, p) + after && ReadOne(host, stream) == Message(q, rest)
    ensures q == p && rest <= after && (stream == Frame(host, p) + after ==> rest == after)
    ensures |stream| == KP_PLENGTH + |p.msg| + |p.val| + |rest|
  {
    var all := Frame(host, p) + after;
    FrameParts(host, p, after);
    hide Frame, Unpack;
    var m := KP_PLENGTH + |p.msg|;
    CutSlice(stream, all, 0, KP_PLENGTH);
    CutSlice(stream, all, KP_PLENGTH, m);
    CutSlice(stream, all, m, m + |p.val|);
    CutTail(stream, all, m + |p.val|);
  }

  lemma CutSlice(stream: Bytes, all: Bytes, i: nat, j: nat)
    requires stream <= all
    ensures i <= j <= |stream| ==> stream[i..j] == all[i..j]
  {
  }

  lemma CutTail(stream: Bytes, all: Bytes, i: nat)
    requires stream <= all
    ensures i <= |stream| ==> stream[i..] <= all[i..]
  {
  }

  // The sends of the first n messages
  predicate SendsMove(host: Host, os: seq<Outgoing>, n: nat, calls: nat -> seq<Call>)
    requires n <= |os|
  {
    forall i :: 0 <= i < n ==> SendMoves(host, Meant(os[i]), calls(i))
  }

  // Of the first n messages all are on the wire, or, after a failure, a part of all.
  ghost predicate Sending(host: Host, os: seq<Outgoing>, n: nat, ok: bool, wire: Bytes)
    requires n <= |os|
  {
    if ok then wire == Stream(host, Packets(os)[..n]) else wire <= Stream(host, Packets(os))
  }

  lemma SendingGoesOn(host: Host, os: seq<Outgoing>, n: nat, wire: Bytes, sent: Bytes)
    requires n < |os| && Sending(host, os, n, true, wire) && sent <= Frame(host, Meant(os[n]))
    ensures sent == Frame(host, Meant(os[n])) ==> Sending(host, os, n + 1, true, wire + sent)
    ensures Sending(host, os, n + 1, false, wire + sent)
  {
    var ps := Packets(os);
    StreamMore(host, ps, n);
    StreamSplit(host, ps, n);
    hide Stream, Frame;
    PrefixOfJoin(wire, sent, Frame(host, ps[n]), Stream(host, ps[n + 1..]));
  }

  lemma SendingEnds(host: Host, os: seq<Outgoing>, n: nat, ok: bool, wire: Bytes)
    requires n <= |os| && Sending(host, os, n, ok, wire)
    ensures wire <= Stream(host, Packets(os)) && (ok && n == |os| ==> wire == Stream(host, Packets(os)))
  {
    var ps := Packets(os);
    StreamSplit(host, ps, n);
    assert ps[..|ps|] == ps;
  }

  lemma PrefixOfJoin(a: Bytes, b: Bytes, frame: Bytes, rest: Bytes)
    requires b <= frame
    ensures a + b <= a + (frame + rest)
  {
  }

  // One message: its vectors are its frame.
  method SendOne(host: Host, o: Outgoing, calls: seq<Call>) returns (ok: bool, sent: Bytes)
    ensures ok <==> SendMoves(host, Meant(o), calls)
    ensures sent <= Frame(host, Meant(o)) && (ok ==> sent == Frame(host, Meant(o)))
  {
    VectorsAreFrame(host, Meant(o), o.vals);
    hide Exchange, Frame, Header, Joined;
    var out;
    out, sent := Send(VectorsOf(host, o), calls);
    ok := out.Moved?;
  }

  // The sender's side: one ktli_socket_send for each message, until one fails
  method SendAll(host: Host, os: seq<Outgoing>, calls: nat -> seq<Call>) returns (ok: bool, wire: Bytes)
    ensures ok <==> SendsMove(host, os, |os|, calls)
    ensures wire <= Stream(host, Packets(os))
    ensures ok ==> wire == Stream(host, Packets(os))
  {
    ok, wire := true, [];
    var i := 0;
    hide SendMoves, Stream, Frame, Packets, Sending;
    assert Sending(host, os, 0, true, []) by {
      SendingStarts(host, os);
    }
    while i < |os| && ok
      invariant 0 <= i <= |os| && Sending(host, os, i, ok, wire)
      invariant if ok then SendsMove(host, os, i, calls) else !SendsMove(host, os, |os|, calls)
    {
      var sent;
      ok, sent := SendOne(host, os[i], calls(i));
      SendingGoesOn(host, os, i, wire, sent);
      wire := wire + sent;
      i := i + 1;
    }
    SendingEnds(host, os, i, ok, wire);
  }

  lemma SendingStarts(host: Host, os: seq<Outgoing>)
    ensures Sending(host, os, 0, true, [])
  {
  }

  lemma EmptyStream(host: Host, ps: seq<Packet>)
    ensures Stream(host, ps) == [] <==> ps == []
  {
    if ps != [] {
      HeaderLength(host, ps[0]);
    }
  }

  // On a stream that is not cut short, the reads go as the packet's lengths let them.
  lemma ReceivableIff(host: Host, p: Packet, after: Bytes, hdrCalls: seq<Call>, bodyCalls: seq<Call>)
    requires Fits(p)
    ensures var stream := Frame(host, p) + after;
      Receivable(host, stream, hdrCalls, bodyCalls) <==> ReadMoves(p, |stream|, hdrCalls, bodyCalls)
  {
    FrameParts(host, p, after);
    hide Frame, Unpack;
  }

  // A sender of these packets may have got so far.
  predicate Prefix(host: Host, ps: seq<Packet>, stream: Bytes) {
    AllFit(ps) && stream <= Stream(host, ps)
  }

  // What has been read, and what is left, of a stream that carries these packets.
  predicate Reading(host: Host, ps: seq<Packet>, whole: bool, got: seq<Packet>, left: Bytes) {
    && |got| <= |ps| && got == ps[..|got|]
    && left <= Stream(host, ps[|got|..])
    && (whole ==> left == Stream(host, ps[|got|..]))
  }

  lemma ReadingStarts(host: Host, ps: seq<Packet>, stream: Bytes)
    requires Prefix(host, ps, stream)
    ensures Reading(host, ps, stream == Stream(host, ps), [], stream)
  {
    assert ps[0..] == ps;
  }

  lemma ReadingGoesOn(host: Host, ps: seq<Packet>, whole: bool, got: seq<Packet>, left: Bytes, p: Packet, rest: Bytes)
    requires AllFit(ps) && Reading(host, ps, whole, got, left) && left != []
    requires ReadOne(host, left) == Message(p, rest)
    ensures Reading(host, ps, whole, got + [p], rest)
  {
    var j := |got|;
    EmptyStream(host, ps[j..]);
    StreamMore(host, ps, j);
    assert ps[j] in ps;
    hide Stream, Frame, ReadOne, Fits;
    ReadOfCut(host, ps[j], Stream(host, ps[j + 1..]), left, p, rest);
    assert ps[..j + 1] == ps[..j] + [ps[j]];
  }

  // The reads of the whole list, one after the other
  predicate AllReadsMove(host: Host, ps: seq<Packet>, n: nat, hdrCalls: nat -> seq<Call>, bodyCalls: nat -> seq<Call>)
    requires n <= |ps|
  {
    forall j :: 0 <= j < n ==> ReadMoves(ps[j], |Stream(host, ps[j..])|, hdrCalls(j), bodyCalls(j))
  }

  lemma NextReadMoves(host: Host, ps: seq<Packet>, got: seq<Packet>, left: Bytes, hdrCalls: seq<Call>,
                      bodyCalls: seq<Call>)
    requires AllFit(ps) && Reading(host, ps, true, got, left) && left != []
    ensures |got| < |ps|
    ensures Receivable(host, left, hdrCalls, bodyCalls) <==> ReadMoves(ps[|got|], |left|, hdrCalls, bodyCalls)
  {
    var j := |got|;
    EmptyStream(host, ps[j..]);
    StreamMore(host, ps, j);
    assert ps[j] in ps;
    hide Stream, Frame, Fits;
    ReceivableIff(host, ps[j], Stream(host, ps[j + 1..]), hdrCalls, bodyCalls);
  }

  // What has been read and what will be read of the rest is what will be read of the whole.
  ghost predicate OnCourse(host: Host, stream: Bytes, got: seq<Packet>, left: Bytes) {
    ReadAll(host, stream) == (got + ReadAll(host, left).0, ReadAll(host, left).1)
  }

  lemma CourseStarts(host: Host, stream: Bytes)
    ensures OnCourse(host, stream, [], stream)
  {
    assert [] + ReadAll(host, stream).0 == ReadAll(host, stream).0;
  }

  lemma CourseGoesOn(host: Host, stream: Bytes, got: seq<Packet>, left: Bytes, p: Packet, rest: Bytes)
    requires OnCourse(host, stream, got, left) && ReadOne(host, left) == Message(p, rest)
    ensures OnCourse(host, stream, got + [p], rest) && |rest| < |left|
  {
    ReadShortens(host, left, p, rest);
    ReadAllMore(host, left, p, rest);
    hide ReadAll, ReadOne;
    assert got + ([p] + ReadAll(host, rest).0) == got + [p] + ReadAll(host, rest).0;
  }

  lemma ReadShortens(host: Host, left: Bytes, p: Packet, rest: Bytes)
    requires ReadOne(host, left) == Message(p, rest)
    ensures |rest| < |left|
  {
    hide Unpack;
  }

  lemma ReadAllMore(host: Host, left: Bytes, p: Packet, rest: Bytes)
    requires ReadOne(host, left) == Message(p, rest)
    ensures ReadAll(host, left) == ([p] + ReadAll(host, rest).0, ReadAll(host, rest).1)
  {
    hide ReadOne;
  }

  lemma CourseEnds(host: Host, stream: Bytes, got: seq<Packet>)
    requires OnCourse(host, stream, got, [])
    ensures ReadAll(host, stream) == (got, [])
  {
    assert ReadAll(host, []) == ([], []);
    assert got + [] == got;
  }

  // The receiver's side: one message after another until nothing is left or a read fails
  method ReceiveAll(host: Host, stream: Bytes, hdrCalls: nat -> seq<Call>, bodyCalls: nat -> seq<Call>,
                    ghost ps: seq<Packet>)
    returns (ok: bool, got: seq<Packet>, left: Bytes)
    ensures ok ==> left == [] && ReadAll(host, stream) == (got, [])
    ensures Prefix(host, ps, stream) ==> got <= ps
    ensures Prefix(host, ps, stream) && stream == Stream(host, ps) ==>
      (ok <==> AllReadsMove(host, ps, |ps|, hdrCalls, bodyCalls))
  {
    ok, got, left := true, [], stream;
    ghost var fits, whole := Prefix(host, ps, stream), stream == Stream(host, ps);
    if fits {
      ReadingStarts(host, ps, stream);
    }
    CourseStarts(host, stream);
    hide Reading, OnCourse, ReadAll, ReadOne, Receivable, ReadMoves, Stream, AllFit;
    while left != [] && ok
      invariant OnCourse(host, stream, got, left)
      invariant fits ==> AllFit(ps) && Reading(host, ps, whole, got, left)
      invariant fits && whole ==> |got| <= |ps| && AllReadsMove(host, ps, |got|, hdrCalls, bodyCalls)
      invariant fits && whole && !ok ==> !AllReadsMove(host, ps, |ps|, hdrCalls, bodyCalls)
      decreases |left|, ok
    {
      var j := |got|;
      if fits && whole {
        NextReadMoves(host, ps, got, left, hdrCalls(j), bodyCalls(j));
        ReadingMeans(host, ps, got, left);
      }
      var p, used;
      ok, p, used := RecvMsg(host, left, hdrCalls(j), bodyCalls(j));
      if ok {
        CourseGoesOn(host, stream, got, left, p, left[used..]);
        if fits {
          ReadingGoesOn(host, ps, whole, got, left, p, left[used..]);
        }
        got, left := got + [p], left[used..];
      }
    }
    if ok {
      CourseEnds(host, stream, got);
    }
    if fits {
      ReadingEnds(host, ps, whole, got, left);
    }
  }

  lemma ReadingMeans(host: Host, ps: seq<Packet>, got: seq<Packet>, left: Bytes)
    requires Reading(host, ps, true, got, left)
    ensures |got| <= |ps| && left == Stream(host, ps[|got|..])
  {
  }

  lemma ReadingEnds(host: Host, ps: seq<Packet>, whole: bool, got: seq<Packet>, left: Bytes)
    requires Reading(host, ps, whole, got, left)
    ensures got <= ps && (whole && left == [] ==> |got| == |ps|)
  {
    EmptyStream(host, ps[|got|..]);
  }

  // Messages scattered over vectors, written and read in as small pieces as the kernel likes. When all of
  // them fit, what is received is always the first of what was sent; it is all of it, with nothing left,
  // when every transfer goes through. When a message is too long, it is not, whatever the transfers do.
  method Converse(host: Host, os: seq<Outgoing>, sendCalls: nat -> seq<Call>,
                  hdrCalls: nat -> seq<Call>, bodyCalls: nat -> seq<Call>)
    returns (sent: bool, read: bool, got: seq<Packet>, left: Bytes)
    ensures sent <==> SendsMove(host, os, |os|, sendCalls)
    ensures AllFit(Packets(os)) ==> got <= Packets(os)
    ensures AllFit(Packets(os)) && sent ==>
      (read <==> AllReadsMove(host, Packets(os), |os|, hdrCalls, bodyCalls))
    ensures sent && read ==> left == [] && (got == Packets(os) <==> AllFit(Packets(os)))
  {
    var wire;
    sent, wire := SendAll(host, os, sendCalls);
    read, got, left := ReceiveAll(host, wire, hdrCalls, bodyCalls, Packets(os));
    ReadAllIff(host, Packets(os));
  }
}
