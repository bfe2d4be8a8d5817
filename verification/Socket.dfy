/**
 Sending and receiving through a socket that moves as few bytes at a time as it likes
 (src/ktli_socket.c).
 */
module Socket {
  import opened Vectors

  // One writev or readv as the kernel would answer it: at most this many bytes, or none, and whether
  // errno then says to try again.
  datatype Call = Call(moved: int, retry: bool)

  datatype Outcome =
    | Moved(n: nat)      // the return value of success
    | NoVector           // EINVAL
    | IoError            // what writev or readv failed with
    | Short              // ECOMM
    | Unfinished         // the script of calls ran out first

  // What the call returns when left bytes are asked for and avail could be moved.
  function Returned(c: Call, left: nat, avail: nat): (n: int)
    ensures n <= left && n <= avail
  {
    if c.moved <= 0 then c.moved
    else if left <= avail then (if c.moved < left then c.moved else left)
    else if c.moved < avail then c.moved else avail
  }

  // The whole exchange seen as one buffer: how it ends, and how many of the left bytes have moved.
  function Exchange(calls: seq<Call>, done: nat, left: nat, avail: nat): (r: (Outcome, nat))
    ensures done <= r.1 <= done + left && r.1 <= done + avail
    ensures r.0.Moved? ==> r.0.n == r.1 == done + left
    ensures r.1 == done + left && left != 0 ==> r.0.Moved?
  {
    if calls == [] then (Unfinished, done)
    else
      var n := Returned(calls[0], left, avail);
      if n <= 0 then
        if calls[0].retry then Exchange(calls[1..], done, left, avail)
        else if n < 0 then (IoError, done)
        else if left == 0 then (Moved(done), done)
        else (Short, done)
      else if n == left then (Moved(done + n), done + n)
      else Exchange(calls[1..], done + n, left - n, avail - n)
  }

  // Where the current vector and its offset stand in the joined bytes.
  ghost function Position(vec: seq<Bytes>, off: seq<nat>, curv: nat): nat
    requires curv <= |vec| == |off|
  {
    |Joined(vec[..curv])| + if curv < |vec| then off[curv] else 0
  }

  // Each vector is cut by its base offset and remaining length; those behind the current one are whole.
  ghost predicate Cut(vec: seq<Bytes>, off: seq<nat>, len: seq<nat>, curv: nat) {
    && |off| == |len| == |vec| && curv <= |vec|
    && (forall i :: curv <= i < |vec| ==> off[i] + len[i] == |vec[i]|)
    && (forall i :: curv < i < |vec| ==> off[i] == 0)
  }

  // The bytes the vectors still stand for: what writev gathers.
  function Gather(vec: seq<Bytes>, off: seq<nat>, len: seq<nat>, curv: nat): Bytes
    requires curv <= |vec| == |off| == |len|
    requires forall i :: curv <= i < |vec| ==> off[i] + len[i] <= |vec[i]|
    decreases |vec| - curv
  {
    if curv == |vec| then []
    else vec[curv][off[curv]..off[curv] + len[curv]] + Gather(vec, off, len, curv + 1)
  }

  lemma {:induction false} GatherWhole(vec: seq<Bytes>, off: seq<nat>, len: seq<nat>, curv: nat)
    requires Cut(vec, off, len, curv) && (curv < |vec| ==> off[curv] == 0)
    ensures Gather(vec, off, len, curv) == Joined(vec[curv..])
    decreases |vec| - curv
  {
    if curv < |vec| {
      GatherWhole(vec, off, len, curv + 1);
      assert vec[curv..][1..] == vec[curv + 1..];
    }
  }

  lemma TailOfJoin(a: Bytes, b: Bytes, c: Bytes, k: nat)
    requires k <= |b|
    ensures (a + (b + c))[|a| + k..] == b[k..|b|] + c
  {
  }

  // What is left to gather is what follows the position.
  lemma GatherIsRest(vec: seq<Bytes>, off: seq<nat>, len: seq<nat>, curv: nat)
    requires Cut(vec, off, len, curv)
    ensures Position(vec, off, curv) <= |Joined(vec)|
    ensures Gather(vec, off, len, curv) == Joined(vec)[Position(vec, off, curv)..]
  {
    if curv < |vec| {
      GatherWhole(vec, off, len, curv + 1);
      GatherFrom(vec, off, len, curv, Gather(vec, off, len, curv + 1));
    } else {
      assert vec[..curv] == vec;
    }
  }

  lemma GatherFrom(vec: seq<Bytes>, off: seq<nat>, len: seq<nat>, curv: nat, rest: Bytes)
    requires Cut(vec, off, len, curv) && curv < |vec| && rest == Joined(vec[curv + 1..])
    ensures Position(vec, off, curv) <= |Joined(vec)|
    ensures vec[curv][off[curv]..off[curv] + len[curv]] + rest == Joined(vec)[Position(vec, off, curv)..]
  {
    var before := Joined(vec[..curv]);
    JoinedSplit(vec, curv);
    assert Joined(vec[curv..]) == vec[curv] + rest by {
      assert vec[curv..][1..] == vec[curv + 1..];
    }
    hide Joined;
    TailOfJoin(before, vec[curv], rest, off[curv]);
    assert off[curv] + len[curv] == |vec[curv]|;
  }

  // Consuming a whole vector moves the position by what was left of it.
  lemma PositionNext(vec: seq<Bytes>, off: seq<nat>, len: seq<nat>, curv: nat)
    requires Cut(vec, off, len, curv) && curv < |vec|
    ensures Cut(vec, off, len, curv + 1)
    ensures Position(vec, off, curv + 1) == Position(vec, off, curv) + len[curv]
  {
    JoinedUpTo(vec, curv);
  }

  lemma AllMoved(vec: seq<Bytes>, off: seq<nat>, curv: nat)
    requires curv == |vec| == |off|
    ensures Position(vec, off, curv) == |Joined(vec)|
  {
    assert vec[..curv] == vec;
  }

  lemma CutAll(vec: seq<Bytes>)
    requires vec != []
    ensures Cut(vec, seq(|vec|, _ => 0), Lengths(vec), 0)
    ensures Position(vec, seq(|vec|, _ => 0), 0) == 0
  {
    assert vec[..0] == [];
  }

  function Lengths(vec: seq<Bytes>): seq<nat> {
    seq(|vec|, i requires 0 <= i < |vec| => |vec[i]|)
  }

  // Both functions first copy the caller's vectors, so that bases and lengths may change, and add up
  // the total.
  method CopyVectors(vec: seq<Bytes>) returns (off: array<nat>, len: array<nat>, total: nat)
    ensures fresh(off) && fresh(len) && off != len
    ensures off[..] == seq(|vec|, _ => 0) && len[..] == Lengths(vec)
    ensures total == |Joined(vec)|
  {
    off := new nat[|vec|](_ => 0);
    len := new nat[|vec|](_ => 0);
    total := 0;
    for i := 0 to |vec|
      invariant total == |Joined(vec[..i])|
      invariant forall j :: 0 <= j < i ==> len[j] == |vec[j]|
      invariant forall j :: 0 <= j < |vec| ==> off[j] == 0
    {
      JoinedUpTo(vec, i);
      len[i] := |vec[i]|;
      total := total + |vec[i]|;
    }
    assert vec[..|vec|] == vec;
  }

  // After n bytes have moved: vectors that are fully consumed are passed over, the current one is cut.
  method Advance(vec: seq<Bytes>, off: array<nat>, len: array<nat>, curv: nat, n: nat) returns (next: nat)
    requires off != len && Cut(vec, off[..], len[..], curv) && curv < |vec|
    requires Position(vec, off[..], curv) + n <= |Joined(vec)|
    modifies off, len
    ensures Cut(vec, off[..], len[..], next)
    ensures Position(vec, off[..], next) == old(Position(vec, off[..], curv)) + n
    ensures next < |vec| ==> len[next] != 0
  {
    next := curv;
    var left := n;
    while next < |vec| && left >= len[next]
      invariant curv <= next <= |vec| && Cut(vec, off[..], len[..], next)
      invariant off[..] == old(off[..]) && len[..] == old(len[..])
      invariant Position(vec, off[..], next) + left == old(Position(vec, off[..], curv)) + n
      decreases |vec| - next
    {
      PositionNext(vec, off[..], len[..], next);
      left := left - len[next];
      next := next + 1;
    }
    if next == |vec| {
      assert vec[..next] == vec;
      return;
    }
    off[next], len[next] := off[next] + left, len[next] - left;
  }

  // What both functions answer after their loop, from the last call's result and the totals.
  function Verdict(last: int, done: nat, total: nat): Outcome {
    if last < 0 then IoError else if done != total then Short else Moved(done)
  }

  function Add(done: nat, n: int): nat {
    if n > 0 then done + n else done
  }

  // A loop that has made i calls is still on the way to what the whole exchange comes to.
  ghost predicate OnTrack(calls: seq<Call>, i: nat, done: nat, total: nat, avail: nat, ended: bool, last: int) {
    && i <= |calls| && done <= total && done <= avail
    && Exchange(calls, 0, total, avail) ==
         if ended then (Verdict(last, done, total), done) else Exchange(calls[i..], done, total - done, avail - done)
  }

  lemma TrackStart(calls: seq<Call>, total: nat, avail: nat)
    ensures OnTrack(calls, 0, 0, total, avail, false, 0)
  {
    assert calls[0..] == calls;
  }

  lemma TrackStep(calls: seq<Call>, i: nat, done: nat, total: nat, avail: nat, last: int)
    requires OnTrack(calls, i, done, total, avail, false, last) && i < |calls|
    ensures var n := Returned(calls[i], total - done, avail - done);
      OnTrack(calls, i + 1, Add(done, n), total, avail,
              if n <= 0 then !calls[i].retry else Add(done, n) == total, n)
  {
    assert calls[i..][1..] == calls[i + 1..];
  }

  lemma TrackEnd(calls: seq<Call>, i: nat, done: nat, total: nat, avail: nat, ended: bool, last: int)
    requires OnTrack(calls, i, done, total, avail, ended, last) && (ended || i == |calls|)
    ensures Exchange(calls, 0, total, avail) == (if ended then Verdict(last, done, total) else Unfinished, done)
  {
  }

  // So many bytes have moved, and the vectors stand where those end.
  ghost predicate Underway(vec: seq<Bytes>, off: seq<nat>, len: seq<nat>, curv: nat, done: nat) {
    Cut(vec, off, len, curv) && Position(vec, off, curv) == done <= |Joined(vec)|
  }

  // writev, and the current vector's base and length updated after it
  method WriteSome(vec: seq<Bytes>, off: array<nat>, len: array<nat>, curv: nat, c: Call, ghost done: nat)
    returns (bw: int, sent: Bytes, next: nat)
    requires off != len && Underway(vec, off[..], len[..], curv, done) && curv < |vec|
    modifies off, len
    ensures bw == Returned(c, |Joined(vec)| - done, |Joined(vec)| - done)
    ensures bw <= 0 ==> next == curv && sent == [] && Underway(vec, off[..], len[..], next, done)
    ensures bw > 0 ==> Underway(vec, off[..], len[..], next, done + bw) && sent == Joined(vec)[done..done + bw]
    ensures bw > 0 ==> next <= |vec| && (next == |vec| <==> done + bw == |Joined(vec)|)
  {
    GatherIsRest(vec, off[..], len[..], curv);
    var asked := Gather(vec, off[..], len[..], curv);
    bw, sent, next := Returned(c, |asked|, |asked|), [], curv;
    if bw > 0 {
      sent := asked[..bw];
      next := Advance(vec, off, len, curv, bw);
      CutLeft(vec, off[..], len[..], next);
    }
  }

  // ktli_socket_send. Whatever the kernel's short writes and retries, the wire carries a prefix of the
  // joined vectors, all of them on success; vectors make no difference to how the exchange goes.
  method Send(msg: seq<Bytes>, calls: seq<Call>) returns (out: Outcome, wire: Bytes)
    ensures msg == [] ==> out == NoVector && wire == []
    ensures msg != [] ==> (out, |wire|) == Exchange(calls, 0, |Joined(msg)|, |Joined(msg)|)
    ensures wire <= Joined(msg)
    ensures out.Moved? ==> wire == Joined(msg) && out.n == |wire|
  {
    wire := [];
    if msg == [] {
      return NoVector, [];
    }
    var off, len, total := CopyVectors(msg);
    var curv: nat, i: nat := 0, 0;
    ghost var all := Joined(msg);
    CutAll(msg);
    assert Underway(msg, off[..], len[..], curv, 0);
    assert IsPrefix(wire, all);
    TrackStart(calls, total, total);
    hide Joined, Exchange, Returned, Lengths, Underway, IsPrefix, OnTrack;
    var ended, bw := false, 0;
    while i < |calls| && !ended
      invariant i <= |calls| && fresh(off) && fresh(len) && off != len
      invariant |wire| <= |all| == total && IsPrefix(wire, all)
      invariant !ended ==> curv < |msg| && Underway(msg, off[..], len[..], curv, |wire|)
      invariant OnTrack(calls, i, |wire|, total, total, ended, bw)
    {
      TrackStep(calls, i, |wire|, total, total, bw);
      var sent;
      bw, sent, curv := WriteSome(msg, off, len, curv, calls[i], |wire|);
      if bw <= 0 {
        ended := !calls[i].retry;
      } else {
        PrefixGrows(all, wire, sent);
        wire := wire + sent;
        ended := curv == |msg|;
      }
      i := i + 1;
    }
    PrefixMeans(all, wire);
    TrackEnd(calls, i, |wire|, total, total, ended, bw);
    out := if ended then Verdict(bw, |wire|, total) else Unfinished;
  }

  ghost predicate IsPrefix(a: Bytes, all: Bytes) {
    |a| <= |all| && a == all[..|a|]
  }

  lemma PrefixGrows(all: Bytes, a: Bytes, b: Bytes)
    requires IsPrefix(a, all) && |a| + |b| <= |all| && b == all[|a|..|a| + |b|]
    ensures IsPrefix(a + b, all)
  {
  }

  lemma PrefixMeans(all: Bytes, a: Bytes)
    requires IsPrefix(a, all)
    ensures |a| <= |all| && a <= all && (|a| == |all| ==> a == all)
  {
  }

  // The loop ends when all has moved, and only then.
  lemma CutLeft(vec: seq<Bytes>, off: seq<nat>, len: seq<nat>, curv: nat)
    requires Cut(vec, off, len, curv) && (curv < |vec| ==> len[curv] != 0)
    ensures curv <= |vec| && (curv == |vec| <==> Position(vec, off, curv) == |Joined(vec)|)
  {
    if curv == |vec| {
      AllMoved(vec, off, curv);
    } else {
      GatherIsRest(vec, off, len, curv);
      assert |Gather(vec, off, len, curv)| >= len[curv];
    }
  }

  // --- the mirror image ---

  // Where data lies, from position at on, new differs from old; nowhere else.
  ghost predicate Overwritten(was: Bytes, now: Bytes, at: nat, data: Bytes) {
    && |now| == |was| && at + |data| <= |was|
    && (forall i :: 0 <= i < |was| ==> now[i] == if at <= i < at + |data| then data[i - at] else was[i])
  }

  function Filled(v: Bytes, at: nat, data: Bytes): (r: Bytes)
    requires at + |data| <= |v|
    ensures |r| == |v|
  {
    v[..at] + data + v[at + |data|..]
  }

  // What readv leaves in the buffers: the data, dealt out to the vectors in order.
  function Scatter(bufs: seq<Bytes>, off: seq<nat>, len: seq<nat>, curv: nat, data: Bytes): (r: seq<Bytes>)
    requires curv <= |bufs| == |off| == |len|
    requires forall i :: curv <= i < |bufs| ==> off[i] + len[i] <= |bufs[i]|
    ensures Lengths(r) == Lengths(bufs)
    decreases |bufs| - curv
  {
    if curv == |bufs| || data == [] then bufs
    else
      var n := if |data| < len[curv] then |data| else len[curv];
      var bufs' := bufs[curv := Filled(bufs[curv], off[curv], data[..n])];
      assert Lengths(bufs') == Lengths(bufs) && forall i :: 0 <= i < |bufs| ==> |bufs'[i]| == |bufs[i]|;
      Scatter(bufs', off, len, curv + 1, data[n..])
  }

  lemma {:induction false} SameLengths(a: seq<Bytes>, b: seq<Bytes>)
    requires Lengths(a) == Lengths(b)
    ensures |a| == |b| && |Joined(a)| == |Joined(b)|
    ensures forall i :: 0 <= i < |a| ==> |a[i]| == |b[i]|
  {
    assert |Lengths(a)| == |a| && |Lengths(b)| == |b|;
    assert forall i :: 0 <= i < |a| ==> |a[i]| == Lengths(a)[i] && |b[i]| == Lengths(b)[i];
    if a != [] {
      assert Lengths(a[1..]) == Lengths(a)[1..] == Lengths(b[1..]);
      SameLengths(a[1..], b[1..]);
    }
  }

  lemma SamePosition(a: seq<Bytes>, b: seq<Bytes>, off: seq<nat>, len: seq<nat>, curv: nat)
    requires Lengths(a) == Lengths(b) && Cut(a, off, len, curv)
    ensures Cut(b, off, len, curv) && Position(b, off, curv) == Position(a, off, curv)
  {
    SameLengths(a, b);
    assert Lengths(a[..curv]) == Lengths(a)[..curv] == Lengths(b[..curv]);
    SameLengths(a[..curv], b[..curv]);
  }

  lemma FilledIs(v: Bytes, at: nat, data: Bytes)
    requires at + |data| <= |v|
    ensures Overwritten(v, Filled(v, at, data), at, data)
  {
  }

  lemma OneFilled(bufs: seq<Bytes>, i: nat, v: Bytes, at: nat, data: Bytes)
    requires i < |bufs| && Overwritten(bufs[i], v, at, data)
    ensures |Joined(bufs[..i])| + |bufs[i]| <= |Joined(bufs)|
    ensures Overwritten(Joined(bufs), Joined(bufs[i := v]), |Joined(bufs[..i])| + at, data)
  {
    var bufs' := bufs[i := v];
    JoinedSplit(bufs, i);
    JoinedSplit(bufs', i);
    assert bufs'[..i] == bufs[..i];
    assert bufs[i..][1..] == bufs[i + 1..] == bufs'[i..][1..];
    assert Joined(bufs[i..]) == bufs[i] + Joined(bufs[i + 1..]);
    assert Joined(bufs'[i..]) == v + Joined(bufs[i + 1..]);
  }

  lemma OverwrittenTwice(a: Bytes, b: Bytes, c: Bytes, at: nat, data: Bytes, n: nat)
    requires n <= |data|
    requires Overwritten(a, b, at, data[..n]) && Overwritten(b, c, at + n, data[n..])
    ensures Overwritten(a, c, at, data)
  {
  }

  lemma {:induction false} ScatterJoined(bufs: seq<Bytes>, off: seq<nat>, len: seq<nat>, curv: nat, data: Bytes)
    requires Cut(bufs, off, len, curv) && Position(bufs, off, curv) + |data| <= |Joined(bufs)|
    ensures Overwritten(Joined(bufs), Joined(Scatter(bufs, off, len, curv, data)), Position(bufs, off, curv), data)
    decreases |bufs| - curv
  {
    if curv == |bufs| {
      AllMoved(bufs, off, curv);
    } else if data != [] {
      var n := if |data| < len[curv] then |data| else len[curv];
      var v := Filled(bufs[curv], off[curv], data[..n]);
      var bufs' := bufs[curv := v];
      FilledIs(bufs[curv], off[curv], data[..n]);
      OneFilled(bufs, curv, v, off[curv], data[..n]);
      assert Lengths(bufs') == Lengths(bufs);
      PositionNext(bufs, off, len, curv);
      SamePosition(bufs, bufs', off, len, curv + 1);
      hide Joined, Overwritten, Cut, Position, Lengths, Filled;
      if n == |data| {
        assert data[n..] == [] && data[..n] == data;
      } else {
        ScatterJoined(bufs', off, len, curv + 1, data[n..]);
        OverwrittenTwice(Joined(bufs), Joined(bufs'), Joined(Scatter(bufs', off, len, curv + 1, data[n..])),
                         Position(bufs, off, curv), data, n);
      }
    }
  }

  // readv, and the current vector's base and length updated after it
  method ReadSome(bufs: array<Bytes>, off: array<nat>, len: array<nat>, curv: nat, c: Call, stream: Bytes, used: nat,
                  ghost was: seq<Bytes>)
    returns (br: int, next: nat)
    requires off != len && curv < bufs.Length
    requires Received(was, bufs[..], stream, used) && Underway(bufs[..], off[..], len[..], curv, used)
    modifies bufs, off, len
    ensures br == Returned(c, |Joined(was)| - used, |stream| - used)
    ensures Received(was, bufs[..], stream, Add(used, br)) && Underway(bufs[..], off[..], len[..], next, Add(used, br))
    ensures next <= bufs.Length && (next == bufs.Length <==> 0 < br == |Joined(was)| - used)
  {
    var before := bufs[..];
    GatherIsRest(before, off[..], len[..], curv);
    br, next := Returned(c, |Gather(before, off[..], len[..], curv)|, |stream| - used), curv;
    if br > 0 {
      var after := Scatter(before, off[..], len[..], curv, stream[used..used + br]);
      Scattered(before, off[..], len[..], curv, stream, used, br, was);
      hide Joined, Overwritten, Gather, Received, Underway;
      Store(bufs, after);
      next := Advance(after, off, len, curv, br);
      CutLeft(after, off[..], len[..], next);
      UnderwayAt(after, off[..], len[..], next, used + br);
    }
  }

  lemma UnderwayAt(vec: seq<Bytes>, off: seq<nat>, len: seq<nat>, curv: nat, done: nat)
    requires Cut(vec, off, len, curv) && Position(vec, off, curv) == done <= |Joined(vec)|
    ensures Underway(vec, off, len, curv, done)
  {
  }

  lemma Scattered(before: seq<Bytes>, off: seq<nat>, len: seq<nat>, curv: nat, stream: Bytes, used: nat, br: nat,
                  was: seq<Bytes>)
    requires Received(was, before, stream, used) && Underway(before, off, len, curv, used)
    requires used + br <= |stream| && used + br <= |Joined(was)|
    ensures var after := Scatter(before, off, len, curv, stream[used..used + br]);
      && Received(was, after, stream, used + br)
      && |Joined(after)| == |Joined(was)| && |after| == |before|
      && Cut(after, off, len, curv) && Position(after, off, curv) == used
  {
    var after := Scatter(before, off, len, curv, stream[used..used + br]);
    ScatterJoined(before, off, len, curv, stream[used..used + br]);
    SameLengths(before, after);
    SamePosition(before, after, off, len, curv);
    hide Joined;
    MoreReceived(was, before, after, stream, used, br);
  }

  method Store(bufs: array<Bytes>, after: seq<Bytes>)
    requires |after| == bufs.Length
    modifies bufs
    ensures bufs[..] == after
  {
    forall i | 0 <= i < |after| {
      bufs[i] := after[i];
    }
  }

  // So much of the stream is in the buffers, and everything else is as it was.
  ghost predicate Received(was: seq<Bytes>, now: seq<Bytes>, stream: Bytes, used: nat) {
    && Lengths(now) == Lengths(was) && |Joined(now)| == |Joined(was)|
    && used <= |stream| && used <= |Joined(was)|
    && Overwritten(Joined(was), Joined(now), 0, stream[..used])
  }

  // ktli_socket_receive. The buffers, joined, begin with what was taken off the stream, and all else in
  // them is as it was; on success they are full.
  method Receive(bufs: array<Bytes>, stream: Bytes, calls: seq<Call>) returns (out: Outcome, used: nat)
    modifies bufs
    ensures bufs.Length == 0 ==> out == NoVector && used == 0
    ensures bufs.Length != 0 ==> (out, used) == Exchange(calls, 0, old(|Joined(bufs[..])|), |stream|)
    ensures used <= |stream| && Received(old(bufs[..]), bufs[..], stream, used)
    ensures out.Moved? ==> Joined(bufs[..]) == stream[..used] && out.n == used
  {
    used := 0;
    ghost var was := bufs[..];
    NothingReceived(was, stream);
    if bufs.Length == 0 {
      return NoVector, 0;
    }
    var off, len, total := CopyVectors(bufs[..]);
    var curv: nat, i: nat := 0, 0;
    CutAll(was);
    assert Underway(bufs[..], off[..], len[..], curv, 0);
    TrackStart(calls, total, |stream|);
    hide Joined, Exchange, Returned, Lengths, Underway, Overwritten, Received, OnTrack;
    var ended, br := false, 0;
    while i < |calls| && !ended
      invariant i <= |calls| && fresh(off) && fresh(len) && off != len
      invariant used <= |stream| && used <= total == |Joined(was)| && Received(was, bufs[..], stream, used)
      invariant !ended ==> curv < bufs.Length && Underway(bufs[..], off[..], len[..], curv, used)
      invariant OnTrack(calls, i, used, total, |stream|, ended, br)
    {
      TrackStep(calls, i, used, total, |stream|, br);
      hide Verdict, Lengths;
      br, curv := ReadSome(bufs, off, len, curv, calls[i], stream, used, was);
      used := Add(used, br);
      ended := if br <= 0 then !calls[i].retry else curv == bufs.Length;
      i := i + 1;
    }
    SoFar(was, bufs[..], stream, used);
    TrackEnd(calls, i, used, total, |stream|, ended, br);
    out := if ended then Verdict(br, used, total) else Unfinished;
  }

  lemma MoreReceived(was: seq<Bytes>, now: seq<Bytes>, later: seq<Bytes>, stream: Bytes, used: nat, n: nat)
    requires Received(was, now, stream, used) && used + n <= |stream| && Lengths(later) == Lengths(now)
    requires Overwritten(Joined(now), Joined(later), used, stream[used..used + n])
    ensures Received(was, later, stream, used + n)
  {
    SameLengths(now, later);
  }

  lemma NothingReceived(was: seq<Bytes>, stream: Bytes)
    ensures Received(was, was, stream, 0)
  {
  }

  lemma SoFar(was: seq<Bytes>, now: seq<Bytes>, stream: Bytes, used: nat)
    requires Received(was, now, stream, used)
    ensures Lengths(now) == Lengths(was) && |Joined(now)| == |Joined(was)| && used <= |stream| && used <= |Joined(was)|
    ensures Overwritten(Joined(was), Joined(now), 0, stream[..used])
    ensures used == |Joined(was)| ==> Joined(now) == stream[..used]
  {
  }

  // --- how an exchange ends ---

  // As long as the calls made so far leave it unfinished, the rest goes on from what they have moved.
  lemma {:induction false} GoesOn(before: seq<Call>, rest: seq<Call>, done: nat, left: nat, avail: nat)
    requires Exchange(before, done, left, avail).0 == Unfinished
    ensures var d := Exchange(before, done, left, avail).1;
      && done <= d && d - done <= left && d - done <= avail
      && Exchange(before + rest, done, left, avail) == Exchange(rest, d, left - (d - done), avail - (d - done))
    decreases |before|
  {
    hide Returned;
    if before == [] {
      assert before + rest == rest;
    } else {
      assert (before + rest)[1..] == before[1..] + rest;
      var n := Returned(before[0], left, avail);
      if n <= 0 {
        GoesOn(before[1..], rest, done, left, avail);
      } else {
        GoesOn(before[1..], rest, done + n, left - n, avail - n);
      }
    }
  }

  lemma OneCall(c: Call, rest: seq<Call>, done: nat, left: nat, avail: nat)
    ensures Exchange([c] + rest, done, left, avail) ==
      var n := Returned(c, left, avail);
      if n <= 0 then
        if c.retry then Exchange(rest, done, left, avail)
        else if n < 0 then (IoError, done)
        else if left == 0 then (Moved(done), done)
        else (Short, done)
      else if n == left then (Moved(done + n), done + n)
      else Exchange(rest, done + n, left - n, avail - n)
  {
    assert ([c] + rest)[0] == c && ([c] + rest)[1..] == rest;
  }

  lemma NoCall(done: nat, left: nat, avail: nat)
    ensures Exchange([], done, left, avail) == (Unfinished, done)
  {
  }

  // What the next call decides, with d of the total bytes moved: a failed one that may not be tried again is an
  // I/O error and one that may makes no difference; one that moves nothing while bytes are missing is a short
  // exchange; any other moves what it can, and all that was missing makes a success.
  lemma NextCallDecides(before: seq<Call>, c: Call, rest: seq<Call>, total: nat, avail: nat)
    requires Exchange(before, 0, total, avail).0 == Unfinished
    ensures var d := Exchange(before, 0, total, avail).1;
      var r := Exchange(before + ([c] + rest), 0, total, avail);
      var most := if total < avail then total else avail;
      && d <= most
      && (c.moved < 0 && !c.retry ==> r == (IoError, d))
      && (c.moved <= 0 && c.retry ==> r == Exchange(before + rest, 0, total, avail))
      && (c.moved == 0 && !c.retry && d < total ==> r == (Short, d))
      && (c.moved > 0 && !c.retry && d == avail < total ==> r == (Short, d))
      && (c.moved > 0 && d < total && d + c.moved >= total && avail >= total ==> r == (Moved(total), total))
      && (c.moved > 0 && d < most && d + c.moved < total ==>
            Exchange(before + [c], 0, total, avail) == (Unfinished, if d + c.moved < avail then d + c.moved else avail))
  {
    hide Exchange;
    GoesOn(before, [c] + rest, 0, total, avail);
    GoesOn(before, rest, 0, total, avail);
    GoesOn(before, [c], 0, total, avail);
    var d := Exchange(before, 0, total, avail).1;
    OneCall(c, rest, d, total - d, avail - d);
    OneCall(c, [], d, total - d, avail - d);
    assert [c] + [] == [c];
    var n := Returned(c, total - d, avail - d);
    if 0 <= n {
      NoCall(d + n, total - d - n, avail - d - n);
    }
  }
}
