/** Vectors of buffers (struct kiovec, struct iovec) and the bytes they stand for. */
module Vectors {
  type Byte = b: nat | b < 256
  type Bytes = seq<Byte>

  // What a vector of buffers stands for.
  function Joined(vec: seq<Bytes>): Bytes {
    if vec == [] then [] else vec[0] + Joined(vec[1..])
  }

  lemma {:induction false} JoinedAppend(vec: seq<Bytes>, buf: Bytes)
    ensures Joined(vec + [buf]) == Joined(vec) + buf
  {
    if vec == [] {
      assert [buf][1..] == [];
    } else {
      JoinedAppend(vec[1..], buf);
      assert (vec + [buf])[1..] == vec[1..] + [buf];
    }
  }

  lemma {:induction false} JoinedUpTo(vec: seq<Bytes>, i: nat)
    requires i < |vec|
    ensures Joined(vec[..i + 1]) == Joined(vec[..i]) + vec[i]
    ensures |Joined(vec[..i])| + |vec[i]| <= |Joined(vec)|
  {
    assert vec[..i + 1] == vec[..i] + [vec[i]];
    JoinedAppend(vec[..i], vec[i]);
    JoinedSplit(vec, i + 1);
  }

  lemma {:induction false} JoinedSplit(vec: seq<Bytes>, i: nat)
    requires i <= |vec|
    ensures Joined(vec) == Joined(vec[..i]) + Joined(vec[i..])
  {
    if i == 0 {
      assert vec[0..] == vec;
    } else {
      JoinedSplit(vec[1..], i - 1);
      assert vec[..i] == [vec[0]] + vec[1..][..i - 1];
      assert vec[1..][i - 1..] == vec[i..];
    }
  }

  // memcpy
  method CopyIn(buf: array<Byte>, at: nat, bytes: Bytes)
    requires at + |bytes| <= buf.Length
    modifies buf
    ensures buf[..at + |bytes|] == old(buf[..at]) + bytes
    ensures buf[at + |bytes|..] == old(buf[at + |bytes|..])
  {
    forall i | 0 <= i < |bytes| {
      buf[at + i] := bytes[i];
    }
  }

  // One buffer of the given size, filled with one vector element after the other
  method Flatten(vec: seq<Bytes>, total: nat) returns (bytes: Bytes)
    requires total == |Joined(vec)|
    ensures bytes == Joined(vec)
  {
    var buf := new Byte[total](_ => 0);
    var at := 0;
    for i := 0 to |vec|
      invariant at == |Joined(vec[..i])| && at <= buf.Length == |Joined(vec)|
      invariant buf[..at] == Joined(vec[..i])
    {
      JoinedUpTo(vec, i);
      CopyIn(buf, at, vec[i]);
      at := at + |vec[i]|;
    }
    assert vec[..|vec|] == vec;
    bytes := buf[..];
  }
}
