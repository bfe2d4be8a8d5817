/**
 Keys and key vectors (src/util.c).

 A key is a byte string, ordered byte by byte; in the program it is spread over a vector of buffers
 that only mean something joined together.
 */
module Keys {
  import opened Vectors

  type Key = Bytes

  const MAXKEYLEN := 4096

  predicate Less(a: Key, b: Key) {
    b != [] && (a == [] || a[0] < b[0] || (a[0] == b[0] && Less(a[1..], b[1..])))
  }

  predicate AtMost(a: Key, b: Key) {
    a == b || Less(a, b)
  }

  lemma {:induction false} LessIrreflexive(a: Key)
    ensures !Less(a, a)
  {
    if a != [] {
      LessIrreflexive(a[1..]);
    }
  }

  lemma {:induction false} LessTransitive(a: Key, b: Key, c: Key)
    requires Less(a, b) && Less(b, c)
    ensures Less(a, c)
  {
    if a != [] && a[0] == b[0] && b[0] == c[0] {
      LessTransitive(a[1..], b[1..], c[1..]);
    }
  }

  lemma {:induction false} LessTotal(a: Key, b: Key)
    ensures Less(a, b) || a == b || Less(b, a)
  {
    if a != [] && b != [] && a[0] == b[0] {
      LessTotal(a[1..], b[1..]);
      assert a == [a[0]] + a[1..] && b == [b[0]] + b[1..];
    }
  }

  lemma LessAsymmetric(a: Key, b: Key)
    ensures !(Less(a, b) && Less(b, a))
  {
    if Less(a, b) && Less(b, a) {
      LessTransitive(a, b, a);
      LessIrreflexive(a);
    }
  }

  // ki_keydupf: a copy of the key in one buffer
  method DupFlat(vec: seq<seq<Byte>>) returns (key: Key)
    ensures key == Joined(vec)
  {
    var klen := 0;
    for i := 0 to |vec|
      invariant klen == |Joined(vec[..i])|
    {
      JoinedUpTo(vec, i);
      klen := klen + |vec[i]|;
    }
    assert vec[..|vec|] == vec;
    key := Flatten(vec, klen);
  }

  // ki_keyprepend: the grown vector is shifted down from its end, then the prefix goes in front
  method Prepend(vec: array<seq<Byte>>, buf: seq<Byte>) returns (grown: array<seq<Byte>>, ok: bool)
    ensures ok <==> |buf| <= 4096
    ensures ok ==> grown[..] == [buf] + vec[..] && Joined(grown[..]) == buf + Joined(vec[..])
    ensures !ok ==> grown == vec
  {
    hide Joined;
    if |buf| > MAXKEYLEN {
      return vec, false;
    }
    var n := vec.Length + 1;
    grown := new seq<Byte>[n](i requires 0 <= i < n reads vec => if i < vec.Length then vec[i] else []);
    var i := n - 1;
    while i > 0
      invariant 0 <= i < n
      invariant forall j :: 0 <= j <= i && j < vec.Length ==> grown[j] == vec[j]
      invariant forall j :: i < j < n ==> grown[j] == vec[j - 1]
    {
      grown[i] := grown[i - 1];
      i := i - 1;
    }
    grown[0] := buf;
    Shifted(vec[..], buf, grown[..]);
    return grown, true;
  }

  lemma Shifted(vec: seq<Bytes>, buf: Bytes, grown: seq<Bytes>)
    requires |grown| == |vec| + 1 && grown[0] == buf && forall j :: 0 < j < |grown| ==> grown[j] == vec[j - 1]
    ensures grown == [buf] + vec && Joined(grown) == buf + Joined(vec)
  {
    assert grown[1..] == vec;
  }

  // ki_keyappend
  method Append(vec: array<seq<Byte>>, buf: seq<Byte>) returns (grown: array<seq<Byte>>, ok: bool)
    ensures ok <==> |buf| <= 4096
    ensures ok ==> grown[..] == vec[..] + [buf] && Joined(grown[..]) == Joined(vec[..]) + buf
    ensures !ok ==> grown == vec
  {
    if |buf| > MAXKEYLEN {
      return vec, false;
    }
    var n := vec.Length + 1;
    grown := new seq<Byte>[n](i requires 0 <= i < n reads vec => if i < vec.Length then vec[i] else []);
    grown[n - 1] := buf;
    assert grown[..] == vec[..] + [buf];
    JoinedAppend(vec[..], buf);
    return grown, true;
  }

  const FIRST_KEY: Key := [0]

  function Last(len: nat): Key {
    seq(len, _ => 255)
  }

  // ki_keylast
  method KeyLast(len: nat) returns (key: Key)
    ensures key == Last(len)
  {
    var buf := new Byte[len](_ => 0);
    for i := 0 to len
      invariant forall j :: 0 <= j < i ==> buf[j] == 255
    {
      buf[i] := 255;
    }
    key := buf[..];
  }

  // No legal key comes before the first one.
  lemma FirstIsLeast(k: Key)
    requires k != []
    ensures AtMost(FIRST_KEY, k)
  {
    if k[0] == 0 && |k| == 1 {
      assert k == FIRST_KEY;
    }
  }

  // A key comes after the last one of length len exactly when it is that key with something behind it;
  // so no key of at most that length does.
  lemma {:induction false} AfterLastIff(k: Key, len: nat)
    ensures Less(Last(len), k) <==> |k| > len && k[..len] == Last(len)
  {
    if len != 0 && k != [] {
      assert Last(len)[1..] == Last(len - 1);
      AfterLastIff(k[1..], len - 1);
      if |k| > len {
        assert k[..len] == [k[0]] + k[1..][..len - 1];
        assert Last(len) == [255] + Last(len - 1);
      }
      if |k| > len && k[..len] == Last(len) {
        assert k[0] == k[..len][0];
        assert k[1..][..len - 1] == k[..len][1..];
      }
    }
  }
}
