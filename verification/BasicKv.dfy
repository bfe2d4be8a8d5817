/**
 Large values spread over many keys (src/basickv.c).

 putn cuts a value into pieces of the server's largest value length and stores the i-th under the base
 key with ".%03d" behind it; getn joins them again; deln removes them.
 */
module BasicKv {
  import opened Common
  import opened Vectors
  import opened Keys

  const BKV_N_MAXKEYS := 256
  const SUFFIX_LEN := 4

  datatype Limits = Limits(keylen: nat, vallen: nat)

  // How one request to the server goes: done, not done, or done although the answer was lost.
  datatype Net = Done | Refused | Lost

  type Store = map<Key, Bytes>

  // sprintf of ".%03d"
  function Suffix(i: nat): Bytes
    requires i < 1000
  {
    ['.' as int, '0' as int + i / 100, '0' as int + i / 10 % 10, '0' as int + i % 10]
  }

  function Name(key: Key, i: nat): Key
    requires i < 1000
  {
    key + Suffix(i)
  }

  // The quotient rounded up
  function Ceiling(a: nat, b: nat): nat
    requires b != 0
  {
    a / b + if a % b != 0 then 1 else 0
  }

  // ... stored in a uint32_t
  function KeyCount(vlen: nat, vallen: nat): nat
    requires vallen != 0
  {
    Ceiling(vlen, vallen) % WORDS
  }

  // What the full pieces leave over
  function Leftover(vlen: nat, vallen: nat): nat
    requires vallen != 0
  {
    vlen % vallen
  }

  function PieceLength(vlen: nat, vallen: nat, n: nat, i: nat): nat
    requires vallen != 0
  {
    if i + 1 == n && Leftover(vlen, vallen) != 0 then Leftover(vlen, vallen) else vallen
  }

  function Piece(val: Bytes, vallen: nat, n: nat, i: nat): Bytes
    requires vallen != 0 && i * vallen + PieceLength(|val|, vallen, n, i) <= |val|
  {
    val[i * vallen..i * vallen + PieceLength(|val|, vallen, n, i)]
  }

  lemma Division(a: nat, b: nat)
    requires b != 0
    ensures a == a / b * b + a % b && a % b < b
  {
  }

  lemma Multiples(a: nat, b: nat, m: nat)
    requires a <= b
    ensures a * m <= b * m
  {
  }

  // The quotient rounded up is the least number of pieces that hold the value.
  lemma CeilingIs(vlen: nat, vallen: nat)
    requires vallen != 0
    ensures vlen <= Ceiling(vlen, vallen) * vallen
    ensures forall i :: 0 <= i < Ceiling(vlen, vallen) ==> i * vallen < vlen
  {
    Division(vlen, vallen);
    var q := vlen / vallen;
    forall i | 0 <= i < Ceiling(vlen, vallen) ensures i * vallen < vlen {
      if vlen % vallen != 0 {
        Multiples(i, q, vallen);
      } else {
        Multiples(i + 1, q, vallen);
        assert (i + 1) * vallen == i * vallen + vallen;
      }
    }
    assert (q + 1) * vallen == q * vallen + vallen;
  }

  function Min(a: nat, b: nat): nat {
    if a < b then a else b
  }

  lemma PieceInside(vlen: nat, vallen: nat, n: nat, i: nat)
    requires vallen != 0 && i < n <= Ceiling(vlen, vallen)
    ensures i * vallen + PieceLength(vlen, vallen, n, i) <= vlen
    ensures 0 < PieceLength(vlen, vallen, n, i) <= vallen
    ensures n == Ceiling(vlen, vallen) ==> i * vallen + PieceLength(vlen, vallen, n, i) == Min((i + 1) * vallen, vlen)
  {
    Division(vlen, vallen);
    var q := vlen / vallen;
    assert (i + 1) * vallen == i * vallen + vallen;
    if i + 1 == n && vlen % vallen != 0 {
      Multiples(i, q, vallen);
    } else {
      Multiples(i + 1, q, vallen);
    }
  }

  // The first m of the n pieces of a value
  function Pieces(val: Bytes, vallen: nat, n: nat, m: nat): (ps: seq<Bytes>)
    requires vallen != 0 && m <= n <= Ceiling(|val|, vallen)
    ensures |ps| == m
  {
    if m == 0 then []
    else
      PieceInside(|val|, vallen, n, m - 1);
      Pieces(val, vallen, n, m - 1) + [Piece(val, vallen, n, m - 1)]
  }

  // The store once the first pieces are in it
  function Stored(store: Store, key: Key, ps: seq<Bytes>): Store
    requires |ps| <= BKV_N_MAXKEYS
  {
    if ps == [] then store
    else Stored(store, key, ps[..|ps| - 1])[Name(key, |ps| - 1) := ps[|ps| - 1]]
  }

  // ... and once the first m are out of it
  function Removed(store: Store, key: Key, m: nat): Store
    requires m <= BKV_N_MAXKEYS
  {
    if m == 0 then store else Removed(store, key, m - 1) - {Name(key, m - 1)}
  }

  // What the first n keys of a base hold together, if they are all there
  function Fetched(store: Store, key: Key, n: nat): Option<Bytes>
    requires n <= BKV_N_MAXKEYS
  {
    if n == 0 then Some([])
    else
      match Fetched(store, key, n - 1)
      case None => None
      case Some(front) =>
        if Name(key, n - 1) in store then Some(front + store[Name(key, n - 1)]) else None
  }

  predicate LegalBase(key: Key, lim: Limits) {
    key != [] && lim.keylen != 0 && |key| + SUFFIX_LEN <= lim.keylen
  }

  class Kv {
    var store: Store
    const lim: Limits

    constructor (lim: Limits)
      ensures this.lim == lim && store == map[]
    {
      this.lim := lim;
      store := map[];
    }

    // bkv_limits: key length, value length and number of keys, unless the server has told no limits
    method BkvLimits() returns (rc: int, klen: nat, vlen: nat, maxn: nat)
      ensures rc == (if lim.keylen == 0 then -1 else 0)
      ensures rc == 0 ==> klen == lim.keylen && vlen == lim.vallen && maxn == 256
    {
      rc, klen, vlen, maxn := 0, lim.keylen, lim.vallen, BKV_N_MAXKEYS;
      if lim.keylen == 0 {
        rc := -1;
      }
    }

    // ki_put, ki_get and ki_del as far as they matter here
    method Put(key: Key, val: Bytes, net: Net) returns (ok: bool)
      modifies this
      ensures ok <==> net.Done?
      ensures store == if net.Refused? then old(store) else old(store)[key := val]
    {
      if !net.Refused? {
        store := store[key := val];
      }
      ok := net.Done?;
    }

    method Get(key: Key, net: Net) returns (val: Option<Bytes>)
      ensures val == if net.Done? && key in store then Some(store[key]) else None
    {
      val := if net.Done? && key in store then Some(store[key]) else None;
    }

    method Del(key: Key, net: Net) returns (ok: bool)
      modifies this
      ensures ok <==> net.Done? && key in old(store)
      ensures store == if net.Refused? then old(store) else old(store) - {key}
    {
      ok := net.Done? && key in store;
      if !net.Refused? {
        store := store - {key};
      }
    }

    // bkv_putn
    method PutN(key: Key, val: Bytes, net: nat -> Net) returns (rc: int, n: nat, ghost written: nat)
      requires lim.vallen != 0
      modifies this
      ensures !(LegalBase(key, lim) && val != []) ==> rc == -1 && store == old(store)
      ensures LegalBase(key, lim) && val != [] ==>
        && n == KeyCount(|val|, lim.vallen)
        && (n > 256 ==> rc == -1 && store == old(store))
        && (n <= 256 ==>
              && written <= n && n <= Ceiling(|val|, lim.vallen)
              && store == Stored(old(store), key, Pieces(val, lim.vallen, n, written))
              && (rc == n <==> forall i :: 0 <= i < n ==> net(i).Done?)
              && (rc == -1 || (rc == n && written == n)))
    {
      n, written := 0, 0;
      if key == [] || val == [] || lim.keylen == 0 || |key| + 1 + 3 > lim.keylen {
        return -1, n, written;
      }
      n := CountKeys(|val|, lim.vallen);
      if n > BKV_N_MAXKEYS {
        return -1, n, written;
      }
      var pval: nat, pvlen: nat := 0, lim.vallen;
      var i := 0;
      assert LegalBase(key, lim);
      hide Pieces, Stored, Ceiling, Putting, Suffix, KeyCount, LegalBase, PieceLength, Leftover, Name;
      PuttingStarts(store, key, val, lim.vallen, n);
      while i < n
        invariant i <= n && written == i
        invariant i < n ==> pvlen == lim.vallen
        invariant n <= Ceiling(|val|, lim.vallen) && Putting(old(store), store, key, val, lim.vallen, n, i, pval)
        invariant forall j :: 0 <= j < i ==> net(j).Done?
      {
        if i == n - 1 && Leftover(|val|, lim.vallen) != 0 {
          pvlen := Leftover(|val|, lim.vallen);
        }
        PuttingGoesOn(old(store), store, key, val, lim.vallen, n, i, pval, pvlen);
        var ok := Put(Name(key, i), val[pval..pval + pvlen], net(i));
        if !net(i).Refused? {
          written := i + 1;
        }
        if !ok {
          ghost var past := if net(i).Refused? then pval else pval + pvlen;
          PuttingMeans(old(store), store, key, val, lim.vallen, n, written, past);
          return -1, n, written;
        }
        pval := pval + pvlen;
        i := i + 1;
      }
      PuttingMeans(old(store), store, key, val, lim.vallen, n, i, pval);
      rc := n;
    }

    // bkv_getn
    method GetN(key: Key, n: nat, net: nat -> Net) returns (rc: int, val: Option<Bytes>)
      ensures !(LegalBase(key, lim) && 0 < n <= 256) ==> rc == -1 && val == None
      ensures LegalBase(key, lim) && 0 < n <= 256 ==>
        && val == (if forall i :: 0 <= i < n ==> net(i).Done? then Fetched(store, key, n) else None)
        && rc == if val.Some? then n else -1
    {
      if key == [] || n == 0 || n > BKV_N_MAXKEYS || lim.keylen == 0 || |key| + 1 + 3 > lim.keylen {
        return -1, None;
      }
      var ival: seq<Bytes>, vlen := [], 0;
      for i := 0 to n
        invariant |ival| == i && vlen == |Joined(ival)|
        invariant Fetched(store, key, i) == Some(Joined(ival))
        invariant forall j :: 0 <= j < i ==> net(j).Done?
      {
        var got := Get(key + Suffix(i), net(i));
        if got.None? {
          if net(i).Done? {
            FetchedNone(store, key, i + 1, n);
          }
          return -1, None;
        }
        JoinedAppend(ival, got.value);
        ival := ival + [got.value];
        vlen := vlen + |got.value|;
      }
      var buf := Flatten(ival, vlen);
      rc, val := n, Some(buf);
    }

    // bkv_deln
    method DelN(key: Key, n: nat, net: nat -> Net) returns (rc: int, ghost gone: nat)
      modifies this
      ensures !(LegalBase(key, lim) && 0 < n <= 256) ==> rc == -1 && store == old(store)
      ensures LegalBase(key, lim) && 0 < n <= 256 ==>
        && gone <= n && store == Removed(old(store), key, gone)
        && (rc == n <==> forall i :: 0 <= i < n ==> net(i).Done? && Name(key, i) in old(store))
        && (rc == -1 || (rc == n && gone == n))
    {
      gone := 0;
      if key == [] || n == 0 || n > BKV_N_MAXKEYS || lim.keylen == 0 || |key| + 1 + 3 > lim.keylen {
        return -1, 0;
      }
      var i := 0;
      while i < n
        invariant i <= n && gone == i && store == Removed(old(store), key, i)
        invariant forall j :: 0 <= j < i ==> net(j).Done? && Name(key, j) in old(store)
      {
        StillThere(old(store), key, i);
        var ok := Del(key + Suffix(i), net(i));
        if !net(i).Refused? {
          gone := i + 1;
        }
        if !ok {
          return -1, gone;
        }
        i := i + 1;
      }
      rc := n;
    }
  }

  lemma PieceSpan(val: Bytes, vallen: nat, n: nat, i: nat)
    requires vallen != 0 && i < n <= Ceiling(|val|, vallen)
    ensures i * vallen + PieceLength(|val|, vallen, n, i) <= |val|
    ensures Pieces(val, vallen, n, i + 1) == Pieces(val, vallen, n, i) + [Piece(val, vallen, n, i)]
    ensures Piece(val, vallen, n, i) == val[i * vallen..i * vallen + PieceLength(|val|, vallen, n, i)]
    ensures i + 1 < n ==> i * vallen + PieceLength(|val|, vallen, n, i) == (i + 1) * vallen
  {
    PieceInside(|val|, vallen, n, i);
  }

  // The division in bkv_putn, rounded up and cut to 32 bits
  method CountKeys(vlen: nat, vallen: nat) returns (n: nat)
    requires vallen != 0
    ensures n == KeyCount(vlen, vallen) <= Ceiling(vlen, vallen)
  {
    n := (vlen / vallen + if vlen % vallen != 0 then 1 else 0) % WORDS;
  }

  // The first i pieces are stored, and the value pointer stands behind them.
  ghost predicate Putting(was: Store, now: Store, key: Key, val: Bytes, vallen: nat, n: nat, i: nat, pval: nat)
    requires vallen != 0 && i <= n <= Ceiling(|val|, vallen) && n <= BKV_N_MAXKEYS
  {
    now == Stored(was, key, Pieces(val, vallen, n, i)) && (i < n ==> pval == i * vallen)
  }

  lemma PuttingStarts(store: Store, key: Key, val: Bytes, vallen: nat, n: nat)
    requires vallen != 0 && n <= Ceiling(|val|, vallen) && n <= BKV_N_MAXKEYS
    ensures Putting(store, store, key, val, vallen, n, 0, 0)
  {
  }

  lemma PuttingGoesOn(was: Store, now: Store, key: Key, val: Bytes, vallen: nat, n: nat, i: nat, pval: nat, len: nat)
    requires vallen != 0 && i < n <= Ceiling(|val|, vallen) && n <= BKV_N_MAXKEYS
    requires Putting(was, now, key, val, vallen, n, i, pval)
    requires len == if i == n - 1 && Leftover(|val|, vallen) != 0 then Leftover(|val|, vallen) else vallen
    ensures pval + len <= |val|
    ensures Putting(was, now[Name(key, i) := val[pval..pval + len]], key, val, vallen, n, i + 1, pval + len)
  {
    assert len == PieceLength(|val|, vallen, n, i);
    PieceSpan(val, vallen, n, i);
    hide Pieces, Ceiling, PieceLength;
    StoredNext(was, key, Pieces(val, vallen, n, i), Piece(val, vallen, n, i));
  }

  lemma PuttingMeans(was: Store, now: Store, key: Key, val: Bytes, vallen: nat, n: nat, i: nat, pval: nat)
    requires vallen != 0 && i <= n <= Ceiling(|val|, vallen) && n <= BKV_N_MAXKEYS
    requires Putting(was, now, key, val, vallen, n, i, pval)
    ensures now == Stored(was, key, Pieces(val, vallen, n, i))
  {
  }

  lemma StoredNext(store: Store, key: Key, ps: seq<Bytes>, p: Bytes)
    requires |ps| < BKV_N_MAXKEYS
    ensures Stored(store, key, ps + [p]) == Stored(store, key, ps)[Name(key, |ps|) := p]
  {
    assert (ps + [p])[..|ps|] == ps;
  }

  lemma {:induction false} FetchedNone(store: Store, key: Key, i: nat, n: nat)
    requires i <= n <= BKV_N_MAXKEYS && Fetched(store, key, i) == None
    ensures Fetched(store, key, n) == None
  {
    if i < n {
      FetchedNone(store, key, i, n - 1);
    }
  }

  // --- names ---

  // The names made for pieces tell both the base key and the index.
  lemma NameInjective(a: Key, i: nat, b: Key, j: nat)
    requires i < 1000 && j < 1000 && Name(a, i) == Name(b, j)
    ensures a == b && i == j
  {
    SameParts(a, Suffix(i), b, Suffix(j));
    SuffixInjective(i, j);
  }

  lemma SameParts(a: Bytes, x: Bytes, b: Bytes, y: Bytes)
    requires a + x == b + y && |x| == |y|
    ensures a == b && x == y
  {
    assert |a| == |b|;
    assert a == (a + x)[..|a|] && b == (b + y)[..|b|];
    assert x == (a + x)[|a|..] && y == (b + y)[|b|..];
  }

  lemma Digits(i: nat)
    requires i < 1000
    ensures i == 100 * (i / 100) + 10 * (i / 10 % 10) + i % 10
  {
  }

  // The suffix is a dot and the three digits of the index, the highest first.
  lemma SuffixReads(i: nat)
    requires i < 1000
    ensures |Suffix(i)| == 4 && Suffix(i)[0] == 46
    ensures forall j :: 1 <= j <= 3 ==> 48 <= Suffix(i)[j] <= 57
    ensures 100 * (Suffix(i)[1] as int - 48) + 10 * (Suffix(i)[2] as int - 48) + (Suffix(i)[3] as int - 48) == i
  {
    Digits(i);
  }

  // The names made from a base are no longer than the server takes exactly when the base leaves room for that,
  // and this is the test that is made.
  lemma NameFitsIff(key: Key, i: nat, lim: Limits)
    requires i < 1000 && key != [] && lim.keylen != 0
    ensures |Name(key, i)| <= lim.keylen <==> LegalBase(key, lim)
    ensures Name(key, i)[..|key|] == key && Name(key, i)[|key|..] == Suffix(i)
  {
    SuffixReads(i);
    hide Suffix;
  }

  lemma SuffixInjective(i: nat, j: nat)
    requires i < 1000 && j < 1000 && Suffix(i) == Suffix(j)
    ensures i == j
  {
    Digits(i);
    Digits(j);
    assert Suffix(i)[1] == Suffix(j)[1] && Suffix(i)[2] == Suffix(j)[2] && Suffix(i)[3] == Suffix(j)[3];
  }

  lemma {:induction false} StillThere(store: Store, key: Key, m: nat)
    requires m <= BKV_N_MAXKEYS
    ensures forall k :: k in Removed(store, key, m) ==> k in store
    ensures m < BKV_N_MAXKEYS ==> (Name(key, m) in Removed(store, key, m) <==> Name(key, m) in store)
  {
    if m > 0 {
      StillThere(store, key, m - 1);
    }
    if m < BKV_N_MAXKEYS {
      RemovedFrame(store, key, m, key, m);
    }
  }

  lemma {:induction false} RemovedFrame(store: Store, key: Key, m: nat, other: Key, i: nat)
    requires m <= BKV_N_MAXKEYS && i < 1000 && (other != key || i >= m)
    ensures Name(other, i) in Removed(store, key, m) <==> Name(other, i) in store
    ensures Name(other, i) in store ==> Removed(store, key, m)[Name(other, i)] == store[Name(other, i)]
  {
    if m > 0 {
      RemovedFrame(store, key, m - 1, other, i);
      if Name(other, i) == Name(key, m - 1) {
        NameInjective(other, i, key, m - 1);
      }
    }
  }

  lemma {:induction false} StoredFrame(store: Store, key: Key, ps: seq<Bytes>, other: Key, i: nat)
    requires |ps| <= BKV_N_MAXKEYS && i < 1000 && (other != key || i >= |ps|)
    ensures Name(other, i) in Stored(store, key, ps) <==> Name(other, i) in store
    ensures Name(other, i) in store ==> Stored(store, key, ps)[Name(other, i)] == store[Name(other, i)]
  {
    if ps != [] {
      StoredFrame(store, key, ps[..|ps| - 1], other, i);
      if Name(other, i) == Name(key, |ps| - 1) {
        NameInjective(other, i, key, |ps| - 1);
      }
    }
  }

  // --- what the operations amount to ---

  // No piece of a value is empty, and none is longer than the server takes.
  lemma {:induction false} PiecesLegal(val: Bytes, vallen: nat, n: nat, m: nat)
    requires vallen != 0 && m <= n <= Ceiling(|val|, vallen)
    ensures forall i :: 0 <= i < m ==> 0 < |Pieces(val, vallen, n, m)[i]| <= vallen
    ensures forall i :: 0 <= i < m && i + 1 < n ==> |Pieces(val, vallen, n, m)[i]| == vallen
  {
    if m > 0 {
      PiecesLegal(val, vallen, n, m - 1);
      PieceSpan(val, vallen, n, m - 1);
      PieceInside(|val|, vallen, n, m - 1);
    }
  }

  // Joined, the pieces are the value.
  lemma {:induction false} PiecesJoin(val: Bytes, vallen: nat, n: nat, m: nat)
    requires vallen != 0 && n == Ceiling(|val|, vallen) && m <= n
    ensures Joined(Pieces(val, vallen, n, m)) == val[..Min(m * vallen, |val|)]
  {
    if m > 0 {
      PiecesJoin(val, vallen, n, m - 1);
      PieceAfter(val, vallen, n, m);
      JoinedAppend(Pieces(val, vallen, n, m - 1), Piece(val, vallen, n, m - 1));
      hide Piece, Pieces, Ceiling, PieceLength, Joined;
      NextSlice(val, (m - 1) * vallen, Min(m * vallen, |val|));
    }
  }

  lemma PieceAfter(val: Bytes, vallen: nat, n: nat, m: nat)
    requires vallen != 0 && n == Ceiling(|val|, vallen) && 0 < m <= n
    ensures (m - 1) * vallen + PieceLength(|val|, vallen, n, m - 1) <= |val|
    ensures Pieces(val, vallen, n, m) == Pieces(val, vallen, n, m - 1) + [Piece(val, vallen, n, m - 1)]
    ensures (m - 1) * vallen <= Min(m * vallen, |val|) && Min((m - 1) * vallen, |val|) == (m - 1) * vallen
    ensures Piece(val, vallen, n, m - 1) == val[(m - 1) * vallen..Min(m * vallen, |val|)]
  {
    PieceSpan(val, vallen, n, m - 1);
    PieceInside(|val|, vallen, n, m - 1);
    assert (m - 1) * vallen + vallen == m * vallen;
  }

  lemma PiecesAreAll(val: Bytes, vallen: nat, n: nat)
    requires vallen != 0 && n == Ceiling(|val|, vallen)
    ensures Joined(Pieces(val, vallen, n, n)) == val
  {
    CeilingIs(|val|, vallen);
    PiecesJoin(val, vallen, n, n);
    WholeSlice(val, Min(n * vallen, |val|));
  }

  lemma NextSlice(val: Bytes, a: nat, b: nat)
    requires a <= b <= |val|
    ensures val[..a] + val[a..b] == val[..b]
  {
  }

  lemma WholeSlice(val: Bytes, a: nat)
    requires a == |val|
    ensures val[..a] == val
  {
  }

  lemma {:induction false} FetchedStored(store: Store, key: Key, ps: seq<Bytes>, m: nat)
    requires m <= |ps| <= BKV_N_MAXKEYS
    ensures Fetched(Stored(store, key, ps), key, m) == Some(Joined(ps[..m]))
  {
    if m > 0 {
      FetchedStored(store, key, ps, m - 1);
      StoredAt(store, key, ps, m - 1);
      JoinedUpTo(ps, m - 1);
    }
  }

  lemma {:induction false} StoredAt(store: Store, key: Key, ps: seq<Bytes>, i: nat)
    requires i < |ps| <= BKV_N_MAXKEYS
    ensures Name(key, i) in Stored(store, key, ps) && Stored(store, key, ps)[Name(key, i)] == ps[i]
  {
    if i + 1 < |ps| {
      StoredAt(store, key, ps[..|ps| - 1], i);
      if Name(key, i) == Name(key, |ps| - 1) {
        NameInjective(key, i, key, |ps| - 1);
      }
    }
  }

  lemma {:induction false} PiecesLength(val: Bytes, vallen: nat, n: nat, m: nat)
    requires vallen != 0 && m <= n <= Ceiling(|val|, vallen)
    ensures |Joined(Pieces(val, vallen, n, m))| <= m * vallen
  {
    if m > 0 {
      PiecesLength(val, vallen, n, m - 1);
      PieceSpan(val, vallen, n, m - 1);
      PieceInside(|val|, vallen, n, m - 1);
      hide Piece, Pieces, Ceiling, PieceLength;
      JoinedAppend(Pieces(val, vallen, n, m - 1), Piece(val, vallen, n, m - 1));
      assert (m - 1) * vallen + vallen == m * vallen;
    }
  }

  // After a putn that succeeded with n keys, getn of n keys gives the value back byte for byte, exactly
  // when the number of keys did not overflow its 32 bits.
  lemma PutThenGetIff(store: Store, key: Key, val: Bytes, vallen: nat)
    requires vallen != 0 && val != [] && KeyCount(|val|, vallen) <= BKV_N_MAXKEYS
    ensures KeyCount(|val|, vallen) <= Ceiling(|val|, vallen)
    ensures var n := KeyCount(|val|, vallen);
      Fetched(Stored(store, key, Pieces(val, vallen, n, n)), key, n) == Some(val)
      <==> Ceiling(|val|, vallen) < WORDS
  {
    var n, c := KeyCount(|val|, vallen), Ceiling(|val|, vallen);
    CountIs(|val|, vallen);
    CeilingIs(|val|, vallen);
    var ps := Pieces(val, vallen, n, n);
    hide Ceiling, KeyCount, Pieces, Stored, Fetched, Joined;
    FetchedStored(store, key, ps, n);
    assert ps[..n] == ps;
    if c < WORDS {
      PiecesAreAll(val, vallen, n);
    } else {
      PiecesLength(val, vallen, n, n);
      assert n * vallen < |val|;
    }
  }

  lemma CountIs(vlen: nat, vallen: nat)
    requires vallen != 0
    ensures KeyCount(vlen, vallen) <= Ceiling(vlen, vallen)
    ensures KeyCount(vlen, vallen) == Ceiling(vlen, vallen) <==> Ceiling(vlen, vallen) < WORDS
  {
    hide Ceiling;
  }

  // Whatever is put or deleted under one base, what getn finds under another stays the same.
  lemma {:induction false} OtherBaseStays(store: Store, key: Key, ps: seq<Bytes>, m: nat, other: Key, n: nat)
    requires |ps| <= BKV_N_MAXKEYS && m <= BKV_N_MAXKEYS && n <= BKV_N_MAXKEYS && other != key
    ensures Fetched(Stored(store, key, ps), other, n) == Fetched(store, other, n)
    ensures Fetched(Removed(store, key, m), other, n) == Fetched(store, other, n)
  {
    if n > 0 {
      OtherBaseStays(store, key, ps, m, other, n - 1);
      StoredFrame(store, key, ps, other, n - 1);
      RemovedFrame(store, key, m, other, n - 1);
    }
  }

  // Once m keys of a base have been deleted, getn of that base fails, however many it asks for.
  lemma DeletedIsGone(store: Store, key: Key, m: nat, n: nat)
    requires 0 < m <= BKV_N_MAXKEYS && 0 < n <= BKV_N_MAXKEYS
    ensures Fetched(Removed(store, key, m), key, n) == None
  {
    FirstGone(store, key, m);
    assert Fetched(Removed(store, key, m), key, 0) == Some([]);
    assert Fetched(Removed(store, key, m), key, 1) == None;
    FetchedNone(Removed(store, key, m), key, 1, n);
  }

  lemma {:induction false} FirstGone(store: Store, key: Key, m: nat)
    requires 0 < m <= BKV_N_MAXKEYS
    ensures Name(key, 0) !in Removed(store, key, m)
  {
    if m > 1 {
      FirstGone(store, key, m - 1);
    }
  }

  // Deleting as many keys as a putn wrote undoes it, for a base that had none of them.
  lemma {:induction false} DeleteUndoesPut(store: Store, key: Key, ps: seq<Bytes>)
    requires |ps| <= BKV_N_MAXKEYS
    requires forall i :: 0 <= i < |ps| ==> Name(key, i) !in store
    ensures Removed(Stored(store, key, ps), key, |ps|) == store
  {
    if ps != [] {
      var m := |ps| - 1;
      forall i | 0 <= i < m ensures Name(key, i) != Name(key, m) {
        if Name(key, i) == Name(key, m) {
          NameInjective(key, i, key, m);
        }
      }
      RemovedCommutes(Stored(store, key, ps[..m]), key, m, Name(key, m), ps[m]);
      DeleteUndoesPut(store, key, ps[..m]);
      assert store[Name(key, m) := ps[m]] - {Name(key, m)} == store;
    }
  }

  lemma {:induction false} RemovedCommutes(store: Store, key: Key, m: nat, k: Key, v: Bytes)
    requires m <= BKV_N_MAXKEYS && forall i :: 0 <= i < m ==> Name(key, i) != k
    ensures Removed(store[k := v], key, m) == Removed(store, key, m)[k := v]
  {
    if m > 0 {
      RemovedCommutes(store, key, m - 1, k, v);
    }
  }
}
