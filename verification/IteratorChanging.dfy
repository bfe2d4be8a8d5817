/** Iterating over a store that others change between one window and the next. */
module IteratorChanging {
  import opened Common
  import opened Keys
  import opened Iterator

  // Keys that are in the store whenever it is asked.
  ghost predicate Present(vs: seq<Server>, stay: set<Key>) {
    forall i :: 0 <= i < |vs| ==> Ascending(vs[i].keys) && (forall k :: k in stay ==> k in vs[i].keys)
  }

  ghost predicate LegalServers(vs: seq<Server>, lim: Limits) {
    forall i :: 0 <= i < |vs| ==> forall k :: k in vs[i].keys ==> LegalKey(k, lim)
  }

  // The window holds keys of the requested range in order, and leaves out none of those that stay.
  ghost predicate Fair(it: It, stay: set<Key>) {
    && Live(it)
    && it.win.end == it.req.end && it.win.endInclusive == it.req.endInclusive
    && Ascending(it.keys)
    && (forall k :: k in it.keys ==> InRange(it.req, k))
    && (forall i :: 0 <= i < |it.keys| - 1 ==> NoneBetween(it.req, stay, it.keys[i], it.keys[i + 1]))
  }

  // None of the staying keys of the range lies strictly between two keys.
  ghost predicate NoneBetween(r: Range, stay: set<Key>, a: Key, b: Key) {
    forall k :: k in stay && InRange(r, k) && Less(a, k) ==> !Less(k, b)
  }

  ghost predicate NoneBehind(r: Range, stay: set<Key>, a: Key) {
    forall k :: k in stay && InRange(r, k) ==> !Less(a, k)
  }

  // In order behind c, and none of the range's staying keys that belong among them left out.
  ghost predicate Sound(ks: seq<Key>, r: Range, stay: set<Key>, c: Key) {
    && Ascending(ks)
    && (forall k :: k in ks ==> Less(c, k) && InRange(r, k))
    && (forall k :: k in stay && InRange(r, k) && Less(c, k) && ks != [] && AtMost(k, ks[|ks| - 1]) ==> k in ks)
  }

  ghost predicate AllOf(ks: seq<Key>, r: Range, stay: set<Key>, c: Key) {
    forall k :: k in stay && InRange(r, k) && Less(c, k) ==> k in ks
  }

  ghost predicate Within(t: Trace, it: It) {
    it.req.count == KVR_COUNT_INF || |t.keys| <= (if it.seen >= it.req.count then 0 else it.req.count - it.seen)
  }

  // An iteration that ended by itself, before its count was reached.
  predicate RanDry(t: Trace, it: It) {
    t.end.Some? && (it.req.count == KVR_COUNT_INF || |t.keys| < it.req.count - it.seen)
  }

  ghost predicate Faithful(t: Trace, it: It, stay: set<Key>, vs: seq<Server>)
    requires Live(it)
  {
    && Sound(t.keys, it.req, stay, it.keys[it.cur])
    && Within(t, it)
    && (RanDry(t, it) && Answers(vs) ==> AllOf(t.keys, it.req, stay, it.keys[it.cur]))
  }

  // Behind a key of the range, the restarted window and the range itself are the same.
  lemma BehindIsWindow(r: Range, w: Range, c: Key, k: Key)
    requires InRange(r, c) && w.start == Some(c) && !w.startInclusive
    requires w.end == r.end && w.endInclusive == r.endInclusive
    ensures InRange(w, k) <==> InRange(r, k) && Less(c, k)
  {
    if r.start.Some? && Less(r.start.value, c) && Less(c, k) {
      LessTransitive(r.start.value, c, k);
    }
  }

  lemma FirstIsNext(m: seq<Key>, k: Key)
    requires Ascending(m) && k in m
    ensures AtMost(m[0], k)
  {
    var i :| 0 <= i < |m| && m[i] == k;
    if i != 0 {
      assert Less(m[0], m[i]);
    }
  }

  lemma NothingInside(m: seq<Key>, i: nat, k: Key)
    requires Ascending(m) && k in m && i + 1 < |m|
    ensures !(Less(m[i], k) && Less(k, m[i + 1]))
  {
    var j :| 0 <= j < |m| && m[j] == k;
    if j <= i {
      if Less(m[i], k) {
        LessIrreflexive(k);
        if j < i {
          LessAsymmetric(m[j], m[i]);
        }
      }
    } else if Less(k, m[i + 1]) {
      LessIrreflexive(k);
      if i + 1 < j {
        LessAsymmetric(m[i + 1], m[j]);
      }
    }
  }

  // A freshly filled window is fair.
  lemma FilledIsFair(v: Server, w: Range, keys: seq<Key>, req: Range, seen: nat, stay: set<Key>)
    requires Ascending(v.keys) && (forall k :: k in stay ==> k in v.keys)
    requires w.end == req.end && w.endInclusive == req.endInclusive
    requires forall k :: k in v.keys && InRange(w, k) ==> InRange(req, k)
    requires forall k, i :: k in stay && InRange(req, k) && 0 <= i < |keys| && Less(keys[i], k) ==> InRange(w, k)
    requires keys != [] && keys <= Matching(v.keys, w)
    ensures Fair(It(req, w, keys, 0, seen + 1), stay)
  {
    var m := Matching(v.keys, w);
    MatchingIn(v.keys, w);
    MatchingAscends(v.keys, w);
    forall k | k in keys ensures InRange(req, k) {
      assert k in m;
    }
    forall i, k | 0 <= i < |keys| - 1 && k in stay && InRange(req, k) && Less(keys[i], k)
      ensures !Less(k, keys[i + 1])
    {
      assert keys[i] == m[i] && keys[i + 1] == m[i + 1];
      NothingInside(m, i, k);
    }
  }

  lemma NextFair(it: It, v: Server, w: Range, stay: set<Key>, keys: seq<Key>)
    requires Fair(it, stay) && it.cur + 1 == |it.keys|
    requires Ascending(v.keys) && (forall k :: k in stay ==> k in v.keys)
    requires w.start == Some(it.keys[it.cur]) && !w.startInclusive
    requires w.end == it.req.end && w.endInclusive == it.req.endInclusive
    requires keys != [] && keys <= Matching(v.keys, w)
    ensures Fair(It(it.req, w, keys, 0, it.seen + 1), stay)
    ensures Less(it.keys[it.cur], keys[0]) && InRange(it.req, keys[0])
    ensures NoneBetween(it.req, stay, it.keys[it.cur], keys[0])
  {
    var c := it.keys[it.cur];
    assert InRange(it.req, c) by {
      assert c in it.keys;
    }
    forall k ensures InRange(w, k) <==> InRange(it.req, k) && Less(c, k) {
      BehindIsWindow(it.req, w, c, k);
    }
    hide InRange, Fair, Less, Matching;
    MatchingIn(v.keys, w);
    MatchingAscends(v.keys, w);
    FrontInMatching(v.keys, w, keys);
    NoneBeforeFront(v, w, it.req, stay, c);
    forall k, i | k in stay && InRange(it.req, k) && 0 <= i < |keys| && Less(keys[i], k) ensures InRange(w, k) {
      assert keys[i] in Matching(v.keys, w);
      LessTransitive(c, keys[i], k);
    }
    FilledIsFair(v, w, keys, it.req, it.seen, stay);
  }

  lemma FrontInMatching(q: seq<Key>, w: Range, keys: seq<Key>)
    requires keys != [] && keys <= Matching(q, w)
    ensures keys[0] == Matching(q, w)[0] && keys[0] in Matching(q, w)
    ensures forall i :: 0 <= i < |keys| ==> keys[i] in Matching(q, w)
  {
    assert forall i :: 0 <= i < |keys| ==> keys[i] == Matching(q, w)[i];
  }

  lemma NoneBeforeFront(v: Server, w: Range, r: Range, stay: set<Key>, c: Key)
    requires Ascending(v.keys) && (forall k :: k in stay ==> k in v.keys) && Matching(v.keys, w) != []
    requires forall k :: InRange(w, k) <==> InRange(r, k) && Less(c, k)
    ensures NoneBetween(r, stay, c, Matching(v.keys, w)[0])
  {
    MatchingIn(v.keys, w);
    MatchingAscends(v.keys, w);
    hide Matching, InRange, Less, Ascending;
    forall k | k in stay && InRange(r, k) && Less(c, k) ensures !Less(k, Matching(v.keys, w)[0]) {
      NotBefore(Matching(v.keys, w), k);
    }
  }

  lemma NotBefore(m: seq<Key>, k: Key)
    requires Ascending(m) && k in m
    ensures !Less(k, m[0])
  {
    FirstIsNext(m, k);
    LessIrreflexive(k);
    LessAsymmetric(m[0], k);
  }

  // One key in front of a sound list, with none of the staying keys between it and the last one.
  lemma SoundBehind(ks: seq<Key>, r: Range, stay: set<Key>, c: Key, x: Key)
    requires Sound(ks, r, stay, x) && Less(c, x) && InRange(r, x) && NoneBetween(r, stay, c, x)
    ensures Sound([x] + ks, r, stay, c)
    ensures AllOf(ks, r, stay, x) ==> AllOf([x] + ks, r, stay, c)
  {
    var all := [x] + ks;
    hide InRange, Less;
    AscendingBehind(ks, c, x);
    forall k | k in stay && InRange(r, k) && Less(c, k) ensures k == x || Less(x, k) {
      LessTotal(k, x);
    }
    assert all[|all| - 1] == (if ks == [] then x else ks[|ks| - 1]);
    forall k | k in stay && InRange(r, k) && Less(c, k) && AtMost(k, all[|all| - 1]) ensures k in all {
      if k != x && ks == [] {
        LessAsymmetric(x, k);
      }
    }
  }

  lemma AscendingBehind(ks: seq<Key>, c: Key, x: Key)
    requires Ascending(ks) && Less(c, x) && (forall k :: k in ks ==> Less(x, k))
    ensures Ascending([x] + ks) && (forall k :: k in [x] + ks ==> Less(c, k))
  {
    hide Less;
    forall k | k in ks ensures Less(c, k) {
      LessTransitive(c, x, k);
    }
    forall i, j | 0 <= i < j < |[x] + ks| ensures Less(([x] + ks)[i], ([x] + ks)[j]) {
      assert ([x] + ks)[j] == ks[j - 1] && ks[j - 1] in ks;
    }
  }

  lemma FaithfulBehind(t: Trace, it: It, it': It, stay: set<Key>, vs: seq<Server>)
    requires Live(it) && Live(it') && vs != [] && !Exhausted(it)
    requires it'.req == it.req && it'.seen == it.seen + 1
    requires Faithful(t, it', stay, vs[1..])
    requires Less(it.keys[it.cur], it'.keys[it'.cur]) && InRange(it.req, it'.keys[it'.cur])
    requires NoneBetween(it.req, stay, it.keys[it.cur], it'.keys[it'.cur])
    ensures Faithful(Behind(it'.keys[it'.cur], t), it, stay, vs)
  {
    hide Sound, AllOf, NoneBetween, InRange, Less;
    SoundBehind(t.keys, it.req, stay, it.keys[it.cur], it'.keys[it'.cur]);
  }

  // A window shorter than the count, or a store that shrinks and grows, never makes ki_next repeat a key,
  // go back, or step over a key that stays.
  lemma {:induction false} ResumeChanging(it: It, vs: seq<Server>, stay: set<Key>, lim: Limits)
    requires Fair(it, stay) && Present(vs, stay) && LegalServers(vs, lim) && LegalRequest(it.req, lim)
    requires lim.rangekeycnt != 0 && forall k :: k in it.keys ==> LegalKey(k, lim)
    ensures Faithful(Resume(it, vs, lim), it, stay, vs)
    decreases |vs|
  {
    if vs != [] && !Exhausted(it) && it.cur + 1 < |it.keys| {
      var it' := it.(cur := it.cur + 1, seen := it.seen + 1);
      AdvanceFair(it, stay);
      hide Fair, Faithful, Exhausted, NoneBetween;
      ResumeChanging(it', vs[1..], stay, lim);
      FaithfulBehind(Resume(it', vs[1..], lim), it, it', stay, vs);
    } else if vs != [] && !Exhausted(it) && !vs[0].fails {
      NextIsValid(it, lim);
      hide Fair, Faithful, NoneBetween, Resume;
      ResumeWindow(it, vs, stay, lim);
    } else {
      NothingMore(it, vs, stay, lim);
    }
  }

  lemma NothingMore(it: It, vs: seq<Server>, stay: set<Key>, lim: Limits)
    requires Live(it) && (vs == [] || Exhausted(it) || (it.cur + 1 == |it.keys| && vs[0].fails))
    ensures Faithful(Resume(it, vs, lim), it, stay, vs)
  {
    hide InRange, Less;
  }

  lemma AdvanceFair(it: It, stay: set<Key>)
    requires Fair(it, stay) && it.cur + 1 < |it.keys|
    ensures var it' := it.(cur := it.cur + 1, seen := it.seen + 1);
      && Fair(it', stay)
      && Less(it.keys[it.cur], it'.keys[it'.cur]) && InRange(it.req, it'.keys[it'.cur])
      && NoneBetween(it.req, stay, it.keys[it.cur], it'.keys[it'.cur])
  {
    assert it.keys[it.cur + 1] in it.keys;
  }

  lemma {:induction false} ResumeWindow(it: It, vs: seq<Server>, stay: set<Key>, lim: Limits)
    requires Fair(it, stay) && Present(vs, stay) && LegalServers(vs, lim) && LegalRequest(it.req, lim)
    requires lim.rangekeycnt != 0 && vs != [] && !Exhausted(it) && it.cur + 1 == |it.keys| && !vs[0].fails
    requires ValidRange(NextWindow(it, lim.rangekeycnt), lim)
    ensures Faithful(Resume(it, vs, lim), it, stay, vs)
    decreases |vs|, 0
  {
    var w := NextWindow(it, lim.rangekeycnt);
    if Matching(vs[0].keys, w) == [] {
      hide Matching, InRange, Less, Ascending;
      NoneMatch(it, vs[0], w, stay);
    } else {
      var keys := GetRange(vs[0], w, lim).keys;
      var it' := It(it.req, w, keys, 0, it.seen + 1);
      hide Matching, InRange, Less, Ascending;
      NextFair(it, vs[0], w, stay, keys);
      FilledLegal(vs[0], w, keys, lim);
      assert Resume(it, vs, lim) == Behind(keys[0], Resume(it', vs[1..], lim));
      hide Fair, Faithful, Exhausted, NoneBetween, Resume, GetRange, NextWindow;
      ResumeChanging(it', vs[1..], stay, lim);
      FaithfulBehind(Resume(it', vs[1..], lim), it, it', stay, vs);
    }
  }

  lemma FilledLegal(v: Server, w: Range, keys: seq<Key>, lim: Limits)
    requires keys <= Matching(v.keys, w) && forall k :: k in v.keys ==> LegalKey(k, lim)
    ensures forall k :: k in keys ==> LegalKey(k, lim)
  {
    MatchingIn(v.keys, w);
    forall k | k in keys ensures k in Matching(v.keys, w) {
    }
  }

  lemma NoneMatch(it: It, v: Server, w: Range, stay: set<Key>)
    requires Fair(it, stay) && Matching(v.keys, w) == [] && it.cur + 1 == |it.keys|
    requires forall k :: k in stay ==> k in v.keys
    requires w.start == Some(it.keys[it.cur]) && !w.startInclusive
    requires w.end == it.req.end && w.endInclusive == it.req.endInclusive
    ensures NoneBehind(it.req, stay, it.keys[it.cur])
    ensures AllOf([], it.req, stay, it.keys[it.cur])
  {
    MatchingIn(v.keys, w);
    forall k | k in stay && InRange(it.req, k) ensures !Less(it.keys[it.cur], k) {
      BehindIsWindow(it.req, w, it.keys[it.cur], k);
    }
  }

  // What a client may rely on while others change the store: keys come in strictly ascending order, all
  // from the range, never more than the count; every key of the range that stays and is not above the
  // last key returned is among them; and when the iteration ends short of its count, so is every key of
  // the range that stays.
  ghost predicate Reliable(t: Trace, r: Range, vs: seq<Server>, stay: set<Key>) {
    && Ascending(t.keys) && (forall k :: k in t.keys ==> InRange(r, k))
    && (r.count != KVR_COUNT_INF ==> |t.keys| <= if r.count < 0 then 1 else r.count)
    && (t.keys != [] ==> forall k :: k in stay && InRange(r, k) && AtMost(k, t.keys[|t.keys| - 1]) ==> k in t.keys)
    && (Answers(vs) && t.end.Some? && Unlimited(r, |t.keys|) ==>
          forall k :: k in stay && InRange(r, k) ==> k in t.keys)
  }

  lemma WholeChanging(r: Range, vs: seq<Server>, stay: set<Key>, lim: Limits)
    requires vs != [] && Present(vs, stay) && LegalServers(vs, lim) && LegalRequest(r, lim) && lim.rangekeycnt != 0
    ensures Reliable(Whole(r, vs, lim), r, vs, stay)
  {
    var w := FirstWindow(r, lim.rangekeycnt);
    SpanIsAll(r, w);
    hide Matching, Less, Resume, Ascending, ValidRange, InRange, FirstWindow;
    if r.count != 0 && !vs[0].fails {
      MatchingIn(vs[0].keys, w);
      if GetRange(vs[0], w, lim).Keys? && Matching(vs[0].keys, w) != [] {
        var keys := GetRange(vs[0], w, lim).keys;
        StartFair(r, vs[0], w, stay, keys);
        FilledLegal(vs[0], w, keys, lim);
        WholeStarted(r, w, keys, vs, stay, lim);
        hide Reliable;
      } else {
        StartValid(r, lim);
      }
    }
  }

  // What the first window begins, the later ones go on with.
  lemma WholeStarted(r: Range, w: Range, keys: seq<Key>, vs: seq<Server>, stay: set<Key>, lim: Limits)
    requires vs != [] && Present(vs, stay) && LegalServers(vs, lim) && LegalRequest(r, lim) && lim.rangekeycnt != 0
    requires keys != [] && Fair(It(r, w, keys, 0, 1), stay) && InRange(r, keys[0]) && r.count != 0
    requires forall k :: k in keys ==> LegalKey(k, lim)
    requires forall k :: k in stay && InRange(r, k) ==> k == keys[0] || Less(keys[0], k)
    ensures Reliable(Behind(keys[0], Resume(It(r, w, keys, 0, 1), vs[1..], lim)), r, vs, stay)
  {
    hide Less, Resume, Ascending, InRange, Fair, Faithful;
    ResumeChanging(It(r, w, keys, 0, 1), vs[1..], stay, lim);
    WholeFrom(Resume(It(r, w, keys, 0, 1), vs[1..], lim), It(r, w, keys, 0, 1), stay, vs);
  }

  lemma StartValid(r: Range, lim: Limits)
    requires LegalRequest(r, lim) && lim.rangekeycnt != 0 && r.count != 0
    ensures ValidRange(FirstWindow(r, lim.rangekeycnt), lim)
  {
  }

  lemma StartFair(r: Range, v: Server, w: Range, stay: set<Key>, keys: seq<Key>)
    requires Ascending(v.keys) && (forall k :: k in stay ==> k in v.keys)
    requires w.end == r.end && w.endInclusive == r.endInclusive
    requires forall k :: InRange(w, k) <==> InRange(r, k)
    requires keys != [] && keys <= Matching(v.keys, w)
    ensures Fair(It(r, w, keys, 0, 1), stay) && InRange(r, keys[0])
    ensures forall k :: k in stay && InRange(r, k) ==> k == keys[0] || Less(keys[0], k)
  {
    hide Matching, InRange, Less;
    MatchingIn(v.keys, w);
    MatchingAscends(v.keys, w);
    FilledIsFair(v, w, keys, r, 0, stay);
    FrontInMatching(v.keys, w, keys);
    forall k | k in stay && InRange(r, k) ensures k == keys[0] || Less(keys[0], k) {
      FirstIsNext(Matching(v.keys, w), k);
    }
  }

  lemma WholeFrom(t: Trace, it: It, stay: set<Key>, vs: seq<Server>)
    requires Live(it) && it.cur == 0 && it.seen == 1 && it.req.count != 0 && vs != []
    requires Faithful(t, it, stay, vs[1..]) && InRange(it.req, it.keys[0])
    requires forall k :: k in stay && InRange(it.req, k) ==> k == it.keys[0] || Less(it.keys[0], k)
    ensures Reliable(Behind(it.keys[0], t), it.req, vs, stay)
  {
    hide InRange, Less;
    var ks := Behind(it.keys[0], t).keys;
    assert forall i :: 1 <= i < |ks| ==> ks[i] == t.keys[i - 1] && t.keys[i - 1] in t.keys;
    assert ks[|ks| - 1] == (if t.keys == [] then it.keys[0] else t.keys[|t.keys| - 1]);
    forall k | k in stay && InRange(it.req, k) && AtMost(k, ks[|ks| - 1]) ensures k in ks {
      if k != it.keys[0] && t.keys == [] {
        LessAsymmetric(k, it.keys[0]);
      }
    }
  }
}
