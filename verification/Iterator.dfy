/**
 The windowed key iterator (src/iter.c) on top of ki_getrange (src/range.c).

 An iteration is stitched from many range requests; each new one starts, exclusively, behind the last
 key of the one before. The server decides how much of a window it fills.
 */
module Iterator {
  import opened Common
  import opened Keys

  const KVR_COUNT_INF := -1

  type Int32 = x: int | -0x8000_0000 <= x < 0x8000_0000
  type Window = n: nat | n < 0x8000_0000

  // krange_t without its answer; reverse ranges are not iterated
  datatype Range = Range(start: Option<Key>, startInclusive: bool, end: Option<Key>, endInclusive: bool, count: Int32)

  datatype Limits = Limits(keylen: nat, rangekeycnt: Window)

  // What ki_start and ki_next return: NULL, a pointer to a key, or a pointer past an empty key array; Wild
  // when ki_next first reads in front of such an array, after which nothing is certain.
  datatype Item = End | Got(key: Key) | Stray | Wild

  // A server at the moment it is asked: its keys in order, how many it cares to return at once, whether
  // the exchange fails, and whether it answers an empty range with an OK status.
  datatype Server = Server(keys: seq<Key>, most: nat, fails: bool, okWhenEmpty: bool)

  datatype Reply = Failed | Keys(keys: seq<Key>)

  predicate Ascending(q: seq<Key>) {
    forall i, j :: 0 <= i < j < |q| ==> Less(q[i], q[j])
  }

  predicate InRange(r: Range, k: Key) {
    && (r.start.Some? ==> Less(r.start.value, k) || (r.startInclusive && k == r.start.value))
    && (r.end.Some? ==> Less(k, r.end.value) || (r.endInclusive && k == r.end.value))
  }

  function Matching(q: seq<Key>, r: Range): seq<Key> {
    if q == [] then [] else (if InRange(r, q[0]) then [q[0]] else []) + Matching(q[1..], r)
  }

  predicate LegalKey(k: Key, lim: Limits) {
    0 < |k| <= lim.keylen
  }

  // an int32_t compared with a uint32_t
  function AsUnsigned(x: int): int {
    x % WORDS
  }

  // ki_validate_range
  predicate ValidRange(r: Range, lim: Limits) {
    && (r.start.Some? ==> LegalKey(r.start.value, lim))
    && (r.end.Some? ==> LegalKey(r.end.value, lim))
    && (r.count == KVR_COUNT_INF || (r.count != 0 && AsUnsigned(r.count) <= lim.rangekeycnt))
  }

  // ki_getrange: some keys of the range from its front on, at least one while there are any
  function GetRange(v: Server, r: Range, lim: Limits): Reply {
    if v.fails || !ValidRange(r, lim) then Failed
    else
      var m := Matching(v.keys, r);
      if m == [] then (if v.okWhenEmpty then Keys([]) else Failed)
      else Keys(m[..if v.most == 0 then 1 else if v.most < |m| then v.most else |m|])
  }

  // How many keys a window asks for when left are still wanted.
  function WindowCount(count: Int32, left: int, max: Window): (n: Int32)
    requires count == KVR_COUNT_INF || left < 0x8000_0000
  {
    if count == KVR_COUNT_INF || left < 0 || left > max then max else left
  }

  // the fields of struct kiter: ki_rreq, ki_curwin, kr_keys, ki_curkey, ki_seenkeys
  datatype It = It(req: Range, win: Range, keys: seq<Key>, cur: nat, seen: int)

  function FirstWindow(r: Range, max: Window): Range {
    r.(count := WindowCount(r.count, r.count, max))
  }

  // A key has just been returned.
  predicate Live(it: It) {
    it.cur < |it.keys| && 1 <= it.seen
  }

  function NextWindow(it: It, max: Window): Range
    requires Live(it)
  {
    it.win.(start := Some(it.keys[|it.keys| - 1]), startInclusive := false,
            count := WindowCount(it.req.count, it.req.count - it.seen, max))
  }

  predicate Exhausted(it: It) {
    it.req.count != KVR_COUNT_INF && it.seen >= it.req.count
  }

  // What a window's answer means to the caller, and to the iterator when it yields a key.
  predicate Refilled(reply: Reply, win: Range, seen: int, req: Range, item: Item, it: It) {
    match reply
    case Failed => item == End && it.keys == []
    case Keys(keys) =>
      if keys == [] then item == Stray && it.keys == []
      else item == Got(keys[0]) && it == It(req, win, keys, 0, seen + 1)
  }

  class Kiter {
    var req: Range
    var win: Range
    var keys: seq<Key>
    var cur: nat
    var seen: int
    const lim: Limits

    function View(): It
      reads this
    {
      It(req, win, keys, cur, seen)
    }

    // A window that holds keys holds the one that was returned last.
    predicate Valid()
      reads this
    {
      keys != [] ==> Live(View())
    }

    // i_iterinit
    constructor (lim: Limits)
      ensures this.lim == lim && Valid() && keys == [] && cur == 0 && seen == 0 && Exhausted(View())
    {
      this.lim := lim;
      req, win := Range(None, false, None, false, 0), Range(None, false, None, false, 0);
      keys, cur, seen := [], 0, 0;
    }

    // ki_start
    method Start(r: Range, v: Server) returns (item: Item)
      requires Valid()
      modifies this
      ensures Valid()
      ensures r.count == 0 ==> item == End && View() == old(View())
      ensures r.count != 0 ==>
        var w := FirstWindow(r, lim.rangekeycnt); Refilled(GetRange(v, w, lim), w, 0, r, item, View())
    {
      if r.count == 0 {
        return End;
      }
      req, win, keys := r, r, [];
      if r.count == KVR_COUNT_INF || AsUnsigned(r.count) > lim.rangekeycnt {
        win := win.(count := lim.rangekeycnt);
      }
      var reply := GetRange(v, win, lim);
      if reply == Failed {
        return End;
      }
      keys, cur, seen := reply.keys, 0, 1;
      item := if cur < |keys| then Got(keys[cur]) else Stray;
    }

    // ki_next
    method Next(v: Server) returns (item: Item)
      requires Valid()
      modifies this
      ensures Valid()
      ensures Exhausted(old(View())) ==> item == End && View() == old(View())
      ensures !Exhausted(old(View())) && old(keys) == [] ==> item == Wild
      ensures !Exhausted(old(View())) && old(cur) + 1 < |old(keys)| ==>
        item == Got(old(keys)[old(cur) + 1]) && View() == old(View()).(cur := old(cur) + 1, seen := old(seen) + 1)
      ensures !Exhausted(old(View())) && old(keys) != [] && old(cur) + 1 == |old(keys)| ==>
        var w := NextWindow(old(View()), lim.rangekeycnt);
        Refilled(GetRange(v, w, lim), w, old(seen), old(req), item, View())
    {
      hide GetRange, Matching, InRange, Less, ValidRange;
      if req.count != KVR_COUNT_INF && seen >= req.count {
        return End;
      }
      cur := cur + 1;
      if cur >= |keys| {
        if keys == [] {
          return Wild;
        }
        var lastkey := DupFlat([keys[|keys| - 1]]);
        assert lastkey == keys[|keys| - 1];
        keys := [];
        win := win.(start := Some(lastkey), startInclusive := false);
        var keysleft := AsUnsigned(req.count - seen);
        if req.count == KVR_COUNT_INF || keysleft > lim.rangekeycnt {
          win := win.(count := lim.rangekeycnt);
        } else {
          win := win.(count := keysleft);
        }
        var reply := GetRange(v, win, lim);
        if reply == Failed {
          return End;
        }
        keys, cur := reply.keys, 0;
        if keys == [] {
          seen := seen + 1;
          return Stray;
        }
      }
      seen := seen + 1;
      item := Got(keys[cur]);
    }
  }

  // --- whole iterations ---

  // The keys a client gets, and what ended its loop; None when the script of server states ran out first.
  datatype Trace = Trace(keys: seq<Key>, end: Option<Item>)

  // ki_next until it returns no key; one server state for each call.
  function Resume(it: It, vs: seq<Server>, lim: Limits): Trace
    requires Live(it)
    decreases |vs|
  {
    if vs == [] then Trace([], None)
    else if Exhausted(it) then Trace([], Some(End))
    else if it.cur + 1 < |it.keys| then
      Behind(it.keys[it.cur + 1], Resume(it.(cur := it.cur + 1, seen := it.seen + 1), vs[1..], lim))
    else
      var w := NextWindow(it, lim.rangekeycnt);
      match GetRange(vs[0], w, lim)
      case Failed => Trace([], Some(End))
      case Keys(keys) =>
        if keys == [] then Trace([], Some(Stray))
        else Behind(keys[0], Resume(It(it.req, w, keys, 0, it.seen + 1), vs[1..], lim))
  }

  function Behind(k: Key, t: Trace): Trace {
    Trace([k] + t.keys, t.end)
  }

  function Whole(r: Range, vs: seq<Server>, lim: Limits): Trace
    requires vs != []
  {
    if r.count == 0 then Trace([], Some(End))
    else
      var w := FirstWindow(r, lim.rangekeycnt);
      match GetRange(vs[0], w, lim)
      case Failed => Trace([], Some(End))
      case Keys(keys) =>
        if keys == [] then Trace([], Some(Stray))
        else Behind(keys[0], Resume(It(r, w, keys, 0, 1), vs[1..], lim))
  }

  function Behinds(ks: seq<Key>, t: Trace): Trace {
    Trace(ks + t.keys, t.end)
  }

  lemma BehindsMore(ks: seq<Key>, k: Key, t: Trace)
    ensures Behinds(ks, Behind(k, t)) == Behinds(ks + [k], t)
  {
    assert ks + ([k] + t.keys) == ks + [k] + t.keys;
  }

  // The loop clients write: for (k = ki_start(...); k; k = ki_next(...)).
  method Iterate(kit: Kiter, r: Range, vs: seq<Server>) returns (out: seq<Key>, end: Option<Item>)
    requires vs != [] && kit.Valid()
    modifies kit
    ensures Trace(out, end) == Whole(r, vs, kit.lim)
  {
    out := [];
    var item := kit.Start(r, vs[0]);
    var i := 1;
    ghost var whole := Whole(r, vs, kit.lim);
    hide GetRange, NextWindow, FirstWindow, Whole;
    while item.Got? && i < |vs|
      invariant 1 <= i <= |vs|
      invariant kit.Valid() && (item.Got? ==> Live(kit.View()))
      invariant whole == if item.Got? then Behinds(out + [item.key], Resume(kit.View(), vs[i..], kit.lim))
                         else Trace(out, Some(item))
      decreases |vs| - i
    {
      ghost var before := kit.View();
      ghost var given := out + [item.key];
      out := out + [item.key];
      item := kit.Next(vs[i]);
      assert vs[i..][1..] == vs[i + 1..];
      i := i + 1;
      if item.Got? {
        BehindsMore(given, item.key, Resume(kit.View(), vs[i..], kit.lim));
      }
    }
    if item.Got? {
      out, end := out + [item.key], None;
    } else {
      end := Some(item);
    }
  }

  // --- ranges of an ordered store ---

  lemma {:induction false} MatchingIn(q: seq<Key>, r: Range)
    ensures forall k :: k in Matching(q, r) <==> k in q && InRange(r, k)
  {
    if q != [] {
      MatchingIn(q[1..], r);
    }
  }

  lemma {:induction false} MatchingAscends(q: seq<Key>, r: Range)
    requires Ascending(q)
    ensures Ascending(Matching(q, r))
  {
    if q != [] {
      MatchingAscends(q[1..], r);
      MatchingIn(q[1..], r);
      forall k | k in Matching(q[1..], r) ensures Less(q[0], k) {
        var i :| 0 <= i < |q[1..]| && q[1..][i] == k;
        assert q[i + 1] == k;
      }
    }
  }

  lemma {:induction false} MatchingSame(q: seq<Key>, r: Range, r': Range)
    requires forall k :: k in q ==> (InRange(r, k) <==> InRange(r', k))
    ensures Matching(q, r) == Matching(q, r')
  {
    if q != [] {
      MatchingSame(q[1..], r, r');
    }
  }

  predicate SameSpan(r: Range, r': Range) {
    r.start == r'.start && r.startInclusive == r'.startInclusive && r.end == r'.end && r.endInclusive == r'.endInclusive
  }

  lemma SpanIsAll(r: Range, r': Range)
    requires SameSpan(r, r')
    ensures forall k :: InRange(r, k) <==> InRange(r', k)
  {
    hide Less;
  }

  // The count has no part in what matches.
  lemma SameSpanMatches(q: seq<Key>, r: Range, r': Range)
    requires SameSpan(r, r')
    ensures Matching(q, r) == Matching(q, r')
  {
    hide InRange, Matching;
    SpanIsAll(r, r');
    MatchingSame(q, r, r');
  }

  lemma FirstOfAscending(q: seq<Key>, k: Key)
    requires Ascending(q) && q != [] && k in q[1..]
    ensures Less(q[0], k)
  {
    var i :| 0 <= i < |q[1..]| && q[1..][i] == k;
    assert q[i + 1] == k;
  }

  // Behind one key of the range, exclusively, lie exactly the keys that follow it.
  lemma {:induction false} RestartAfter(q: seq<Key>, r: Range, w: Range, i: nat)
    requires Ascending(q) && i < |Matching(q, r)|
    requires w.start == Some(Matching(q, r)[i]) && !w.startInclusive
    requires w.end == r.end && w.endInclusive == r.endInclusive
    ensures Matching(q, w) == Matching(q, r)[i + 1..]
    decreases |q|
  {
    var all := Matching(q, r);
    var rest := Matching(q[1..], r);
    LessIrreflexive(all[i]);
    MatchingIn(q[1..], r);
    if InRange(r, q[0]) && i == 0 {
      forall k | k in q[1..] ensures InRange(r, k) <==> InRange(w, k) {
        FirstOfAscending(q, k);
        if r.start.Some? && r.start.value != q[0] {
          LessTransitive(r.start.value, q[0], k);
        }
      }
      MatchingSame(q[1..], r, w);
    } else {
      var j: nat := if InRange(r, q[0]) then i - 1 else i;
      assert rest[j] == all[i];
      assert all[i] in rest;
      FirstOfAscending(q, all[i]);
      LessAsymmetric(q[0], all[i]);
      RestartAfter(q[1..], r, w, j);
      assert all[i + 1..] == rest[j + 1..];
    }
  }

  // --- a store that does not change ---

  // How many of n keys a count asks for; a negative count that is not KVR_COUNT_INF yields one.
  function Wanted(count: int, n: nat): nat {
    var most := if count == KVR_COUNT_INF then n else if count < 0 then 1 else count;
    if most < n then most else n
  }

  function Expected(q: seq<Key>, r: Range): seq<Key> {
    Matching(q, r)[..Wanted(r.count, |Matching(q, r)|)]
  }

  predicate Unlimited(r: Range, n: nat) {
    r.count == KVR_COUNT_INF || n < (if r.count < 0 then 1 else r.count)
  }

  ghost predicate Still(vs: seq<Server>, q: seq<Key>) {
    forall i :: 0 <= i < |vs| ==> vs[i].keys == q
  }

  ghost predicate Answers(vs: seq<Server>) {
    forall i :: 0 <= i < |vs| ==> !vs[i].fails
  }

  ghost predicate LegalStore(q: seq<Key>, lim: Limits) {
    Ascending(q) && (forall k :: k in q ==> LegalKey(k, lim)) && lim.rangekeycnt != 0
  }

  predicate LegalRequest(r: Range, lim: Limits) {
    && (r.start.Some? ==> LegalKey(r.start.value, lim))
    && (r.end.Some? ==> LegalKey(r.end.value, lim))
  }

  // What follows the window the iterator holds.
  function Beyond(it: It): Range
    requires Live(it)
  {
    it.win.(start := Some(it.keys[|it.keys| - 1]), startInclusive := false, count := 0)
  }

  // All that is still to come of the range: the unread part of the window, then what lies beyond it.
  ghost predicate Ahead(it: It, rest: seq<Key>, q: seq<Key>) {
    && Live(it)
    && it.keys[it.cur + 1..] <= rest
    && Matching(q, Beyond(it)) == rest[|it.keys| - it.cur - 1..]
  }

  // How many of n more keys an iteration still yields.
  function Budget(it: It, n: nat): (m: nat)
    ensures m <= n
  {
    if it.req.count == KVR_COUNT_INF then n
    else if it.seen >= it.req.count then 0
    else if it.req.count - it.seen < n then it.req.count - it.seen else n
  }

  // The exact end of an iteration: an empty window answered with an OK status is taken for a key.
  function EndOf(unlimited: bool, v: Server): Option<Item> {
    Some(if unlimited && v.okWhenEmpty then Stray else End)
  }

  lemma TailHead(keys: seq<Key>, rest: seq<Key>)
    requires keys != [] && keys <= rest
    ensures rest != [] && rest[0] == keys[0] && keys[1..] <= rest[1..]
  {
    assert rest[..|keys|][1..] == rest[1..][..|keys| - 1];
  }

  lemma Advance(it: It, rest: seq<Key>, q: seq<Key>)
    requires Ahead(it, rest, q) && it.cur + 1 < |it.keys|
    ensures rest != [] && it.keys[it.cur + 1] == rest[0]
    ensures Ahead(it.(cur := it.cur + 1, seen := it.seen + 1), rest[1..], q)
  {
    var unread := it.keys[it.cur + 1..];
    TailHead(unread, rest);
    assert unread[1..] == it.keys[it.cur + 2..];
    assert rest[1..][|it.keys| - it.cur - 2..] == rest[|it.keys| - it.cur - 1..];
  }

  // The next window asks the server for just what lies ahead.
  lemma NextIsAhead(it: It, rest: seq<Key>, q: seq<Key>, max: Window)
    requires Ahead(it, rest, q) && it.cur + 1 == |it.keys| && !Exhausted(it)
    ensures Matching(q, NextWindow(it, max)) == rest
  {
    SameSpanMatches(q, Beyond(it), NextWindow(it, max));
    hide Matching;
    assert rest[0..] == rest;
  }

  lemma AskedAhead(w: Range, keys: seq<Key>, rest: seq<Key>, q: seq<Key>, req: Range, seen: nat)
    requires Ascending(q) && Matching(q, w) == rest && keys != [] && keys <= rest
    ensures rest != [] && keys[0] == rest[0]
    ensures Ahead(It(req, w, keys, 0, seen + 1), rest[1..], q)
  {
    var it := It(req, w, keys, 0, seen + 1);
    TailHead(keys, rest);
    assert keys[|keys| - 1] == rest[|keys| - 1];
    RestartAfter(q, w, Beyond(it), |keys| - 1);
    assert rest[1..][|keys| - 1..] == rest[|keys|..];
  }

  // The keys held, and those to come, can be sent back to the server as restart keys.
  ghost predicate Restartable(it: It, q: seq<Key>, lim: Limits) {
    && (forall k :: k in it.keys ==> LegalKey(k, lim))
    && (forall k :: k in q ==> LegalKey(k, lim))
    && (it.win.end.Some? ==> LegalKey(it.win.end.value, lim))
    && lim.rangekeycnt != 0
  }

  lemma NextIsValid(it: It, lim: Limits)
    requires Live(it) && !Exhausted(it)
    requires forall k :: k in it.keys ==> LegalKey(k, lim)
    requires it.win.end.Some? ==> LegalKey(it.win.end.value, lim)
    requires lim.rangekeycnt != 0
    ensures ValidRange(NextWindow(it, lim.rangekeycnt), lim)
  {
  }

  // What one iteration step and the rest of the run amount to.
  ghost predicate Gets(t: Trace, it: It, rest: seq<Key>, vs: seq<Server>) {
    var m := Budget(it, |rest|);
    && t.keys <= rest[..m]
    && (Answers(vs) && |vs| > m ==>
          && t.keys == rest[..m]
          && t.end == EndOf(it.req.count == KVR_COUNT_INF || |rest| < it.req.count - it.seen, vs[m]))
  }

  lemma GetsBehind(t: Trace, it: It, it': It, rest: seq<Key>, vs: seq<Server>)
    requires rest != [] && vs != [] && !Exhausted(it) && it'.req == it.req && it'.seen == it.seen + 1
    requires Gets(t, it', rest[1..], vs[1..])
    ensures Gets(Behind(rest[0], t), it, rest, vs)
  {
    var m := Budget(it, |rest|);
    assert m == 1 + Budget(it', |rest[1..]|);
    assert rest[..m] == [rest[0]] + rest[1..][..m - 1];
  }

  lemma AskedRestartable(w: Range, keys: seq<Key>, q: seq<Key>, req: Range, seen: nat, lim: Limits)
    requires forall k :: k in q ==> LegalKey(k, lim)
    requires keys <= Matching(q, w) && (w.end.Some? ==> LegalKey(w.end.value, lim)) && lim.rangekeycnt != 0
    ensures Restartable(It(req, w, keys, 0, seen), q, lim)
  {
    MatchingIn(q, w);
    forall k | k in keys ensures k in Matching(q, w) {
    }
  }

  lemma {:induction false} ResumeStill(it: It, rest: seq<Key>, vs: seq<Server>, q: seq<Key>, lim: Limits)
    requires Ascending(q) && Still(vs, q) && Restartable(it, q, lim) && Ahead(it, rest, q)
    ensures Gets(Resume(it, vs, lim), it, rest, vs)
    decreases |vs|
  {
    assert Live(it);
    if vs != [] && !Exhausted(it) && it.cur + 1 < |it.keys| {
      var it' := it.(cur := it.cur + 1, seen := it.seen + 1);
      Advance(it, rest, q);
      assert Resume(it, vs, lim) == Behind(rest[0], Resume(it', vs[1..], lim));
      hide Ahead, Gets, Exhausted, Resume, Ascending, GetRange, NextWindow;
      ResumeStill(it', rest[1..], vs[1..], q, lim);
      GetsBehind(Resume(it', vs[1..], lim), it, it', rest, vs);
    } else if vs != [] && !Exhausted(it) && rest != [] && !vs[0].fails {
      NextIsAhead(it, rest, q, lim.rangekeycnt);
      NextIsValid(it, lim);
      assert GetRange(vs[0], NextWindow(it, lim.rangekeycnt), lim).Keys?;
      assert it.cur + 1 == |it.keys|;
      hide Ahead, Gets, Exhausted, Resume, GetRange, NextWindow, Matching, Ascending;
      var w := NextWindow(it, lim.rangekeycnt);
      ResumeAsked(it, w, GetRange(vs[0], w, lim).keys, rest, vs, q, lim);
    } else {
      ResumeEnds(it, rest, vs, q, lim);
    }
  }

  lemma ResumeEnds(it: It, rest: seq<Key>, vs: seq<Server>, q: seq<Key>, lim: Limits)
    requires Still(vs, q) && Restartable(it, q, lim) && Ahead(it, rest, q)
    requires vs == [] || Exhausted(it) || (it.cur + 1 == |it.keys| && (rest == [] || vs[0].fails))
    ensures Gets(Resume(it, vs, lim), it, rest, vs)
  {
    if vs != [] && !Exhausted(it) {
      NextIsAhead(it, rest, q, lim.rangekeycnt);
      NextIsValid(it, lim);
    }
    hide Ahead, Matching, ValidRange;
  }

  lemma {:induction false} ResumeAsked(it: It, w: Range, keys: seq<Key>, rest: seq<Key>, vs: seq<Server>, q: seq<Key>,
                                       lim: Limits)
    requires Ascending(q) && Still(vs, q) && Restartable(it, q, lim) && Live(it) && vs != []
    requires it.cur + 1 == |it.keys| && !Exhausted(it) && w == NextWindow(it, lim.rangekeycnt)
    requires Matching(q, w) == rest && rest != [] && GetRange(vs[0], w, lim) == Keys(keys)
    ensures Gets(Resume(it, vs, lim), it, rest, vs)
    decreases |vs|, 0
  {
    var it' := It(it.req, w, keys, 0, it.seen + 1);
    AskedAhead(w, keys, rest, q, it.req, it.seen);
    AskedRestartable(w, keys, q, it.req, it.seen + 1, lim);
    assert Resume(it, vs, lim) == Behind(keys[0], Resume(it', vs[1..], lim));
    hide Ahead, Gets, Restartable, Exhausted, Matching, Resume, GetRange, Ascending, NextWindow;
    ResumeStill(it', rest[1..], vs[1..], q, lim);
    GetsBehind(Resume(it', vs[1..], lim), it, it', rest, vs);
  }

  lemma StartGets(t: Trace, r: Range, w: Range, keys: seq<Key>, all: seq<Key>, vs: seq<Server>)
    requires r.count != 0 && all != [] && vs != []
    requires Gets(t, It(r, w, keys, 0, 1), all[1..], vs[1..])
    ensures var n := Wanted(r.count, |all|);
      && [all[0]] + t.keys <= all[..n]
      && (Answers(vs) && |vs| > n ==>
            [all[0]] + t.keys == all[..n] && t.end == EndOf(Unlimited(r, |all|), vs[n]))
  {
    var m := Budget(It(r, w, keys, 0, 1), |all[1..]|);
    var n := Wanted(r.count, |all|);
    assert n == m + 1;
    assert all[..n] == [all[0]] + all[1..][..m];
  }

  lemma FirstWindowIs(r: Range, q: seq<Key>, lim: Limits)
    requires LegalRequest(r, lim) && lim.rangekeycnt != 0
    ensures var w := FirstWindow(r, lim.rangekeycnt);
      Matching(q, w) == Matching(q, r) && w.end == r.end && (r.count != 0 ==> ValidRange(w, lim))
  {
    SameSpanMatches(q, r, FirstWindow(r, lim.rangekeycnt));
    hide Matching;
  }

  // However short the server's windows are, an iteration over a store that does not change yields the
  // first keys of the range in order, as many as were asked for; a failed exchange cuts it short.
  lemma WholeStill(r: Range, vs: seq<Server>, q: seq<Key>, lim: Limits)
    requires vs != [] && LegalStore(q, lim) && LegalRequest(r, lim) && Still(vs, q)
    ensures Whole(r, vs, lim).keys <= Expected(q, r)
    ensures Answers(vs) && |vs| > |Expected(q, r)| ==>
      && Whole(r, vs, lim).keys == Expected(q, r)
      && Whole(r, vs, lim).end
         == Some(if Unlimited(r, |Matching(q, r)|) && vs[|Expected(q, r)|].okWhenEmpty then Stray else End)
  {
    var all := Matching(q, r);
    var w := FirstWindow(r, lim.rangekeycnt);
    FirstWindowIs(r, q, lim);
    if r.count != 0 && !vs[0].fails && all != [] {
      var keys := GetRange(vs[0], w, lim).keys;
      StartAsked(r, w, keys, all, vs, q, lim);
    }
  }

  lemma StartAsked(r: Range, w: Range, keys: seq<Key>, all: seq<Key>, vs: seq<Server>, q: seq<Key>, lim: Limits)
    requires vs != [] && LegalStore(q, lim) && LegalRequest(r, lim) && Still(vs, q) && r.count != 0 && all != []
    requires w == FirstWindow(r, lim.rangekeycnt) && Matching(q, w) == all && GetRange(vs[0], w, lim) == Keys(keys)
    ensures var n := Wanted(r.count, |all|);
      && Whole(r, vs, lim).keys <= all[..n]
      && (Answers(vs) && |vs| > n ==>
            Whole(r, vs, lim).keys == all[..n] && Whole(r, vs, lim).end == EndOf(Unlimited(r, |all|), vs[n]))
  {
    hide Matching, Less, Ascending, ValidRange;
    AskedAhead(w, keys, all, q, r, 0);
    AskedRestartable(w, keys, q, r, 1, lim);
    assert Whole(r, vs, lim) == Behind(keys[0], Resume(It(r, w, keys, 0, 1), vs[1..], lim));
    hide Ahead, Gets, Restartable, Matching, Resume, GetRange, Whole, FirstWindow, ValidRange;
    ResumeStill(It(r, w, keys, 0, 1), all[1..], vs[1..], q, lim);
    StartGets(Resume(It(r, w, keys, 0, 1), vs[1..], lim), r, w, keys, all, vs);
  }

  // --- what is asked for ---

  // A new window asks for all that is still wanted, or for as much as the server allows at once; so a server
  // that sends no more than it is asked for sends no key that the iteration does not yield.
  lemma WindowAsks(it: It, max: Window, got: nat)
    requires Live(it) && !Exhausted(it) && max != 0
    ensures var asked := NextWindow(it, max).count;
      var left := it.req.count - it.seen;
      && (it.req.count == -1 ==> asked == max)
      && (it.req.count != -1 ==> 1 <= asked && asked <= left && asked <= max && (asked == left || asked == max))
      && (it.req.count != -1 && got <= asked ==> it.seen + got <= it.req.count)
  {
  }

  lemma FirstWindowAsks(r: Range, max: Window)
    requires r.count != 0 && max != 0
    ensures var asked := FirstWindow(r, max).count;
      && (r.count < 0 ==> asked == max)
      && (r.count > 0 ==> 1 <= asked && asked <= r.count && asked <= max && (asked == r.count || asked == max))
  {
  }

  predicate NoKey(k: Option<Key>, lim: Limits) {
    k.Some? && (k.value == [] || |k.value| > lim.keylen)
  }

  // A range request is refused when a bound is no key, or its count is neither -1 nor from 1 to the limit: a
  // negative count is compared as an unsigned one.
  lemma RefusedIff(r: Range, lim: Limits)
    ensures !ValidRange(r, lim) <==>
      NoKey(r.start, lim) || NoKey(r.end, lim) || !(r.count == -1 || 1 <= r.count <= lim.rangekeycnt)
  {
  }

  // An iteration over a range with such a bound ends before it yields a key.
  lemma IllegalYieldsNothing(r: Range, vs: seq<Server>, lim: Limits)
    requires vs != [] && (NoKey(r.start, lim) || NoKey(r.end, lim))
    ensures Whole(r, vs, lim) == Trace([], Some(End))
  {
    RefusedIff(FirstWindow(r, lim.rangekeycnt), lim);
  }

  // Cutting a range at a key of it loses no key and doubles none, to whichever side the key itself goes.
  lemma {:induction false} CutRange(q: seq<Key>, r: Range, k: Key, left: bool)
    requires Ascending(q) && InRange(r, k)
    ensures Matching(q, r) == Matching(q, r.(end := Some(k), endInclusive := left))
                            + Matching(q, r.(start := Some(k), startInclusive := !left))
  {
    var a, b := r.(end := Some(k), endInclusive := left), r.(start := Some(k), startInclusive := !left);
    hide InRange, Less, Matching;
    if q == [] {
      NoneMatching(q, r);
      NoneMatching(q, a);
      NoneMatching(q, b);
    } else {
      CutRange(q[1..], r, k, left);
      CutAt(r, k, left, q[0]);
      if InRange(b, q[0]) {
        forall j | j in q[1..] ensures !InRange(a, j) {
          FirstOfAscending(q, j);
          BehindTheCut(r, k, left, q[0], j);
        }
        NoneMatching(q[1..], a);
      }
      CutStep(q, r, a, b);
    }
  }

  lemma CutStep(q: seq<Key>, r: Range, a: Range, b: Range)
    requires q != [] && Matching(q[1..], r) == Matching(q[1..], a) + Matching(q[1..], b)
    requires (InRange(r, q[0]) <==> InRange(a, q[0]) || InRange(b, q[0])) && !(InRange(a, q[0]) && InRange(b, q[0]))
    requires InRange(b, q[0]) ==> Matching(q[1..], a) == []
    ensures Matching(q, r) == Matching(q, a) + Matching(q, b)
  {
    hide InRange;
  }

  lemma NoneMatching(q: seq<Key>, r: Range)
    requires forall k :: k in q ==> !InRange(r, k)
    ensures Matching(q, r) == []
  {
    MatchingIn(q, r);
    if Matching(q, r) != [] {
      assert Matching(q, r)[0] in Matching(q, r);
    }
  }

  lemma CutAt(r: Range, k: Key, left: bool, j: Key)
    requires InRange(r, k)
    ensures var a, b := r.(end := Some(k), endInclusive := left), r.(start := Some(k), startInclusive := !left);
      && (InRange(r, j) <==> InRange(a, j) || InRange(b, j)) && !(InRange(a, j) && InRange(b, j))
  {
    LessTotal(j, k);
    LessAsymmetric(j, k);
    LessIrreflexive(k);
    if r.start.Some? && Less(r.start.value, k) && Less(k, j) {
      LessTransitive(r.start.value, k, j);
    }
    if r.end.Some? && Less(j, k) && Less(k, r.end.value) {
      LessTransitive(j, k, r.end.value);
    }
  }

  lemma BehindTheCut(r: Range, k: Key, left: bool, i: Key, j: Key)
    requires InRange(r.(start := Some(k), startInclusive := !left), i) && Less(i, j)
    ensures !InRange(r.(end := Some(k), endInclusive := left), j)
  {
    if k != i {
      LessTransitive(k, i, j);
    }
    LessAsymmetric(k, j);
    LessIrreflexive(k);
  }
}
