/**
 How many batches of a session are active at once (src/batch.c). An increment or decrement of the count by
 b_atom_inc is one step here. It can go wrong in two ways (see Counters): a call may give up and yet report
 success, so that nothing was counted, and it may count and yet report a failure.
 */
module ActiveBatches {
  import opened Common

  // The batches somebody believes started, each with the value b_atom_inc gave back for it: the count
  // before it, or, for a call that gave up, whatever it read last.
  datatype Batches = Batches(
    bats: Word,
    active: map<nat, Word>,
    slipped: nat,           // starts that were not counted although they were reported to be
    leaked: nat             // counts that nobody will take back
  )

  datatype Change =
    | Count(b: nat)          // a start, counted
    | Slip(b: nat, v: Word)  // a start whose increment gave up; it goes on with an old value
    | Leak                   // a start whose increment reported a failure although it counted: it returns
    | Uncount(b: nat)        // a batch that ends, or is rejected, and is taken off the count
    | Stay(b: nat)           // one whose decrement gave up

  predicate Possible(s: Batches, ch: Change) {
    match ch
    case Count(b) => b !in s.active
    case Slip(b, _) => b !in s.active
    case Leak => true
    case Uncount(b) => b in s.active
    case Stay(b) => b in s.active
  }

  function Apply(s: Batches, ch: Change): Batches
    requires Possible(s, ch)
  {
    match ch
    case Count(b) => s.(bats := (s.bats + 1) % WORDS, active := s.active[b := s.bats])
    case Slip(b, v) => s.(active := s.active[b := v], slipped := s.slipped + 1)
    case Leak => s.(bats := (s.bats + 1) % WORDS, leaked := s.leaked + 1)
    case Uncount(b) => s.(bats := (s.bats - 1) % WORDS, active := s.active - {b})
    case Stay(b) => s.(active := s.active - {b}, leaked := s.leaked + 1)
  }

  // The batches the server is asked to start: no limit, or not above it
  function Admitted(s: Batches, limit: Word): set<nat> {
    set b | b in s.active && (limit == 0 || s.active[b] <= limit)
  }

  // What the count would be without its 32 bits
  function TrueCount(s: Batches): int {
    |s.active| + s.leaked - s.slipped
  }

  ghost predicate CountOk(s: Batches, limit: Word) {
    && s.bats == TrueCount(s) % WORDS
    && (limit != 0 ==> |Admitted(s, limit)| <= limit + 1 + s.slipped)
  }

  // The count neither reaches 2^32 nor falls so far below 0 that it looks admissible.
  predicate Room(s: Batches, limit: Word) {
    |s.active| + s.leaked < WORDS && limit + s.slipped < WORDS
  }

  ghost predicate Legal(s: Batches, changes: seq<Change>)
    decreases |changes|
  {
    changes != [] ==> Possible(s, changes[0]) && Legal(Apply(s, changes[0]), changes[1..])
  }

  ghost function After(s: Batches, changes: seq<Change>): Batches
    requires Legal(s, changes)
    decreases |changes|
  {
    if changes == [] then s else After(Apply(s, changes[0]), changes[1..])
  }

  ghost predicate Roomy(s: Batches, changes: seq<Change>, limit: Word)
    requires Legal(s, changes)
    decreases |changes|
  {
    changes != [] ==> Room(s, limit) && Roomy(Apply(s, changes[0]), changes[1..], limit)
  }

  lemma MapLess<T>(m: map<nat, T>, b: nat)
    requires b in m
    ensures |m - {b}| == |m| - 1
  {
    assert (m - {b}).Keys == m.Keys - {b};
    assert |m.Keys| == |m| && |(m - {b}).Keys| == |m - {b}|;
  }

  lemma MapMore<T>(m: map<nat, T>, b: nat, v: T)
    requires b !in m
    ensures |m[b := v]| == |m| + 1
  {
    assert m[b := v].Keys == m.Keys + {b};
    assert |m.Keys| == |m| && |m[b := v].Keys| == |m[b := v]|;
  }

  lemma FewerThan(a: set<nat>, b: set<nat>)
    requires a <= b
    ensures |a| <= |b|
  {
    assert b == a + (b - a);
  }

  lemma AdmittedFewer(s: Batches, limit: Word)
    ensures |Admitted(s, limit)| <= |s.active|
  {
    FewerThan(Admitted(s, limit), s.active.Keys);
    assert |s.active.Keys| == |s.active|;
  }

  lemma AdmittedMore(s: Batches, limit: Word, b: nat, v: Word)
    requires b !in s.active
    ensures var more := if limit == 0 || v <= limit then {b} else {};
      Admitted(s.(active := s.active[b := v]), limit) == Admitted(s, limit) + more && b !in Admitted(s, limit)
  {
  }

  lemma SameAdmitted(s: Batches, s': Batches, limit: Word)
    requires s'.active == s.active
    ensures Admitted(s', limit) == Admitted(s, limit)
  {
  }

  lemma WrapStep(c: int, d: int)
    ensures (c % WORDS + d) % WORDS == (c + d) % WORDS
  {
  }

  // A count that is within the limit is the true one.
  lemma WithinIsTrue(s: Batches, limit: Word)
    requires s.bats == TrueCount(s) % WORDS && Room(s, limit) && s.bats <= limit
    ensures s.bats == TrueCount(s)
  {
    WrapOf(TrueCount(s));
  }

  lemma WrapOf(c: int)
    requires -WORDS <= c < WORDS
    ensures c % WORDS == if c < 0 then c + WORDS else c
  {
  }

  lemma CountKeeps(s: Batches, limit: Word, b: nat)
    requires CountOk(s, limit) && Possible(s, Count(b)) && Room(s, limit)
    ensures CountOk(Apply(s, Count(b)), limit)
  {
    var s' := Apply(s, Count(b));
    MapMore(s.active, b, s.bats);
    WrapStep(TrueCount(s), 1);
    AdmittedFewer(s, limit);
    AdmittedMore(s, limit, b, s.bats);
    SameAdmitted(s.(active := s.active[b := s.bats]), s', limit);
    if s.bats <= limit {
      WithinIsTrue(s, limit);
    }
    hide Admitted;
  }

  lemma SlipKeeps(s: Batches, limit: Word, b: nat, v: Word)
    requires CountOk(s, limit) && Possible(s, Slip(b, v))
    ensures CountOk(Apply(s, Slip(b, v)), limit)
  {
    MapMore(s.active, b, v);
    AdmittedMore(s, limit, b, v);
    SameAdmitted(s.(active := s.active[b := v]), Apply(s, Slip(b, v)), limit);
    hide Admitted;
  }

  lemma EndKeeps(s: Batches, limit: Word, ch: Change)
    requires CountOk(s, limit) && Possible(s, ch) && (ch.Uncount? || ch.Stay?)
    ensures CountOk(Apply(s, ch), limit)
  {
    MapLess(s.active, ch.b);
    WrapStep(TrueCount(s), -1);
    FewerThan(Admitted(Apply(s, ch), limit), Admitted(s, limit));
    hide Admitted;
  }

  lemma ApplyOk(s: Batches, limit: Word, ch: Change)
    requires CountOk(s, limit) && Possible(s, ch) && Room(s, limit)
    ensures CountOk(Apply(s, ch), limit)
  {
    match ch
    case Count(b) => CountKeeps(s, limit, b);
    case Slip(b, v) => SlipKeeps(s, limit, b, v);
    case Leak =>
      WrapStep(TrueCount(s), 1);
      SameAdmitted(s, Apply(s, ch), limit);
    case Uncount(_) => EndKeeps(s, limit, ch);
    case Stay(_) => EndKeeps(s, limit, ch);
  }

  // In any interleaving of starts and ends, however their increments go, at most one batch above the
  // device's limit is active, and one more for each start that slipped through uncounted;
  lemma {:induction false} ActiveLimit(s: Batches, limit: Word, changes: seq<Change>)
    requires CountOk(s, limit) && Legal(s, changes) && Roomy(s, changes, limit)
    ensures CountOk(After(s, changes), limit)
    decreases |changes|
  {
    hide CountOk, Possible, Apply, Room;
    if changes != [] {
      ApplyOk(s, limit, changes[0]);
      ActiveLimit(Apply(s, changes[0]), limit, changes[1..]);
    }
  }

  function Started(n: nat): Batches
    requires n < WORDS
  {
    Batches(n, Below(n), 0, 0)
  }

  // Each batch with the count it found
  function Below(n: nat): map<nat, Word>
    requires n < WORDS
  {
    if n == 0 then map[] else Below(n - 1)[n - 1 := n - 1]
  }

  lemma {:induction false} BelowIs(n: nat)
    requires n < WORDS
    ensures |Below(n)| == n && forall b :: b in Below(n) <==> 0 <= b < n
  {
    if n > 0 {
      BelowIs(n - 1);
      MapMore(Below(n - 1), n - 1, n - 1);
    }
  }

  const NO_BATCH := Batches(0, map[], 0, 0)

  // Starting one batch after the other
  function Starts(n: nat): seq<Change> {
    seq(n, i requires 0 <= i < n => Count(i))
  }

  // ... and with any limit that many can be: the check looks at the count from before the increment.
  lemma {:induction false} LimitIsExceeded(limit: Word, n: nat)
    requires 0 < limit && n <= limit + 1 < WORDS
    ensures Legal(NO_BATCH, Starts(n)) && After(NO_BATCH, Starts(n)) == Started(n)
    ensures |Admitted(Started(n), limit)| == n
  {
    if n == 0 {
      assert Started(0) == NO_BATCH;
      assert Admitted(Started(0), limit) == {};
    } else {
      LimitIsExceeded(limit, n - 1);
      OneMore(limit, n - 1);
      hide Admitted, Started, Apply, Possible, Starts, Legal, After;
      Append(NO_BATCH, Starts(n - 1), Count(n - 1));
    }
  }

  lemma OneMore(limit: Word, n: nat)
    requires 0 < limit && n + 1 <= limit + 1 < WORDS
    ensures Possible(Started(n), Count(n)) && Apply(Started(n), Count(n)) == Started(n + 1)
    ensures Starts(n + 1) == Starts(n) + [Count(n)]
    ensures |Admitted(Started(n + 1), limit)| == |Admitted(Started(n), limit)| + 1
  {
    StartedMore(n);
    AdmittedMore(Started(n), limit, n, n);
    SameAdmitted(Started(n).(active := Started(n).active[n := n]), Started(n + 1), limit);
    hide Admitted;
  }

  lemma StartedMore(n: nat)
    requires n + 1 < WORDS
    ensures Possible(Started(n), Count(n)) && Apply(Started(n), Count(n)) == Started(n + 1)
  {
    BelowIs(n);
  }

  lemma {:induction false} Append(s: Batches, changes: seq<Change>, ch: Change)
    requires Legal(s, changes) && Possible(After(s, changes), ch)
    ensures Legal(s, changes + [ch]) && After(s, changes + [ch]) == Apply(After(s, changes), ch)
    decreases |changes|
  {
    if changes != [] {
      Append(Apply(s, changes[0]), changes[1..], ch);
      assert (changes + [ch])[1..] == changes[1..] + [ch];
    } else {
      assert (changes + [ch])[1..] == [];
      assert Legal(Apply(s, ch), []);
    }
  }

  // --- what the count stands for ---

  predicate Leaks(ch: Change) {
    ch.Leak? || ch.Stay?
  }

  function LeaksOf(changes: seq<Change>): nat {
    if changes == [] then 0 else (if Leaks(changes[0]) then 1 else 0) + LeaksOf(changes[1..])
  }

  function SlipsOf(changes: seq<Change>): nat {
    if changes == [] then 0 else (if changes[0].Slip? then 1 else 0) + SlipsOf(changes[1..])
  }

  // Whether a batch is active after so much has happened to it
  function Runs(was: bool, changes: seq<Change>, b: nat): bool
    decreases |changes|
  {
    if changes == [] then was
    else
      var now := match changes[0]
        case Count(c) => was || c == b
        case Slip(c, _) => was || c == b
        case Uncount(c) => was && c != b
        case Stay(c) => was && c != b
        case Leak => was;
      Runs(now, changes[1..], b)
  }

  lemma {:induction false} RunTally(s: Batches, changes: seq<Change>, b: nat)
    requires Legal(s, changes) && s.bats == TrueCount(s) % WORDS
    ensures var s' := After(s, changes);
      && s'.leaked == s.leaked + LeaksOf(changes) && s'.slipped == s.slipped + SlipsOf(changes)
      && s'.bats == TrueCount(s') % WORDS
      && (b in s'.active <==> Runs(b in s.active, changes, b))
    decreases |changes|
  {
    if changes != [] {
      StepTally(s, changes[0]);
      hide TrueCount;
      RunTally(Apply(s, changes[0]), changes[1..], b);
    }
  }

  lemma StepTally(s: Batches, ch: Change)
    requires Possible(s, ch) && s.bats == TrueCount(s) % WORDS
    ensures Apply(s, ch).bats == TrueCount(Apply(s, ch)) % WORDS
  {
    var d := if ch.Count? || ch.Leak? then 1 else if ch.Uncount? then -1 else 0;
    TrueCountMoves(s, ch, d);
    WrapStep(TrueCount(s), d);
    hide TrueCount;
  }

  lemma TrueCountMoves(s: Batches, ch: Change, d: int)
    requires Possible(s, ch) && d == if ch.Count? || ch.Leak? then 1 else if ch.Uncount? then -1 else 0
    ensures TrueCount(Apply(s, ch)) == TrueCount(s) + d
  {
    match ch
    case Count(b) => MapMore(s.active, b, s.bats);
    case Slip(b, v) => MapMore(s.active, b, v);
    case Leak =>
    case Uncount(b) => MapLess(s.active, b);
    case Stay(b) => MapLess(s.active, b);
  }

  // The active batches are those that were started and have not ended; the count is their number, give or
  // take just one for each increment or decrement that went wrong. When none did, it is exact, and it is back
  // at 0 when all have ended.
  lemma CountIs(changes: seq<Change>)
    requires Legal(NO_BATCH, changes)
    ensures var s := After(NO_BATCH, changes);
      && (forall b: nat :: b in s.active <==> Runs(false, changes, b))
      && s.bats == (|s.active| + LeaksOf(changes) - SlipsOf(changes)) % 0x1_0000_0000
      && (LeaksOf(changes) == SlipsOf(changes) == 0 && |s.active| < 0x1_0000_0000 ==> s.bats == |s.active|)
  {
    hide Legal, After, Runs, LeaksOf, SlipsOf;
    forall b: nat ensures b in After(NO_BATCH, changes).active <==> Runs(false, changes, b) {
      RunTally(NO_BATCH, changes, b);
    }
    RunTally(NO_BATCH, changes, 0);
    SmallWrap(|After(NO_BATCH, changes).active|);
  }

  lemma SmallWrap(n: nat)
    ensures n < WORDS ==> n % WORDS == n
  {
  }

  // Counts that nobody will take back add up: after one more than the limit, with no batch active at all, none
  // is let through any more.
  lemma {:induction false} LeaksLockOut(limit: Word, n: nat, b: nat)
    requires 0 < limit && n < WORDS
    ensures Legal(NO_BATCH, Lost(n)) && After(NO_BATCH, Lost(n)) == Batches(n, map[], 0, n)
    ensures var s := Batches(n, map[], 0, n);
      Possible(s, Count(b)) && Admitted(Apply(s, Count(b)), limit) == if n <= limit then {b} else {}
  {
    if n > 0 {
      LeaksLockOut(limit, n - 1, b);
      var s := Batches(n - 1, map[], 0, n - 1);
      assert Possible(s, Leak) && Apply(s, Leak) == Batches(n, map[], 0, n);
      assert Lost(n) == Lost(n - 1) + [Leak];
      Append(NO_BATCH, Lost(n - 1), Leak);
    }
  }

  // Increments that are counted and reported as failures
  function Lost(n: nat): seq<Change> {
    seq(n, _ => Leak)
  }
}
