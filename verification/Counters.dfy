/**
 The counters of a session (src/batch.c): batch identifiers and the number of active batches, changed
 by compare-and-swap from any number of threads.
 */
module Counters {
  import opened Common

  const RETRIES := 1000
  const KFIRSTBID := 1000

  // --- one call ---

  // What one attempt of a call finds: the value it reads, and the value its swap meets.
  datatype Attempt = Attempt(read: Word, met: Word)

  // The first attempt that succeeds, RETRIES + 1 if none of those made does.
  function FirstWin(env: nat -> Attempt, j: nat): (f: nat)
    requires j <= RETRIES + 1
    ensures j <= f <= RETRIES + 1
    ensures f <= RETRIES ==> env(f).read == env(f).met
    ensures forall i :: j <= i < f ==> env(i).read != env(i).met
    decreases RETRIES + 1 - j
  {
    if j > RETRIES then j else if env(j).read == env(j).met then j else FirstWin(env, j + 1)
  }

  lemma FirstWinStep(env: nat -> Attempt, j: nat)
    requires j <= RETRIES
    ensures FirstWin(env, j) == if env(j).read == env(j).met then j else FirstWin(env, j + 1)
    ensures FirstWin(env, RETRIES + 1) == RETRIES + 1
  {
  }

  // b_atom_inc. Success is reported and true after fewer than RETRIES failures; after just RETRIES it is
  // true but reported as a failure, and after one more it is reported although nothing was added.
  method AtomInc(env: nat -> Attempt, inc: int) returns (rc: int, v: Word, stored: Word, won: bool)
    ensures var f := FirstWin(env, 0);
      && (won <==> f <= 1000)
      && (rc == -1 <==> f == 1000) && (rc == 0 || rc == -1)
      && v == env(if f <= 1000 then f else 1000).read
      && (won ==> v == env(f).met && stored == (v + inc) % WORDS)
  {
    var retries, tries := RETRIES, 0;
    v := env(0).read;
    won, stored := false, 0;
    var again := true;
    hide FirstWin;
    while again
      invariant 0 <= tries <= RETRIES && v == env(tries).read
      invariant again ==> retries == RETRIES - tries && !won
      invariant again ==> FirstWin(env, 0) == FirstWin(env, tries)
      invariant !again && won ==> FirstWin(env, 0) == tries && retries == RETRIES - tries
      invariant !again && won ==> v == env(tries).met && stored == (v + inc) % WORDS
      invariant !again && !won ==> FirstWin(env, 0) == RETRIES + 1 && tries == RETRIES && retries == -1
      decreases again, retries
    {
      FirstWinStep(env, tries);
      if v == env(tries).met {
        stored, won, again := (v + inc) % WORDS, true, false;
      } else {
        again := retries != 0;
        retries := retries - 1;
        if again {
          tries := tries + 1;
          v := env(tries).read;
        }
      }
    }
    rc := if retries == 0 then -1 else 0;
  }

  // --- all calls on one counter ---

  type Call = nat

  // The n-th increment of the counter, when the call read v, or when it won
  datatype Pc =
    | Trying(v: Word, nth: nat, failed: nat)
    | Rereading(failed: nat)
    | Returned(v: Word, nth: nat, rc: int, won: bool, failed: nat)

  datatype Counter = Counter(p: Word, calls: map<Call, Pc>, wins: seq<Call>)

  datatype Step = Read(c: Call) | Swap(c: Call)

  predicate Enabled(s: Counter, step: Step) {
    match step
    case Read(c) => c !in s.calls || s.calls[c].Rereading?
    case Swap(c) => c in s.calls && s.calls[c].Trying?
  }

  function Next(w: Word): Word {
    (w + 1) % WORDS
  }

  function Do(s: Counter, step: Step): Counter
    requires Enabled(s, step)
  {
    var c := step.c;
    match step
    case Read(_) =>
      s.(calls := s.calls[c := Trying(s.p, |s.wins|, if c in s.calls then s.calls[c].failed else 0)])
    case Swap(_) =>
      var pc := s.calls[c];
      if s.p == pc.v then
        Counter(Next(pc.v),
                s.calls[c := Returned(pc.v, |s.wins|, if pc.failed == RETRIES then -1 else 0, true, pc.failed)],
                s.wins + [c])
      else if pc.failed < RETRIES then s.(calls := s.calls[c := Rereading(pc.failed + 1)])
      else s.(calls := s.calls[c := Returned(pc.v, pc.nth, 0, false, pc.failed + 1)])
  }

  function IdAt(first: Word, n: nat): Word {
    (first + n) % WORDS
  }

  lemma IdNext(first: Word, n: nat)
    ensures IdAt(first, n + 1) == Next(IdAt(first, n))
  {
  }

  ghost predicate CallOk(pc: Pc, c: Call, wins: seq<Call>, first: Word) {
    match pc
    case Trying(v, nth, failed) => nth <= |wins| && v == IdAt(first, nth) && failed <= RETRIES && c !in wins
    case Rereading(failed) => failed <= RETRIES && c !in wins
    case Returned(v, nth, rc, won, failed) =>
      && nth < |wins| && v == IdAt(first, nth)
      && rc == (if failed == RETRIES then -1 else 0)
      && (if won then failed <= RETRIES && wins[nth] == c else failed == RETRIES + 1 && c !in wins)
  }

  ghost predicate Inv(s: Counter, first: Word) {
    && s.p == IdAt(first, |s.wins|)
    && (forall c :: c in s.calls ==> CallOk(s.calls[c], c, s.wins, first))
    && (forall j :: 0 <= j < |s.wins| ==> Won(s, j))
  }

  ghost predicate Won(s: Counter, j: nat)
    requires j < |s.wins|
  {
    s.wins[j] in s.calls && s.calls[s.wins[j]].Returned? && s.calls[s.wins[j]].won && s.calls[s.wins[j]].nth == j
  }

  lemma CallStays(pc: Pc, c: Call, wins: seq<Call>, d: Call, first: Word)
    requires CallOk(pc, c, wins, first) && c != d
    ensures CallOk(pc, c, wins + [d], first)
  {
  }

  lemma StepInv(s: Counter, first: Word, step: Step)
    requires Inv(s, first) && Enabled(s, step)
    ensures Inv(Do(s, step), first)
  {
    var s' := Do(s, step);
    if step.Swap? && s.p == s.calls[step.c].v {
      IdNext(first, |s.wins|);
      hide IdAt, Next;
      assert CallOk(s.calls[step.c], step.c, s.wins, first);
      forall c | c in s'.calls ensures CallOk(s'.calls[c], c, s'.wins, first) {
        if c != step.c {
          CallStays(s.calls[c], c, s.wins, step.c, first);
        }
      }
      forall j | 0 <= j < |s'.wins| ensures Won(s', j) {
        if j < |s.wins| {
          assert Won(s, j) && s.wins[j] in s.wins;
        }
      }
    } else {
      hide IdAt, Next;
      if step.c in s.calls {
        assert CallOk(s.calls[step.c], step.c, s.wins, first);
      } else {
        forall j | 0 <= j < |s.wins| ensures s.wins[j] != step.c {
          assert Won(s, j);
        }
      }
      forall c | c in s'.calls ensures CallOk(s'.calls[c], c, s'.wins, first) {
        if c != step.c {
          assert CallOk(s.calls[c], c, s.wins, first);
        }
      }
      forall j | 0 <= j < |s'.wins| ensures Won(s', j) {
        assert Won(s, j) && s.wins[j] in s.wins;
      }
    }
  }

  ghost predicate Legal(s: Counter, steps: seq<Step>)
    decreases |steps|
  {
    steps != [] ==> Enabled(s, steps[0]) && Legal(Do(s, steps[0]), steps[1..])
  }

  ghost function After(s: Counter, steps: seq<Step>): Counter
    requires Legal(s, steps)
    decreases |steps|
  {
    if steps == [] then s else After(Do(s, steps[0]), steps[1..])
  }

  lemma {:induction false} RunInv(s: Counter, first: Word, steps: seq<Step>)
    requires Inv(s, first) && Legal(s, steps)
    ensures Inv(After(s, steps), first)
    decreases |steps|
  {
    if steps != [] {
      StepInv(s, first, steps[0]);
      RunInv(Do(s, steps[0]), first, steps[1..]);
    }
  }

  const NEW_SESSION := Counter(KFIRSTBID, map[], [])

  ghost predicate Reached(s: Counter) {
    exists steps :: Legal(NEW_SESSION, steps) && After(NEW_SESSION, steps) == s
  }

  lemma ReachedInv(s: Counter)
    requires Reached(s)
    ensures Inv(s, KFIRSTBID)
  {
    var steps :| Legal(NEW_SESSION, steps) && After(NEW_SESSION, steps) == s;
    RunInv(NEW_SESSION, KFIRSTBID, steps);
  }

  // In every interleaving no increment is lost, and the n-th winner is given the n-th identifier.
  lemma NothingLost(s: Counter)
    requires Reached(s)
    ensures s.p == (1000 + |s.wins|) % 0x1_0000_0000
    ensures forall j :: 0 <= j < |s.wins| ==>
      s.wins[j] in s.calls && s.calls[s.wins[j]].Returned? && s.calls[s.wins[j]].v == (1000 + j) % 0x1_0000_0000
    ensures forall c :: c in s.calls && s.calls[c].Returned? && s.calls[c].won ==> c in s.wins
  {
    ReachedInv(s);
    forall j | 0 <= j < |s.wins|
      ensures s.wins[j] in s.calls && s.calls[s.wins[j]].Returned? && s.calls[s.wins[j]].v == IdAt(KFIRSTBID, j)
    {
      assert Won(s, j) && CallOk(s.calls[s.wins[j]], s.wins[j], s.wins, KFIRSTBID);
    }
    forall c | c in s.calls && s.calls[c].Returned? && s.calls[c].won ensures c in s.wins {
      assert CallOk(s.calls[c], c, s.wins, KFIRSTBID);
    }
  }

  lemma SameId(first: Word, i: nat, j: nat)
    requires IdAt(first, i) == IdAt(first, j) && i < WORDS && j < WORDS
    ensures i == j
  {
    assert (first + i) % WORDS == if first + i < WORDS then first + i else first + i - WORDS;
    assert (first + j) % WORDS == if first + j < WORDS then first + j else first + j - WORDS;
  }

  // A call that reports success has an identifier of its own exactly when it did increment the counter:
  // one that gave up after its last retry goes away with an identifier another call was given.
  lemma OwnIdIff(s: Counter, c: Call)
    requires Reached(s) && |s.wins| <= WORDS && c in s.calls && s.calls[c].Returned?
    ensures s.calls[c].won <==>
      !exists d :: d in s.calls && d != c && s.calls[d].Returned? && s.calls[d].won && s.calls[d].v == s.calls[c].v
  {
    ReachedInv(s);
    hide IdAt;
    assert CallOk(s.calls[c], c, s.wins, KFIRSTBID);
    if s.calls[c].won {
      forall d | d in s.calls && d != c && s.calls[d].Returned? && s.calls[d].won ensures s.calls[d].v != s.calls[c].v {
        assert CallOk(s.calls[d], d, s.wins, KFIRSTBID);
        if s.calls[d].v == s.calls[c].v {
          SameId(KFIRSTBID, s.calls[c].nth, s.calls[d].nth);
        }
      }
    } else {
      var d := s.wins[s.calls[c].nth];
      assert Won(s, s.calls[c].nth) && CallOk(s.calls[d], d, s.wins, KFIRSTBID);
    }
  }

  // The return code says what happened only up to RETRIES failures.
  lemma ReturnCodeIff(s: Counter, c: Call)
    requires Reached(s) && c in s.calls && s.calls[c].Returned?
    ensures (s.calls[c].rc == 0 <==> s.calls[c].won) <==> s.calls[c].failed < 1000
  {
    ReachedInv(s);
    assert CallOk(s.calls[c], c, s.wins, KFIRSTBID);
  }

  // --- what a swap does, and that every call comes to an end ---

  // A swap that meets the value its call read adds one and ends the call with that value; any other leaves the
  // counter alone, and ends the call only after 1000 failures.
  lemma SwapIs(s: Counter, c: Call)
    requires Reached(s) && Enabled(s, Swap(c))
    ensures var s', v, failed := Do(s, Swap(c)), s.calls[c].v, s.calls[c].failed;
      && c in s'.calls
      && (s.p == v ==>
            && s'.p == (v + 1) % 0x1_0000_0000 && s'.wins == s.wins + [c] && s'.calls[c].Returned?
            && s'.calls[c].won && s'.calls[c].v == v && s'.calls[c].rc == if failed == 1000 then -1 else 0)
      && (s.p != v ==> s'.p == s.p && s'.wins == s.wins)
      && (s.p != v && failed != 1000 ==> s'.calls[c] == Rereading(failed + 1))
      && (s.p != v && failed == 1000 ==>
            s'.calls[c].Returned? && !s'.calls[c].won && s'.calls[c].v == v && s'.calls[c].rc == 0)
      && (forall d :: d in s.calls && d != c ==> d in s'.calls && s'.calls[d] == s.calls[d])
  {
    ReachedInv(s);
    assert CallOk(s.calls[c], c, s.wins, KFIRSTBID);
  }

  // A new call that nobody disturbs wins, and is given the next identifier.
  lemma UndisturbedWins(s: Counter, c: Call)
    requires Reached(s) && c !in s.calls
    ensures Legal(s, [Read(c), Swap(c)])
    ensures var n := (1000 + |s.wins|) % 0x1_0000_0000;
      After(s, [Read(c), Swap(c)])
      == Counter((n + 1) % 0x1_0000_0000, s.calls[c := Returned(n, |s.wins|, 0, true, 0)], s.wins + [c])
  {
    ReachedInv(s);
    var s1 := Do(s, Read(c));
    assert s1.calls[c := Returned(s.p, |s.wins|, 0, true, 0)] == s.calls[c := Returned(s.p, |s.wins|, 0, true, 0)];
    assert [Read(c), Swap(c)][1..] == [Swap(c)] && [Swap(c)][1..] == [];
    assert Legal(s1, [Swap(c)]);
    assert After(s1, [Swap(c)]) == Do(s1, Swap(c));
  }

  // How many of the steps are swaps of this call.
  function Swaps(steps: seq<Step>, c: Call): nat {
    if steps == [] then 0 else (if steps[0] == Swap(c) then 1 else 0) + Swaps(steps[1..], c)
  }

  // So many swaps of the call have been made.
  ghost predicate Made(s: Counter, c: Call, n: nat) {
    if c !in s.calls then n == 0
    else
      match s.calls[c]
      case Trying(_, _, failed) => n == failed <= RETRIES
      case Rereading(failed) => n == failed <= RETRIES
      case Returned(_, _, _, won, failed) => n == failed + (if won then 1 else 0) && n <= RETRIES + 1
  }

  lemma {:induction false} RunMade(s: Counter, steps: seq<Step>, c: Call, n: nat)
    requires Legal(s, steps) && Made(s, c, n)
    ensures Made(After(s, steps), c, n + Swaps(steps, c))
    decreases |steps|
  {
    if steps != [] {
      RunMade(Do(s, steps[0]), steps[1..], c, n + if steps[0] == Swap(c) then 1 else 0);
    }
  }

  // In every interleaving a call has returned by its 1001st swap, and what it is said to have failed is how
  // many of its swaps did not win.
  lemma ReturnsInTime(steps: seq<Step>, c: Call)
    requires Legal(NEW_SESSION, steps) && c in After(NEW_SESSION, steps).calls
    ensures Swaps(steps, c) <= 1001
    ensures var pc := After(NEW_SESSION, steps).calls[c];
      && (Swaps(steps, c) == 1001 ==> pc.Returned?)
      && (pc.Returned? ==> pc.failed == Swaps(steps, c) - if pc.won then 1 else 0)
      && (pc.Returned? && !pc.won ==> Swaps(steps, c) == 1001)
  {
    RunMade(NEW_SESSION, steps, c, 0);
    assert Reached(After(NEW_SESSION, steps));
    ReachedInv(After(NEW_SESSION, steps));
    assert CallOk(After(NEW_SESSION, steps).calls[c], c, After(NEW_SESSION, steps).wins, KFIRSTBID);
  }
}
