/**
 The limits of one batch to which many threads add requests (src/put.c, src/del.c).

 A thread accounts for its request with the batch locked, then compares the counters with the limits
 one after the other without the lock, and only then sends. Each of those is one step here.
 */
module BatchLimits {
  import opened Common

  // kl_batlen, kl_batopscnt, kl_batdelcnt; 0 is no limit
  datatype Limits = Limits(bytes: Word, ops: Word, dels: Word)

  // bytes is the message length plus the value length, in 32 bits
  datatype Request = Request(bytes: Word, isDel: bool)

  datatype Stage = Accounted | BytesOk | OpsOk | Cleared | Sent | Rejected

  // The counters of the batch, and the requests in the order in which they were accounted for.
  datatype Batch = Batch(ops: Word, dels: Word, bytes: Word, log: seq<Request>, stages: seq<Stage>)

  datatype Step =
    | Account(r: Request)
    | CheckBytes(i: nat)
    | CheckOps(i: nat)
    | CheckDels(i: nat)
    | Send(i: nat, ok: bool)

  const FRESH := Batch(0, 0, 0, [], [])

  predicate Within(count: Word, limit: Word) {
    limit > 0 ==> count <= limit
  }

  predicate Enabled(b: Batch, step: Step)
    requires |b.stages| == |b.log|
  {
    match step
    case Account(_) => true
    case CheckBytes(i) => i < |b.log| && b.stages[i] == Accounted
    case CheckOps(i) => i < |b.log| && b.stages[i] == BytesOk
    case CheckDels(i) => i < |b.log| && b.stages[i] == OpsOk
    case Send(i, _) => i < |b.log| && b.stages[i] == Cleared
  }

  function Do(b: Batch, step: Step, lim: Limits): (b': Batch)
    requires |b.stages| == |b.log| && Enabled(b, step)
    ensures |b'.stages| == |b'.log|
  {
    match step
    case Account(r) =>
      Batch((b.ops + 1) % WORDS, if r.isDel then (b.dels + 1) % WORDS else b.dels, (b.bytes + r.bytes) % WORDS,
            b.log + [r], b.stages + [Accounted])
    case CheckBytes(i) => b.(stages := b.stages[i := if Within(b.bytes, lim.bytes) then BytesOk else Rejected])
    case CheckOps(i) => b.(stages := b.stages[i := if Within(b.ops, lim.ops) then OpsOk else Rejected])
    // a put does not look at the deletions
    case CheckDels(i) =>
      b.(stages := b.stages[i := if !b.log[i].isDel || Within(b.dels, lim.dels) then Cleared else Rejected])
    case Send(i, ok) => b.(stages := b.stages[i := if ok then Sent else Rejected])
  }

  function Bytes(log: seq<Request>): nat {
    if log == [] then 0 else Bytes(log[..|log| - 1]) + log[|log| - 1].bytes
  }

  function Dels(log: seq<Request>): nat {
    if log == [] then 0 else Dels(log[..|log| - 1]) + if log[|log| - 1].isDel then 1 else 0
  }

  // --- when a request can be sent ---

  // What the three comparisons come to when so much has been accounted for.
  predicate BytesPass(log: seq<Request>, m: nat, lim: Limits)
    requires m <= |log|
  {
    Within(Bytes(log[..m]) % WORDS, lim.bytes)
  }

  predicate OpsPass(m: nat, lim: Limits) {
    Within(m % WORDS, lim.ops)
  }

  predicate DelsPass(log: seq<Request>, isDel: bool, m: nat, lim: Limits)
    requires m <= |log|
  {
    !isDel || Within(Dels(log[..m]) % WORDS, lim.dels)
  }

  // There is a moment after the i-th request was accounted for at which its bytes pass, ...
  ghost predicate BytesCanPass(log: seq<Request>, i: nat, lim: Limits) {
    exists m1 :: i < m1 <= |log| && BytesPass(log, m1, lim)
  }

  // ... then one at which its operations do, ...
  ghost predicate OpsCanPass(log: seq<Request>, i: nat, lim: Limits) {
    exists m1, m2 :: i < m1 <= m2 <= |log| && BytesPass(log, m1, lim) && OpsPass(m2, lim)
  }

  // ... and then one at which its deletions do.
  ghost predicate AllCanPass(log: seq<Request>, isDel: bool, i: nat, lim: Limits) {
    exists m1, m2, m3 :: i < m1 <= m2 <= m3 <= |log|
      && BytesPass(log, m1, lim) && OpsPass(m2, lim) && DelsPass(log, isDel, m3, lim)
  }

  ghost predicate Sendable(log: seq<Request>, i: nat, lim: Limits)
    requires i < |log|
  {
    AllCanPass(log, log[i].isDel, i, lim)
  }

  // One more request: the moments there were, and the one there is now
  lemma CanPassNext(log: seq<Request>, r: Request, isDel: bool, i: nat, lim: Limits)
    requires i <= |log|
    ensures var log', n := log + [r], |log| + 1;
      && (BytesCanPass(log', i, lim) <==> BytesCanPass(log, i, lim) || BytesPass(log', n, lim))
      && (OpsCanPass(log', i, lim) <==> OpsCanPass(log, i, lim) || (BytesCanPass(log', i, lim) && OpsPass(n, lim)))
      && (AllCanPass(log', isDel, i, lim) <==>
            AllCanPass(log, isDel, i, lim) || (OpsCanPass(log', i, lim) && DelsPass(log', isDel, n, lim)))
  {
    var log', n := log + [r], |log| + 1;
    forall m | 0 <= m <= |log| ensures log'[..m] == log[..m] {
    }
    forall m | 0 <= m <= |log|
      ensures BytesPass(log', m, lim) <==> BytesPass(log, m, lim)
      ensures DelsPass(log', isDel, m, lim) <==> DelsPass(log, isDel, m, lim)
    {
    }
    hide BytesPass, OpsPass, DelsPass;
    BytesNext(log, log', i, lim);
    OpsNext(log, log', i, lim);
    AllNext(log, log', isDel, i, lim);
  }

  ghost predicate Grows(log: seq<Request>, log': seq<Request>, lim: Limits) {
    |log'| == |log| + 1 && forall m :: 0 <= m <= |log| ==> (BytesPass(log', m, lim) <==> BytesPass(log, m, lim))
  }

  lemma BytesNext(log: seq<Request>, log': seq<Request>, i: nat, lim: Limits)
    requires i <= |log| && Grows(log, log', lim)
    ensures BytesCanPass(log', i, lim) <==> BytesCanPass(log, i, lim) || BytesPass(log', |log'|, lim)
  {
    hide BytesPass;
    if BytesCanPass(log', i, lim) && !BytesPass(log', |log'|, lim) {
      var m1 :| i < m1 <= |log'| && BytesPass(log', m1, lim);
      assert BytesPass(log, m1, lim);
    }
    if m1 :| i < m1 <= |log| && BytesPass(log, m1, lim) {
      assert BytesPass(log', m1, lim);
    }
  }

  lemma OpsNext(log: seq<Request>, log': seq<Request>, i: nat, lim: Limits)
    requires i <= |log| && Grows(log, log', lim)
    ensures OpsCanPass(log', i, lim) <==>
      OpsCanPass(log, i, lim) || (BytesCanPass(log', i, lim) && OpsPass(|log'|, lim))
  {
    hide BytesPass, OpsPass;
    if m1, m2 :| i < m1 <= m2 <= |log'| && BytesPass(log', m1, lim) && OpsPass(m2, lim) {
      if m2 <= |log| {
        assert BytesPass(log, m1, lim) && OpsPass(m2, lim);
      }
    }
    if m1, m2 :| i < m1 <= m2 <= |log| && BytesPass(log, m1, lim) && OpsPass(m2, lim) {
      assert BytesPass(log', m1, lim) && OpsPass(m2, lim);
    }
    if BytesCanPass(log', i, lim) && OpsPass(|log'|, lim) {
      var m1 :| i < m1 <= |log'| && BytesPass(log', m1, lim);
      assert BytesPass(log', m1, lim) && OpsPass(|log'|, lim);
    }
  }

  lemma AllNext(log: seq<Request>, log': seq<Request>, isDel: bool, i: nat, lim: Limits)
    requires i <= |log| && Grows(log, log', lim)
    requires forall m :: 0 <= m <= |log| ==> (DelsPass(log', isDel, m, lim) <==> DelsPass(log, isDel, m, lim))
    ensures AllCanPass(log', isDel, i, lim) <==>
      AllCanPass(log, isDel, i, lim) || (OpsCanPass(log', i, lim) && DelsPass(log', isDel, |log'|, lim))
  {
    hide BytesPass, OpsPass, DelsPass;
    if AllCanPass(log', isDel, i, lim) {
      var m1, m2, m3 :| i < m1 <= m2 <= m3 <= |log'|
        && BytesPass(log', m1, lim) && OpsPass(m2, lim) && DelsPass(log', isDel, m3, lim);
      if m3 <= |log| {
        assert BytesPass(log, m1, lim) && OpsPass(m2, lim) && DelsPass(log, isDel, m3, lim);
      }
    }
    if AllCanPass(log, isDel, i, lim) {
      var m1, m2, m3 :| i < m1 <= m2 <= m3 <= |log|
        && BytesPass(log, m1, lim) && OpsPass(m2, lim) && DelsPass(log, isDel, m3, lim);
      assert BytesPass(log', m1, lim) && OpsPass(m2, lim) && DelsPass(log', isDel, m3, lim);
    }
    if OpsCanPass(log', i, lim) && DelsPass(log', isDel, |log'|, lim) {
      var m1, m2 :| i < m1 <= m2 <= |log'| && BytesPass(log', m1, lim) && OpsPass(m2, lim);
      assert BytesPass(log', m1, lim) && OpsPass(m2, lim) && DelsPass(log', isDel, |log'|, lim);
    }
  }

  // --- every schedule ---

  predicate SameLength(log: seq<Request>, stages: seq<Stage>) {
    |log| == |stages|
  }

  function SentOnly(log: seq<Request>, stages: seq<Stage>): (r: seq<Request>)
    requires SameLength(log, stages)
  {
    if log == [] then []
    else
      var n := |log| - 1;
      SentOnly(log[..n], stages[..n]) + if stages[n] == Sent then [log[n]] else []
  }

  // How far the log goes that holds all requests of some kind that were sent.
  predicate NoneSentFrom(log: seq<Request>, stages: seq<Stage>, n: nat, delsOnly: bool)
    requires SameLength(log, stages)
  {
    n <= |log| && forall i :: n <= i < |log| && stages[i] == Sent ==> delsOnly && !log[i].isDel
  }

  lemma BytesAppend(log: seq<Request>, r: Request)
    ensures Bytes(log + [r]) == Bytes(log) + r.bytes && Dels(log + [r]) == Dels(log) + if r.isDel then 1 else 0
  {
    assert (log + [r])[..|log|] == log;
  }

  lemma {:induction false} PrefixLess(log: seq<Request>, i: nat)
    requires i <= |log|
    ensures Bytes(log[..i]) <= Bytes(log) && Dels(log[..i]) <= Dels(log) && Dels(log) <= |log|
    decreases |log|
  {
    if i < |log| {
      var n := |log| - 1;
      PrefixLess(log[..n], i);
      assert log[..n][..i] == log[..i];
    } else {
      assert log[..i] == log;
      if log != [] {
        PrefixLess(log[..|log| - 1], |log| - 1);
      }
    }
  }

  // What a stage says of the comparisons that were made.
  ghost predicate Earned(log: seq<Request>, isDel: bool, i: nat, st: Stage, lim: Limits) {
    match st
    case BytesOk => BytesCanPass(log, i, lim)
    case OpsOk => OpsCanPass(log, i, lim)
    case Cleared => AllCanPass(log, isDel, i, lim)
    case Sent => AllCanPass(log, isDel, i, lim)
    case _ => true
  }

  ghost predicate CountersOk(b: Batch) {
    b.ops == |b.log| % WORDS && b.bytes == Bytes(b.log) % WORDS && b.dels == Dels(b.log) % WORDS
  }

  ghost predicate Inv(b: Batch, lim: Limits) {
    && |b.stages| == |b.log| && CountersOk(b)
    && (forall i :: 0 <= i < |b.log| ==> Earned(b.log, b.log[i].isDel, i, b.stages[i], lim))
  }

  // The counters follow the log, wrapping as they go.
  lemma CountersGo(b: Batch, r: Request, lim: Limits)
    requires |b.stages| == |b.log| && CountersOk(b)
    ensures CountersOk(Do(b, Account(r), lim))
  {
    BytesAppend(b.log, r);
    WrapAdds(|b.log|, 1);
    WrapAdds(Bytes(b.log), r.bytes);
    WrapAdds(Dels(b.log), 1);
    hide Bytes, Dels;
  }

  lemma AccountInv(b: Batch, r: Request, lim: Limits)
    requires Inv(b, lim)
    ensures Inv(Do(b, Account(r), lim), lim)
  {
    var b' := Do(b, Account(r), lim);
    CountersGo(b, r, lim);
    hide CountersOk, BytesCanPass, OpsCanPass, AllCanPass;
    forall i | 0 <= i < |b'.log| ensures Earned(b'.log, b'.log[i].isDel, i, b'.stages[i], lim) {
      if i < |b.log| {
        assert Earned(b.log, b.log[i].isDel, i, b.stages[i], lim);
        CanPassNext(b.log, r, b.log[i].isDel, i, lim);
      }
    }
  }

  // What is compared now is what the comparison of this moment comes to.
  lemma CheckEarns(b: Batch, step: Step, lim: Limits)
    requires |b.stages| == |b.log| && CountersOk(b) && Enabled(b, step) && !step.Account?
    requires Earned(b.log, b.log[step.i].isDel, step.i, b.stages[step.i], lim)
    ensures Earned(b.log, b.log[step.i].isDel, step.i, Do(b, step, lim).stages[step.i], lim)
  {
    var i, n, isDel := step.i, |b.log|, b.log[step.i].isDel;
    PassNow(b, isDel, lim);
    hide BytesPass, OpsPass, DelsPass, CountersOk, Within;
    match step
    case CheckBytes(_) =>
    case CheckOps(_) =>
      var m1 :| i < m1 <= n && BytesPass(b.log, m1, lim);
      assert OpsPass(n, lim) ==> BytesPass(b.log, m1, lim) && OpsPass(n, lim);
    case CheckDels(_) =>
      var m1, m2 :| i < m1 <= m2 <= n && BytesPass(b.log, m1, lim) && OpsPass(m2, lim);
      assert DelsPass(b.log, isDel, n, lim) ==>
        BytesPass(b.log, m1, lim) && OpsPass(m2, lim) && DelsPass(b.log, isDel, n, lim);
    case Send(_, _) =>
  }

  lemma PassNow(b: Batch, isDel: bool, lim: Limits)
    requires CountersOk(b)
    ensures BytesPass(b.log, |b.log|, lim) <==> Within(b.bytes, lim.bytes)
    ensures OpsPass(|b.log|, lim) <==> Within(b.ops, lim.ops)
    ensures DelsPass(b.log, isDel, |b.log|, lim) <==> !isDel || Within(b.dels, lim.dels)
  {
    assert b.log[..|b.log|] == b.log;
  }

  lemma CheckInv(b: Batch, step: Step, lim: Limits)
    requires Inv(b, lim) && Enabled(b, step) && !step.Account?
    ensures Inv(Do(b, step, lim), lim)
  {
    assert Earned(b.log, b.log[step.i].isDel, step.i, b.stages[step.i], lim);
    CheckEarns(b, step, lim);
    hide Earned, Within;
  }

  ghost predicate Legal(b: Batch, steps: seq<Step>, lim: Limits)
    requires |b.stages| == |b.log|
    decreases |steps|
  {
    steps != [] ==> Enabled(b, steps[0]) && Legal(Do(b, steps[0], lim), steps[1..], lim)
  }

  ghost function After(b: Batch, steps: seq<Step>, lim: Limits): (b': Batch)
    requires |b.stages| == |b.log| && Legal(b, steps, lim)
    ensures |b'.stages| == |b'.log|
    decreases |steps|
  {
    if steps == [] then b else After(Do(b, steps[0], lim), steps[1..], lim)
  }

  ghost predicate Reached(b: Batch, lim: Limits) {
    |b.stages| == |b.log| && exists steps :: Legal(FRESH, steps, lim) && After(FRESH, steps, lim) == b
  }

  lemma {:induction false} RunInv(b: Batch, steps: seq<Step>, lim: Limits)
    requires Inv(b, lim) && Legal(b, steps, lim)
    ensures Inv(After(b, steps, lim), lim)
    decreases |steps|
  {
    if steps != [] {
      if steps[0].Account? {
        AccountInv(b, steps[0].r, lim);
      } else {
        CheckInv(b, steps[0], lim);
      }
      hide Inv;
      RunInv(Do(b, steps[0], lim), steps[1..], lim);
    }
  }

  lemma ReachedInv(b: Batch, lim: Limits)
    requires Reached(b, lim)
    ensures Inv(b, lim)
  {
    var steps :| Legal(FRESH, steps, lim) && After(FRESH, steps, lim) == b;
    RunInv(FRESH, steps, lim);
  }

  lemma {:induction false} Append(b: Batch, steps: seq<Step>, step: Step, lim: Limits)
    requires |b.stages| == |b.log| && Legal(b, steps, lim) && Enabled(After(b, steps, lim), step)
    ensures Legal(b, steps + [step], lim)
    ensures After(b, steps + [step], lim) == Do(After(b, steps, lim), step, lim)
    decreases |steps|
  {
    hide Do, Enabled;
    if steps != [] {
      Append(Do(b, steps[0], lim), steps[1..], step, lim);
      assert (steps + [step])[1..] == steps[1..] + [step];
    } else {
      assert (steps + [step])[1..] == [];
      assert Legal(Do(b, step, lim), [], lim);
    }
  }

  lemma ReachedNext(b: Batch, step: Step, lim: Limits)
    requires Reached(b, lim) && Enabled(b, step)
    ensures Reached(Do(b, step, lim), lim)
  {
    hide Do, Enabled, Legal, After;
    var steps :| Legal(FRESH, steps, lim) && After(FRESH, steps, lim) == b;
    Append(FRESH, steps, step, lim);
  }

  // --- what the limits hold ---

  lemma NoneSentFront(log: seq<Request>, stages: seq<Stage>, n: nat, delsOnly: bool)
    requires SameLength(log, stages) && log != [] && NoneSentFrom(log, stages, n, delsOnly)
    ensures var m := |log| - 1; NoneSentFrom(log[..m], stages[..m], if n < m then n else m, delsOnly)
  {
  }

  // What was sent is no more, in number, bytes and deletions, than the log up to the last of it.
  lemma {:induction false} SentWithin(log: seq<Request>, stages: seq<Stage>, n: nat, delsOnly: bool)
    requires SameLength(log, stages) && NoneSentFrom(log, stages, n, delsOnly)
    ensures !delsOnly ==> |SentOnly(log, stages)| <= n && Bytes(SentOnly(log, stages)) <= Bytes(log[..n])
    ensures Dels(SentOnly(log, stages)) <= Dels(log[..n])
    decreases |log|
  {
    if log != [] {
      var m := |log| - 1;
      var k := if n < m then n else m;
      NoneSentFront(log, stages, n, delsOnly);
      SentWithin(log[..m], stages[..m], k, delsOnly);
      SentStep(log, stages);
      assert log[..m][..k] == log[..k];
      assert n == |log| ==> log[..n] == log;
      hide SentOnly;
    }
  }

  // The last request of the log adds to what was sent, or does not.
  lemma SentStep(log: seq<Request>, stages: seq<Stage>)
    requires SameLength(log, stages) && log != []
    ensures var m := |log| - 1;
      var front, all := SentOnly(log[..m], stages[..m]), SentOnly(log, stages);
      if stages[m] == Sent then
        && |all| == |front| + 1 && Bytes(all) == Bytes(front) + log[m].bytes
        && Dels(all) == Dels(front) + if log[m].isDel then 1 else 0
      else all == front
  {
    var m := |log| - 1;
    var front := SentOnly(log[..m], stages[..m]);
    BytesAppend(front, log[m]);
    assert front + [] == front;
  }

  // Just behind the last request of the kind that was sent, or 0
  function LastSent(log: seq<Request>, stages: seq<Stage>, delsOnly: bool): (n: nat)
    requires SameLength(log, stages)
    ensures NoneSentFrom(log, stages, n, delsOnly)
    ensures n > 0 ==> stages[n - 1] == Sent && (delsOnly ==> log[n - 1].isDel)
  {
    if log == [] then 0
    else
      var m := |log| - 1;
      if stages[m] == Sent && (delsOnly ==> log[m].isDel) then |log|
      else
        var n := LastSent(log[..m], stages[..m], delsOnly);
        assert forall i :: 0 <= i < m ==> log[..m][i] == log[i] && stages[..m][i] == stages[i];
        n
  }

  // Whenever the wrapped byte count is within the limit, the true one is.
  predicate Honest(log: seq<Request>, limit: Word) {
    forall m :: 0 <= m <= |log| && Bytes(log[..m]) % WORDS <= limit ==> Bytes(log[..m]) <= limit
  }

  // A request that was sent was within the limits with all that was accounted for up to it.
  lemma SentIsWithin(log: seq<Request>, i: nat, lim: Limits)
    requires |log| < WORDS && i < |log| && Sendable(log, i, lim)
    ensures lim.ops > 0 ==> i + 1 <= lim.ops
    ensures lim.dels > 0 && log[i].isDel ==> Dels(log[..i + 1]) <= lim.dels
    ensures lim.bytes > 0 && Honest(log, lim.bytes) ==> Bytes(log[..i + 1]) <= lim.bytes
  {
    var m1, m2, m3 :| i < m1 <= m2 <= m3 <= |log|
      && BytesPass(log, m1, lim) && OpsPass(m2, lim) && DelsPass(log, log[i].isDel, m3, lim);
    PrefixLess(log[..m1], i + 1);
    PrefixLess(log[..m3], i + 1);
    assert log[..m1][..i + 1] == log[..i + 1] && log[..m3][..i + 1] == log[..i + 1];
    hide Bytes, Dels;
  }

  // However the threads interleave, and although they read the counters after the lock is gone, what is
  // sent stays within the operations and deletions allowed, and within the bytes while no wrapped count
  // passes for a true one.
  lemma LimitsHold(b: Batch, lim: Limits)
    requires Reached(b, lim) && |b.log| < WORDS
    ensures lim.ops > 0 ==> |SentOnly(b.log, b.stages)| <= lim.ops
    ensures lim.dels > 0 ==> Dels(SentOnly(b.log, b.stages)) <= lim.dels
    ensures lim.bytes > 0 && Honest(b.log, lim.bytes) ==> Bytes(SentOnly(b.log, b.stages)) <= lim.bytes
  {
    ReachedInv(b, lim);
    hide Reached, Honest, SentOnly, Bytes, Dels;
    LastIsWithin(b, false, lim);
    LastIsWithin(b, true, lim);
  }

  lemma LastIsWithin(b: Batch, delsOnly: bool, lim: Limits)
    requires Inv(b, lim) && |b.log| < WORDS
    ensures var sent := SentOnly(b.log, b.stages);
      if delsOnly then lim.dels > 0 ==> Dels(sent) <= lim.dels
      else
        && (lim.ops > 0 ==> |sent| <= lim.ops)
        && (lim.bytes > 0 && Honest(b.log, lim.bytes) ==> Bytes(sent) <= lim.bytes)
  {
    hide Honest, AllCanPass, CountersOk, SentOnly, Bytes, Dels;
    var n := LastSent(b.log, b.stages, delsOnly);
    SentWithin(b.log, b.stages, n, delsOnly);
    NothingCounts(b.log);
    if n > 0 {
      assert Earned(b.log, b.log[n - 1].isDel, n - 1, b.stages[n - 1], lim);
      hide Inv;
      SentIsWithin(b.log, n - 1, lim);
    }
  }

  lemma NothingCounts(log: seq<Request>)
    ensures Bytes(log[..0]) == 0 && Dels(log[..0]) == 0
  {
  }

  // --- what can be sent at most ---

  // How far a request can have come.
  ghost function Best(log: seq<Request>, isDel: bool, i: nat, lim: Limits): Stage {
    if AllCanPass(log, isDel, i, lim) then Sent
    else if OpsCanPass(log, i, lim) then OpsOk
    else if BytesCanPass(log, i, lim) then BytesOk
    else Accounted
  }

  ghost predicate BestUpTo(b: Batch, log: seq<Request>, n: nat, lim: Limits) {
    && n <= |b.log| == |b.stages|
    && (forall i :: 0 <= i < n ==> b.stages[i] == Best(b.log, b.log[i].isDel, i, lim))
    && (forall i :: n <= i < |b.log| ==> b.stages[i] == Best(log, b.log[i].isDel, i, lim))
  }

  ghost predicate AllBest(b: Batch, lim: Limits) {
    |b.log| == |b.stages| && forall i :: 0 <= i < |b.log| ==> b.stages[i] == Best(b.log, b.log[i].isDel, i, lim)
  }

  // The comparisons one request can pass now take it as far as it can have come.
  lemma RaiseOne(b: Batch, log: seq<Request>, i: nat, lim: Limits)
    requires Reached(b, lim) && i < |b.log| && log == b.log[..|b.log| - 1]
    requires b.stages[i] == Best(log, b.log[i].isDel, i, lim)
    ensures Reached(b.(stages := b.stages[i := Best(b.log, b.log[i].isDel, i, lim)]), lim)
  {
    ReachedInv(b, lim);
    assert |b.stages| == |b.log| && CountersOk(b);
    hide Inv, CountersOk, Reached, Best;
    RaiseBytes(b, log, i, lim);
  }

  // What has become possible with the last request is possible because the comparison passes now.
  lemma NewlyPasses(b: Batch, log: seq<Request>, isDel: bool, i: nat, lim: Limits)
    requires CountersOk(b) && i < |b.log| && log == b.log[..|b.log| - 1]
    ensures BytesCanPass(b.log, i, lim) <==> BytesCanPass(log, i, lim) || Within(b.bytes, lim.bytes)
    ensures OpsCanPass(b.log, i, lim) <==>
      OpsCanPass(log, i, lim) || (BytesCanPass(b.log, i, lim) && Within(b.ops, lim.ops))
    ensures AllCanPass(b.log, isDel, i, lim) <==>
      AllCanPass(log, isDel, i, lim) || (OpsCanPass(b.log, i, lim) && (!isDel || Within(b.dels, lim.dels)))
  {
    PassNow(b, isDel, lim);
    assert b.log == log + [b.log[|b.log| - 1]];
    hide CountersOk, BytesCanPass, OpsCanPass, AllCanPass, BytesPass, OpsPass, DelsPass, Within;
    CanPassNext(log, b.log[|b.log| - 1], isDel, i, lim);
  }

  lemma RaiseBytes(b: Batch, log: seq<Request>, i: nat, lim: Limits)
    requires Reached(b, lim) && |b.stages| == |b.log| && CountersOk(b) && i < |b.log|
    requires log == b.log[..|b.log| - 1] && b.stages[i] == Best(log, b.log[i].isDel, i, lim)
    ensures Reached(At(b, i, Best(b.log, b.log[i].isDel, i, lim)), lim)
  {
    var isDel := b.log[i].isDel;
    NewlyPasses(b, log, isDel, i, lim);
    hide CountersOk, BytesCanPass, OpsCanPass, AllCanPass, Within, Reached;
    if b.stages[i] == Accounted && BytesCanPass(b.log, i, lim) {
      PassBytes(b, i, lim);
      var b1 := At(b, i, BytesOk);
      RaiseOps(b1, i, lim);
      assert At(b1, i, Best(b.log, isDel, i, lim)).stages == At(b, i, Best(b.log, isDel, i, lim)).stages;
    } else if b.stages[i] == BytesOk {
      RaiseOps(b, i, lim);
    } else if b.stages[i] == OpsOk {
      RaiseDels(b, i, lim);
    } else {
      assert At(b, i, b.stages[i]).stages == b.stages;
    }
  }

  lemma RaiseOps(b: Batch, i: nat, lim: Limits)
    requires Reached(b, lim) && |b.stages| == |b.log| && i < |b.log| && b.stages[i] == BytesOk
    requires BytesCanPass(b.log, i, lim) && (OpsCanPass(b.log, i, lim) ==> Within(b.ops, lim.ops))
    requires var isDel := b.log[i].isDel;
      AllCanPass(b.log, isDel, i, lim) ==> OpsCanPass(b.log, i, lim) && (!isDel || Within(b.dels, lim.dels))
    ensures Reached(At(b, i, Best(b.log, b.log[i].isDel, i, lim)), lim)
  {
    hide BytesCanPass, OpsCanPass, AllCanPass, Within, Reached;
    if OpsCanPass(b.log, i, lim) {
      PassOps(b, i, lim);
      var b1 := At(b, i, OpsOk);
      RaiseDels(b1, i, lim);
      var best := Best(b.log, b.log[i].isDel, i, lim);
      assert At(b1, i, best).stages == At(b, i, best).stages;
    } else {
      assert At(b, i, BytesOk).stages == b.stages;
    }
  }

  lemma RaiseDels(b: Batch, i: nat, lim: Limits)
    requires Reached(b, lim) && |b.stages| == |b.log| && i < |b.log| && b.stages[i] == OpsOk
    requires OpsCanPass(b.log, i, lim)
    requires var isDel := b.log[i].isDel; AllCanPass(b.log, isDel, i, lim) ==> !isDel || Within(b.dels, lim.dels)
    ensures Reached(At(b, i, Best(b.log, b.log[i].isDel, i, lim)), lim)
  {
    hide BytesCanPass, OpsCanPass, AllCanPass, Within, Reached;
    if AllCanPass(b.log, b.log[i].isDel, i, lim) {
      PassDels(b, i, lim);
    } else {
      assert At(b, i, OpsOk).stages == b.stages;
    }
  }

  function At(b: Batch, i: nat, st: Stage): Batch
    requires i < |b.stages|
  {
    b.(stages := b.stages[i := st])
  }

  lemma PassBytes(b: Batch, i: nat, lim: Limits)
    requires Reached(b, lim) && i < |b.log| && b.stages[i] == Accounted && Within(b.bytes, lim.bytes)
    ensures Reached(At(b, i, BytesOk), lim)
  {
    ReachedNext(b, CheckBytes(i), lim);
  }

  lemma PassOps(b: Batch, i: nat, lim: Limits)
    requires Reached(b, lim) && i < |b.log| && b.stages[i] == BytesOk && Within(b.ops, lim.ops)
    ensures Reached(At(b, i, OpsOk), lim)
  {
    ReachedNext(b, CheckOps(i), lim);
  }

  lemma PassDels(b: Batch, i: nat, lim: Limits)
    requires Reached(b, lim) && i < |b.log| && b.stages[i] == OpsOk
    requires !b.log[i].isDel || Within(b.dels, lim.dels)
    ensures Reached(At(b, i, Sent), lim)
  {
    ReachedNext(b, CheckDels(i), lim);
    ReachedNext(At(b, i, Cleared), Send(i, true), lim);
    hide Reached;
    assert At(b, i, Sent).stages == At(At(b, i, Cleared), i, Sent).stages;
  }

  lemma {:induction false} RaiseAll(b: Batch, log: seq<Request>, n: nat, lim: Limits)
    requires Reached(b, lim) && b.log != [] && log == b.log[..|b.log| - 1] && BestUpTo(b, log, n, lim)
    ensures exists b' :: Reached(b', lim) && b'.log == b.log && AllBest(b', lim)
    decreases |b.log| - n
  {
    assert |b.stages| == |b.log|;
    hide Best, Reached;
    if n < |b.log| {
      RaiseOne(b, log, n, lim);
      RaiseAll(b.(stages := b.stages[n := Best(b.log, b.log[n].isDel, n, lim)]), log, n + 1, lim);
    } else {
      assert AllBest(b, lim);
    }
  }

  // In one schedule everything that can be sent is sent.
  lemma {:induction false} AllSent(rs: seq<Request>, lim: Limits)
    ensures exists b :: Reached(b, lim) && b.log == rs && AllBest(b, lim)
    decreases |rs|
  {
    hide Reached, BestUpTo, AllBest;
    if rs == [] {
      NoneYet(lim);
    } else {
      var front, r := rs[..|rs| - 1], rs[|rs| - 1];
      AllSent(front, lim);
      var b :| Reached(b, lim) && b.log == front && AllBest(b, lim);
      OneArrives(b, r, lim);
      assert rs == front + [r];
      RaiseAll(Do(b, Account(r), lim), front, 0, lim);
    }
  }

  lemma NoneYet(lim: Limits)
    ensures Reached(FRESH, lim) && AllBest(FRESH, lim)
  {
    assert Legal(FRESH, [], lim) && After(FRESH, [], lim) == FRESH;
  }

  lemma OneArrives(b: Batch, r: Request, lim: Limits)
    requires Reached(b, lim) && AllBest(b, lim)
    ensures Reached(Do(b, Account(r), lim), lim) && BestUpTo(Do(b, Account(r), lim), b.log, 0, lim)
  {
    ReachedNext(b, Account(r), lim);
    assert Best(b.log, r.isDel, |b.log|, lim) == Accounted;
    hide Best, Reached;
  }

  // The requests that can be sent, among the first n.
  ghost function Sendables(rs: seq<Request>, n: nat, lim: Limits): seq<Request>
    requires n <= |rs|
  {
    if n == 0 then [] else Sendables(rs, n - 1, lim) + if Sendable(rs, n - 1, lim) then [rs[n - 1]] else []
  }

  ghost predicate NoMore(a: seq<Request>, b: seq<Request>) {
    |a| <= |b| && Bytes(a) <= Bytes(b) && Dels(a) <= Dels(b)
  }

  lemma NoMoreNext(a: seq<Request>, b: seq<Request>, r: Request, one: bool, both: bool)
    requires NoMore(a, b) && (one ==> both)
    ensures NoMore(a + if one then [r] else [], b + if both then [r] else [])
  {
    BytesAppend(a, r);
    BytesAppend(b, r);
    assert a + [] == a && b + [] == b;
    hide Bytes, Dels;
  }

  lemma SentNext(log: seq<Request>, stages: seq<Stage>, n: nat)
    requires SameLength(log, stages) && n < |log|
    ensures SentOnly(log[..n + 1], stages[..n + 1])
         == SentOnly(log[..n], stages[..n]) + if stages[n] == Sent then [log[n]] else []
  {
    assert log[..n + 1][..n] == log[..n] && stages[..n + 1][..n] == stages[..n];
  }

  // What was sent is no more than what can be; and when all that can be sent was, it is just that.
  lemma {:induction false} SentOfSendables(log: seq<Request>, stages: seq<Stage>, n: nat, lim: Limits)
    requires SameLength(log, stages) && n <= |log|
    requires forall i :: 0 <= i < |log| && stages[i] == Sent ==> Sendable(log, i, lim)
    ensures NoMore(SentOnly(log[..n], stages[..n]), Sendables(log, n, lim))
    ensures (forall i :: 0 <= i < |log| && Sendable(log, i, lim) ==> stages[i] == Sent) ==>
      SentOnly(log[..n], stages[..n]) == Sendables(log, n, lim)
  {
    hide Sendable, SentOnly;
    if n == 0 {
      NothingSent(log, stages);
    } else {
      SentOfSendables(log, stages, n - 1, lim);
      SentNext(log, stages, n - 1);
      NoMoreNext(SentOnly(log[..n - 1], stages[..n - 1]), Sendables(log, n - 1, lim), log[n - 1],
                 stages[n - 1] == Sent, Sendable(log, n - 1, lim));
      hide NoMore;
    }
  }

  lemma NothingSent(log: seq<Request>, stages: seq<Stage>)
    requires SameLength(log, stages)
    ensures SentOnly(log[..0], stages[..0]) == [] && NoMore([], [])
  {
  }

  lemma SentIsSendable(b: Batch, lim: Limits)
    requires Reached(b, lim)
    ensures NoMore(SentOnly(b.log, b.stages), Sendables(b.log, |b.log|, lim))
    ensures (forall i :: 0 <= i < |b.log| && Sendable(b.log, i, lim) ==> b.stages[i] == Sent) ==>
      SentOnly(b.log, b.stages) == Sendables(b.log, |b.log|, lim)
  {
    ReachedInv(b, lim);
    forall i | 0 <= i < |b.log| && b.stages[i] == Sent ensures Sendable(b.log, i, lim) {
      assert Earned(b.log, b.log[i].isDel, i, b.stages[i], lim);
    }
    SentOfSendables(b.log, b.stages, |b.log|, lim);
    assert b.log[..|b.log|] == b.log && b.stages[..|b.log|] == b.stages;
  }

  // Some interleaving sends exactly what can be sent, and none sends more.
  lemma MostSent(rs: seq<Request>, lim: Limits)
    ensures exists b :: Reached(b, lim) && b.log == rs && SentOnly(b.log, b.stages) == Sendables(rs, |rs|, lim)
    ensures forall b :: Reached(b, lim) && b.log == rs ==> NoMore(SentOnly(b.log, b.stages), Sendables(rs, |rs|, lim))
  {
    AllSent(rs, lim);
    var b :| Reached(b, lim) && b.log == rs && AllBest(b, lim);
    hide Reached, NoMore;
    SentIsSendable(b, lim);
    forall b' | Reached(b', lim) && b'.log == rs
      ensures NoMore(SentOnly(b'.log, b'.stages), Sendables(rs, |rs|, lim))
    {
      SentIsSendable(b', lim);
    }
  }

  // Whatever the limits, the requests can get past a number of bytes, in some interleaving, exactly when
  // those that can be sent do.
  lemma BytesExceededIff(rs: seq<Request>, lim: Limits, bytes: nat)
    ensures (exists b :: Reached(b, lim) && b.log == rs && Bytes(SentOnly(b.log, b.stages)) > bytes)
      <==> Bytes(Sendables(rs, |rs|, lim)) > bytes
  {
    hide Reached, Sendables;
    MostSent(rs, lim);
  }

  // All three at one moment, on the true counts of operations and deletions; 0 is no limit
  predicate PassAt(log: seq<Request>, isDel: bool, m: nat, lim: Limits)
    requires m <= |log|
  {
    && (lim.bytes == 0 || Bytes(log[..m]) % 0x1_0000_0000 <= lim.bytes)
    && (lim.ops == 0 || m <= lim.ops)
    && (!isDel || lim.dels == 0 || Dels(log[..m]) <= lim.dels)
  }

  // While fewer than 2^32 requests are added, one moment decides whether a request can be sent: its bytes,
  // operations and deletions must pass together.
  lemma OneMomentIff(log: seq<Request>, i: nat, lim: Limits)
    requires i < |log| < 0x1_0000_0000
    ensures Sendable(log, i, lim) <==> exists m :: i < m <= |log| && PassAt(log, log[i].isDel, m, lim)
  {
    hide BytesPass, OpsPass, DelsPass, PassAt;
    var isDel := log[i].isDel;
    if AllCanPass(log, isDel, i, lim) {
      var m1, m2, m3 :| i < m1 <= m2 <= m3 <= |log|
        && BytesPass(log, m1, lim) && OpsPass(m2, lim) && DelsPass(log, isDel, m3, lim);
      CountsOnlyGrow(log, isDel, m1, m2, m3, lim);
    }
    if m :| i < m <= |log| && PassAt(log, isDel, m, lim) {
      PassesApart(log, isDel, m, lim);
      assert i < m <= m <= m;
    }
  }

  lemma DelsCount(log: seq<Request>, m: nat)
    requires m <= |log|
    ensures Dels(log[..m]) <= m
  {
    PrefixLess(log[..m], m);
  }

  lemma PassesApart(log: seq<Request>, isDel: bool, m: nat, lim: Limits)
    requires m <= |log| < WORDS && PassAt(log, isDel, m, lim)
    ensures BytesPass(log, m, lim) && OpsPass(m, lim) && DelsPass(log, isDel, m, lim)
  {
    DelsCount(log, m);
    hide Bytes, Dels;
  }

  lemma CountsOnlyGrow(log: seq<Request>, isDel: bool, m1: nat, m2: nat, m3: nat, lim: Limits)
    requires m1 <= m2 <= m3 <= |log| < WORDS
    requires BytesPass(log, m1, lim) && OpsPass(m2, lim) && DelsPass(log, isDel, m3, lim)
    ensures PassAt(log, isDel, m1, lim)
  {
    DelsCount(log, m3);
    assert Dels(log[..m1]) <= Dels(log[..m3]) by {
      PrefixLess(log[..m3], m1);
      assert log[..m3][..m1] == log[..m1];
    }
    hide Bytes, Dels;
  }

  // --- no request is rejected without a reason ---

  // In every reached state a comparison rejects its request exactly when there is a limit and the count of that
  // moment, in 32 bits, is above it; 0 is no limit, and what just fills a limit is let through. A request that
  // is let through fails only when its send does.
  lemma RejectedIff(b: Batch, step: Step, lim: Limits)
    requires Reached(b, lim) && Enabled(b, step) && !step.Account?
    ensures Do(b, step, lim).stages[step.i] == Rejected <==>
      match step
      case CheckBytes(_) => lim.bytes != 0 && Bytes(b.log) % 0x1_0000_0000 > lim.bytes
      case CheckOps(_) => lim.ops != 0 && |b.log| % 0x1_0000_0000 > lim.ops
      case CheckDels(i) => b.log[i].isDel && lim.dels != 0 && Dels(b.log) % 0x1_0000_0000 > lim.dels
      case Send(_, ok) => !ok
    ensures step.Send? && step.ok ==> Do(b, step, lim).stages[step.i] == Sent
  {
    ReachedInv(b, lim);
    hide Earned, Bytes, Dels;
  }

  // Requests that all fit, with no limit or none too low for the whole batch, are never rejected, and all of
  // them can be sent.
  lemma FittingIsSent(rs: seq<Request>, lim: Limits)
    requires |rs| < 0x1_0000_0000 && Bytes(rs) < 0x1_0000_0000
    requires lim.bytes == 0 || Bytes(rs) <= lim.bytes
    requires lim.ops == 0 || |rs| <= lim.ops
    requires lim.dels == 0 || Dels(rs) <= lim.dels
    ensures Sendables(rs, |rs|, lim) == rs
    ensures forall b, step :: Reached(b, lim) && b.log == rs && Enabled(b, step) && !step.Account? && !step.Send? ==>
      Do(b, step, lim).stages[step.i] != Rejected
  {
    forall i | 0 <= i < |rs| ensures Sendable(rs, i, lim) {
      FittingCanBeSent(rs, i, lim);
    }
    hide Bytes, Dels, Sendable, Enabled, Do, Reached;
    AllAreSendable(rs, |rs|, lim);
    forall b, step | Reached(b, lim) && b.log == rs && SameLength(b.log, b.stages)
      && Enabled(b, step) && !step.Account? && !step.Send?
      ensures Do(b, step, lim).stages[step.i] != Rejected
    {
      FittingPasses(b, step, lim);
    }
  }

  lemma FittingCanBeSent(rs: seq<Request>, i: nat, lim: Limits)
    requires i < |rs| < 0x1_0000_0000 && Bytes(rs) < 0x1_0000_0000
    requires (lim.bytes == 0 || Bytes(rs) <= lim.bytes) && (lim.ops == 0 || |rs| <= lim.ops)
    requires lim.dels == 0 || Dels(rs) <= lim.dels
    ensures Sendable(rs, i, lim)
  {
    hide Bytes, Dels, Sendable;
    assert rs[..|rs|] == rs;
    assert PassAt(rs, rs[i].isDel, |rs|, lim);
    OneMomentIff(rs, i, lim);
  }

  lemma FittingPasses(b: Batch, step: Step, lim: Limits)
    requires Reached(b, lim) && |b.log| < 0x1_0000_0000 && Bytes(b.log) < 0x1_0000_0000
    requires (lim.bytes == 0 || Bytes(b.log) <= lim.bytes) && (lim.ops == 0 || |b.log| <= lim.ops)
    requires lim.dels == 0 || Dels(b.log) <= lim.dels
    requires Enabled(b, step) && !step.Account? && !step.Send?
    ensures Do(b, step, lim).stages[step.i] != Rejected
  {
    DelsCount(b.log, |b.log|);
    assert b.log[..|b.log|] == b.log;
    hide Bytes, Dels, Reached, Do;
    RejectedIff(b, step, lim);
    assert Dels(b.log) % 0x1_0000_0000 == Dels(b.log);
  }

  lemma {:induction false} AllAreSendable(rs: seq<Request>, n: nat, lim: Limits)
    requires n <= |rs| && forall i :: 0 <= i < |rs| ==> Sendable(rs, i, lim)
    ensures Sendables(rs, n, lim) == rs[..n]
    ensures n == |rs| ==> Sendables(rs, n, lim) == rs
  {
    hide Sendable;
    if n > 0 {
      AllAreSendable(rs, n - 1, lim);
      assert rs[..n] == rs[..n - 1] + [rs[n - 1]];
    }
    assert n == |rs| ==> rs[..n] == rs;
  }
}
