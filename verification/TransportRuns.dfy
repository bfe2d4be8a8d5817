/** What holds after every schedule of the transport's threads and callers. */
module TransportRuns {
  import opened Common
  import opened Places
  import opened Transport
  import opened TransportInvariant

  // Each step is possible where the one before it has led.
  ghost predicate Legal(s: State, steps: seq<Step>)
    decreases |steps|
  {
    Named(s) && (steps != [] ==> Enabled(s, steps[0]) && Legal(Do(s, steps[0]), steps[1..]))
  }

  ghost function After(s: State, steps: seq<Step>): State
    requires Legal(s, steps)
    decreases |steps|
  {
    if steps == [] then s else After(Do(s, steps[0]), steps[1..])
  }

  // No failed send looks for a kio that has left the receive queue.
  ghost predicate Guarded(s: State, steps: seq<Step>)
    requires Legal(s, steps)
    decreases |steps|
  {
    steps != [] ==> Safe(s, steps[0]) && Guarded(Do(s, steps[0]), steps[1..])
  }

  ghost predicate Reached(s: State) {
    exists steps :: Legal(INIT, steps) && Guarded(INIT, steps) && After(INIT, steps) == s
  }

  ghost predicate Leads(s: State, steps: seq<Step>, s': State) {
    Legal(s, steps) && After(s, steps) == s'
  }

  lemma OneStep(s: State, step: Step)
    requires Named(s) && Enabled(s, step) && Named(Do(s, step))
    ensures Leads(s, [step], Do(s, step))
  {
    assert [step][1..] == [];
  }

  lemma {:induction false} Then(s: State, first: seq<Step>, s1: State, rest: seq<Step>, s2: State)
    requires Leads(s, first, s1) && Leads(s1, rest, s2)
    ensures Leads(s, first + rest, s2)
    ensures Guarded(s, first) && Guarded(s1, rest) ==> Guarded(s, first + rest)
    decreases |first|
  {
    hide Do, Enabled, Named, Safe;
    if first == [] {
      assert first + rest == rest;
    } else {
      Then(Do(s, first[0]), first[1..], s1, rest, s2);
      assert (first + rest)[1..] == first[1..] + rest;
    }
  }

  lemma {:induction false} NoPullIsGuarded(s: State, steps: seq<Step>)
    requires Legal(s, steps) && Pull !in steps
    ensures Guarded(s, steps)
    decreases |steps|
  {
    if steps != [] {
      NoPullIsGuarded(Do(s, steps[0]), steps[1..]);
    }
  }

  lemma StartIsReached()
    ensures Reached(INIT)
  {
    assert Legal(INIT, []) && Guarded(INIT, []) && After(INIT, []) == INIT;
  }

  // What a schedule leads to from a reached state is reached.
  lemma LeadsReached(s: State, steps: seq<Step>, s': State)
    requires Reached(s) && Leads(s, steps, s') && Pull !in steps
    ensures Reached(s')
  {
    hide Legal, After, Guarded;
    var before :| Legal(INIT, before) && Guarded(INIT, before) && After(INIT, before) == s;
    NoPullIsGuarded(s, steps);
    assert Leads(INIT, before, s);
    Then(INIT, before, s, steps, s');
    assert Legal(INIT, before + steps) && Guarded(INIT, before + steps) && After(INIT, before + steps) == s';
  }

  lemma {:induction false} RunInv(s: State, steps: seq<Step>)
    requires Inv(s) && Legal(s, steps) && Guarded(s, steps)
    ensures Inv(After(s, steps))
    decreases |steps|
  {
    hide Inv;
    if steps != [] {
      StepInv(s, steps[0]);
      RunInv(Do(s, steps[0]), steps[1..]);
    }
  }

  // Every schedule, whatever the interleaving, ends in a state that satisfies the invariant.
  lemma ReachedInv(s: State)
    requires Reached(s)
    ensures Inv(s)
  {
    hide Inv;
    var steps :| Legal(INIT, steps) && Guarded(INIT, steps) && After(INIT, steps) == s;
    InitInv();
    RunInv(INIT, steps);
  }

  // Every kio the transport has seen is in one place only: a queue, a hand or back with its caller.
  lemma Ownership(s: State, k: KioId)
    requires Reached(s)
    ensures Named(s)
    ensures k in s.p.kios ==>
      Bag(s.p.sendq)[k] + SenderHand(s)[k] + Bag(s.p.recvq)[k] + ReceiverHand(s)[k] + Bag(s.p.compq)[k]
      + multiset(s.p.handedBack)[k] == 1
  {
    hide Rest, QueueOk;
    ReachedInv(s);
    if k in s.p.kios {
      assert multiset(s.p.kios.Keys)[k] == 1;
    }
  }

  // No kio is handed back twice.
  lemma HandedBackOnce(s: State, i: nat, j: nat)
    requires Reached(s) && i < j < |s.p.handedBack|
    ensures s.p.handedBack[i] != s.p.handedBack[j]
  {
    hide Rest, QueueOk;
    ReachedInv(s);
    assert multiset(s.p.kios.Keys)[s.p.handedBack[j]] <= 1;
    NoRepeats(s.p.handedBack, i, j);
  }

  // While the transport owns a kio, its state says whether it is complete and its back pointer is
  // the cell it sits in. The asserts of ktli_receive have not fired.
  lemma AssertsHold(s: State, k: KioId)
    requires Reached(s)
    ensures !s.assertFired
    ensures k in s.p.kios && k !in s.p.handedBack ==>
      && (Done(s.p.kios[k].state) <==> On(s.p.compq, k))
      && (forall n, i :: 0 <= i < |Queue(s.p, n)| && Queue(s.p, n)[i].kio == k ==>
            s.p.kios[k].qbp == Some(CellRef(n, Queue(s.p, n)[i].id)))
  {
    hide QueueOk, OnePlace, SenderOk, OrderOk, NumbersOk, AnswersOk, TimeoutsOk;
    ReachedInv(s);
    if k in s.p.kios && k !in s.p.handedBack {
      StateTellsTheQueue(s.p, Loose(s), k);
    }
  }

  // What fires them: a finished kio whose back pointer finds no cell of the completion queue, or another's.
  lemma AssertFiresIff(s: State, k: KioId)
    requires Named(s) && k in s.p.kios
    ensures DoReap(s, k).assertFired <==>
      s.assertFired
      || ((s.p.kios[k].state == Received || s.p.kios[k].state == Failed || s.p.kios[k].state == TimedOut)
          && !exists i :: 0 <= i < |s.p.compq|
                       && s.p.kios[k].qbp == Some(CellRef(CompQ, s.p.compq[i].id)) && s.p.compq[i].kio == k
                       && forall j :: 0 <= j < i ==> s.p.compq[j].id != s.p.compq[i].id)
  {
    var i := Address(s.p.compq, CompQ, s.p.kios[k].qbp);
    if i < |s.p.compq| {
      assert s.p.kios[k].qbp == Some(CellRef(CompQ, s.p.compq[i].id));
    }
  }

  // Of the requests that ktli_send accepted, each was numbered by the sender, or still queues, or was drained.
  ghost predicate EachCounted(s: State) {
    |s.taken| + |s.p.sendq| + s.unsentDrained == |s.accepted|
  }

  lemma StepCounts(s: State, step: Step)
    requires Named(s) && Enabled(s, step) && EachCounted(s)
    ensures EachCounted(Do(s, step))
  {
  }

  lemma AllCounted(s: State)
    requires Reached(s)
    ensures |s.taken| + |s.p.sendq| + s.unsentDrained == |s.accepted|
  {
    hide Legal, Guarded, After;
    var steps :| Legal(INIT, steps) && Guarded(INIT, steps) && After(INIT, steps) == s;
    RunCounts(INIT, steps);
  }

  lemma {:induction false} RunCounts(s: State, steps: seq<Step>)
    requires Legal(s, steps) && EachCounted(s)
    ensures EachCounted(After(s, steps))
    decreases |steps|
  {
    hide Do, Enabled, EachCounted;
    if steps != [] {
      StepCounts(s, steps[0]);
      RunCounts(Do(s, steps[0]), steps[1..]);
    }
  }

  // Requests reach the driver numbered 100, 101, ... in the order of ktli_send; as long as none was
  // drained unsent, none is missing.
  lemma WireOrder(s: State)
    requires Reached(s)
    ensures forall i :: 0 <= i < |s.wire| ==>
      && s.wire[i] in s.accepted
      && s.wire[i].kio in s.p.kios && s.p.kios[s.wire[i].kio].sequence == 100 + i
    ensures forall i, j :: 0 <= i < j < |s.wire| ==> s.wire[i].id < s.wire[j].id
    ensures forall i, j :: 0 <= i < j < |s.accepted| ==> s.accepted[i].id < s.accepted[j].id
    ensures s.unsentDrained == 0 ==> s.wire <= s.accepted
    ensures |s.taken| + |s.p.sendq| + s.unsentDrained == |s.accepted|
  {
    AllCounted(s);
    hide Ok, AnswersOk, TimeoutsOk;
    ReachedInv(s);
    assert forall i :: 0 <= i < |s.wire| ==> s.wire[i] == s.taken[i];
  }

  // The receive queue is strictly ordered by sequence number, all below the next one to be given.
  lemma RecvqOrder(s: State)
    requires Reached(s)
    ensures Named(s)
    ensures forall i, j :: 0 <= i < j < |s.p.recvq| ==>
      s.p.kios[s.p.recvq[i].kio].sequence < s.p.kios[s.p.recvq[j].kio].sequence
    ensures forall i :: 0 <= i < |s.p.recvq| ==>
      100 <= s.p.kios[s.p.recvq[i].kio].sequence < s.nextSeq
  {
    hide Inv;
    ReachedInv(s);
    QueueNumbers(s);
  }

  lemma QueueNumbers(s: State)
    requires Inv(s)
    ensures Named(s)
    ensures forall i, j :: 0 <= i < j < |s.p.recvq| ==>
      s.p.kios[s.p.recvq[i].kio].sequence < s.p.kios[s.p.recvq[j].kio].sequence
    ensures forall i :: 0 <= i < |s.p.recvq| ==>
      100 <= s.p.kios[s.p.recvq[i].kio].sequence < s.nextSeq
  {
    hide Ok, SenderOk, OrderOk, AnswersOk, TimeoutsOk;
    forall i | 0 <= i < |s.p.recvq|
      ensures FIRST_SEQUENCE <= s.p.kios[s.p.recvq[i].kio].sequence < s.nextSeq
    {
      NumberOf(s, s.p.recvq[i].kio);
    }
  }

  // A response hangs on the kio whose request it acknowledges, on no other, and never on one that
  // timed out.
  lemma AnswersMatch(s: State, k: KioId)
    requires Reached(s) && k in s.p.kios
    ensures s.p.kios[k].answer.Some? && s.p.kios[k].answer.value > 0 ==>
      && s.p.kios[k].sequence == s.p.kios[k].answer.value
      && (forall j :: j in s.p.kios && s.p.kios[j].answer == s.p.kios[k].answer ==> j == k)
    ensures s.p.kios[k].state == TimedOut ==> s.p.kios[k].answer == None
  {
    hide Ok, SenderOk, OrderOk, TimeoutsOk;
    ReachedInv(s);
    if s.p.kios[k].answer.Some? && s.p.kios[k].answer.value > 0 {
      NumberOf(s, k);
      forall j | j in s.p.kios && s.p.kios[j].answer == s.p.kios[k].answer ensures j == k {
        NumberOf(s, j);
      }
    }
  }

  // Number a was given out, and its kio neither waits for a response nor is about to.
  ghost predicate Gone(s: State, a: int)
    requires Named(s)
  {
    && a < s.nextSeq
    && (forall i :: 0 <= i < |s.p.recvq| ==> s.p.kios[s.p.recvq[i].kio].sequence != a)
    && (s.sender.Taken? ==> s.p.kios[s.sender.kio].sequence != a)
  }

  lemma GoneFrame(s: State, s': State, a: int, i: nat)
    requires Named(s) && Named(s') && Gone(s, a)
    requires s.nextSeq == s'.nextSeq && (s'.sender == s.sender || !s'.sender.Taken?)
    requires Keeps(s.p, s'.p) && Shrinks(s.p.recvq, s'.p.recvq, i)
    ensures Gone(s', a)
  {
    ShrinksAt(s.p.recvq, s'.p.recvq, i);
  }

  lemma GoneMove(s: State, i: nat, st: KioState, a: int)
    requires Named(s) && Gone(s, a) && i < |s.p.recvq|
    ensures var s' := s.(p := MoveToComp(s.p, i, st)); Named(s') && Gone(s', a)
  {
    MoveToCompShape(s.p, i, st);
    GoneFrame(s, s.(p := MoveToComp(s.p, i, st)), a, i);
  }

  lemma GoneHandBack(s: State, s': State, name: QueueName, i: nat, st: KioState, a: int)
    requires Named(s) && Gone(s, a) && i < |Queue(s.p, name)| && Queue(s.p, name)[i].kio in s.p.kios
    requires s'.p == HandBack(Drop(s.p, name, i), Queue(s.p, name)[i].kio, st)
    requires s'.sender == s.sender && s'.nextSeq == s.nextSeq && s'.receiver == s.receiver
    ensures Named(s') && Gone(s', a)
  {
    HandBackShape(s.p, name, i, st);
    assert Queue(s.p, RecvQ) == s.p.recvq && Queue(s'.p, RecvQ) == s'.p.recvq;
    GoneFrame(s, s', a, i);
  }

  lemma GoneMatch(s: State, i: nat, ack: int, a: int)
    requires Named(s) && Gone(s, a) && i < |s.p.recvq| && Named(DoMatch(s, i, ack))
    ensures Gone(DoMatch(s, i, ack), a)
  {
    ShrinksAt(s.p.recvq, DoMatch(s, i, ack).p.recvq, i);
  }

  lemma GoneTake(s: State, a: int)
    requires Named(s) && NumbersOk(s) && Gone(s, a) && s.sender == Waiting && s.p.sendq != []
    requires forall j :: 0 <= j < |s.p.recvq| ==> s.p.recvq[j].kio != s.p.sendq[0].kio
    requires Named(DoTake(s))
    ensures Gone(DoTake(s), a)
  {
  }

  lemma GoneEnqueue(s: State, a: int)
    requires Named(s) && Gone(s, a) && s.sender.Taken? && Named(DoEnqueue(s))
    ensures Gone(DoEnqueue(s), a)
  {
    if !s.p.kios[s.sender.kio].reqOnly {
      assert DoEnqueue(s).p.recvq == s.p.recvq + [Cell(s.p.nextCell, s.sender.kio)];
    }
  }

  predicate BySender(step: Step) {
    step == Take || step == Enqueue || step == Stamp || step.DriverSend? || step == Pull || step == Finish
  }

  predicate ByReceiver(step: Step) {
    step.Respond? || step == Deliver || step.Expire? || step == HangUp || step.HangUpDisconnect? || step.Tick?
  }

  lemma GonePull(s: State, a: int)
    requires Named(s) && Gone(s, a) && s.sender.Returned? && Safe(s, Pull) && Named(DoPull(s))
    ensures Gone(DoPull(s), a)
  {
    if !s.p.kios[s.sender.kio].reqOnly {
      GoneFrame(s, DoPull(s), a, Address(s.p.recvq, RecvQ, s.p.kios[s.sender.kio].qbp));
    }
  }

  lemma GoneByTake(s: State, a: int)
    requires Named(s) && Inv(s) && Gone(s, a) && s.sender == Waiting && s.p.sendq != [] && Named(DoTake(s))
    ensures Gone(DoTake(s), a)
  {
    FrontApart(s.p, Loose(s));
    hide Ok, SenderOk, OrderOk, AnswersOk, TimeoutsOk;
    GoneTake(s, a);
  }

  lemma GoneBySender(s: State, step: Step, a: int)
    requires Named(s) && Gone(s, a) && Enabled(s, step) && Safe(s, step) && BySender(step) && step != Take
    requires Named(Do(s, step))
    ensures Gone(Do(s, step), a)
  {
    match step
    case Enqueue => GoneEnqueue(s, a);
    case Stamp => GoneFrame(s.(p := DoStamp(s).p), DoStamp(s), a, 0);
    case DriverSend(ok) => GoneFrame(s, DoDriverSend(s, ok), a, 0);
    case Pull => GonePull(s, a);
    case Finish =>
      PushShape(s.p, CompQ, s.sender.kio, s.sender.outcome);
      GoneFrame(s, DoFinish(s), a, 0);
  }

  lemma GoneRespond(s: State, ack: int, made: KioId, a: int)
    requires Named(s) && Gone(s, a) && Enabled(s, Respond(ack, made)) && Named(DoRespond(s, ack, made))
    ensures Gone(DoRespond(s, ack, made), a)
  {
    if ack == -1 {
      GoneFrame(s, DoRespond(s, ack, made), a, 0);
    } else {
      var i: nat := if ack > 0 then FindSeq(s.p, s.p.recvq, ack) else |s.p.recvq| - 1;
      hide Gone;
      if i < |s.p.recvq| {
        GoneMatch(s, i, ack, a);
      }
    }
  }

  lemma GoneDeliver(s: State, a: int)
    requires Named(s) && Gone(s, a) && s.receiver.Holding? && Named(DoDeliver(s))
    ensures Gone(DoDeliver(s), a)
  {
    PushShape(s.p, CompQ, s.receiver.kio, Received);
    GoneFrame(s, DoDeliver(s), a, 0);
  }

  lemma GoneByReceiver(s: State, step: Step, a: int)
    requires Named(s) && Gone(s, a) && Enabled(s, step) && ByReceiver(step)
    requires Named(Do(s, step))
    ensures Gone(Do(s, step), a)
  {
    match step
    case Respond(ack, made) => GoneRespond(s, ack, made, a);
    case Deliver => GoneDeliver(s, a);
    case Expire(i, now) => GoneMove(s, i, TimedOut, a);
    case HangUp =>
    case HangUpDisconnect(_) =>
    case Tick(_) =>
  }

  lemma GoneByCaller(s: State, step: Step, a: int)
    requires Named(s) && Inv(s) && Gone(s, a) && Enabled(s, step) && !BySender(step) && !ByReceiver(step)
    requires Named(Do(s, step))
    ensures Gone(Do(s, step), a)
  {
    hide Inv;
    match step
    case Submit(k, reqOnly, oldTimeout) =>
      SubmitShape(s, k, reqOnly, oldTimeout);
      GoneFrame(s, Do(s, step), a, 0);
    case Reap(k) =>
      var i := Address(s.p.compq, CompQ, s.p.kios[k].qbp);
      if Done(s.p.kios[k].state) && i < |s.p.compq| {
        GoneReap(s, k, i, a);
      }
    case ReapUnsolicited =>
      var i := FindUnsolicited(s.p, s.p.compq);
      if i < |s.p.compq| {
        GoneHandBack(s, Do(s, step), CompQ, i, s.p.kios[s.p.compq[i].kio].state, a);
      }
    case DrainFront(n) => GoneDrain(s, n, 0, a);
    case DrainMatch(k, n) =>
      var i := FindKio(Queue(s.p, n), k);
      if i < |Queue(s.p, n)| {
        GoneDrain(s, n, i, a);
      }
    case SetSession(_) =>
  }

  lemma GoneDrain(s: State, n: QueueName, i: nat, a: int)
    requires Named(s) && Gone(s, a) && i < |Queue(s.p, n)|
    ensures Queue(s.p, n)[i].kio in s.p.kios
    ensures Named(DrainAt(s, n, i)) && Gone(DrainAt(s, n, i), a)
  {
    assert Queue(s.p, n) == s.p.sendq || Queue(s.p, n) == s.p.recvq || Queue(s.p, n) == s.p.compq;
    GoneHandBack(s, DrainAt(s, n, i), n, i, Failed, a);
  }

  lemma GoneReap(s: State, k: KioId, i: nat, a: int)
    requires Inv(s) && Gone(s, a) && k in s.p.kios && k !in s.p.handedBack && Done(s.p.kios[k].state)
    requires i == Address(s.p.compq, CompQ, s.p.kios[k].qbp) && i < |s.p.compq|
    ensures Named(DoReap(s, k)) && Gone(DoReap(s, k), a)
  {
    FinishedIsOnCompq(s.p, Loose(s), k);
    hide Ok, Rest;
    assert Queue(s.p, CompQ) == s.p.compq;
    GoneHandBack(s, DoReap(s, k), CompQ, i, s.p.kios[k].state, a);
  }

  lemma StepGone(s: State, step: Step, a: int)
    requires Named(s) && Inv(s) && Gone(s, a) && Enabled(s, step) && Safe(s, step)
    ensures Inv(Do(s, step)) && Named(Do(s, step)) && Gone(Do(s, step), a)
  {
    StepInv(s, step);
    assert Named(Do(s, step));
    hide Inv, Gone;
    if step == Take {
      GoneByTake(s, a);
    } else if BySender(step) {
      GoneBySender(s, step, a);
    } else if ByReceiver(step) {
      GoneByReceiver(s, step, a);
    } else {
      GoneByCaller(s, step, a);
    }
  }

  lemma {:induction false} StaysGone(s: State, steps: seq<Step>, a: int)
    requires Inv(s) && Gone(s, a) && Legal(s, steps) && Guarded(s, steps)
    ensures Named(After(s, steps)) && Gone(After(s, steps), a)
    decreases |steps|
  {
    hide Inv, Gone;
    if steps != [] {
      StepGone(s, steps[0], a);
      StaysGone(Do(s, steps[0]), steps[1..], a);
    }
  }

  // Once a waiting kio has timed out, its response is tossed whenever it comes: it attaches to no kio.
  lemma LateAckIsTossed(s: State, i: nat, now: int, steps: seq<Step>, made: KioId)
    requires Reached(s) && Named(s) && Enabled(s, Expire(i, now))
    requires var s1 := Do(s, Expire(i, now)); Legal(s1, steps) && Guarded(s1, steps)
    ensures var a := s.p.kios[s.p.recvq[i].kio].sequence;
      var s2 := After(Do(s, Expire(i, now)), steps);
      a > 0 && Named(s2) && DoRespond(s2, a, made) == s2
  {
    ExpireIs(s, i, now);
    ReachedInv(s);
    RecvqOrder(s);
    hide Inv, Do, Enabled, Possible, Gone, Legal, Guarded, After, Reached;
    MovedIsGone(s, i);
    StepInv(s, Expire(i, now));
    GoneForGood(Do(s, Expire(i, now)), steps, s.p.kios[s.p.recvq[i].kio].sequence, made);
  }

  lemma GoneForGood(s: State, steps: seq<Step>, a: int, made: KioId)
    requires Inv(s) && Gone(s, a) && Legal(s, steps) && Guarded(s, steps) && a > 0
    ensures Named(After(s, steps)) && DoRespond(After(s, steps), a, made) == After(s, steps)
  {
    hide Inv, Gone, Legal, Guarded, After;
    StaysGone(s, steps, a);
    GoneIsTossed(After(s, steps), a, made);
  }

  lemma ExpireIs(s: State, i: nat, now: int)
    requires Named(s) && Enabled(s, Expire(i, now))
    ensures i < |s.p.recvq| && Do(s, Expire(i, now)) == s.(p := MoveToComp(s.p, i, TimedOut))
  {
    hide MoveToComp;
  }

  lemma GoneIsTossed(s: State, a: int, made: KioId)
    requires Named(s) && Gone(s, a) && a > 0
    ensures DoRespond(s, a, made) == s
  {
  }

  lemma MovedIsGone(s: State, i: nat)
    requires Inv(s) && i < |s.p.recvq| && s.p.kios[s.p.recvq[i].kio].sequence < s.nextSeq
    ensures var s' := s.(p := MoveToComp(s.p, i, TimedOut)); Named(s') && Gone(s', s.p.kios[s.p.recvq[i].kio].sequence)
  {
    var s' := s.(p := MoveToComp(s.p, i, TimedOut));
    LooseTakenNotWaiting(s, i);
    hide Ok, SenderOk, OrderOk, AnswersOk, TimeoutsOk;
    MoveToCompShrinks(s.p, i, TimedOut);
    hide MoveToComp;
    SameHandsLoose(s, s');
    ShrinksAt(s.p.recvq, s'.p.recvq, i);
  }

  // The kio the sender has just numbered has another number than any that waits.
  lemma LooseTakenNotWaiting(s: State, i: nat)
    requires Inv(s) && i < |s.p.recvq|
    ensures s.sender.Taken? ==> s.p.kios[s.sender.kio].sequence != s.p.kios[s.p.recvq[i].kio].sequence
  {
    if s.sender.Taken? {
      LooseApart(s.p, Loose(s), s.sender.kio);
      hide Ok, OrderOk, AnswersOk, TimeoutsOk;
      NumberOf(s, s.p.recvq[i].kio);
      assert s.p.kios[s.taken[|s.taken| - 1].kio].sequence == s.nextSeq - 1;
    }
  }

  // --- a send that fails ---

  // Taking a failed request off the receive queue keeps the invariant exactly when it is still there:
  // not when its response, its timeout, the abort path or a drain has got hold of it first.
  lemma FailedSendIsSafeIff(s: State)
    requires Inv(s) && s.sender.Returned? && !s.p.kios[s.sender.kio].reqOnly
    ensures Inv(DoPull(s)) <==> Address(s.p.recvq, RecvQ, s.p.kios[s.sender.kio].qbp) < |s.p.recvq|
  {
    if Address(s.p.recvq, RecvQ, s.p.kios[s.sender.kio].qbp) < |s.p.recvq| {
      PullInv(s);
    } else {
      StrayPullBreaks(s);
    }
  }

  lemma StrayPullBreaks(s: State)
    requires Inv(s) && s.sender.Returned? && !s.p.kios[s.sender.kio].reqOnly
    requires Address(s.p.recvq, RecvQ, s.p.kios[s.sender.kio].qbp) == |s.p.recvq|
    ensures !Inv(DoPull(s))
  {
    var k := s.sender.kio;
    var s' := DoPull(s);
    StrayIsElsewhere(s);
    hide Rest, QueueOk;
    assert Queue(s'.p, CompQ) == s'.p.compq;
    if Inv(s') {
      LooseIsNowhereElse(s'.p, Loose(s'), k);
    }
  }

  lemma StrayIsElsewhere(s: State)
    requires Inv(s) && s.sender.Returned? && !s.p.kios[s.sender.kio].reqOnly
    requires Address(s.p.recvq, RecvQ, s.p.kios[s.sender.kio].qbp) == |s.p.recvq|
    ensures On(s.p.compq, s.sender.kio) || s.sender.kio in s.p.handedBack || s.receiver == Holding(s.sender.kio)
  {
    OwnPlace(s.p, Loose(s), s.sender.kio);
    assert Queue(s.p, CompQ) == s.p.compq && Queue(s.p, SendQ) == s.p.sendq && Queue(s.p, RecvQ) == s.p.recvq;
  }

  // --- a connection that dies ---

  lemma StuckStep(s: State, step: Step)
    requires Named(s) && s.receiver == Locked && Enabled(s, step)
    ensures Do(s, step).receiver == Locked && Do(s, step).p.recvq == s.p.recvq && Safe(s, step)
  {
  }

  lemma {:induction false} StuckRun(s: State, steps: seq<Step>)
    requires Legal(s, steps) && s.receiver == Locked
    ensures Guarded(s, steps)
    ensures After(s, steps).receiver == Locked && After(s, steps).p.recvq == s.p.recvq
    decreases |steps|
  {
    hide Do, Enabled, Named, Safe;
    if steps != [] {
      StuckStep(s, steps[0]);
      StuckRun(Do(s, steps[0]), steps[1..]);
    }
  }

  // When the receiver aborts it locks the receive queue for good. Whatever anyone does from then on, what
  // waited there waits for ever: it does not fail, it does not time out and it never gets back to its caller.
  lemma AbortHangs(s: State, steps: seq<Step>, i: nat)
    requires Reached(s) && s.receiver == Locked && Legal(s, steps) && i < |s.p.recvq|
    ensures var s' := After(s, steps);
      var k := s.p.recvq[i].kio;
      && Inv(s') && s'.receiver == Locked && s'.p.recvq == s.p.recvq
      && k in s'.p.kios && !Done(s'.p.kios[k].state) && k !in s'.p.handedBack
  {
    ReachedInv(s);
    assert Named(s);
    hide Inv, Legal, After, Guarded;
    StuckRun(s, steps);
    RunInv(s, steps);
    WaitingIsOut(After(s, steps), i);
  }

  lemma WaitingIsOut(s: State, i: nat)
    requires Inv(s) && i < |s.p.recvq|
    ensures var k := s.p.recvq[i].kio; k in s.p.kios && !Done(s.p.kios[k].state) && k !in s.p.handedBack
  {
    hide Rest;
    assert Queue(s.p, RecvQ) == s.p.recvq;
    QueuedIsNowhereElse(s.p, Loose(s), RecvQ, i);
  }
}
