/** In which state each request ends, and why. */
module TransportOutcomes {
  import opened Common
  import opened Places
  import opened Transport
  import opened TransportInvariant
  import opened TransportRuns

  // What a schedule did: whose send the driver reported a success for, whom the timeout scan took, and whom a
  // drain took.
  datatype Deeds = Deeds(sent: set<KioId>, expired: set<KioId>, drained: set<KioId>)

  const NO_DEEDS := Deeds({}, {}, {})

  ghost function Noted(s: State, step: Step, d: Deeds): Deeds
    requires Named(s) && Enabled(s, step)
  {
    match step
    case DriverSend(ok) => if ok then d.(sent := d.sent + {s.sender.kio}) else d
    case Expire(i, _) => d.(expired := d.expired + {s.p.recvq[i].kio})
    case DrainFront(n) => d.(drained := d.drained + {Queue(s.p, n)[0].kio})
    case DrainMatch(k, n) => if On(Queue(s.p, n), k) then d.(drained := d.drained + {k}) else d
    case _ => d
  }

  ghost function DeedsOf(s: State, steps: seq<Step>, d: Deeds): Deeds
    requires Legal(s, steps)
    decreases |steps|
  {
    if steps == [] then d else DeedsOf(Do(s, steps[0]), steps[1..], Noted(s, steps[0], d))
  }

  // The state of a finished kio says how it ended.
  predicate Outcome(kio: Kio, k: KioId, d: Deeds) {
    && (kio.reqOnly ==> kio.answer == None)
    && (!Done(kio.state) ==> k !in d.expired && k !in d.drained)
    && (Done(kio.state) && k in d.drained ==> kio.state == Failed)
    && (Done(kio.state) && k !in d.drained ==>
          && (kio.state == Received <==> kio.answer.Some? || (kio.reqOnly && k in d.sent))
          && (kio.state == TimedOut <==> k in d.expired))
  }

  // Where the sender stands with k; Waiting when it is not busy with it.
  function About(sender: Sender, k: KioId): Sender {
    if sender != Waiting && sender.kio == k then sender else Waiting
  }

  // What is so of a kio while it is on its way: whether it is on the send or the receive queue, in which of
  // the sender's hands it is, and whether the receiver holds it.
  predicate Pending(kio: Kio, k: KioId, d: Deeds, onSend: bool, onRecv: bool, sender: Sender, held: bool) {
    && (onSend ==> kio.answer == None && k !in d.sent)
    // it waits for its first response, and is SENT unless the sender is still at it
    && (onRecv ==> kio.answer == None && !kio.reqOnly && (kio.state == New <==> sender.Enqueued? || sender.Sending?))
    && (held ==> kio.answer.Some?)
    && match sender
       case Waiting => true
       case Taken(_) => kio.answer == None && kio.state == New && k !in d.sent
       case Enqueued(_) => k !in d.sent
       case Sending(_) => k !in d.sent
       case Returned(_, ok) => ok <==> k in d.sent
       case Finishing(_, outcome) =>
         kio.answer == None && outcome == if kio.reqOnly && k in d.sent then Received else Failed
  }

  ghost predicate Fine(s: State, k: KioId, d: Deeds)
    requires k in s.p.kios
  {
    && Outcome(s.p.kios[k], k, d)
    && Pending(s.p.kios[k], k, d, On(s.p.sendq, k), On(s.p.recvq, k), About(s.sender, k), s.receiver == Holding(k))
  }

  ghost predicate Accounted(s: State, d: Deeds) {
    && (forall k :: k in s.p.kios ==> Fine(s, k, d))
    && (forall k :: k in d.sent || k in d.expired || k in d.drained ==> k in s.p.kios)
  }

  // --- every step ---

  // The step has nothing to do with j.
  ghost predicate Passes(s: State, s': State, d: Deeds, d': Deeds, j: KioId) {
    && (j in s'.p.kios <==> j in s.p.kios) && (j in s.p.kios ==> s'.p.kios[j] == s.p.kios[j])
    && (On(s'.p.sendq, j) <==> On(s.p.sendq, j)) && (On(s'.p.recvq, j) <==> On(s.p.recvq, j))
    && About(s'.sender, j) == About(s.sender, j) && (s'.receiver == Holding(j) <==> s.receiver == Holding(j))
    && (j in d'.sent <==> j in d.sent) && (j in d'.expired <==> j in d.expired) && (j in d'.drained <==> j in d.drained)
  }

  // It has to do with k alone.
  lemma OneIsFine(s: State, s': State, d: Deeds, d': Deeds, k: KioId)
    requires Accounted(s, d) && k in s'.p.kios && Fine(s', k, d')
    requires forall j :: j != k ==> Passes(s, s', d, d', j)
    ensures Accounted(s', d')
  {
    hide On, Outcome, Pending, About;
    forall j | j in s'.p.kios ensures Fine(s', j, d') {
      if j != k {
        assert Passes(s, s', d, d', j) && Fine(s, j, d);
        SameIsFine(s, s', d, d', j);
      }
    }
    forall j | j in d'.sent || j in d'.expired || j in d'.drained ensures j in s'.p.kios {
      if j != k {
        assert Passes(s, s', d, d', j);
      }
    }
  }

  lemma SameIsFine(s: State, s': State, d: Deeds, d': Deeds, j: KioId)
    requires Passes(s, s', d, d', j) && j in s.p.kios && Fine(s, j, d)
    ensures Fine(s', j, d')
  {
    hide On, About;
  }

  lemma OnWithout(q: seq<Cell>, i: nat, j: KioId)
    requires i < |q|
    ensures q[i].kio != j ==> (On(Without(q, i), j) <==> On(q, j))
    ensures q[i].kio == j && (forall m :: 0 <= m < |q| && m != i ==> q[m].kio != j) ==> !On(Without(q, i), j)
  {
    if q[i].kio != j && On(q, j) {
      var m :| 0 <= m < |q| && q[m].kio == j;
      assert Without(q, i)[if m < i then m else m - 1].kio == j;
    }
  }

  lemma OnAppend(q: seq<Cell>, c: Cell, j: KioId)
    ensures On(q + [c], j) <==> On(q, j) || c.kio == j
  {
    if m :| 0 <= m < |q| && q[m].kio == j {
      assert (q + [c])[m].kio == j;
    }
    assert (q + [c])[|q|] == c;
  }

  // A kio in a hand is nowhere else, and not finished.
  lemma InHand(s: State, k: KioId)
    requires Inv(s) && k in Loose(s)
    ensures k in s.p.kios && !On(s.p.sendq, k) && !On(s.p.recvq, k) && !Done(s.p.kios[k].state)
    ensures k in SenderHand(s) ==> s.receiver != Holding(k)
  {
    hide QueueOk, Rest;
    LooseIsNowhereElse(s.p, Loose(s), k);
    assert Queue(s.p, SendQ) == s.p.sendq && Queue(s.p, RecvQ) == s.p.recvq;
  }

  // A queued kio is in that cell only.
  lemma AtCell(s: State, n: QueueName, i: nat)
    requires Inv(s) && i < |Queue(s.p, n)|
    ensures var k := Queue(s.p, n)[i].kio;
      && k in s.p.kios && s.receiver != Holding(k) && StateFits(n, s.p.kios[k].state) && k !in Loose(s)
      && (On(s.p.sendq, k) <==> n == SendQ) && (On(s.p.recvq, k) <==> n == RecvQ)
    ensures forall j :: 0 <= j < |Queue(s.p, n)| && j != i ==> Queue(s.p, n)[j].kio != Queue(s.p, n)[i].kio
  {
    hide Rest;
    QueuedIsNowhereElse(s.p, Loose(s), n, i);
    assert Queue(s.p, SendQ) == s.p.sendq && Queue(s.p, RecvQ) == s.p.recvq && Queue(s.p, CompQ) == s.p.compq;
  }

  lemma TakePasses(s: State, d: Deeds, j: KioId)
    requires s.p.sendq != [] && s.p.sendq[0].kio in s.p.kios && s.sender == Waiting && j != s.p.sendq[0].kio
    ensures Passes(s, DoTake(s), d, d, j)
  {
    hide On;
    OnWithout(s.p.sendq, 0, j);
  }

  lemma TakeAccounted(s: State, d: Deeds)
    requires Inv(s) && Accounted(s, d) && s.sender == Waiting && s.p.sendq != []
    ensures s.p.sendq[0].kio in s.p.kios && Accounted(DoTake(s), d)
  {
    hide Fine, Passes, Outcome, Pending;
    var k := s.p.sendq[0].kio;
    assert Queue(s.p, SendQ) == s.p.sendq;
    AtCell(s, SendQ, 0);
    OnWithout(s.p.sendq, 0, k);
    hide Inv, On;
    assert Fine(s, k, d);
    TakeFine(s, d);
    forall j | j != k ensures Passes(s, DoTake(s), d, d, j) {
      TakePasses(s, d, j);
    }
    OneIsFine(s, DoTake(s), d, d, k);
  }

  lemma TakeFine(s: State, d: Deeds)
    requires s.p.sendq != [] && s.p.sendq[0].kio in s.p.kios && s.receiver != Holding(s.p.sendq[0].kio)
    requires var k := s.p.sendq[0].kio;
      && Fine(s, k, d) && On(s.p.sendq, k) && !On(s.p.recvq, k) && s.p.kios[k].state == New
      && !On(Without(s.p.sendq, 0), k)
    ensures Fine(DoTake(s), s.p.sendq[0].kio, d)
  {
    hide On, Without;
  }

  lemma EnqueueAccounted(s: State, d: Deeds)
    requires Inv(s) && Accounted(s, d) && s.sender.Taken?
    ensures Accounted(DoEnqueue(s), d)
  {
    hide Fine, Passes, Outcome, Pending;
    var k := s.sender.kio;
    InHand(s, k);
    hide Inv, On;
    assert Fine(s, k, d);
    OnAppend(s.p.recvq, Cell(s.p.nextCell, k), k);
    EnqueueFine(s, d);
    forall j | j != k ensures Passes(s, DoEnqueue(s), d, d, j) {
      EnqueuePasses(s, d, j);
    }
    OneIsFine(s, DoEnqueue(s), d, d, k);
  }

  lemma EnqueuePasses(s: State, d: Deeds, j: KioId)
    requires s.sender.Taken? && s.sender.kio in s.p.kios && j != s.sender.kio
    ensures Passes(s, DoEnqueue(s), d, d, j)
  {
    hide On;
    OnAppend(s.p.recvq, Cell(s.p.nextCell, s.sender.kio), j);
  }

  lemma EnqueueFine(s: State, d: Deeds)
    requires s.sender.Taken? && s.sender.kio in s.p.kios && s.receiver != Holding(s.sender.kio)
    requires Fine(s, s.sender.kio, d) && !On(s.p.sendq, s.sender.kio) && !On(s.p.recvq, s.sender.kio)
    ensures Fine(DoEnqueue(s), s.sender.kio, d)
  {
    hide On;
  }

  lemma StampAccounted(s: State, d: Deeds)
    requires Named(s) && Accounted(s, d) && s.sender.Enqueued?
    ensures Accounted(DoStamp(s), d)
  {
    hide On;
    assert Fine(s, s.sender.kio, d);
    assert forall j :: j != s.sender.kio ==> Passes(s, DoStamp(s), d, d, j);
    OneIsFine(s, DoStamp(s), d, d, s.sender.kio);
  }

  lemma DriverSendAccounted(s: State, d: Deeds, ok: bool)
    requires Inv(s) && Accounted(s, d) && s.sender.Sending?
    ensures var d' := if ok then d.(sent := d.sent + {s.sender.kio}) else d; Accounted(DoDriverSend(s, ok), d')
  {
    hide Fine, Passes, Outcome, Pending;
    var k := s.sender.kio;
    var d' := if ok then d.(sent := d.sent + {k}) else d;
    NotQueuedToSend(s);
    if s.p.kios[k].reqOnly {
      InHand(s, k);
    }
    hide Inv, On;
    assert Fine(s, k, d);
    DriverSendFine(s, d, ok);
    forall j | j != k ensures Passes(s, DoDriverSend(s, ok), d, d', j) {
      DriverSendPasses(s, d, ok, j);
    }
    OneIsFine(s, DoDriverSend(s, ok), d, d', k);
  }

  lemma NotQueuedToSend(s: State)
    requires Inv(s) && s.sender != Waiting
    ensures s.sender.kio in s.p.kios && !On(s.p.sendq, s.sender.kio)
  {
  }

  lemma DriverSendPasses(s: State, d: Deeds, ok: bool, j: KioId)
    requires s.sender.Sending? && s.sender.kio in s.p.kios && j != s.sender.kio
    ensures Passes(s, DoDriverSend(s, ok), d, if ok then d.(sent := d.sent + {s.sender.kio}) else d, j)
  {
    hide On;
  }

  lemma DriverSendFine(s: State, d: Deeds, ok: bool)
    requires s.sender.Sending? && s.sender.kio in s.p.kios && !On(s.p.sendq, s.sender.kio)
    requires Fine(s, s.sender.kio, d) && (s.p.kios[s.sender.kio].reqOnly ==> !Done(s.p.kios[s.sender.kio].state))
    ensures Fine(DoDriverSend(s, ok), s.sender.kio, if ok then d.(sent := d.sent + {s.sender.kio}) else d)
  {
    hide On;
  }

  lemma PullAccounted(s: State, d: Deeds)
    requires Inv(s) && Accounted(s, d) && s.sender.Returned? && Safe(s, Pull)
    ensures Accounted(DoPull(s), d)
  {
    hide Fine, Passes, Outcome, Pending;
    var k := s.sender.kio;
    var i := Address(s.p.recvq, RecvQ, s.p.kios[k].qbp);
    NotQueuedToSend(s);
    if s.p.kios[k].reqOnly {
      InHand(s, k);
    } else {
      assert Queue(s.p, RecvQ) == s.p.recvq;
      OwnCell(s.p, Loose(s), k, i);
      AtCell(s, RecvQ, i);
      OnWithout(s.p.recvq, i, k);
      ReturnedFailed(s);
    }
    assert Named(s);
    hide Inv, On;
    assert Fine(s, k, d);
    PullFine(s, d);
    forall j | j != k ensures Passes(s, DoPull(s), d, d, j) {
      PullPasses(s, d, j);
    }
    OneIsFine(s, DoPull(s), d, d, k);
  }

  lemma ReturnedFailed(s: State)
    requires Inv(s) && s.sender.Returned? && !s.p.kios[s.sender.kio].reqOnly
    ensures !s.sender.ok
  {
    hide Ok;
  }

  lemma PullPasses(s: State, d: Deeds, j: KioId)
    requires Named(s) && s.sender.Returned? && j != s.sender.kio
    requires var i := Address(s.p.recvq, RecvQ, s.p.kios[s.sender.kio].qbp);
      s.p.kios[s.sender.kio].reqOnly || (i < |s.p.recvq| && s.p.recvq[i].kio == s.sender.kio)
    ensures Passes(s, DoPull(s), d, d, j)
  {
    hide On, Without;
    if !s.p.kios[s.sender.kio].reqOnly {
      OnWithout(s.p.recvq, Address(s.p.recvq, RecvQ, s.p.kios[s.sender.kio].qbp), j);
    }
  }

  lemma PullFine(s: State, d: Deeds)
    requires Named(s) && s.sender.Returned? && Fine(s, s.sender.kio, d) && !On(s.p.sendq, s.sender.kio)
    requires s.receiver != Holding(s.sender.kio)
    requires var i := Address(s.p.recvq, RecvQ, s.p.kios[s.sender.kio].qbp);
      if s.p.kios[s.sender.kio].reqOnly then !On(s.p.recvq, s.sender.kio)
      else
        && !s.sender.ok && i < |s.p.recvq| && On(s.p.recvq, s.sender.kio)
        && !On(Without(s.p.recvq, i), s.sender.kio)
    ensures Fine(DoPull(s), s.sender.kio, d)
  {
    hide On, Without;
  }

  lemma FinishAccounted(s: State, d: Deeds)
    requires Inv(s) && Accounted(s, d) && s.sender.Finishing?
    ensures Accounted(DoFinish(s), d)
  {
    hide Fine, Passes, Outcome, Pending;
    var k := s.sender.kio;
    InHand(s, k);
    hide Inv, On;
    assert Fine(s, k, d);
    FinishFine(s, d);
    forall j | j != k ensures Passes(s, DoFinish(s), d, d, j) {
      FinishPasses(s, d, j);
    }
    OneIsFine(s, DoFinish(s), d, d, k);
  }

  lemma FinishPasses(s: State, d: Deeds, j: KioId)
    requires s.sender.Finishing? && s.sender.kio in s.p.kios && j != s.sender.kio
    ensures Passes(s, DoFinish(s), d, d, j)
  {
    hide On;
  }

  lemma FinishFine(s: State, d: Deeds)
    requires s.sender.Finishing? && s.sender.kio in s.p.kios && Fine(s, s.sender.kio, d)
    requires s.receiver != Holding(s.sender.kio) && !Done(s.p.kios[s.sender.kio].state)
    requires !On(s.p.sendq, s.sender.kio) && !On(s.p.recvq, s.sender.kio)
    ensures Fine(DoFinish(s), s.sender.kio, d)
  {
    hide On;
  }

  lemma MatchAccounted(s: State, d: Deeds, i: nat, ack: int)
    requires Inv(s) && Accounted(s, d) && s.receiver == Listening && i < |s.p.recvq|
    ensures s.p.recvq[i].kio in s.p.kios && Accounted(DoMatch(s, i, ack), d)
  {
    hide Fine, Passes, Outcome, Pending;
    var k := s.p.recvq[i].kio;
    assert Queue(s.p, RecvQ) == s.p.recvq;
    AtCell(s, RecvQ, i);
    OnWithout(s.p.recvq, i, k);
    NotAtIt(s, i);
    hide Inv, On;
    assert Fine(s, k, d);
    MatchFine(s, d, i, ack);
    forall j | j != k ensures Passes(s, DoMatch(s, i, ack), d, d, j) {
      MatchPasses(s, d, i, ack, j);
    }
    OneIsFine(s, DoMatch(s, i, ack), d, d, k);
  }

  // What waits is not in the sender's hand, though the sender may know its name.
  lemma NotAtIt(s: State, i: nat)
    requires Inv(s) && i < |s.p.recvq|
    ensures var sender := About(s.sender, s.p.recvq[i].kio); !sender.Taken? && !sender.Finishing?
  {
    hide Rest;
    if About(s.sender, s.p.recvq[i].kio).Taken? || About(s.sender, s.p.recvq[i].kio).Finishing? {
      LooseApart(s.p, Loose(s), s.sender.kio);
    }
  }

  lemma MatchPasses(s: State, d: Deeds, i: nat, ack: int, j: KioId)
    requires i < |s.p.recvq| && s.p.recvq[i].kio in s.p.kios && s.receiver == Listening && j != s.p.recvq[i].kio
    ensures Passes(s, DoMatch(s, i, ack), d, d, j)
  {
    hide On;
    OnWithout(s.p.recvq, i, j);
  }

  lemma MatchFine(s: State, d: Deeds, i: nat, ack: int)
    requires i < |s.p.recvq| && s.p.recvq[i].kio in s.p.kios
    requires var k := s.p.recvq[i].kio;
      && Fine(s, k, d) && On(s.p.recvq, k) && !On(s.p.sendq, k) && !On(Without(s.p.recvq, i), k)
      && !Done(s.p.kios[k].state) && !About(s.sender, k).Taken? && !About(s.sender, k).Finishing?
    ensures Fine(DoMatch(s, i, ack), s.p.recvq[i].kio, d)
  {
    hide On, Without;
  }

  lemma MadeAccounted(s: State, d: Deeds, made: KioId)
    requires Inv(s) && Accounted(s, d) && s.receiver == Listening && made !in s.p.kios
    ensures Accounted(DoRespond(s, -1, made), d)
  {
    var s' := DoRespond(s, -1, made);
    NewIsNowhere(s, made);
    hide Inv, On;
    assert Fine(s', made, d);
    assert forall j :: j != made ==> Passes(s, s', d, d, j);
    hide Fine, Passes;
    OneIsFine(s, s', d, d, made);
  }

  lemma NewIsNowhere(s: State, k: KioId)
    requires Named(s) && k !in s.p.kios
    ensures !On(s.p.sendq, k) && !On(s.p.recvq, k) && About(s.sender, k) == Waiting && s.receiver != Holding(k)
  {
  }

  lemma DeliverAccounted(s: State, d: Deeds)
    requires Inv(s) && Accounted(s, d) && s.receiver.Holding?
    ensures Accounted(DoDeliver(s), d)
  {
    hide Fine, Passes, Outcome, Pending;
    var k := s.receiver.kio;
    InHand(s, k);
    hide Inv, On;
    assert Fine(s, k, d);
    DeliverFine(s, d);
    forall j | j != k ensures Passes(s, DoDeliver(s), d, d, j) {
      DeliverPasses(s, d, j);
    }
    OneIsFine(s, DoDeliver(s), d, d, k);
  }

  lemma DeliverPasses(s: State, d: Deeds, j: KioId)
    requires s.receiver.Holding? && s.receiver.kio in s.p.kios && j != s.receiver.kio
    ensures Passes(s, DoDeliver(s), d, d, j)
  {
    hide On;
  }

  lemma DeliverFine(s: State, d: Deeds)
    requires s.receiver.Holding? && s.receiver.kio in s.p.kios && Fine(s, s.receiver.kio, d)
    requires !Done(s.p.kios[s.receiver.kio].state)
    requires !On(s.p.sendq, s.receiver.kio) && !On(s.p.recvq, s.receiver.kio)
    ensures Fine(DoDeliver(s), s.receiver.kio, d)
  {
    hide On;
  }

  lemma ExpireAccounted(s: State, d: Deeds, i: nat)
    requires Inv(s) && Accounted(s, d) && i < |s.p.recvq|
    ensures s.p.recvq[i].kio in s.p.kios
    ensures Accounted(s.(p := MoveToComp(s.p, i, TimedOut)), d.(expired := d.expired + {s.p.recvq[i].kio}))
  {
    hide Fine, Passes, Outcome, Pending;
    var k := s.p.recvq[i].kio;
    var s', d' := s.(p := MoveToComp(s.p, i, TimedOut)), d.(expired := d.expired + {k});
    assert Queue(s.p, RecvQ) == s.p.recvq;
    AtCell(s, RecvQ, i);
    OnWithout(s.p.recvq, i, k);
    NotAtIt(s, i);
    hide Inv, On;
    assert Fine(s, k, d);
    ExpireFine(s, d, i);
    forall j | j != k ensures Passes(s, s', d, d', j) {
      ExpirePasses(s, d, i, j);
    }
    OneIsFine(s, s', d, d', k);
  }

  lemma ExpirePasses(s: State, d: Deeds, i: nat, j: KioId)
    requires i < |s.p.recvq| && s.p.recvq[i].kio in s.p.kios && j != s.p.recvq[i].kio
    ensures Passes(s, s.(p := MoveToComp(s.p, i, TimedOut)), d, d.(expired := d.expired + {s.p.recvq[i].kio}), j)
  {
    hide On;
    OnWithout(s.p.recvq, i, j);
  }

  lemma ExpireFine(s: State, d: Deeds, i: nat)
    requires i < |s.p.recvq| && s.p.recvq[i].kio in s.p.kios
    requires var k := s.p.recvq[i].kio;
      && Fine(s, k, d) && On(s.p.recvq, k) && !On(s.p.sendq, k) && !On(Without(s.p.recvq, i), k)
      && !Done(s.p.kios[k].state) && !About(s.sender, k).Taken? && !About(s.sender, k).Finishing?
      && s.receiver != Holding(k)
    ensures Fine(s.(p := MoveToComp(s.p, i, TimedOut)), s.p.recvq[i].kio, d.(expired := d.expired + {s.p.recvq[i].kio}))
  {
    hide On, Without;
  }

  lemma SubmitAccounted(s: State, d: Deeds, k: KioId, reqOnly: bool, oldTimeout: int)
    requires Inv(s) && Accounted(s, d) && k !in s.p.kios
    ensures Accounted(DoSubmit(s, k, reqOnly, oldTimeout), d)
  {
    hide Fine, Passes, Outcome, Pending;
    var s' := DoSubmit(s, k, reqOnly, oldTimeout);
    NewIsNowhere(s, k);
    hide Inv, On;
    SubmitFine(s, d, k, reqOnly, oldTimeout);
    forall j | j != k ensures Passes(s, s', d, d, j) {
      SubmitPasses(s, d, k, reqOnly, oldTimeout, j);
    }
    OneIsFine(s, s', d, d, k);
  }

  lemma SubmitPasses(s: State, d: Deeds, k: KioId, reqOnly: bool, oldTimeout: int, j: KioId)
    requires k !in s.p.kios && j != k
    ensures Passes(s, DoSubmit(s, k, reqOnly, oldTimeout), d, d, j)
  {
    hide On;
    OnAppend(s.p.sendq, Cell(s.p.nextCell, k), j);
  }

  lemma SubmitFine(s: State, d: Deeds, k: KioId, reqOnly: bool, oldTimeout: int)
    requires Accounted(s, d) && k !in s.p.kios
    requires !On(s.p.recvq, k) && About(s.sender, k) == Waiting && s.receiver != Holding(k)
    ensures Fine(DoSubmit(s, k, reqOnly, oldTimeout), k, d)
  {
    hide On;
  }

  // A kio leaves its queue for its caller, as it is or FAILED by a drain.
  lemma HandBackAccounted(s: State, s': State, d: Deeds, n: QueueName, i: nat, drained: bool)
    requires Inv(s) && Accounted(s, d) && i < |Queue(s.p, n)| && Queue(s.p, n)[i].kio in s.p.kios
    requires n == CompQ || drained
    requires var k := Queue(s.p, n)[i].kio;
      s' == s.(p := HandBack(Drop(s.p, n, i), k, if drained then Failed else s.p.kios[k].state),
               assertFired := s'.assertFired, unsentDrained := s'.unsentDrained)
    ensures Accounted(s', if drained then d.(drained := d.drained + {Queue(s.p, n)[i].kio}) else d)
  {
    hide Fine, Passes, Outcome, Pending;
    var k := Queue(s.p, n)[i].kio;
    var d' := if drained then d.(drained := d.drained + {k}) else d;
    AtCell(s, n, i);
    OnWithout(Queue(s.p, n), i, k);
    AboutQueued(s, n, i);
    hide Inv, On;
    assert Fine(s, k, d);
    HandBackFine(s, s', d, n, i, drained);
    forall j | j != k ensures Passes(s, s', d, d', j) {
      HandBackPasses(s, s', d, n, i, drained, j);
    }
    OneIsFine(s, s', d, d', k);
  }

  lemma AboutQueued(s: State, n: QueueName, i: nat)
    requires Inv(s) && i < |Queue(s.p, n)|
    ensures var sender := About(s.sender, Queue(s.p, n)[i].kio); !sender.Taken? && !sender.Finishing?
  {
    hide Rest;
    AtCell(s, n, i);
  }

  lemma HandBackPasses(s: State, s': State, d: Deeds, n: QueueName, i: nat, drained: bool, j: KioId)
    requires i < |Queue(s.p, n)| && Queue(s.p, n)[i].kio in s.p.kios && j != Queue(s.p, n)[i].kio
    requires var k := Queue(s.p, n)[i].kio;
      s' == s.(p := HandBack(Drop(s.p, n, i), k, if drained then Failed else s.p.kios[k].state),
               assertFired := s'.assertFired, unsentDrained := s'.unsentDrained)
    ensures Passes(s, s', d, if drained then d.(drained := d.drained + {Queue(s.p, n)[i].kio}) else d, j)
  {
    hide On, Without;
    OnWithout(Queue(s.p, n), i, j);
  }

  lemma HandBackFine(s: State, s': State, d: Deeds, n: QueueName, i: nat, drained: bool)
    requires i < |Queue(s.p, n)| && Queue(s.p, n)[i].kio in s.p.kios && (n == CompQ || drained)
    requires var k := Queue(s.p, n)[i].kio;
      && s' == s.(p := HandBack(Drop(s.p, n, i), k, if drained then Failed else s.p.kios[k].state),
                  assertFired := s'.assertFired, unsentDrained := s'.unsentDrained)
      && Fine(s, k, d) && !On(Without(Queue(s.p, n), i), k) && s.receiver != Holding(k)
      && (On(s.p.sendq, k) <==> n == SendQ) && (On(s.p.recvq, k) <==> n == RecvQ)
      && !About(s.sender, k).Taken? && !About(s.sender, k).Finishing?
    ensures Fine(s', Queue(s.p, n)[i].kio, if drained then d.(drained := d.drained + {Queue(s.p, n)[i].kio}) else d)
  {
    hide On, Without;
  }

  lemma ReapAccounted(s: State, d: Deeds, k: KioId)
    requires Inv(s) && Accounted(s, d) && k in s.p.kios && k !in s.p.handedBack
    ensures Accounted(DoReap(s, k), d)
  {
    hide Accounted;
    if Done(s.p.kios[k].state) {
      FinishedIsOnCompq(s.p, Loose(s), k);
      assert Queue(s.p, CompQ) == s.p.compq;
      HandBackAccounted(s, DoReap(s, k), d, CompQ, Address(s.p.compq, CompQ, s.p.kios[k].qbp), false);
    }
  }

  lemma ReapUnsolicitedAccounted(s: State, d: Deeds)
    requires Inv(s) && Accounted(s, d)
    ensures Accounted(DoReapUnsolicited(s), d)
  {
    hide Accounted;
    var i := FindUnsolicited(s.p, s.p.compq);
    if i < |s.p.compq| {
      assert Queue(s.p, CompQ) == s.p.compq;
      HandBackAccounted(s, DoReapUnsolicited(s), d, CompQ, i, false);
    }
  }

  lemma DrainMatchAccounted(s: State, d: Deeds, k: KioId, n: QueueName)
    requires Inv(s) && Accounted(s, d) && k in s.p.kios && Enabled(s, DrainMatch(k, n))
    ensures Accounted(Do(s, DrainMatch(k, n)), Noted(s, DrainMatch(k, n), d))
  {
    hide Accounted, Ok, Rest;
    var i := FindKio(Queue(s.p, n), k);
    if i < |Queue(s.p, n)| {
      assert On(Queue(s.p, n), k);
      HandBackAccounted(s, DrainAt(s, n, i), d, n, i, true);
    }
  }

  lemma QuietAccounted(s: State, s': State, d: Deeds)
    requires Accounted(s, d)
    requires s' == s.(session := s'.session, receiver := s'.receiver, clock := s'.clock)
    requires s'.receiver.Holding? ==> s'.receiver == s.receiver
    ensures Accounted(s', d)
  {
    hide On, Outcome, Pending;
    forall k | k in s'.p.kios ensures Fine(s', k, d) {
      assert Fine(s, k, d);
      LetGo(s, k, d);
    }
  }

  lemma LetGo(s: State, k: KioId, d: Deeds)
    requires k in s.p.kios && Fine(s, k, d)
    ensures Pending(s.p.kios[k], k, d, On(s.p.sendq, k), On(s.p.recvq, k), About(s.sender, k), false)
  {
    hide On;
  }

  lemma RespondAccounted(s: State, d: Deeds, ack: int, made: KioId)
    requires Inv(s) && Accounted(s, d) && Enabled(s, Respond(ack, made))
    ensures Accounted(DoRespond(s, ack, made), d)
  {
    assert Named(s);
    hide Inv, Accounted;
    if ack == -1 {
      MadeAccounted(s, d, made);
    } else {
      var i: nat := if ack > 0 then FindSeq(s.p, s.p.recvq, ack) else |s.p.recvq| - 1;
      if i < |s.p.recvq| {
        MatchAccounted(s, d, i, ack);
      }
    }
  }

  lemma StepAccounted(s: State, step: Step, d: Deeds)
    requires Inv(s) && Accounted(s, d) && Enabled(s, step) && Safe(s, step)
    ensures Accounted(Do(s, step), Noted(s, step, d))
  {
    assert Named(s);
    hide Accounted, Ok, Rest;
    match step
    case Submit(k, reqOnly, oldTimeout) => SubmitAccounted(s, d, k, reqOnly, oldTimeout);
    case Reap(k) => ReapAccounted(s, d, k);
    case ReapUnsolicited => ReapUnsolicitedAccounted(s, d);
    case DrainFront(n) => HandBackAccounted(s, DrainAt(s, n, 0), d, n, 0, true);
    case DrainMatch(k, n) => DrainMatchAccounted(s, d, k, n);
    case Take => TakeAccounted(s, d);
    case Enqueue => EnqueueAccounted(s, d);
    case Stamp => StampAccounted(s, d);
    case DriverSend(ok) => DriverSendAccounted(s, d, ok);
    case Pull => PullAccounted(s, d);
    case Finish => FinishAccounted(s, d);
    case Respond(ack, made) => RespondAccounted(s, d, ack, made);
    case Deliver => DeliverAccounted(s, d);
    case Expire(i, now) => ExpireAccounted(s, d, i);
    case SetSession(_) => QuietAccounted(s, Do(s, step), d);
    case HangUp => QuietAccounted(s, Do(s, step), d);
    case HangUpDisconnect(_) => QuietAccounted(s, Do(s, step), d);
    case Tick(_) => QuietAccounted(s, Do(s, step), d);
  }

  // --- every schedule ---

  lemma {:induction false} RunAccounted(s: State, steps: seq<Step>, d: Deeds)
    requires Inv(s) && Accounted(s, d) && Legal(s, steps) && Guarded(s, steps)
    ensures Inv(After(s, steps)) && Accounted(After(s, steps), DeedsOf(s, steps, d))
    decreases |steps|
  {
    hide Inv, Accounted, Do, Enabled, Safe;
    if steps != [] {
      StepAccounted(s, steps[0], d);
      StepInv(s, steps[0]);
      RunAccounted(Do(s, steps[0]), steps[1..], Noted(s, steps[0], d));
    }
  }

  // Whatever the interleaving, a kio that is finished, on the completion queue or back with its caller, and was
  // not drained, is RECEIVED exactly when a response hangs on it or it wants none and its send succeeded; it is
  // TIMEDOUT exactly when the timeout scan took it; otherwise it is FAILED. One that was drained is FAILED.
  lemma FinalStates(steps: seq<Step>, k: KioId)
    requires Legal(INIT, steps) && Guarded(INIT, steps)
    requires k in After(INIT, steps).p.kios && Done(After(INIT, steps).p.kios[k].state)
    ensures var kio, d := After(INIT, steps).p.kios[k], DeedsOf(INIT, steps, NO_DEEDS);
      if k in d.drained then kio.state == Failed
      else
        && (kio.state == Received <==> kio.answer.Some? || (kio.reqOnly && k in d.sent))
        && (kio.state == TimedOut <==> k in d.expired)
        && (kio.state == Failed <==> k !in d.expired && kio.answer == None && !(kio.reqOnly && k in d.sent))
  {
    InitInv();
    RunAccounted(INIT, steps, NO_DEEDS);
    hide Inv, On, Pending;
    assert Fine(After(INIT, steps), k, DeedsOf(INIT, steps, NO_DEEDS));
  }

  lemma ReachedAccounted(s: State)
    requires Reached(s)
    ensures exists d :: Accounted(s, d)
  {
    hide Inv, Accounted, Legal, Guarded, After;
    var steps :| Legal(INIT, steps) && Guarded(INIT, steps) && After(INIT, steps) == s;
    InitInv();
    StartAccounted();
    RunAccounted(INIT, steps, NO_DEEDS);
  }

  lemma StartAccounted()
    ensures Accounted(INIT, NO_DEEDS)
  {
  }

  // A request that waits is SENT exactly when the driver has returned from sending it.
  lemma SentIff(s: State, i: nat)
    requires Reached(s) && i < |s.p.recvq|
    ensures s.p.recvq[i].kio in s.p.kios
    ensures s.p.kios[s.p.recvq[i].kio].state == if WasTaken(s.wire, s.p.recvq[i].kio) then Sent else New
  {
    hide Reached, Inv, Fine, On, WasTaken;
    var k := s.p.recvq[i].kio;
    ReachedInv(s);
    ReachedAccounted(s);
    var d :| Accounted(s, d);
    assert Queue(s.p, RecvQ) == s.p.recvq;
    AtCell(s, RecvQ, i);
    NotAtIt(s, i);
    OnTheWire(s, i);
    assert Fine(s, k, d);
    WaitingIs(s, k, d);
  }

  lemma WaitingIs(s: State, k: KioId, d: Deeds)
    requires k in s.p.kios && Fine(s, k, d) && On(s.p.recvq, k)
    ensures s.p.kios[k].state == New <==> About(s.sender, k).Enqueued? || About(s.sender, k).Sending?
  {
    hide On;
  }

  lemma OnTheWire(s: State, i: nat)
    requires Inv(s) && i < |s.p.recvq|
    ensures var k := s.p.recvq[i].kio;
      var sender := About(s.sender, k);
      WasTaken(s.wire, k) <==> !sender.Taken? && !sender.Enqueued? && !sender.Sending?
  {
    hide Ok, OrderOk, AnswersOk, TimeoutsOk;
    var k := s.p.recvq[i].kio;
    NumberOf(s, k);
    var n := s.p.kios[k].sequence - FIRST_SEQUENCE;
    if n < |s.wire| {
      assert s.wire[n].kio == k;
    }
  }
}
