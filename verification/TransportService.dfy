/**
 What becomes of the request at the front of the send queue, from its turn until it is back with its caller,
 if nobody else moves: answered, failed, gone one way, or timed out. Whatever else is queued or waits stays
 as it is.
 */
module TransportService {
  import opened Common
  import opened Places
  import opened Transport
  import opened TransportInvariant
  import opened TransportRuns
  import opened TransportAnswers

  // The sender is free, the receiver listens, and a request queues to be sent.
  predicate Ready(s: State) {
    s.sender == Waiting && s.receiver == Listening && s.p.sendq != [] && s.p.sendq[0].kio in s.p.kios
  }

  function Front(s: State): KioId
    requires Ready(s)
  {
    s.p.sendq[0].kio
  }

  function Came(s: State): Kio
    requires Ready(s)
  {
    s.p.kios[Front(s)]
  }

  // The front request is numbered, and so far on its way; all else is as it was.
  function Underway(s: State, sender: Sender, receiver: Receiver, recvq: seq<Cell>, compq: seq<Cell>, kio: Kio,
                    cells: nat, sent: bool): State
    requires Ready(s)
  {
    var c := s.p.sendq[0];
    s.(sender := sender, receiver := receiver, nextSeq := s.nextSeq + 1, taken := s.taken + [c],
       wire := s.wire + if sent then [c] else [],
       p := Places(s.p.sendq[1..], recvq, compq, s.p.kios[c.kio := kio], s.p.handedBack, s.p.nextCell + cells))
  }

  // It is back with its caller.
  function Back(s: State, kio: Kio, cells: nat): State
    requires Ready(s)
  {
    var s' := Underway(s, Waiting, Listening, s.p.recvq, s.p.compq, kio, cells, true);
    s'.(p := s'.p.(handedBack := s.p.handedBack + [Front(s)]))
  }

  lemma Chain(s0: State, a: seq<Step>, s1: State, b: seq<Step>, s2: State, c: seq<Step>, s3: State)
    requires Leads(s0, a, s1) && Leads(s1, b, s2) && Leads(s2, c, s3)
    ensures Leads(s0, a + (b + c), s3)
  {
    hide Leads;
    Then(s1, b, s2, c, s3);
    Then(s0, a, s1, b + c, s3);
  }

  lemma FrontOf(s: State)
    requires Reached(s) && s.sender == Waiting && s.p.sendq != []
    ensures Named(s) && s.p.sendq[0].kio in s.p.kios
    ensures forall j :: 0 <= j < |s.p.recvq| ==>
      s.p.recvq[j].kio != s.p.sendq[0].kio && s.p.recvq[j].id < s.p.nextCell
      && s.p.kios[s.p.recvq[j].kio].sequence < s.nextSeq
    ensures forall j :: 0 <= j < |s.p.compq| ==> s.p.compq[j].kio != s.p.sendq[0].kio && s.p.compq[j].id < s.p.nextCell
    ensures forall j :: 1 <= j < |s.p.sendq| ==> s.p.sendq[j].kio != s.p.sendq[0].kio
    ensures s.p.sendq[0].kio !in s.p.handedBack && s.p.kios[s.p.sendq[0].kio].state == New
  {
    ReachedInv(s);
    RecvqOrder(s);
    assert Queue(s.p, SendQ) == s.p.sendq && Queue(s.p, RecvQ) == s.p.recvq && Queue(s.p, CompQ) == s.p.compq;
    QueuedIsNowhereElse(s.p, Loose(s), SendQ, 0);
    hide OnePlace, Rest;
  }

  function Numbered(s: State): Kio
    requires Ready(s)
  {
    Came(s).(sequence := s.nextSeq, qbp := None)
  }

  function Waits(s: State): Kio
    requires Ready(s)
  {
    Numbered(s).(qbp := Some(CellRef(RecvQ, s.p.nextCell)))
  }

  lemma Taking(s: State)
    requires Named(s) && Ready(s)
    ensures Leads(s, [Take], Underway(s, Taken(Front(s)), Listening, s.p.recvq, s.p.compq, Numbered(s), 0, false))
  {
    var s' := Underway(s, Taken(Front(s)), Listening, s.p.recvq, s.p.compq, Numbered(s), 0, false);
    assert Do(s, Take).p.kios == s'.p.kios && Do(s, Take).p.sendq == s'.p.sendq && s.wire + [] == s.wire;
    OneStep(s, Take);
  }

  lemma Queuing(s: State)
    requires Named(s) && Ready(s) && !Came(s).reqOnly
    requires forall j :: 1 <= j < |s.p.sendq| ==> s.p.sendq[j].kio != s.p.sendq[0].kio
    ensures var k := Front(s);
      var q := s.p.recvq + [Cell(s.p.nextCell, k)];
      Leads(Underway(s, Taken(k), Listening, s.p.recvq, s.p.compq, Numbered(s), 0, false), [Enqueue],
            Underway(s, Enqueued(k), Listening, q, s.p.compq, Waits(s), 1, false))
  {
    var k := Front(s);
    var q := s.p.recvq + [Cell(s.p.nextCell, k)];
    var s0 := Underway(s, Taken(k), Listening, s.p.recvq, s.p.compq, Numbered(s), 0, false);
    var s1 := Underway(s, Enqueued(k), Listening, q, s.p.compq, Waits(s), 1, false);
    assert Do(s0, Enqueue).p.kios == s1.p.kios;
    OneStep(s0, Enqueue);
  }

  lemma GoingOneWay(s: State)
    requires Named(s) && Ready(s) && Came(s).reqOnly
    ensures var k := Front(s);
      Leads(Underway(s, Taken(k), Listening, s.p.recvq, s.p.compq, Numbered(s), 0, false), [Enqueue],
            Underway(s, Enqueued(k), Listening, s.p.recvq, s.p.compq, Numbered(s), 0, false))
  {
    OneStep(Underway(s, Taken(Front(s)), Listening, s.p.recvq, s.p.compq, Numbered(s), 0, false), Enqueue);
  }

  // The timeout is set, thirty seconds from now;
  lemma Stamping(s: State, recvq: seq<Cell>, kio: Kio, cells: nat)
    requires Named(s) && Ready(s)
    requires forall j :: 0 <= j < |recvq| ==> recvq[j].kio in s.p.kios
    ensures Leads(Underway(s, Enqueued(Front(s)), Listening, recvq, s.p.compq, kio, cells, false), [Stamp],
                  Underway(s, Sending(Front(s)), Listening, recvq, s.p.compq, kio.(timeout := s.clock + 30), cells,
                           false))
  {
    var s0 := Underway(s, Enqueued(Front(s)), Listening, recvq, s.p.compq, kio, cells, false);
    var s1 := Underway(s, Sending(Front(s)), Listening, recvq, s.p.compq, kio.(timeout := s.clock + 30), cells, false);
    assert Do(s0, Stamp).p.kios == s1.p.kios;
    OneStep(s0, Stamp);
  }

  // then the driver sends it.
  lemma Transmitting(s: State, recvq: seq<Cell>, kio: Kio, cells: nat, ok: bool)
    requires Named(s) && Ready(s) && kio.state == New
    requires forall j :: 0 <= j < |recvq| ==> recvq[j].kio in s.p.kios
    ensures Leads(Underway(s, Sending(Front(s)), Listening, recvq, s.p.compq, kio, cells, false), [DriverSend(ok)],
                  Underway(s, if ok && !kio.reqOnly then Waiting else Returned(Front(s), ok), Listening, recvq,
                           s.p.compq, kio.(state := Sent), cells, true))
  {
    var s1 := Underway(s, Sending(Front(s)), Listening, recvq, s.p.compq, kio, cells, false);
    var s2 := Underway(s, if ok && !kio.reqOnly then Waiting else Returned(Front(s), ok), Listening, recvq, s.p.compq,
                       kio.(state := Sent), cells, true);
    assert Do(s1, DriverSend(ok)).p.kios == s2.p.kios && s.wire + [] == s.wire;
    OneStep(s1, DriverSend(ok));
  }

  lemma LastFound(q: seq<Cell>, c: Cell)
    requires forall j :: 0 <= j < |q| ==> q[j].id < c.id
    ensures Find(q + [c], c.id) == |q| && Without(q + [c], |q|) == q
  {
    assert (q + [c])[|q|] == c;
  }

  // What was completed last is found and handed back.
  lemma Collecting(s: State, kio: Kio, id: nat, cells: nat)
    requires Named(s) && Ready(s) && Front(s) !in s.p.handedBack && Done(kio.state) && !s.assertFired
    requires kio.qbp == Some(CellRef(CompQ, id)) && forall j :: 0 <= j < |s.p.compq| ==> s.p.compq[j].id < id
    ensures var k := Front(s);
      Leads(Underway(s, Waiting, Listening, s.p.recvq, s.p.compq + [Cell(id, k)], kio, cells, true), [Reap(k)],
            Back(s, kio.(qbp := None), cells))
  {
    var k := Front(s);
    var q := s.p.compq + [Cell(id, k)];
    var s0 := Underway(s, Waiting, Listening, s.p.recvq, q, kio, cells, true);
    LastFound(s.p.compq, Cell(id, k));
    assert Do(s0, Reap(k)).p.kios == Back(s, kio.(qbp := None), cells).p.kios;
    OneStep(s0, Reap(k));
  }

  // --- the four ways it can go ---

  // Sent, and on the receive queue behind all that waited before.
  function Pending(s: State): Kio
    requires Ready(s)
  {
    Waits(s).(timeout := s.clock + 30, state := Sent)
  }

  const SEND: seq<Step> := [Take] + ([Enqueue] + [Stamp])

  lemma SentOff(s: State, ok: bool)
    requires Reached(s) && Ready(s) && !Came(s).reqOnly
    ensures Leads(s, SEND + [DriverSend(ok)],
                  Underway(s, if ok then Waiting else Returned(Front(s), ok), Listening,
                           s.p.recvq + [Cell(s.p.nextCell, Front(s))], s.p.compq, Pending(s), 1, true))
  {
    hide Leads, Underway, Reached;
    var k := Front(s);
    var q := s.p.recvq + [Cell(s.p.nextCell, k)];
    var s1 := Underway(s, Taken(k), Listening, s.p.recvq, s.p.compq, Numbered(s), 0, false);
    var s2 := Underway(s, Enqueued(k), Listening, q, s.p.compq, Waits(s), 1, false);
    var s3 := Underway(s, Sending(k), Listening, q, s.p.compq, Waits(s).(timeout := s.clock + 30), 1, false);
    FrontOf(s);
    Taking(s);
    Queuing(s);
    Stamping(s, q, Waits(s), 1);
    Transmitting(s, q, Waits(s).(timeout := s.clock + 30), 1, ok);
    hide Waits, Numbered;
    Chain(s, [Take], s1, [Enqueue], s2, [Stamp], s3);
    Then(s, SEND, s3, [DriverSend(ok)],
         Underway(s, if ok then Waiting else Returned(k, ok), Listening, q, s.p.compq, Pending(s), 1, true));
  }

  // Its response finds it at the rear of the queue,
  lemma Answering(s: State, s0: State, made: KioId)
    requires Reached(s) && Ready(s) && !Came(s).reqOnly && Reached(s0)
    requires s0 == Underway(s, Waiting, Listening, s.p.recvq + [Cell(s.p.nextCell, Front(s))], s.p.compq,
                            Pending(s), 1, true)
    ensures Leads(s0, [Respond(s.nextSeq, made)],
                  Underway(s, Waiting, Holding(Front(s)), s.p.recvq, s.p.compq,
                           Pending(s).(qbp := None, answer := Some(s.nextSeq)), 1, true))
  {
    var k, n := Front(s), |s.p.recvq|;
    var s1 := Underway(s, Waiting, Holding(k), s.p.recvq, s.p.compq,
                       Pending(s).(qbp := None, answer := Some(s.nextSeq)), 1, true);
    FrontOf(s);
    ResponseFinds(s0, n, made);
    assert s0.p.recvq[..n] + s0.p.recvq[n + 1..] == s.p.recvq;
    assert s0.p.kios[k := s1.p.kios[k]] == s1.p.kios;
    assert Do(s0, Respond(s.nextSeq, made)) == s1;
    hide Reached, Enabled, Do;
    OneStep(s0, Respond(s.nextSeq, made));
  }

  // and takes it to the completion queue.
  lemma Delivering(s: State, kio: Kio)
    requires Named(s) && Ready(s)
    ensures Leads(Underway(s, Waiting, Holding(Front(s)), s.p.recvq, s.p.compq, kio, 1, true), [Deliver],
                  Underway(s, Waiting, Listening, s.p.recvq, s.p.compq + [Cell(s.p.nextCell + 1, Front(s))],
                           kio.(state := Received, qbp := Some(CellRef(CompQ, s.p.nextCell + 1))), 2, true))
  {
    var k := Front(s);
    var s0 := Underway(s, Waiting, Holding(k), s.p.recvq, s.p.compq, kio, 1, true);
    var s1 := Underway(s, Waiting, Listening, s.p.recvq, s.p.compq + [Cell(s.p.nextCell + 1, k)],
                       kio.(state := Received, qbp := Some(CellRef(CompQ, s.p.nextCell + 1))), 2, true);
    assert Do(s0, Deliver).p.kios == s1.p.kios;
    OneStep(s0, Deliver);
  }

  lemma Answer(s: State, s1: State, made: KioId)
    requires Reached(s) && Ready(s) && !Came(s).reqOnly && Reached(s1)
    requires s1 == Underway(s, Waiting, Listening, s.p.recvq + [Cell(s.p.nextCell, Front(s))], s.p.compq,
                            Pending(s), 1, true)
    ensures Leads(s1, [Respond(s.nextSeq, made)] + ([Deliver] + [Reap(Front(s))]),
                  Back(s, Pending(s).(state := Received, qbp := None, answer := Some(s.nextSeq)), 2))
  {
    hide Leads, Underway, Back, Reached;
    var k := Front(s);
    var kio := Pending(s).(qbp := None, answer := Some(s.nextSeq));
    var done := kio.(state := Received, qbp := Some(CellRef(CompQ, s.p.nextCell + 1)));
    FrontOf(s);
    AssertsHold(s, k);
    Answering(s, s1, made);
    Delivering(s, kio);
    Collecting(s, done, s.p.nextCell + 1, 2);
    hide Pending;
    Chain(s1, [Respond(s.nextSeq, made)],
          Underway(s, Waiting, Holding(k), s.p.recvq, s.p.compq, kio, 1, true), [Deliver],
          Underway(s, Waiting, Listening, s.p.recvq, s.p.compq + [Cell(s.p.nextCell + 1, k)], done, 2, true), [Reap(k)],
          Back(s, done.(qbp := None), 2));
  }

  // A request whose send succeeds and whose response comes is RECEIVED, and it is its own response that hangs
  // on it; it had the next number and thirty seconds.
  lemma FrontIsAnswered(s: State, made: KioId)
    requires Reached(s) && Ready(s) && !Came(s).reqOnly
    ensures var s' := Back(s, Came(s).(sequence := s.nextSeq, timeout := s.clock + 30, state := Received, qbp := None,
                                       answer := Some(s.nextSeq)), 2);
      && Reached(s')
      && Leads(s, SEND + [DriverSend(true)] + ([Respond(s.nextSeq, made)] + ([Deliver] + [Reap(Front(s))])), s')
  {
    hide Leads, Underway, Back, Reached;
    var q := s.p.recvq + [Cell(s.p.nextCell, Front(s))];
    var s1 := Underway(s, Waiting, Listening, q, s.p.compq, Pending(s), 1, true);
    var s' := Back(s, Pending(s).(state := Received, qbp := None, answer := Some(s.nextSeq)), 2);
    SentOff(s, true);
    LeadsReached(s, SEND + [DriverSend(true)], s1);
    Answer(s, s1, made);
    var rest: seq<Step> := [Respond(s.nextSeq, made)] + ([Deliver] + [Reap(Front(s))]);
    LeadsReached(s1, rest, s');
    Then(s, SEND + [DriverSend(true)], s1, rest, s');
  }

  // A request whose send fails is taken back off the receive queue,
  lemma Retracting(s: State)
    requires Reached(s) && Ready(s) && !Came(s).reqOnly
    ensures var k := Front(s);
      Leads(Underway(s, Returned(k, false), Listening, s.p.recvq + [Cell(s.p.nextCell, k)], s.p.compq, Pending(s), 1,
                     true), [Pull],
            Underway(s, Finishing(k, Failed), Listening, s.p.recvq, s.p.compq, Pending(s).(qbp := None), 1, true))
  {
    var k := Front(s);
    var q := s.p.recvq + [Cell(s.p.nextCell, k)];
    var s0 := Underway(s, Returned(k, false), Listening, q, s.p.compq, Pending(s), 1, true);
    var s1 := Underway(s, Finishing(k, Failed), Listening, s.p.recvq, s.p.compq, Pending(s).(qbp := None), 1, true);
    FrontOf(s);
    LastFound(s.p.recvq, Cell(s.p.nextCell, k));
    assert Do(s0, Pull).p.kios == s1.p.kios;
    hide Reached;
    OneStep(s0, Pull);
  }

  // and completed;
  lemma Completing(s: State, kio: Kio, outcome: KioState, cells: nat)
    requires Named(s) && Ready(s)
    ensures Leads(Underway(s, Finishing(Front(s), outcome), Listening, s.p.recvq, s.p.compq, kio, cells, true),
                  [Finish],
                  Underway(s, Waiting, Listening, s.p.recvq, s.p.compq + [Cell(s.p.nextCell + cells, Front(s))],
                           kio.(state := outcome, qbp := Some(CellRef(CompQ, s.p.nextCell + cells))), cells + 1, true))
  {
    var k, id := Front(s), s.p.nextCell + cells;
    var s0 := Underway(s, Finishing(k, outcome), Listening, s.p.recvq, s.p.compq, kio, cells, true);
    var s1 := Underway(s, Waiting, Listening, s.p.recvq, s.p.compq + [Cell(id, k)],
                       kio.(state := outcome, qbp := Some(CellRef(CompQ, id))), cells + 1, true);
    assert Do(s0, Finish).p.kios == s1.p.kios;
    OneStep(s0, Finish);
  }

  lemma Retract(s: State)
    requires Reached(s) && Ready(s) && !Came(s).reqOnly
    ensures Leads(Underway(s, Returned(Front(s), false), Listening, s.p.recvq + [Cell(s.p.nextCell, Front(s))],
                           s.p.compq, Pending(s), 1, true),
                  [Pull] + ([Finish] + [Reap(Front(s))]), Back(s, Pending(s).(state := Failed, qbp := None), 2))
  {
    hide Leads, Underway, Back, Reached;
    var k := Front(s);
    var kio := Pending(s).(qbp := None);
    var done := kio.(state := Failed, qbp := Some(CellRef(CompQ, s.p.nextCell + 1)));
    FrontOf(s);
    AssertsHold(s, k);
    Retracting(s);
    Completing(s, kio, Failed, 1);
    Collecting(s, done, s.p.nextCell + 1, 2);
    hide Pending;
    var q := s.p.recvq + [Cell(s.p.nextCell, k)];
    Chain(Underway(s, Returned(k, false), Listening, q, s.p.compq, Pending(s), 1, true),
          [Pull], Underway(s, Finishing(k, Failed), Listening, s.p.recvq, s.p.compq, kio, 1, true),
          [Finish], Underway(s, Waiting, Listening, s.p.recvq, s.p.compq + [Cell(s.p.nextCell + 1, k)], done, 2, true),
          [Reap(k)], Back(s, done.(qbp := None), 2));
  }

  // it is FAILED, without a response.
  lemma FrontFails(s: State)
    requires Reached(s) && Ready(s) && !Came(s).reqOnly
    ensures Leads(s, SEND + [DriverSend(false)] + ([Pull] + ([Finish] + [Reap(Front(s))])),
                  Back(s, Came(s).(sequence := s.nextSeq, timeout := s.clock + 30, state := Failed, qbp := None), 2))
  {
    hide Leads, Underway, Back, Reached;
    SentOff(s, false);
    Retract(s);
    Then(s, SEND + [DriverSend(false)],
         Underway(s, Returned(Front(s), false), Listening, s.p.recvq + [Cell(s.p.nextCell, Front(s))], s.p.compq,
                  Pending(s), 1, true),
         [Pull] + ([Finish] + [Reap(Front(s))]), Back(s, Pending(s).(state := Failed, qbp := None), 2));
  }

  lemma SentOneWay(s: State, ok: bool)
    requires Reached(s) && Ready(s) && Came(s).reqOnly
    ensures Leads(s, SEND + [DriverSend(ok)],
                  Underway(s, Returned(Front(s), ok), Listening, s.p.recvq, s.p.compq,
                           Numbered(s).(timeout := s.clock + 30, state := Sent), 0, true))
  {
    hide Leads, Underway, Reached;
    var k := Front(s);
    var kio := Numbered(s).(timeout := s.clock + 30);
    var s3 := Underway(s, Sending(k), Listening, s.p.recvq, s.p.compq, kio, 0, false);
    FrontOf(s);
    Taking(s);
    GoingOneWay(s);
    Stamping(s, s.p.recvq, Numbered(s), 0);
    Transmitting(s, s.p.recvq, kio, 0, ok);
    hide Numbered;
    Chain(s, [Take], Underway(s, Taken(k), Listening, s.p.recvq, s.p.compq, Numbered(s), 0, false),
          [Enqueue], Underway(s, Enqueued(k), Listening, s.p.recvq, s.p.compq, Numbered(s), 0, false),
          [Stamp], s3);
    Then(s, SEND, s3, [DriverSend(ok)],
         Underway(s, Returned(k, ok), Listening, s.p.recvq, s.p.compq, kio.(state := Sent), 0, true));
  }

  lemma OneWayEnds(s: State, kio: Kio, ok: bool)
    requires Reached(s) && Ready(s) && kio.reqOnly && kio.qbp == None
    ensures Leads(Underway(s, Returned(Front(s), ok), Listening, s.p.recvq, s.p.compq, kio, 0, true),
                  [Pull] + ([Finish] + [Reap(Front(s))]),
                  Back(s, kio.(state := if ok then Received else Failed), 1))
  {
    hide Leads, Underway, Back, Reached;
    var k, st := Front(s), if ok then Received else Failed;
    var done := kio.(state := st, qbp := Some(CellRef(CompQ, s.p.nextCell)));
    FrontOf(s);
    AssertsHold(s, k);
    Passing(s, kio, ok);
    Completing(s, kio, st, 0);
    Collecting(s, done, s.p.nextCell, 1);
    Chain(Underway(s, Returned(k, ok), Listening, s.p.recvq, s.p.compq, kio, 0, true),
          [Pull], Underway(s, Finishing(k, st), Listening, s.p.recvq, s.p.compq, kio, 0, true),
          [Finish], Underway(s, Waiting, Listening, s.p.recvq, s.p.compq + [Cell(s.p.nextCell, k)], done, 1, true),
          [Reap(k)], Back(s, done.(qbp := None), 1));
  }

  // A request that wants no response never waits for one: it is RECEIVED if its send succeeded, else FAILED.
  lemma OneWayIsDone(s: State, ok: bool)
    requires Reached(s) && Ready(s) && Came(s).reqOnly
    ensures Leads(s, SEND + [DriverSend(ok)] + ([Pull] + ([Finish] + [Reap(Front(s))])),
                  Back(s, Came(s).(sequence := s.nextSeq, timeout := s.clock + 30,
                                   state := if ok then Received else Failed, qbp := None), 1))
  {
    hide Leads, Underway, Back, Reached;
    var kio := Numbered(s).(timeout := s.clock + 30, state := Sent);
    SentOneWay(s, ok);
    OneWayEnds(s, kio, ok);
    Then(s, SEND + [DriverSend(ok)], Underway(s, Returned(Front(s), ok), Listening, s.p.recvq, s.p.compq, kio, 0, true),
         [Pull] + ([Finish] + [Reap(Front(s))]), Back(s, kio.(state := if ok then Received else Failed), 1));
  }

  lemma Passing(s: State, kio: Kio, ok: bool)
    requires Named(s) && Ready(s) && kio.reqOnly
    ensures Leads(Underway(s, Returned(Front(s), ok), Listening, s.p.recvq, s.p.compq, kio, 0, true), [Pull],
                  Underway(s, Finishing(Front(s), if ok then Received else Failed), Listening, s.p.recvq, s.p.compq,
                           kio, 0, true))
  {
    OneStep(Underway(s, Returned(Front(s), ok), Listening, s.p.recvq, s.p.compq, kio, 0, true), Pull);
  }

  // --- how it comes to be there, and what else a connection can do ---

  // A submission queues behind all others, not yet numbered, with its flags and the timeout it came with.
  lemma SubmittedIs(s: State, k: KioId, reqOnly: bool, oldTimeout: int)
    requires Named(s) && k !in s.p.kios
    ensures var c := Cell(s.p.nextCell, k);
      && Enabled(s, Submit(k, reqOnly, oldTimeout))
      && Do(s, Submit(k, reqOnly, oldTimeout)) == s.(accepted := s.accepted + [c],
           p := s.p.(sendq := s.p.sendq + [c], nextCell := s.p.nextCell + 1,
                     kios := s.p.kios[k := Kio(New, 0, reqOnly, true, oldTimeout, Some(CellRef(SendQ, c.id)), None)]))
  {
    assert Do(s, Submit(k, reqOnly, oldTimeout)).p.kios
        == s.p.kios[k := Kio(New, 0, reqOnly, true, oldTimeout, Some(CellRef(SendQ, s.p.nextCell)), None)];
  }

  // When the receiver fails, the session is aborted and then draining, if the driver lets go, and the receiver
  // has locked itself out. A session that callers have drained or closed in between is left as it is.
  lemma ConnectionDies(s: State, ok: bool)
    requires Named(s) && s.receiver == Listening
    ensures Leads(s, [HangUp], s.(session := Aborted, receiver := HungUp))
    ensures Leads(s, [HangUp] + [HangUpDisconnect(ok)],
                  s.(session := if ok then Draining else Aborted, receiver := Locked))
    ensures forall st: SessionState :: st != Connected && st != Aborted ==>
      Leads(s.(session := st, receiver := HungUp), [HangUpDisconnect(ok)], s.(session := st, receiver := Locked))
  {
    forall st: SessionState | st != Connected && st != Aborted
      ensures Leads(s.(session := st, receiver := HungUp), [HangUpDisconnect(ok)],
                    s.(session := st, receiver := Locked))
    {
      OneStep(s.(session := st, receiver := HungUp), HangUpDisconnect(ok));
    }
    var s1 := s.(session := Aborted, receiver := HungUp);
    OneStep(s, HangUp);
    OneStep(s1, HangUpDisconnect(ok));
    Then(s, [HangUp], s1, [HangUpDisconnect(ok)], s.(session := if ok then Draining else Aborted, receiver := Locked));
  }
}
