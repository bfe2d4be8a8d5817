/** Schedules of the transport that its intent does not foresee, each one the program can go through. */
module TransportSchedules {
  import opened Common
  import opened Places
  import opened Transport
  import opened TransportInvariant
  import opened TransportRuns
  import opened TransportReturned
  import opened Session

  lemma LeadsFromStart(steps: seq<Step>, s: State)
    requires Leads(INIT, steps, s) && Pull !in steps
    ensures Reached(s)
  {
    StartIsReached();
    LeadsReached(INIT, steps, s);
  }

  // --- one request ---

  const REQ := Kio(New, FIRST_SEQUENCE, false, true, KIO_TIMEOUT_S, None, None)

  // Kio 1 has been taken and numbered.
  function One(sender: Sender, wire: seq<Cell>, recvq: seq<Cell>, compq: seq<Cell>, kio: Kio, next: nat): State {
    State(Connected, Places([], recvq, compq, map[1 := kio], [], next), sender, Listening,
          FIRST_SEQUENCE + 1, 0, false, [Cell(0, 1)], [Cell(0, 1)], wire, 0)
  }

  const IN_HAND := One(Taken(1), [], [], [], REQ.(timeout := 0), 1)
  const QUEUED := One(Enqueued(1), [], [Cell(1, 1)], [], REQ.(timeout := 0, qbp := Some(CellRef(RecvQ, 1))), 2)
  const STAMPED := One(Sending(1), [], [Cell(1, 1)], [], REQ.(qbp := Some(CellRef(RecvQ, 1))), 2)

  const TO_HAND: seq<Step> := [SetSession(Connected)] + ([Submit(1, false, 0)] + [Take])

  lemma ToHand()
    ensures Leads(INIT, TO_HAND, IN_HAND)
  {
    var s0 := Do(INIT, SetSession(Connected));
    var s1 := Do(s0, Submit(1, false, 0));
    OneStep(INIT, SetSession(Connected));
    OneStep(s0, Submit(1, false, 0));
    TakeFirst(s0, s1);
    OneStep(s1, Take);
    hide Do, Enabled, Named, Leads;
    Then(s0, [Submit(1, false, 0)], s1, [Take], IN_HAND);
    Then(INIT, [SetSession(Connected)], s0, [Submit(1, false, 0)] + [Take], IN_HAND);
  }

  lemma TakeFirst(s0: State, s1: State)
    requires s0 == Do(INIT, SetSession(Connected)) && s1 == Do(s0, Submit(1, false, 0))
    ensures Named(s1) && Enabled(s1, Take) && Do(s1, Take) == IN_HAND
  {
    assert s1.p.kios == map[1 := REQ.(timeout := 0, sequence := 0, qbp := Some(CellRef(SendQ, 0)))];
    assert Do(s1, Take).p.kios == IN_HAND.p.kios;
  }

  lemma ToQueue()
    ensures Leads(IN_HAND, [Enqueue], QUEUED)
  {
    OneStep(IN_HAND, Enqueue);
    assert Do(IN_HAND, Enqueue).p.kios == QUEUED.p.kios;
  }

  lemma ToStamped()
    ensures Leads(QUEUED, [Stamp], STAMPED)
  {
    OneStep(QUEUED, Stamp);
    assert Do(QUEUED, Stamp).p.kios == STAMPED.p.kios;
  }

  // --- the moment before the timeout is set ---

  const TOO_SOON := One(Enqueued(1), [], [], [Cell(2, 1)],
                        REQ.(timeout := 0, state := TimedOut, qbp := Some(CellRef(CompQ, 2))), 3).(clock := 1)
  const OVERTAKE: seq<Step> := [Tick(1)] + [Expire(0, 1)]

  lemma Overtake()
    ensures Leads(QUEUED, OVERTAKE, TOO_SOON)
  {
    var s1 := Do(QUEUED, Tick(1));
    OneStep(QUEUED, Tick(1));
    OneStep(s1, Expire(0, 1));
    assert Do(s1, Expire(0, 1)).p.kios == TOO_SOON.p.kios;
    Then(QUEUED, [Tick(1)], s1, [Expire(0, 1)], TOO_SOON);
  }

  const TO_TOO_SOON: seq<Step> := TO_HAND + ([Enqueue] + OVERTAKE)

  lemma ToTooSoon()
    ensures Leads(INIT, TO_TOO_SOON, TOO_SOON)
  {
    ToHand();
    ToQueue();
    Overtake();
    hide Leads;
    Then(IN_HAND, [Enqueue], QUEUED, OVERTAKE, TOO_SOON);
    Then(INIT, TO_HAND, IN_HAND, [Enqueue] + OVERTAKE, TOO_SOON);
  }

  // A request can be timed out before a byte of it has been written: it waits with whatever timeout its
  // kio came with until the sender sets the real one.
  lemma TimedOutUnsent()
    ensures Reached(TOO_SOON)
    ensures TOO_SOON.p.kios[1].state == TimedOut && TOO_SOON.wire == [] && TOO_SOON.clock < KIO_TIMEOUT_S
  {
    ToTooSoon();
    hide Leads;
    LeadsFromStart(TO_TOO_SOON, TOO_SOON);
  }

  // --- a kio that is back and still written to ---

  const BACK := TOO_SOON.(p := TOO_SOON.p.(
    compq := [], handedBack := [1], kios := map[1 := REQ.(timeout := 0, state := TimedOut)]))

  // The caller collects the request that timed out too soon; then the sender sets its timeout.
  lemma WrittenAfterHandBack()
    ensures Reached(BACK) && Named(BACK) && 1 in BACK.p.handedBack && !NeverWritten(BACK, 1)
    ensures Enabled(BACK, Stamp) && Do(BACK, Stamp).p.kios[1] != BACK.p.kios[1]
  {
    TimedOutUnsent();
    CollectTooSoon();
    BackIsReached();
    StampWrites();
    hide Reached, Leads, Do, Enabled, NeverWritten;
    ReachedInv(BACK);
    NeverWrittenIff(BACK, 1);
  }

  lemma BackIsReached()
    requires Reached(TOO_SOON) && Leads(TOO_SOON, [Reap(1)], BACK)
    ensures Reached(BACK)
  {
    hide Reached, Leads;
    LeadsReached(TOO_SOON, [Reap(1)], BACK);
  }

  lemma StampWrites()
    ensures Named(BACK) && Enabled(BACK, Stamp) && SenderStores(BACK, 1)
    ensures Do(BACK, Stamp).p.kios[1] != BACK.p.kios[1]
  {
  }

  lemma CollectTooSoon()
    ensures Leads(TOO_SOON, [Reap(1)], BACK)
  {
    OneStep(TOO_SOON, Reap(1));
    assert Do(TOO_SOON, Reap(1)).p.kios == BACK.p.kios;
  }

  // --- a send that fails ---

  const TIMED_OUT := REQ.(state := TimedOut, timeout := 1 + KIO_TIMEOUT_S, qbp := Some(CellRef(CompQ, 2)))
  const RETURNED := One(Returned(1, false), [Cell(0, 1)], [], [Cell(2, 1)], TIMED_OUT, 3).(clock := 1)
  const PULLED := One(Finishing(1, Failed), [Cell(0, 1)], [], [Cell(2, 1)], TIMED_OUT.(qbp := None), 3).(clock := 1)
  const DOUBLED := One(Waiting, [Cell(0, 1)], [], [Cell(2, 1), Cell(3, 1)],
                       TIMED_OUT.(state := Failed, qbp := Some(CellRef(CompQ, 3))), 4).(clock := 1)
  const SEND_FAILS: seq<Step> := [Stamp] + [DriverSend(false)]
  const FAIL_AGAIN: seq<Step> := [Pull] + [Finish]
  // The caller receives its kio on the connected session, disconnects and drains.
  const COLLECT: seq<Step> := [Reap(1)] + ([SetSession(Draining)] + [DrainFront(CompQ)])

  lemma SendFails()
    ensures Leads(TOO_SOON, SEND_FAILS, RETURNED)
  {
    var s1 := Do(TOO_SOON, Stamp);
    OneStep(TOO_SOON, Stamp);
    assert s1.p.kios == map[1 := TIMED_OUT];
    OneStep(s1, DriverSend(false));
    assert Do(s1, DriverSend(false)).p.kios == RETURNED.p.kios;
    Then(TOO_SOON, [Stamp], s1, [DriverSend(false)], RETURNED);
  }

  lemma FailAgain()
    ensures Leads(RETURNED, FAIL_AGAIN, DOUBLED) && !Safe(RETURNED, Pull)
  {
    OneStep(RETURNED, Pull);
    assert Do(RETURNED, Pull).p.kios == PULLED.p.kios;
    OneStep(PULLED, Finish);
    assert Do(PULLED, Finish).p.kios == DOUBLED.p.kios;
    Then(RETURNED, [Pull], PULLED, [Finish], DOUBLED);
  }

  lemma Collect(s': State)
    requires s' == DOUBLED.(session := Draining, p := DOUBLED.p.(
      compq := [], handedBack := [1, 1], kios := map[1 := TIMED_OUT.(state := Failed, qbp := None)]))
    ensures Leads(DOUBLED, COLLECT, s')
  {
    assert Address(DOUBLED.p.compq, CompQ, Some(CellRef(CompQ, 3))) == 1;
    var s1 := Do(DOUBLED, Reap(1));
    OneStep(DOUBLED, Reap(1));
    assert s1.p.compq == [Cell(2, 1)];
    var s2 := Do(s1, SetSession(Draining));
    OneStep(s1, SetSession(Draining));
    OneStep(s2, DrainFront(CompQ));
    assert Do(s2, DrainFront(CompQ)).p.kios == s'.p.kios;
    Then(s1, [SetSession(Draining)], s2, [DrainFront(CompQ)], s');
    Then(DOUBLED, [Reap(1)], s1, [SetSession(Draining)] + [DrainFront(CompQ)], s');
  }

  const HAND_BACK_TWICE: seq<Step> := TO_TOO_SOON + (SEND_FAILS + (FAIL_AGAIN + COLLECT))

  // A request times out and then its send fails: the sender takes it for waiting, and completes it a second
  // time. On this schedule the guard fails, and the caller gets the same kio twice.
  lemma HandedBackTwice()
    ensures Legal(INIT, HAND_BACK_TWICE) && !Guarded(INIT, HAND_BACK_TWICE)
    ensures After(INIT, HAND_BACK_TWICE).p.handedBack == [1, 1]
  {
    var s' := DOUBLED.(session := Draining, p := DOUBLED.p.(
      compq := [], handedBack := [1, 1], kios := map[1 := TIMED_OUT.(state := Failed, qbp := None)]));
    ToTooSoon();
    SendFails();
    FailAgain();
    Collect(s');
    hide Do, Enabled, Named, Safe;
    Then(RETURNED, FAIL_AGAIN, DOUBLED, COLLECT, s');
    Then(TOO_SOON, SEND_FAILS, RETURNED, FAIL_AGAIN + COLLECT, s');
    Then(INIT, TO_TOO_SOON, TOO_SOON, SEND_FAILS + (FAIL_AGAIN + COLLECT), s');
    if Guarded(INIT, HAND_BACK_TWICE) {
      HandedBackOnce(s', 0, 1);
    }
  }

  // --- a connection that dies ---

  const HUNG := STAMPED.(session := Draining, receiver := Locked)
  const HANG: seq<Step> := [HangUp] + [HangUpDisconnect(true)]
  const TO_HUNG: seq<Step> := TO_HAND + ([Enqueue] + ([Stamp] + HANG))

  lemma Hang()
    ensures Leads(STAMPED, HANG, HUNG)
  {
    var s1 := Do(STAMPED, HangUp);
    OneStep(STAMPED, HangUp);
    OneStep(s1, HangUpDisconnect(true));
    Then(STAMPED, [HangUp], s1, [HangUpDisconnect(true)], HUNG);
  }

  // The connection dies while a request waits for its response: the receiver locks itself out, and the
  // session can never be emptied again.
  lemma HungWhileWaiting(steps: seq<Step>)
    requires Legal(HUNG, steps)
    ensures Reached(HUNG) && HUNG.session == Draining
    ensures !NothingQueued(After(HUNG, steps).p) && 1 !in After(HUNG, steps).p.handedBack
  {
    ToHand();
    ToQueue();
    ToStamped();
    Hang();
    hide Leads, Do, Enabled, Named;
    Then(QUEUED, [Stamp], STAMPED, HANG, HUNG);
    Then(IN_HAND, [Enqueue], QUEUED, [Stamp] + HANG, HUNG);
    Then(INIT, TO_HAND, IN_HAND, [Enqueue] + ([Stamp] + HANG), HUNG);
    LeadsFromStart(TO_HUNG, HUNG);
    AbortHangs(HUNG, steps, 0);
  }

  // --- a session that opens too early ---

  const OPENED := IN_HAND.(session := Opened)
  const OPEN: seq<Step> := [SetSession(Draining)] + [SetSession(Opened)]

  // Its caller disconnects while the sender has a request in hand, and drains: all queues are empty, so the
  // session opens and may be closed, and the request is still out.
  lemma OpenedWithKioOut()
    ensures Reached(OPENED) && NothingQueued(OPENED.p)
    ensures OPENED == DrainOne(IN_HAND.(session := Draining))
    ensures multiset(OPENED.p.handedBack) != multiset(OPENED.p.kios.Keys) && Loose(OPENED) != multiset{}
  {
    ToHand();
    OneStep(IN_HAND, SetSession(Draining));
    OneStep(IN_HAND.(session := Draining), SetSession(Opened));
    assert 1 in Loose(OPENED);
    assert 1 in multiset(OPENED.p.kios.Keys) && 1 !in multiset(OPENED.p.handedBack);
    hide Do, Enabled, Named, Leads;
    Then(IN_HAND, [SetSession(Draining)], IN_HAND.(session := Draining), [SetSession(Opened)], OPENED);
    Then(INIT, TO_HAND, IN_HAND, OPEN, OPENED);
    LeadsFromStart(TO_HAND + OPEN, OPENED);
  }

  // --- a second request with an old timeout ---

  const SENT_ONE := One(Waiting, [Cell(0, 1)], [Cell(1, 1)], [], REQ.(state := Sent, qbp := Some(CellRef(RecvQ, 1))), 2)
                      .(clock := 1)
  const TWO_KIOS := map[
    1 := REQ.(state := Sent, qbp := Some(CellRef(RecvQ, 1))),
    2 := REQ.(sequence := FIRST_SEQUENCE + 1, timeout := 0, qbp := Some(CellRef(RecvQ, 3)))]
  const TWO := SENT_ONE.(
    p := SENT_ONE.p.(recvq := [Cell(1, 1), Cell(3, 2)], kios := TWO_KIOS, nextCell := 4),
    sender := Enqueued(2), nextSeq := FIRST_SEQUENCE + 2,
    accepted := [Cell(0, 1), Cell(2, 2)], taken := [Cell(0, 1), Cell(2, 2)])
  const SEND_ONE: seq<Step> := [DriverSend(true)] + [Tick(1)]
  const SECOND: seq<Step> := [Submit(2, false, 0)] + ([Take] + [Enqueue])

  lemma SendOne()
    ensures Leads(STAMPED, SEND_ONE, SENT_ONE)
  {
    var s1 := Do(STAMPED, DriverSend(true));
    OneStep(STAMPED, DriverSend(true));
    OneStep(s1, Tick(1));
    assert Do(s1, Tick(1)).p.kios == SENT_ONE.p.kios;
    Then(STAMPED, [DriverSend(true)], s1, [Tick(1)], SENT_ONE);
  }

  lemma Second()
    ensures Leads(SENT_ONE, SECOND, TWO)
  {
    var s1 := Do(SENT_ONE, Submit(2, false, 0));
    OneStep(SENT_ONE, Submit(2, false, 0));
    TakeSecond(s1);
    hide Leads, Do, Enabled, Named;
    Then(SENT_ONE, [Submit(2, false, 0)], s1, [Take] + [Enqueue], TWO);
  }

  lemma TakeSecond(s1: State)
    requires s1 == Do(SENT_ONE, Submit(2, false, 0))
    ensures Leads(s1, [Take] + [Enqueue], TWO)
  {
    var s2 := Do(s1, Take);
    OneStep(s1, Take);
    assert s2.p.kios == map[1 := TWO_KIOS[1], 2 := TWO_KIOS[2].(qbp := None)];
    QueueSecond(s2);
    hide Leads, Do, Enabled, Named;
    Then(s1, [Take], s2, [Enqueue], TWO);
  }

  lemma QueueSecond(s2: State)
    requires s2 == TWO.(sender := Taken(2), p := SENT_ONE.p.(
      kios := map[1 := TWO_KIOS[1], 2 := TWO_KIOS[2].(qbp := None)], nextCell := 3))
    ensures Leads(s2, [Enqueue], TWO)
  {
    OneStep(s2, Enqueue);
    assert Do(s2, Enqueue).p.kios == TWO_KIOS;
  }

  lemma SecondIsStale()
    ensures QueuesNamed(TWO.p) && StaleLast(TWO, TWO.clock) && !ExpiredFirst(TWO.p, TWO.clock)
  {
    assert Expired(TWO.p, TWO.p.recvq[1], 1) && !Expired(TWO.p, TWO.p.recvq[0], 1);
  }

  // In the moment before its timeout is set, the last request can be expired while the one in front is not.
  lemma LastExpiresFirst()
    ensures Reached(TWO) && StaleLast(TWO, TWO.clock) && !ExpiredFirst(TWO.p, TWO.clock)
  {
    SecondIsStale();
    ToTwo();
    hide Leads, StaleLast, ExpiredFirst, Reached;
    LeadsFromStart(TO_TWO, TWO);
  }

  const TO_TWO: seq<Step> := TO_HAND + ([Enqueue] + ([Stamp] + (SEND_ONE + SECOND)))

  lemma ToTwo()
    ensures Leads(INIT, TO_TWO, TWO)
  {
    ToHand();
    ToQueue();
    ToStamped();
    SendOne();
    Second();
    hide Leads;
    Then(STAMPED, SEND_ONE, SENT_ONE, SECOND, TWO);
    Then(QUEUED, [Stamp], STAMPED, SEND_ONE + SECOND, TWO);
    Then(IN_HAND, [Enqueue], QUEUED, [Stamp] + (SEND_ONE + SECOND), TWO);
    Then(INIT, TO_HAND, IN_HAND, [Enqueue] + ([Stamp] + (SEND_ONE + SECOND)), TWO);
  }
}
