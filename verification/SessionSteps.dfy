/**
 What the session object does in one call under its locks is a schedule of single steps, so what holds for
 every schedule holds for it.
 */
module SessionSteps {
  import opened Common
  import opened Places
  import opened Transport
  import opened TransportInvariant
  import opened TransportRuns
  import opened TransportAnswers
  import opened TransportService
  import opened Session

  // --- the timeout check ---

  // One Expire for each expired kio the cursor comes to
  function ScanSteps(p: Places, i: nat, now: int): seq<Step>
    requires QueuesNamed(p) && i <= |p.recvq|
    decreases |p.recvq| - i
  {
    if i == |p.recvq| then []
    else if Expired(p, p.recvq[i], now) then
      MoveToCompShape(p, i, TimedOut);
      [Expire(i, now)] + ScanSteps(MoveToComp(p, i, TimedOut), i, now)
    else ScanSteps(p, i + 1, now)
  }

  lemma {:induction false} ScanIsSteps(s: State, i: nat, now: int)
    requires Named(s) && s.receiver == Listening && now <= s.clock && i <= |s.p.recvq|
    ensures Leads(s, ScanSteps(s.p, i, now), s.(p := ScanFrom(s.p, i, now)))
    ensures Pull !in ScanSteps(s.p, i, now)
    decreases |s.p.recvq| - i
  {
    if i == |s.p.recvq| {
    } else if Expired(s.p, s.p.recvq[i], now) {
      var s1 := s.(p := MoveToComp(s.p, i, TimedOut));
      ExpireStep(s, i, now);
      MoveToCompShape(s.p, i, TimedOut);
      ScanIsSteps(s1, i, now);
      hide Leads, MoveToComp, Named;
      Then(s, [Expire(i, now)], s1, ScanSteps(s1.p, i, now), s1.(p := ScanFrom(s1.p, i, now)));
    } else {
      hide Leads;
      ScanIsSteps(s, i + 1, now);
    }
  }

  lemma ExpireStep(s: State, i: nat, now: int)
    requires Named(s) && s.receiver == Listening && now <= s.clock
    requires i < |s.p.recvq| && Expired(s.p, s.p.recvq[i], now)
    ensures var s1 := s.(p := MoveToComp(s.p, i, TimedOut)); Named(s1) && Leads(s, [Expire(i, now)], s1)
  {
    MoveToCompShrinks(s.p, i, TimedOut);
    ExpireIs(s, i, now);
    SameHandsLoose(s, s.(p := MoveToComp(s.p, i, TimedOut)));
    hide MoveToComp;
    OneStep(s, Expire(i, now));
  }

  // The state after a timeout check is one that some schedule reaches.
  lemma ScanIsReached(s: State, now: int)
    requires Reached(s) && Named(s) && s.receiver == Listening && now <= s.clock
    ensures Reached(s.(p := ScanFrom(s.p, 0, now)))
  {
    hide Leads, Reached;
    ScanIsSteps(s, 0, now);
    LeadsReached(s, ScanSteps(s.p, 0, now), s.(p := ScanFrom(s.p, 0, now)));
  }

  // --- drains ---

  function DrainOneSteps(p: Places): seq<Step> {
    match DrainFrom(p)
    case None => [SetSession(Opened)]
    case Some(n) => [DrainFront(n)]
  }

  lemma NamedAfter(s: State, s': State)
    requires Named(s) && QueuesNamed(s'.p) && s'.p.kios.Keys == s.p.kios.Keys
    requires s'.sender == s.sender && s'.receiver == s.receiver
    ensures Named(s')
  {
  }

  // One ktli_drain, on a session whose receive queue can be locked
  lemma DrainOneIsStep(s: State)
    requires Named(s) && s.receiver != Locked
    ensures Leads(s, DrainOneSteps(s.p), DrainOne(s))
  {
    if DrainFrom(s.p).Some? {
      HandBackShape(s.p, DrainFrom(s.p).value, 0, Failed);
      NamedAfter(s, DrainOne(s));
    }
    hide HandBack, Drop, Named;
    OneStep(s, DrainOneSteps(s.p)[0]);
  }

  lemma MatchInIsStep(s: State, n: QueueName, k: KioId)
    requires Named(s) && s.receiver != Locked && k in s.p.kios
    ensures var s' := MatchIn(s, n, k);
      && Named(s') && s'.receiver == s.receiver && s'.p.kios.Keys == s.p.kios.Keys
      && Leads(s, [DrainMatch(k, n)], s')
  {
    var i := FindKio(Queue(s.p, n), k);
    if i < |Queue(s.p, n)| {
      HandBackShape(s.p, n, i, Failed);
      NamedAfter(s, MatchIn(s, n, k));
    }
    hide HandBack, Drop, Named;
    OneStep(s, DrainMatch(k, n));
  }

  // The three searches of one ktli_drain_match, and the move to OPENED when nothing is left
  function DrainMatchSteps(k: KioId, opens: bool): seq<Step> {
    [DrainMatch(k, CompQ)]
    + ([DrainMatch(k, RecvQ)] + ([DrainMatch(k, SendQ)] + if opens then [SetSession(Opened)] else []))
  }

  lemma DrainMatchedIsSteps(s: State, k: KioId)
    requires Named(s) && s.receiver != Locked && k in s.p.kios
    ensures Leads(s, DrainMatchSteps(k, NothingQueued(DrainMatched(s, k).p)), DrainMatched(s, k))
  {
    var s1 := MatchIn(s, CompQ, k);
    var s2 := MatchIn(s1, RecvQ, k);
    var s3 := MatchIn(s2, SendQ, k);
    MatchInIsStep(s, CompQ, k);
    MatchInIsStep(s1, RecvQ, k);
    MatchInIsStep(s2, SendQ, k);
    MatchThree(s, k);
    OpenIsStep(s3);
    hide Leads, MatchIn, MatchUpTo, Named;
    var last := if NothingQueued(s3.p) then [SetSession(Opened)] else [];
    Then(s2, [DrainMatch(k, SendQ)], s3, last, OpenWhenEmpty(s3));
    Then(s1, [DrainMatch(k, RecvQ)], s2, [DrainMatch(k, SendQ)] + last, OpenWhenEmpty(s3));
    Then(s, [DrainMatch(k, CompQ)], s1, [DrainMatch(k, RecvQ)] + ([DrainMatch(k, SendQ)] + last), OpenWhenEmpty(s3));
  }

  lemma OpenIsStep(s: State)
    requires Named(s)
    ensures Leads(s, if NothingQueued(s.p) then [SetSession(Opened)] else [], OpenWhenEmpty(s))
  {
    if NothingQueued(s.p) {
      OneStep(s, SetSession(Opened));
    }
  }

  // The state after a drain is one that some schedule reaches.
  lemma DrainIsReached(s: State, k: KioId)
    requires Reached(s) && Named(s) && s.receiver != Locked
    ensures Reached(DrainOne(s))
    ensures k in s.p.kios ==> Reached(DrainMatched(s, k))
  {
    hide Leads, Reached, DrainOne, DrainMatched;
    DrainOneIsStep(s);
    LeadsReached(s, DrainOneSteps(s.p), DrainOne(s));
    if k in s.p.kios {
      DrainMatchedIsSteps(s, k);
      LeadsReached(s, DrainMatchSteps(k, NothingQueued(DrainMatched(s, k).p)), DrainMatched(s, k));
    }
  }

  // --- an answer reaches its caller ---

  // ktli_recvmsg with the response to the i-th waiting request, then ktli_receive by its caller
  method AnswerAndReceive(ses: Session, i: nat, made: KioId) returns (k: KioId, rc: Rc)
    requires Inv(ses.View()) && ses.rest.receiver == Listening && ses.session == Connected && i < |ses.recvq|
    modifies ses
    ensures k == old(ses.recvq)[i].kio && rc == Success && Inv(ses.View())
    ensures ses.rest.p.handedBack == old(ses.rest.p.handedBack) + [k]
    ensures k in old(ses.kios) && k in ses.kios
    ensures ses.kios[k].state == Received && ses.kios[k].answer == Some(old(ses.kios)[k].sequence)
    ensures ses.recvq == old(ses.recvq[..i] + ses.recvq[i + 1..]) && ses.compq == old(ses.compq)
  {
    ghost var s := ses.View();
    AnswerTaken(s, i, made);
    k := ses.recvq[i].kio;
    hide Inv, DoRespond, DoDeliver, Reaped, Collectable;
    var found := ses.MatchResponse(ses.kios[k].sequence, made);
    DeliveredIsCollected(ses.View(), k);
    ses.DeliverResponse(k);
    rc := ses.Receive(k);
  }

  lemma AnswerTaken(s: State, i: nat, made: KioId)
    requires Inv(s) && s.receiver == Listening && i < |s.p.recvq|
    ensures s.p.recvq[i].kio in s.p.kios && s.p.recvq[i].kio !in s.p.handedBack && Named(s)
    ensures var a := s.p.kios[s.p.recvq[i].kio].sequence;
      a > 0 && Inv(DoRespond(s, a, made)) && Answered(s, DoRespond(s, a, made), i, a)
  {
    hide Ok, Rest;
    NumberFinds(s, i, made);
    RespondInv(s, s.p.kios[s.p.recvq[i].kio].sequence, made);
    WaitingIsOut(s, i);
    hide Inv;
    assert Do(s, Respond(s.p.kios[s.p.recvq[i].kio].sequence, made))
        == DoRespond(s, s.p.kios[s.p.recvq[i].kio].sequence, made);
  }

  lemma DeliveredIsCollected(s: State, k: KioId)
    requires Inv(s) && s.receiver == Holding(k) && k in s.p.kios && k !in s.p.handedBack
    ensures var s2 := DoDeliver(s);
      && Collectable(s2, k) && QueuesNamed(s2.p) && s2.session == s.session
      && var s3 := Reaped(s2, k);
      && Inv(s3) && k in s3.p.kios && s3.p.kios[k].state == Received && s3.p.kios[k].answer == s.p.kios[k].answer
      && s3.p.handedBack == s.p.handedBack + [k] && s3.p.compq == s.p.compq && s3.p.recvq == s.p.recvq
  {
    hide Ok, Rest;
    NewIds(s);
    DeliverInv(s);
    ReapedIsReap(DoDeliver(s), k);
    assert Named(DoDeliver(s));
    hide Inv, DoReap;
    CollectedIs(s, k);
  }

  lemma CollectedIs(s: State, k: KioId)
    requires s.receiver == Holding(k) && k in s.p.kios && Collectable(DoDeliver(s), k)
    requires forall j :: 0 <= j < |s.p.compq| ==> s.p.compq[j].id < s.p.nextCell
    ensures var s3 := Reaped(DoDeliver(s), k);
      && s3.session == s.session && k in s3.p.kios
      && s3.p.kios[k].state == Received && s3.p.kios[k].answer == s.p.kios[k].answer
      && s3.p.handedBack == s.p.handedBack + [k] && s3.p.compq == s.p.compq && s3.p.recvq == s.p.recvq
  {
    LastFound(s.p.compq, Cell(s.p.nextCell, k));
  }

  lemma NewIds(s: State)
    requires Inv(s)
    ensures forall j :: 0 <= j < |s.p.compq| ==> s.p.compq[j].id < s.p.nextCell
  {
    hide Rest;
    assert Queue(s.p, CompQ) == s.p.compq;
  }
}
