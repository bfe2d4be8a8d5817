/** What every step of the transport keeps. */
module TransportInvariant {
  import opened Common
  import opened Places
  import opened Transport

  // The kios that sit in no queue because a thread has them in hand.
  function SenderHand(s: State): multiset<KioId>
    requires Named(s)
  {
    match s.sender
    case Waiting => multiset{}
    case Taken(k) => multiset{k}
    case Finishing(k, _) => multiset{k}
    case Enqueued(k) => if s.p.kios[k].reqOnly then multiset{k} else multiset{}
    case Sending(k) => if s.p.kios[k].reqOnly then multiset{k} else multiset{}
    case Returned(k, _) => if s.p.kios[k].reqOnly then multiset{k} else multiset{}
  }

  function ReceiverHand(s: State): multiset<KioId> {
    if s.receiver.Holding? then multiset{s.receiver.kio} else multiset{}
  }

  function Loose(s: State): multiset<KioId>
    requires Named(s)
  {
    SenderHand(s) + ReceiverHand(s)
  }

  ghost predicate SenderOk(s: State)
    requires Named(s)
  {
    && (s.sender != Waiting ==>
          && s.taken != [] && s.taken[|s.taken| - 1].kio == s.sender.kio
          && (forall i :: 0 <= i < |s.p.sendq| ==> s.p.sendq[i].kio != s.sender.kio))
    && (s.sender.Returned? && s.sender.ok ==> s.p.kios[s.sender.kio].reqOnly)
    && (s.sender.Finishing? ==> s.sender.outcome == Received || s.sender.outcome == Failed)
    && s.wire == (if s.sender.Taken? || s.sender.Enqueued? || s.sender.Sending?
                  then s.taken[..|s.taken| - 1] else s.taken)
  }

  ghost predicate Ascending(q: seq<Cell>, bound: nat) {
    && (forall i, j :: 0 <= i < j < |q| ==> q[i].id < q[j].id)
    && (forall i :: 0 <= i < |q| ==> q[i].id < bound)
  }

  // The sender takes kios in the order in which ktli_send accepted them.
  ghost predicate OrderOk(s: State) {
    && Ascending(s.accepted, s.p.nextCell)
    && (forall i :: 0 <= i < |s.accepted| ==> s.accepted[i].kio in s.p.kios)
    && (forall i, j :: 0 <= i < j < |s.accepted| ==> s.accepted[i].kio != s.accepted[j].kio)
    && Ascending(s.taken, s.p.nextCell)
    && (forall i :: 0 <= i < |s.taken| ==> s.taken[i] in s.accepted)
    && (forall i :: 0 <= i < |s.p.sendq| ==> s.p.sendq[i] in s.accepted)
    && (forall i, j :: 0 <= i < |s.taken| && 0 <= j < |s.p.sendq| ==> s.taken[i].id < s.p.sendq[j].id)
  }

  // Unless some were drained, every kio accepted has been taken or still queues.
  ghost predicate NoneLost(s: State) {
    s.unsentDrained == 0 ==> s.taken + s.p.sendq == s.accepted
  }

  ghost predicate WasTaken(taken: seq<Cell>, k: KioId) {
    exists i :: 0 <= i < |taken| && taken[i].kio == k
  }

  // Sequence numbers are consecutive from 100, and the receive queue is ordered by them.
  ghost predicate NumbersOk(s: State)
    requires Named(s)
  {
    && s.nextSeq == FIRST_SEQUENCE + |s.taken|
    && (forall i :: 0 <= i < |s.taken| ==>
          s.taken[i].kio in s.p.kios && s.p.kios[s.taken[i].kio].sequence == FIRST_SEQUENCE + i)
    && (forall i :: 0 <= i < |s.p.recvq| ==>
          WasTaken(s.taken, s.p.recvq[i].kio))
    && (forall i, j :: 0 <= i < j < |s.p.recvq| ==>
          s.p.kios[s.p.recvq[i].kio].sequence < s.p.kios[s.p.recvq[j].kio].sequence)
  }

  // A response hangs only on the kio that carried its acknowledged sequence.
  ghost predicate AnswersOk(s: State)
    requires Named(s)
  {
    && (forall i :: 0 <= i < |s.p.sendq| ==> s.p.kios[s.p.sendq[i].kio].answer == None)
    && (forall i :: 0 <= i < |s.p.recvq| ==> s.p.kios[s.p.recvq[i].kio].answer == None)
    && (s.sender.Taken? ==> s.p.kios[s.sender.kio].answer == None)
    && (forall k :: k in s.p.kios && s.p.kios[k].state == TimedOut ==> s.p.kios[k].answer == None)
    && (forall k :: k in s.p.kios && s.p.kios[k].answer.Some? && s.p.kios[k].answer.value > 0 ==>
          s.p.kios[k].answer.value == s.p.kios[k].sequence && WasTaken(s.taken, k))
  }

  // Apart from the last one while its timeout is not yet set, waiting kios expire in queue order.
  ghost predicate TimeoutsOk(s: State)
    requires Named(s)
  {
    && (forall i :: 0 <= i < |s.p.recvq| && s.sender != Enqueued(s.p.recvq[i].kio) ==>
          s.p.kios[s.p.recvq[i].kio].timeout <= s.clock + KIO_TIMEOUT_S)
    && (forall i, j :: 0 <= i < j < |s.p.recvq| && s.sender != Enqueued(s.p.recvq[j].kio) ==>
          s.p.kios[s.p.recvq[i].kio].timeout <= s.p.kios[s.p.recvq[j].kio].timeout)
    && (s.sender.Enqueued? ==> forall i :: 0 <= i < |s.p.recvq| - 1 ==> s.p.recvq[i].kio != s.sender.kio)
  }

  ghost predicate Rest(s: State)
    requires Named(s)
  {
    && SenderOk(s)
    && OrderOk(s)
    && NoneLost(s)
    && NumbersOk(s)
    && AnswersOk(s)
    && TimeoutsOk(s)
    && !s.assertFired
  }

  ghost predicate Inv(s: State) {
    Named(s) && Ok(s.p, Loose(s)) && Rest(s)
  }

  // ktli_sender takes for granted that a request whose send failed is still on the receive queue.
  ghost predicate Safe(s: State, step: Step)
    requires Named(s) && Possible(s, step)
  {
    step == Pull && !s.p.kios[s.sender.kio].reqOnly ==>
      Address(s.p.recvq, RecvQ, s.p.kios[s.sender.kio].qbp) < |s.p.recvq|
  }

  // q' is q, or q without its i-th cell.
  ghost predicate Shrinks(q: seq<Cell>, q': seq<Cell>, i: nat) {
    q' == q || (i < |q| && q' == Without(q, i))
  }

  lemma ShrinksAt(q: seq<Cell>, q': seq<Cell>, i: nat)
    requires Shrinks(q, q', i)
    ensures |q'| <= |q|
    ensures q' == q || forall j :: 0 <= j < |q'| ==> q'[j] == q[if j < i then j else j + 1]
  {
  }

  // Moving kios about leaves their number, timeout, flags and response alone.
  ghost predicate Keeps(p: Places, p': Places) {
    forall k :: k in p.kios ==>
      && k in p'.kios
      && p'.kios[k].sequence == p.kios[k].sequence
      && p'.kios[k].timeout == p.kios[k].timeout
      && p'.kios[k].reqOnly == p.kios[k].reqOnly
      && p'.kios[k].hasRequest == p.kios[k].hasRequest
      && p'.kios[k].answer == p.kios[k].answer
  }

  lemma NumbersFrame(s: State, s': State, i: nat)
    requires Named(s) && Named(s') && NumbersOk(s)
    requires s'.taken == s.taken && s'.nextSeq == s.nextSeq
    requires Keeps(s.p, s'.p) && Shrinks(s.p.recvq, s'.p.recvq, i)
    ensures NumbersOk(s')
  {
    ShrinksAt(s.p.recvq, s'.p.recvq, i);
  }

  lemma TimeoutsFrame(s: State, s': State, i: nat)
    requires Named(s) && Named(s') && TimeoutsOk(s)
    requires s'.clock == s.clock
    requires s'.sender == s.sender || (!s.sender.Enqueued? && !s'.sender.Enqueued?)
    requires Keeps(s.p, s'.p) && Shrinks(s.p.recvq, s'.p.recvq, i)
    ensures TimeoutsOk(s')
  {
    ShrinksAt(s.p.recvq, s'.p.recvq, i);
  }

  lemma AnswersFrame(s: State, s': State, i: nat, j: nat)
    requires Named(s) && Named(s') && AnswersOk(s)
    requires s'.taken == s.taken
    requires s'.sender.Taken? ==> s'.sender == s.sender
    requires Keeps(s.p, s'.p) && s'.p.kios.Keys == s.p.kios.Keys
    requires Shrinks(s.p.recvq, s'.p.recvq, i) && Shrinks(s.p.sendq, s'.p.sendq, j)
    requires forall k :: k in s.p.kios && s'.p.kios[k].state == TimedOut ==>
      s.p.kios[k].state == TimedOut || s.p.kios[k].answer == None
    ensures AnswersOk(s')
  {
    ShrinksAt(s.p.recvq, s'.p.recvq, i);
    ShrinksAt(s.p.sendq, s'.p.sendq, j);
  }

  lemma OrderFrame(s: State, s': State, j: nat)
    requires OrderOk(s)
    requires s'.accepted == s.accepted && s'.taken == s.taken && s.p.nextCell <= s'.p.nextCell
    requires s.p.kios.Keys <= s'.p.kios.Keys
    requires Shrinks(s.p.sendq, s'.p.sendq, j)
    ensures OrderOk(s')
  {
    ShrinksAt(s.p.sendq, s'.p.sendq, j);
  }

  lemma SenderFrame(s: State, s': State, j: nat)
    requires Named(s) && Named(s') && SenderOk(s)
    requires s'.taken == s.taken && s'.wire == s.wire && s'.sender == s.sender
    requires Keeps(s.p, s'.p) && Shrinks(s.p.sendq, s'.p.sendq, j)
    ensures SenderOk(s')
  {
    ShrinksAt(s.p.sendq, s'.p.sendq, j);
  }

  // A step that at most moves one kio out of the receive queue or the send queue.
  lemma MoveRest(s: State, s': State, i: nat, j: nat)
    requires Named(s) && Named(s') && Rest(s)
    requires s' == s.(session := s'.session, p := s'.p, receiver := s'.receiver, unsentDrained := s'.unsentDrained)
    requires Keeps(s.p, s'.p) && s'.p.kios.Keys == s.p.kios.Keys && s.p.nextCell <= s'.p.nextCell
    requires Shrinks(s.p.recvq, s'.p.recvq, i) && Shrinks(s.p.sendq, s'.p.sendq, j)
    requires s'.unsentDrained == 0 ==> s.unsentDrained == 0 && s'.p.sendq == s.p.sendq
    requires forall k :: k in s.p.kios && s'.p.kios[k].state == TimedOut ==>
      s.p.kios[k].state == TimedOut || s.p.kios[k].answer == None
    ensures Rest(s')
  {
    NumbersFrame(s, s', i);
    TimeoutsFrame(s, s', i);
    AnswersFrame(s, s', i, j);
    OrderFrame(s, s', j);
    SenderFrame(s, s', j);
  }

  lemma InitInv()
    ensures Inv(INIT)
  {
  }

  // --- the receiver thread ---

  lemma DeliverRest(s: State)
    requires Named(s) && Rest(s) && s.receiver.Holding?
    ensures Named(DoDeliver(s)) && Rest(DoDeliver(s)) && Loose(DoDeliver(s)) == Loose(s) - multiset{s.receiver.kio}
  {
    assert Named(DoDeliver(s));
    MoveRest(s, DoDeliver(s), 0, 0);
  }

  lemma DeliverInv(s: State)
    requires Inv(s) && s.receiver.Holding?
    ensures Inv(DoDeliver(s))
  {
    PushOk(s.p, Loose(s), CompQ, s.receiver.kio, Received);
    DeliverRest(s);
  }

  lemma MoveToCompOk(p: Places, loose: multiset<KioId>, i: nat, st: KioState)
    requires Ok(p, loose) && i < |p.recvq| && (st == TimedOut || st == Failed)
    ensures p.recvq[i].kio in p.kios
    ensures Ok(MoveToComp(p, i, st), loose)
  {
    var k := p.recvq[i].kio;
    assert Queue(p, RecvQ) == p.recvq;
    DropOk(p, loose, RecvQ, i);
    PushOk(Drop(p, RecvQ, i), loose + multiset{k}, CompQ, k, st);
    assert loose + multiset{k} - multiset{k} == loose;
  }

  lemma MoveToCompShape(p: Places, i: nat, st: KioState)
    requires QueuesNamed(p) && i < |p.recvq|
    ensures var p' := MoveToComp(p, i, st);
      QueuesNamed(p') && Keeps(p, p') && p'.recvq == Without(p.recvq, i)
  {
    var p' := MoveToComp(p, i, st);
    assert p'.compq == p.compq + [Cell(p.nextCell, p.recvq[i].kio)];
    assert p'.kios.Keys == p.kios.Keys;
  }

  lemma MoveToCompShrinks(p: Places, i: nat, st: KioState)
    requires QueuesNamed(p) && i < |p.recvq|
    ensures var p' := MoveToComp(p, i, st);
      && QueuesNamed(p') && Keeps(p, p') && p'.kios.Keys == p.kios.Keys && p.nextCell <= p'.nextCell
      && Shrinks(p.recvq, p'.recvq, i) && Shrinks(p.sendq, p'.sendq, 0) && p'.sendq == p.sendq
      && (forall k :: k in p.kios && k != p.recvq[i].kio ==> p'.kios[k].state == p.kios[k].state)
  {
    MoveToCompShape(p, i, st);
    hide Keeps;
    var p' := MoveToComp(p, i, st);
    assert p'.kios.Keys == p.kios.Keys;
  }

  lemma MoveToCompRest(s: State, i: nat, st: KioState)
    requires Named(s) && Rest(s) && i < |s.p.recvq|
    ensures var s' := s.(p := MoveToComp(s.p, i, st)); Named(s') && Rest(s') && Loose(s') == Loose(s)
  {
    var s' := s.(p := MoveToComp(s.p, i, st));
    MoveToCompShrinks(s.p, i, st);
    assert s.p.kios[s.p.recvq[i].kio].answer == None;
    hide Rest, Shrinks, MoveToComp;
    SameHandsLoose(s, s');
    hide Keeps;
    MoveRest(s, s', i, 0);
  }

  lemma SameHandsLoose(s: State, s': State)
    requires Named(s) && QueuesNamed(s'.p) && s'.sender == s.sender && s'.receiver == s.receiver
    requires Keeps(s.p, s'.p)
    ensures Named(s') && Loose(s') == Loose(s)
  {
  }

  // The timeout scan and the abort path: one waiting kio is completed as TIMEDOUT or FAILED.
  lemma MoveToCompInv(s: State, i: nat, st: KioState)
    requires Inv(s) && i < |s.p.recvq| && (st == TimedOut || st == Failed)
    ensures Inv(s.(p := MoveToComp(s.p, i, st)))
  {
    MoveToCompOk(s.p, Loose(s), i, st);
    MoveToCompRest(s, i, st);
  }

  lemma MatchPlaces(p: Places, loose: multiset<KioId>, i: nat, ack: int)
    requires Ok(p, loose) && i < |p.recvq|
    ensures p.recvq[i].kio in p.kios
    ensures var k := p.recvq[i].kio;
      var p1 := Drop(p, RecvQ, i);
      Ok(p1.(kios := p1.kios[k := p1.kios[k].(answer := Some(ack))]), loose + multiset{k})
  {
    assert Queue(p, RecvQ) == p.recvq;
    DropOk(p, loose, RecvQ, i);
    var k := p.recvq[i].kio;
    var p1 := Drop(p, RecvQ, i);
    TouchOk(p1, loose + multiset{k}, k, p1.kios[k].(answer := Some(ack)));
  }

  lemma MatchAnswers(s: State, s': State, i: nat, ack: int)
    requires Named(s) && NumbersOk(s) && AnswersOk(s) && i < |s.p.recvq|
    requires ack > 0 ==> s.p.kios[s.p.recvq[i].kio].sequence == ack
    requires s.p.kios[s.p.recvq[i].kio].state != TimedOut
    requires forall j :: 0 <= j < |s.p.sendq| ==> s.p.sendq[j].kio != s.p.recvq[i].kio
    requires forall j :: 0 <= j < |s.p.recvq| && j != i ==> s.p.recvq[j].kio != s.p.recvq[i].kio
    requires s.sender.Taken? ==> s.sender.kio != s.p.recvq[i].kio
    requires s' == DoMatch(s, i, ack) && Named(s')
    ensures AnswersOk(s')
  {
    ShrinksAt(s.p.recvq, s'.p.recvq, i);
  }

  lemma MatchRest(s: State, i: nat, ack: int)
    requires Named(s) && Rest(s) && i < |s.p.recvq|
    ensures var s1 := s.(p := Drop(s.p, RecvQ, i), receiver := Holding(s.p.recvq[i].kio));
      Named(s1) && Rest(s1)
  {
    DropShrinks(s.p, i);
    hide Keeps, Shrinks, Drop, SenderOk, OrderOk, NumbersOk, AnswersOk, TimeoutsOk;
    MoveRest(s, s.(p := Drop(s.p, RecvQ, i), receiver := Holding(s.p.recvq[i].kio)), i, 0);
  }

  lemma DropShrinks(p: Places, i: nat)
    requires QueuesNamed(p) && i < |p.recvq|
    ensures var p' := Drop(p, RecvQ, i);
      && QueuesNamed(p') && Keeps(p, p') && p'.kios.Keys == p.kios.Keys && p'.nextCell == p.nextCell
      && Shrinks(p.recvq, p'.recvq, i) && Shrinks(p.sendq, p'.sendq, 0) && p'.sendq == p.sendq
      && (forall k :: k in p.kios ==> p'.kios[k].state == p.kios[k].state)
  {
    assert Drop(p, RecvQ, i).kios.Keys == p.kios.Keys;
    ShrinksAt(p.recvq, Drop(p, RecvQ, i).recvq, i);
  }

  // Hanging the response on a kio in hand changes nothing but the answers.
  lemma AnswerRest(s: State, k: KioId, ack: int)
    requires Named(s) && Rest(s) && k in s.p.kios
    ensures var s' := s.(p := s.p.(kios := s.p.kios[k := s.p.kios[k].(answer := Some(ack))]));
      Named(s') && SenderOk(s') && OrderOk(s') && NoneLost(s') && NumbersOk(s') && TimeoutsOk(s')
  {
    AnswerOrder(s, k, ack);
    hide OrderOk, NumbersOk;
  }

  lemma AnswerOrder(s: State, k: KioId, ack: int)
    requires Named(s) && OrderOk(s) && NumbersOk(s) && k in s.p.kios
    ensures var s' := s.(p := s.p.(kios := s.p.kios[k := s.p.kios[k].(answer := Some(ack))]));
      Named(s') && OrderOk(s') && NumbersOk(s')
  {
  }

  lemma MatchApart(p: Places, loose: multiset<KioId>, i: nat)
    requires Ok(p, loose) && i < |p.recvq|
    ensures p.recvq[i].kio in p.kios && p.kios[p.recvq[i].kio].state != TimedOut && p.recvq[i].kio !in loose
    ensures forall j :: 0 <= j < |p.sendq| ==> p.sendq[j].kio != p.recvq[i].kio
    ensures forall j :: 0 <= j < |p.recvq| && j != i ==> p.recvq[j].kio != p.recvq[i].kio
  {
    assert Queue(p, RecvQ) == p.recvq && Queue(p, SendQ) == p.sendq;
    QueuedIsNowhereElse(p, loose, RecvQ, i);
  }

  lemma MatchLoose(s: State, i: nat, ack: int)
    requires Named(s) && s.receiver == Listening && i < |s.p.recvq| && s.p.recvq[i].kio !in Loose(s)
    requires Named(DoMatch(s, i, ack))
    ensures Loose(DoMatch(s, i, ack)) == Loose(s) + multiset{s.p.recvq[i].kio}
  {
  }

  lemma MatchAllRest(s: State, i: nat, ack: int)
    requires Named(s) && Rest(s) && s.receiver == Listening && i < |s.p.recvq|
    requires ack > 0 ==> s.p.kios[s.p.recvq[i].kio].sequence == ack
    requires s.p.kios[s.p.recvq[i].kio].state != TimedOut && s.p.recvq[i].kio !in Loose(s)
    requires forall j :: 0 <= j < |s.p.sendq| ==> s.p.sendq[j].kio != s.p.recvq[i].kio
    requires forall j :: 0 <= j < |s.p.recvq| && j != i ==> s.p.recvq[j].kio != s.p.recvq[i].kio
    ensures Named(DoMatch(s, i, ack)) && Rest(DoMatch(s, i, ack))
    ensures Loose(DoMatch(s, i, ack)) == Loose(s) + multiset{s.p.recvq[i].kio}
  {
    MatchRest(s, i, ack);
    MatchLoose(s, i, ack);
    hide Loose;
    AnswerRest(s.(p := Drop(s.p, RecvQ, i), receiver := Holding(s.p.recvq[i].kio)), s.p.recvq[i].kio, ack);
    MatchAnswers(s, DoMatch(s, i, ack), i, ack);
    hide SenderOk, OrderOk, NoneLost, NumbersOk, AnswersOk, TimeoutsOk;
  }

  lemma MatchInv(s: State, i: nat, ack: int)
    requires Inv(s) && s.receiver == Listening && i < |s.p.recvq|
    requires ack > 0 ==> s.p.kios[s.p.recvq[i].kio].sequence == ack
    ensures Inv(DoMatch(s, i, ack))
  {
    MatchApart(s.p, Loose(s), i);
    MatchAllRest(s, i, ack);
    MatchPlaces(s.p, Loose(s), i, ack);
  }

  lemma UnsolicitedInv(s: State, made: KioId)
    requires Inv(s) && s.receiver == Listening && made !in s.p.kios
    ensures Inv(DoRespond(s, -1, made))
  {
    AdmitOk(s.p, Loose(s), made, Kio(New, -1, false, false, 0, None, Some(-1)));
    UnsolicitedRest(s, made);
  }

  lemma UnsolicitedRest(s: State, made: KioId)
    requires Named(s) && Rest(s) && s.receiver == Listening && made !in s.p.kios
    ensures var s' := DoRespond(s, -1, made);
      Named(s') && Rest(s') && Loose(s') == Loose(s) + multiset{made}
  {
    var s' := DoRespond(s, -1, made);
    NumbersFrame(s, s', 0);
    TimeoutsFrame(s, s', 0);
    SenderFrame(s, s', 0);
    OrderFrame(s, s', 0);
  }

  lemma RespondInv(s: State, ack: int, made: KioId)
    requires Inv(s) && Possible(s, Respond(ack, made))
    ensures Inv(DoRespond(s, ack, made))
  {
    hide Ok, Rest;
    if ack == -1 {
      UnsolicitedInv(s, made);
    } else {
      assert Named(s);
      hide Inv;
      var i: nat := if ack > 0 then FindSeq(s.p, s.p.recvq, ack) else |s.p.recvq| - 1;
      if i < |s.p.recvq| {
        MatchInv(s, i, ack);
      }
    }
  }

  // --- the sender thread ---

  lemma TakePlaces(p: Places, loose: multiset<KioId>, a: int)
    requires Ok(p, loose) && p.sendq != []
    ensures p.sendq[0].kio in p.kios
    ensures var k := p.sendq[0].kio;
      var p1 := Drop(p, SendQ, 0);
      Ok(p1.(kios := p1.kios[k := p1.kios[k].(sequence := a)]), loose + multiset{k})
  {
    assert Queue(p, SendQ) == p.sendq;
    DropOk(p, loose, SendQ, 0);
    var k := p.sendq[0].kio;
    var p1 := Drop(p, SendQ, 0);
    TouchOk(p1, loose + multiset{k}, k, p1.kios[k].(sequence := a));
  }

  lemma FrontApart(p: Places, loose: multiset<KioId>)
    requires Ok(p, loose) && p.sendq != []
    ensures p.sendq[0].kio in p.kios && p.sendq[0].id < p.nextCell
    ensures forall j :: 1 <= j < |p.sendq| ==> p.sendq[j].kio != p.sendq[0].kio && p.sendq[0].id < p.sendq[j].id
    ensures forall j :: 0 <= j < |p.recvq| ==> p.recvq[j].kio != p.sendq[0].kio
  {
    assert Queue(p, SendQ) == p.sendq && Queue(p, RecvQ) == p.recvq;
    QueuedIsNowhereElse(p, loose, SendQ, 0);
  }

  // A kio is numbered once.
  lemma FrontIsUnnumbered(s: State)
    requires OrderOk(s) && s.p.sendq != []
    ensures forall i :: 0 <= i < |s.taken| ==> s.taken[i].kio != s.p.sendq[0].kio
  {
    var c := s.p.sendq[0];
    forall i | 0 <= i < |s.taken| ensures s.taken[i].kio != c.kio {
      assert s.taken[i].id < c.id;
      assert s.taken[i] in s.accepted && c in s.accepted;
    }
  }

  lemma TakeNamed(s: State)
    requires Named(s) && s.p.sendq != [] && s.sender == Waiting
    ensures Named(DoTake(s)) && Loose(DoTake(s)) == Loose(s) + multiset{s.p.sendq[0].kio}
  {
    assert DoTake(s).p.sendq == s.p.sendq[1..];
  }

  lemma TakeOrder(s: State, s': State)
    requires OrderOk(s) && s.p.sendq != []
    requires s.p.sendq[0].id < s.p.nextCell
    requires forall j :: 1 <= j < |s.p.sendq| ==> s.p.sendq[0].id < s.p.sendq[j].id
    requires s'.accepted == s.accepted && s'.taken == s.taken + [s.p.sendq[0]] && s'.p.sendq == s.p.sendq[1..]
    requires s'.p.nextCell == s.p.nextCell && s'.p.kios.Keys == s.p.kios.Keys
    ensures OrderOk(s')
  {
    assert Ascending(s'.taken, s'.p.nextCell);
  }

  lemma TakeLosesNone(s: State)
    requires Named(s) && NoneLost(s) && s.p.sendq != []
    ensures NoneLost(DoTake(s))
  {
    var s' := DoTake(s);
    assert s'.p.sendq == s.p.sendq[1..];
    assert s'.taken + s'.p.sendq == s.taken + s.p.sendq;
  }

  lemma StillTaken(taken: seq<Cell>, c: Cell, k: KioId)
    requires WasTaken(taken, k)
    ensures WasTaken(taken + [c], k)
  {
    var i :| 0 <= i < |taken| && taken[i].kio == k;
    assert (taken + [c])[i].kio == k;
  }

  lemma TakeNumbers(s: State)
    requires Named(s) && NumbersOk(s) && s.p.sendq != []
    requires forall j :: 0 <= j < |s.p.recvq| ==> s.p.recvq[j].kio != s.p.sendq[0].kio
    requires forall i :: 0 <= i < |s.taken| ==> s.taken[i].kio != s.p.sendq[0].kio
    requires Named(DoTake(s))
    ensures NumbersOk(DoTake(s))
  {
    forall i | 0 <= i < |s.p.recvq| ensures WasTaken(DoTake(s).taken, s.p.recvq[i].kio) {
      StillTaken(s.taken, s.p.sendq[0], s.p.recvq[i].kio);
    }
  }

  lemma TakeAnswers(s: State)
    requires Named(s) && AnswersOk(s) && s.p.sendq != []
    requires Named(DoTake(s))
    ensures AnswersOk(DoTake(s))
  {
    var s' := DoTake(s);
    assert s'.p.sendq == s.p.sendq[1..];
    assert s.p.kios[s.p.sendq[0].kio].answer == None;
    forall k | k in s.p.kios && WasTaken(s.taken, k) ensures WasTaken(s'.taken, k) {
      StillTaken(s.taken, s.p.sendq[0], k);
    }
  }

  lemma TakeInv(s: State)
    requires Inv(s) && s.sender == Waiting && s.p.sendq != []
    ensures Inv(DoTake(s))
  {
    TakePlaces(s.p, Loose(s), s.nextSeq);
    TakeRest(s);
  }

  lemma TakeRest(s: State)
    requires Inv(s) && s.sender == Waiting && s.p.sendq != []
    ensures Named(DoTake(s)) && Rest(DoTake(s))
    ensures Loose(DoTake(s)) == Loose(s) + multiset{s.p.sendq[0].kio}
  {
    FrontApart(s.p, Loose(s));
    FrontIsUnnumbered(s);
    TakeNamed(s);
    TakeOrder(s, DoTake(s));
    TakeLosesNone(s);
    TakeNumbers(s);
    TakeAnswers(s);
    TakeSender(s);
    hide Ok, SenderOk, OrderOk, NoneLost, NumbersOk, AnswersOk, TimeoutsOk;
  }

  lemma TakeSender(s: State)
    requires Named(s) && SenderOk(s) && TimeoutsOk(s) && s.sender == Waiting && s.p.sendq != []
    requires forall j :: 1 <= j < |s.p.sendq| ==> s.p.sendq[j].kio != s.p.sendq[0].kio
    requires Named(DoTake(s))
    ensures SenderOk(DoTake(s)) && TimeoutsOk(DoTake(s))
    ensures Loose(DoTake(s)) == Loose(s) + multiset{s.p.sendq[0].kio}
  {
    assert DoTake(s).p.sendq == s.p.sendq[1..];
    assert DoTake(s).taken[..|s.taken|] == s.taken;
  }

  lemma LooseApart(p: Places, loose: multiset<KioId>, k: KioId)
    requires Ok(p, loose) && k in loose
    ensures forall j :: 0 <= j < |p.recvq| ==> p.recvq[j].kio != k
  {
    assert Queue(p, RecvQ) == p.recvq;
    LooseIsNowhereElse(p, loose, k);
  }

  // Only the last kio taken has the last number.
  lemma NumberOf(s: State, k: KioId)
    requires Named(s) && NumbersOk(s) && WasTaken(s.taken, k)
    ensures k in s.p.kios && FIRST_SEQUENCE <= s.p.kios[k].sequence < s.nextSeq
    ensures s.taken[s.p.kios[k].sequence - FIRST_SEQUENCE].kio == k
  {
  }

  // The newest number goes to the rear of the receive queue.
  lemma AppendNumbers(s: State, s': State, c: Cell)
    requires Named(s) && Named(s') && NumbersOk(s)
    requires s'.taken == s.taken && s'.nextSeq == s.nextSeq && Keeps(s.p, s'.p)
    requires s'.p.recvq == s.p.recvq + [c]
    requires s.taken != [] && s.taken[|s.taken| - 1].kio == c.kio
    requires forall j :: 0 <= j < |s.p.recvq| ==> s.p.recvq[j].kio != c.kio
    ensures NumbersOk(s')
  {
    assert WasTaken(s.taken, c.kio);
    forall i | 0 <= i < |s.p.recvq|
      ensures s.p.kios[s.p.recvq[i].kio].sequence < s.p.kios[c.kio].sequence
    {
      NumberOf(s, s.p.recvq[i].kio);
    }
  }

  lemma EnqueueNumbers(s: State)
    requires Named(s) && NumbersOk(s) && SenderOk(s) && s.sender.Taken? && !s.p.kios[s.sender.kio].reqOnly
    requires forall j :: 0 <= j < |s.p.recvq| ==> s.p.recvq[j].kio != s.sender.kio
    requires Named(DoEnqueue(s))
    ensures NumbersOk(DoEnqueue(s))
  {
    AppendNumbers(s, DoEnqueue(s), Cell(s.p.nextCell, s.sender.kio));
  }

  lemma EnqueueTimeouts(s: State)
    requires Named(s) && TimeoutsOk(s) && s.sender.Taken?
    requires forall j :: 0 <= j < |s.p.recvq| ==> s.p.recvq[j].kio != s.sender.kio
    requires Named(DoEnqueue(s))
    ensures TimeoutsOk(DoEnqueue(s))
  {
  }

  lemma EnqueueAnswers(s: State)
    requires Named(s) && AnswersOk(s) && s.sender.Taken?
    ensures Named(DoEnqueue(s)) && AnswersOk(DoEnqueue(s))
  {
  }

  lemma EnqueueSender(s: State)
    requires Named(s) && SenderOk(s) && s.sender.Taken? && Named(DoEnqueue(s))
    ensures SenderOk(DoEnqueue(s))
    ensures s.p.kios[s.sender.kio].reqOnly ==> Loose(DoEnqueue(s)) == Loose(s)
    ensures !s.p.kios[s.sender.kio].reqOnly ==> Loose(DoEnqueue(s)) == Loose(s) - multiset{s.sender.kio}
  {
  }

  lemma EnqueueRest(s: State)
    requires Named(s) && Rest(s) && s.sender.Taken?
    requires forall j :: 0 <= j < |s.p.recvq| ==> s.p.recvq[j].kio != s.sender.kio
    ensures Named(DoEnqueue(s)) && Rest(DoEnqueue(s))
    ensures s.p.kios[s.sender.kio].reqOnly ==> Loose(DoEnqueue(s)) == Loose(s)
    ensures !s.p.kios[s.sender.kio].reqOnly ==> Loose(DoEnqueue(s)) == Loose(s) - multiset{s.sender.kio}
  {
    var s' := DoEnqueue(s);
    EnqueueAnswers(s);
    EnqueueSender(s);
    hide SenderOk, OrderOk, AnswersOk, TimeoutsOk, Loose;
    if !s.p.kios[s.sender.kio].reqOnly {
      EnqueueNumbers(s);
    }
    EnqueueTimeouts(s);
    OrderFrame(s, s', 0);
    hide NumbersOk;
  }

  lemma EnqueueInv(s: State)
    requires Inv(s) && s.sender.Taken?
    ensures Inv(DoEnqueue(s))
  {
    var k := s.sender.kio;
    LooseApart(s.p, Loose(s), k);
    EnqueueRest(s);
    if !s.p.kios[k].reqOnly {
      PushOk(s.p, Loose(s), RecvQ, k, s.p.kios[k].state);
    }
  }

  lemma StampRest(s: State)
    requires Named(s) && Rest(s) && s.sender.Enqueued?
    ensures Named(DoStamp(s)) && Rest(DoStamp(s)) && Loose(DoStamp(s)) == Loose(s)
  {
    StampNamed(s);
    StampNumbers(s);
    StampTimeouts(s);
    hide SenderOk, OrderOk, NumbersOk, AnswersOk, TimeoutsOk;
  }

  lemma StampNamed(s: State)
    requires Named(s) && SenderOk(s) && OrderOk(s) && s.sender.Enqueued?
    ensures Named(DoStamp(s)) && SenderOk(DoStamp(s)) && OrderOk(DoStamp(s)) && Loose(DoStamp(s)) == Loose(s)
  {
  }

  lemma StampNumbers(s: State)
    requires Named(s) && NumbersOk(s) && AnswersOk(s) && s.sender.Enqueued? && Named(DoStamp(s))
    ensures NumbersOk(DoStamp(s)) && AnswersOk(DoStamp(s))
  {
  }

  lemma StampTimeouts(s: State)
    requires Named(s) && NumbersOk(s) && TimeoutsOk(s) && s.sender.Enqueued? && Named(DoStamp(s))
    ensures TimeoutsOk(DoStamp(s))
  {
  }

  lemma StampPlaces(p: Places, loose: multiset<KioId>, k: KioId, t: int)
    requires Ok(p, loose) && k in p.kios
    ensures Ok(p.(kios := p.kios[k := p.kios[k].(timeout := t)]), loose)
  {
    TouchOk(p, loose, k, p.kios[k].(timeout := t));
  }

  lemma StampInv(s: State)
    requires Inv(s) && s.sender.Enqueued?
    ensures Inv(DoStamp(s))
  {
    hide Rest;
    StampRest(s);
    StampPlaces(s.p, Loose(s), s.sender.kio, s.clock + KIO_TIMEOUT_S);
    var kio := s.p.kios[s.sender.kio].(timeout := s.clock + KIO_TIMEOUT_S);
    assert DoStamp(s).p == s.p.(kios := s.p.kios[s.sender.kio := kio]);
  }

  lemma DriverSendSender(s: State, ok: bool)
    requires Named(s) && SenderOk(s) && s.sender.Sending?
    ensures Named(DoDriverSend(s, ok)) && SenderOk(DoDriverSend(s, ok)) && Loose(DoDriverSend(s, ok)) == Loose(s)
  {
    assert s.taken == s.taken[..|s.taken| - 1] + [s.taken[|s.taken| - 1]];
  }

  lemma DriverSendRest(s: State, ok: bool)
    requires Named(s) && Rest(s) && s.sender.Sending?
    ensures Named(DoDriverSend(s, ok)) && Rest(DoDriverSend(s, ok)) && Loose(DoDriverSend(s, ok)) == Loose(s)
  {
    hide SenderOk, OrderOk, NumbersOk, AnswersOk, TimeoutsOk;
    var s' := DoDriverSend(s, ok);
    DriverSendSender(s, ok);
    NumbersFrame(s, s', 0);
    TimeoutsFrame(s, s', 0);
    AnswersFrame(s, s', 0, 0);
    OrderFrame(s, s', 0);
  }

  lemma DriverSendInv(s: State, ok: bool)
    requires Inv(s) && s.sender.Sending?
    ensures Inv(DoDriverSend(s, ok))
  {
    var k := s.sender.kio;
    var st := if s.p.kios[k].state == New then Sent else s.p.kios[k].state;
    TouchOk(s.p, Loose(s), k, s.p.kios[k].(state := st));
    DriverSendRest(s, ok);
  }

  // A back pointer into the receive queue leads to the kio's own cell.
  lemma OwnCell(p: Places, loose: multiset<KioId>, k: KioId, i: nat)
    requires Ok(p, loose) && k in p.kios && i < |p.recvq|
    requires i == Address(p.recvq, RecvQ, p.kios[k].qbp)
    ensures p.recvq[i].kio == k
  {
    OwnPlace(p, loose, k);
    assert Queue(p, RecvQ) == p.recvq;
  }

  lemma PullPlaces(p: Places, loose: multiset<KioId>, k: KioId, i: nat)
    requires Ok(p, loose) && k in p.kios && i < |p.recvq|
    requires i == Address(p.recvq, RecvQ, p.kios[k].qbp)
    ensures Ok(p.(recvq := Without(p.recvq, i), kios := p.kios[k := p.kios[k].(qbp := None)]), loose + multiset{k})
  {
    OwnCell(p, loose, k, i);
    assert Queue(p, RecvQ) == p.recvq;
    DropOk(p, loose, RecvQ, i);
    assert Drop(p, RecvQ, i) == p.(recvq := Without(p.recvq, i), kios := p.kios[k := p.kios[k].(qbp := None)]);
  }

  lemma PullRest(s: State)
    requires Named(s) && Rest(s) && s.sender.Returned? && !s.p.kios[s.sender.kio].reqOnly
    requires Address(s.p.recvq, RecvQ, s.p.kios[s.sender.kio].qbp) < |s.p.recvq|
    ensures Named(DoPull(s)) && Rest(DoPull(s))
    ensures Loose(DoPull(s)) == Loose(s) + multiset{s.sender.kio}
  {
    var s' := DoPull(s);
    var i := Address(s.p.recvq, RecvQ, s.p.kios[s.sender.kio].qbp);
    PullNamed(s);
    PullShrinks(s);
    hide SenderOk, OrderOk, NumbersOk, AnswersOk, TimeoutsOk, Keeps, Shrinks, DoPull, Loose;
    NumbersFrame(s, s', i);
    TimeoutsFrame(s, s', i);
    AnswersFrame(s, s', i, 0);
    OrderFrame(s, s', 0);
  }

  lemma PullShrinks(s: State)
    requires Named(s) && s.sender.Returned? && !s.p.kios[s.sender.kio].reqOnly
    requires Address(s.p.recvq, RecvQ, s.p.kios[s.sender.kio].qbp) < |s.p.recvq|
    ensures var s' := DoPull(s);
      && s' == s.(p := s'.p, sender := s'.sender) && s'.sender.Finishing?
      && s'.p.kios.Keys == s.p.kios.Keys && s'.p.nextCell == s.p.nextCell && s'.p.sendq == s.p.sendq
      && Shrinks(s.p.recvq, s'.p.recvq, Address(s.p.recvq, RecvQ, s.p.kios[s.sender.kio].qbp))
      && Shrinks(s.p.sendq, s'.p.sendq, 0)
  {
  }

  lemma PullNamed(s: State)
    requires Named(s) && SenderOk(s) && s.sender.Returned? && !s.p.kios[s.sender.kio].reqOnly
    requires Address(s.p.recvq, RecvQ, s.p.kios[s.sender.kio].qbp) < |s.p.recvq|
    ensures Named(DoPull(s)) && SenderOk(DoPull(s)) && Keeps(s.p, DoPull(s).p)
    ensures Loose(DoPull(s)) == Loose(s) + multiset{s.sender.kio}
    ensures forall k :: k in s.p.kios ==> DoPull(s).p.kios[k].state == s.p.kios[k].state
  {
    ShrinksAt(s.p.recvq, DoPull(s).p.recvq, Address(s.p.recvq, RecvQ, s.p.kios[s.sender.kio].qbp));
  }

  lemma PullInv(s: State)
    requires Inv(s) && s.sender.Returned? && Safe(s, Pull)
    ensures Inv(DoPull(s))
  {
    if s.p.kios[s.sender.kio].reqOnly {
      PullReqOnly(s);
    } else {
      PullRest(s);
      PullPlaces(s.p, Loose(s), s.sender.kio, Address(s.p.recvq, RecvQ, s.p.kios[s.sender.kio].qbp));
    }
  }

  lemma PullReqOnly(s: State)
    requires Named(s) && Rest(s) && s.sender.Returned? && s.p.kios[s.sender.kio].reqOnly
    ensures Named(DoPull(s)) && Rest(DoPull(s)) && Loose(DoPull(s)) == Loose(s) && DoPull(s).p == s.p
  {
  }

  lemma FinishRest(s: State)
    requires Named(s) && Rest(s) && s.sender.Finishing?
    ensures Named(DoFinish(s)) && Rest(DoFinish(s)) && Loose(DoFinish(s)) == Loose(s) - multiset{s.sender.kio}
  {
    var s' := DoFinish(s);
    PushShape(s.p, CompQ, s.sender.kio, s.sender.outcome);
    NumbersFrame(s, s', 0);
    TimeoutsFrame(s, s', 0);
    AnswersFrame(s, s', 0, 0);
    OrderFrame(s, s', 0);
  }

  lemma PushShape(p: Places, name: QueueName, k: KioId, st: KioState)
    requires QueuesNamed(p) && k in p.kios
    ensures var p' := Push(p, name, k, st);
      QueuesNamed(p') && Keeps(p, p') && p'.kios.Keys == p.kios.Keys
  {
    var p' := Push(p, name, k, st);
    assert forall n :: Queue(p', n) == if n == name then Queue(p, n) + [Cell(p.nextCell, k)] else Queue(p, n);
    assert Queue(p', SendQ) == p'.sendq && Queue(p', RecvQ) == p'.recvq && Queue(p', CompQ) == p'.compq;
  }

  lemma FinishInv(s: State)
    requires Inv(s) && s.sender.Finishing?
    ensures Inv(DoFinish(s))
  {
    hide OrderOk, NoneLost, NumbersOk, AnswersOk, TimeoutsOk, QueueOk, OnePlace;
    FinishRest(s);
    hide Rest;
    PushOk(s.p, Loose(s), CompQ, s.sender.kio, s.sender.outcome);
  }

  // --- API callers ---

  lemma SubmitPlaces(p: Places, loose: multiset<KioId>, k: KioId, kio: Kio)
    requires Ok(p, loose) && k !in p.kios && kio.qbp == None && kio.state == New
    ensures Ok(Push(Admit(p, k, kio), SendQ, k, New), loose)
  {
    AdmitOk(p, loose, k, kio);
    PushOk(Admit(p, k, kio), loose + multiset{k}, SendQ, k, New);
    assert loose + multiset{k} - multiset{k} == loose;
  }

  lemma SubmitShape(s: State, k: KioId, reqOnly: bool, oldTimeout: int)
    requires Named(s) && k !in s.p.kios
    ensures var s' := DoSubmit(s, k, reqOnly, oldTimeout);
      && Named(s') && Loose(s') == Loose(s) && Keeps(s.p, s'.p)
      && s'.p.kios.Keys == s.p.kios.Keys + {k} && s'.p.kios[k].answer == None
      && s'.p.sendq == s.p.sendq + [Cell(s.p.nextCell, k)] && s'.p.recvq == s.p.recvq
      && s'.p.nextCell == s.p.nextCell + 1
      && (forall j :: j in s.p.kios ==> s'.p.kios[j].state == s.p.kios[j].state)
      && s'.p.kios[k].state == New
  {
    var s' := DoSubmit(s, k, reqOnly, oldTimeout);
    assert s'.p.sendq == s.p.sendq + [Cell(s.p.nextCell, k)];
  }

  lemma SubmitOrder(s: State, s': State, k: KioId)
    requires OrderOk(s) && NoneLost(s) && k !in s.p.kios
    requires s'.accepted == s.accepted + [Cell(s.p.nextCell, k)] && s'.taken == s.taken
    requires s'.p.sendq == s.p.sendq + [Cell(s.p.nextCell, k)] && s'.p.nextCell == s.p.nextCell + 1
    requires s'.p.kios.Keys == s.p.kios.Keys + {k} && s'.unsentDrained == s.unsentDrained
    ensures OrderOk(s') && NoneLost(s')
  {
    assert s.taken + (s.p.sendq + [Cell(s.p.nextCell, k)]) == (s.taken + s.p.sendq) + [Cell(s.p.nextCell, k)];
    assert forall c :: c in s.accepted ==> c in s'.accepted;
    assert s'.accepted[|s.accepted|] == Cell(s.p.nextCell, k);
  }

  lemma SubmitAnswers(s: State, s': State, k: KioId)
    requires Named(s) && Named(s') && AnswersOk(s) && k !in s.p.kios
    requires Keeps(s.p, s'.p) && s'.p.kios.Keys == s.p.kios.Keys + {k} && s'.p.kios[k].answer == None
    requires s'.p.sendq == s.p.sendq + [Cell(s.p.nextCell, k)] && s'.p.recvq == s.p.recvq
    requires s'.sender == s.sender && s'.taken == s.taken
    requires forall j :: j in s.p.kios ==> s'.p.kios[j].state == s.p.kios[j].state
    ensures AnswersOk(s')
  {
  }

  lemma SubmitSender(s: State, s': State, k: KioId)
    requires Named(s) && Named(s') && SenderOk(s) && k !in s.p.kios
    requires Keeps(s.p, s'.p) && s'.p.sendq == s.p.sendq + [Cell(s.p.nextCell, k)]
    requires s'.sender == s.sender && s'.taken == s.taken && s'.wire == s.wire
    ensures SenderOk(s')
  {
  }

  lemma SubmitRest(s: State, k: KioId, reqOnly: bool, oldTimeout: int)
    requires Named(s) && Rest(s) && k !in s.p.kios
    ensures var s' := DoSubmit(s, k, reqOnly, oldTimeout); Named(s') && Rest(s') && Loose(s') == Loose(s)
  {
    hide SenderOk, OrderOk, NoneLost, NumbersOk, AnswersOk, TimeoutsOk;
    var s' := DoSubmit(s, k, reqOnly, oldTimeout);
    SubmitShape(s, k, reqOnly, oldTimeout);
    SubmitOrder(s, s', k);
    SubmitAnswers(s, s', k);
    SubmitSender(s, s', k);
    NumbersFrame(s, s', 0);
    TimeoutsFrame(s, s', 0);
  }

  lemma SubmitInv(s: State, k: KioId, reqOnly: bool, oldTimeout: int)
    requires Inv(s) && k !in s.p.kios
    ensures Inv(DoSubmit(s, k, reqOnly, oldTimeout))
  {
    hide Rest, QueueOk, OnePlace;
    SubmitPlaces(s.p, Loose(s), k, Kio(New, 0, reqOnly, true, oldTimeout, None, None));
    SubmitRest(s, k, reqOnly, oldTimeout);
  }

  lemma HandBackShape(p: Places, name: QueueName, i: nat, st: KioState)
    requires QueuesNamed(p) && i < |Queue(p, name)|
    ensures Queue(p, name)[i].kio in p.kios
    ensures var k := Queue(p, name)[i].kio;
      var p' := HandBack(Drop(p, name, i), k, st);
      && QueuesNamed(p') && Keeps(p, p') && p'.kios.Keys == p.kios.Keys
      && (forall n :: Queue(p', n) == if n == name then Without(Queue(p, n), i) else Queue(p, n))
      && (forall j :: j in p.kios && j != k ==> p'.kios[j].state == p.kios[j].state)
      && p'.kios[k].state == st
  {
    var p' := HandBack(Drop(p, name, i), Queue(p, name)[i].kio, st);
    assert forall n :: Queue(p', n) == if n == name then Without(Queue(p, n), i) else Queue(p, n);
    assert Queue(p', SendQ) == p'.sendq && Queue(p', RecvQ) == p'.recvq && Queue(p', CompQ) == p'.compq;
  }

  // A kio leaves a queue for its caller: a receive, a drain or an unsolicited receive.
  lemma HandBackRest(s: State, s': State, name: QueueName, i: nat, st: KioState)
    requires Named(s) && Rest(s) && i < |Queue(s.p, name)| && Queue(s.p, name)[i].kio in s.p.kios
    requires st == TimedOut ==> s.p.kios[Queue(s.p, name)[i].kio].state == TimedOut
    requires s' == s.(p := HandBack(Drop(s.p, name, i), Queue(s.p, name)[i].kio, st), unsentDrained := s'.unsentDrained)
    requires s'.unsentDrained == 0 ==> s.unsentDrained == 0 && name != SendQ
    ensures Named(s') && Rest(s') && Loose(s') == Loose(s)
  {
    hide Rest, Keeps, Shrinks;
    HandBackShrinks(s.p, name, i, st);
    MoveRest(s, s', i, i);
  }

  lemma HandBackShrinks(p: Places, name: QueueName, i: nat, st: KioState)
    requires QueuesNamed(p) && i < |Queue(p, name)| && Queue(p, name)[i].kio in p.kios
    requires st == TimedOut ==> p.kios[Queue(p, name)[i].kio].state == TimedOut
    ensures var p' := HandBack(Drop(p, name, i), Queue(p, name)[i].kio, st);
      && QueuesNamed(p') && Keeps(p, p') && p'.kios.Keys == p.kios.Keys && p'.nextCell == p.nextCell
      && Shrinks(p.recvq, p'.recvq, i) && Shrinks(p.sendq, p'.sendq, i) && (name != SendQ ==> p'.sendq == p.sendq)
      && (forall k :: k in p.kios && p'.kios[k].state == TimedOut ==> p.kios[k].state == TimedOut)
  {
    HandBackShape(p, name, i, st);
    var p' := HandBack(Drop(p, name, i), Queue(p, name)[i].kio, st);
    assert Queue(p', RecvQ) == p'.recvq && Queue(p', SendQ) == p'.sendq;
    assert Queue(p, RecvQ) == p.recvq && Queue(p, SendQ) == p.sendq;
  }

  lemma HandBackInv(s: State, s': State, name: QueueName, i: nat, st: KioState)
    requires Inv(s) && i < |Queue(s.p, name)| && Queue(s.p, name)[i].kio in s.p.kios
    requires Done(st) && (st == TimedOut ==> s.p.kios[Queue(s.p, name)[i].kio].state == TimedOut)
    requires s' == s.(p := HandBack(Drop(s.p, name, i), Queue(s.p, name)[i].kio, st), unsentDrained := s'.unsentDrained)
    requires s'.unsentDrained == 0 ==> s.unsentDrained == 0 && name != SendQ
    ensures Inv(s')
  {
    hide Rest, QueueOk, OnePlace;
    HandBackRest(s, s', name, i, st);
    HandBackOk(s.p, Loose(s), name, i, st);
  }

  // The asserts of ktli_receive hold: a finished kio not yet handed back sits in the completion
  // queue, in the cell its back pointer names.
  lemma FinishedIsOnCompq(p: Places, loose: multiset<KioId>, k: KioId)
    requires Ok(p, loose) && k in p.kios && k !in p.handedBack && Done(p.kios[k].state)
    ensures var i := Address(p.compq, CompQ, p.kios[k].qbp); i < |p.compq| && p.compq[i].kio == k
  {
    OwnPlace(p, loose, k);
    assert Queue(p, CompQ) == p.compq && Queue(p, SendQ) == p.sendq && Queue(p, RecvQ) == p.recvq;
  }

  lemma ReapInv(s: State, k: KioId)
    requires Inv(s) && k in s.p.kios && k !in s.p.handedBack
    ensures Inv(DoReap(s, k))
  {
    if Done(s.p.kios[k].state) {
      FinishedIsOnCompq(s.p, Loose(s), k);
      assert Queue(s.p, CompQ) == s.p.compq;
      HandBackInv(s, DoReap(s, k), CompQ, Address(s.p.compq, CompQ, s.p.kios[k].qbp), s.p.kios[k].state);
    }
  }

  lemma ReapUnsolicitedInv(s: State)
    requires Inv(s)
    ensures Inv(DoReapUnsolicited(s))
  {
    var i := FindUnsolicited(s.p, s.p.compq);
    if i < |s.p.compq| {
      assert Queue(s.p, CompQ) == s.p.compq;
      HandBackInv(s, DoReapUnsolicited(s), CompQ, i, s.p.kios[s.p.compq[i].kio].state);
    }
  }

  lemma DrainAtInv(s: State, n: QueueName, i: nat)
    requires Inv(s) && i < |Queue(s.p, n)|
    ensures Queue(s.p, n)[i].kio in s.p.kios
    ensures Inv(DrainAt(s, n, i))
  {
    QueuedIsNowhereElse(s.p, Loose(s), n, i);
    HandBackInv(s, DrainAt(s, n, i), n, i, Failed);
  }

  // Steps that only move the session, the receiver or the clock.
  lemma QuietInv(s: State, s': State)
    requires Inv(s)
    requires s' == s.(session := s'.session, receiver := s'.receiver, clock := s'.clock)
    requires s.clock <= s'.clock
    requires ReceiverHand(s') == ReceiverHand(s) && (s'.receiver.Holding? ==> s'.receiver == s.receiver)
    ensures Inv(s')
  {
    QuietRest(s, s');
    hide Rest, QueueOk, OnePlace;
  }

  lemma QuietRest(s: State, s': State)
    requires Named(s) && Rest(s)
    requires s' == s.(session := s'.session, receiver := s'.receiver, clock := s'.clock)
    requires s.clock <= s'.clock && (s'.receiver.Holding? ==> s'.receiver == s.receiver)
    ensures Named(s') && Rest(s')
  {
  }

  // Every step keeps the invariant.
  lemma StepInv(s: State, step: Step)
    requires Inv(s) && Enabled(s, step) && Safe(s, step)
    ensures Inv(Do(s, step))
  {
    hide Rest, Ok;
    match step
    case Submit(k, reqOnly, oldTimeout) => SubmitInv(s, k, reqOnly, oldTimeout);
    case Reap(k) => ReapInv(s, k);
    case ReapUnsolicited => ReapUnsolicitedInv(s);
    case DrainFront(n) => DrainAtInv(s, n, 0);
    case DrainMatch(k, n) =>
      if FindKio(Queue(s.p, n), k) < |Queue(s.p, n)| {
        DrainAtInv(s, n, FindKio(Queue(s.p, n), k));
      }
    case SetSession(st) => QuietInv(s, Do(s, step));
    case Take => TakeInv(s);
    case Enqueue => EnqueueInv(s);
    case Stamp => StampInv(s);
    case DriverSend(ok) => DriverSendInv(s, ok);
    case Pull => PullInv(s);
    case Finish => FinishInv(s);
    case Respond(ack, made) => RespondInv(s, ack, made);
    case Deliver => DeliverInv(s);
    case Expire(i, now) => MoveToCompInv(s, i, TimedOut);
    case HangUp => QuietInv(s, Do(s, step));
    case HangUpDisconnect(ok) => QuietInv(s, Do(s, step));
    case Tick(t) => QuietInv(s, Do(s, step));
  }
}
