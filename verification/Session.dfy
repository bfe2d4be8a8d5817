/**
 The KTLI session as its callers see it: one object whose queues, kios and state the API functions
 and the two threads update in place. Each method changes the session as one step of the transition
 system does (or as a chain of steps made under one lock), and the lemmas at the end say what that
 amounts to for draining, closing and timing out.
 */
module Session {
  import opened Common
  import opened Places
  import opened Transport
  import opened TransportInvariant

  datatype Errno = ENOTCONN | EINVAL | ENOENT | EBADFD | EISCONN | ENOTEMPTY | EDRIVER | ETIMEDOUT | ENOMSG

  // What list_traverse answers.
  datatype Found = ListOk | ListExtent | ListEmpty

  // rc 0 with errno clear, rc 0 with errno set, rc -1, and a list_traverse code let through
  datatype Rc = Success | Warning(errno: Errno) | Failure(errno: Errno) | Unfound(code: Found)

  function Traverse(q: seq<Cell>, i: nat): Found {
    if q == [] then ListEmpty else if i < |q| then ListOk else ListExtent
  }

  // The queue ktli_drain takes from: completion queue first, then receive queue, then send queue.
  function DrainFrom(p: Places): Option<QueueName> {
    if p.compq != [] then Some(CompQ)
    else if p.recvq != [] then Some(RecvQ)
    else if p.sendq != [] then Some(SendQ)
    else None
  }

  function NextDrained(p: Places): Option<KioId> {
    match DrainFrom(p)
    case None => None
    case Some(n) => Some(Queue(p, n)[0].kio)
  }

  function Queued(p: Places): seq<KioId> {
    Names(p.compq) + Names(p.recvq) + Names(p.sendq)
  }

  ghost function DrainOne(s: State): State
    requires QueuesNamed(s.p)
  {
    match DrainFrom(s.p)
    case None => s.(session := Opened)
    case Some(n) => DrainAt(s, n, 0)
  }

  // One round of ktli_drain_match: the kio is taken out of this queue if it is there.
  ghost function MatchIn(s: State, n: QueueName, k: KioId): (s': State)
    requires QueuesNamed(s.p)
    ensures QueuesNamed(s'.p)
  {
    var i := FindKio(Queue(s.p, n), k);
    if i < |Queue(s.p, n)| then
      HandBackShape(s.p, n, i, Failed);
      DrainAt(s, n, i)
    else s
  }

  function OpenWhenEmpty(s: State): State {
    if s.p.compq == [] && s.p.recvq == [] && s.p.sendq == [] then s.(session := Opened) else s
  }

  // The search order of both drains.
  function Nth(i: int): QueueName {
    if i <= 0 then CompQ else if i == 1 then RecvQ else SendQ
  }

  ghost function MatchUpTo(s: State, k: KioId, rounds: nat): (s': State)
    requires QueuesNamed(s.p)
    ensures QueuesNamed(s'.p)
  {
    if rounds == 0 then s else MatchIn(MatchUpTo(s, k, rounds - 1), Nth(rounds - 1), k)
  }

  ghost function DrainMatched(s: State, k: KioId): (s': State)
    requires QueuesNamed(s.p)
    ensures QueuesNamed(s'.p)
  {
    OpenWhenEmpty(MatchUpTo(s, k, 3))
  }

  predicate Expired(p: Places, c: Cell, now: int)
    requires c.kio in p.kios
  {
    p.kios[c.kio].timeout < now
  }

  // The timeout scan from the cursor on. Taking the current element out leaves the cursor on the one
  // behind it.
  function ScanFrom(p: Places, i: nat, now: int): Places
    requires QueuesNamed(p) && i <= |p.recvq|
    decreases |p.recvq| - i
  {
    if i == |p.recvq| then p
    else if Expired(p, p.recvq[i], now) then
      MoveToCompShape(p, i, TimedOut);
      ScanFrom(MoveToComp(p, i, TimedOut), i, now)
    else ScanFrom(p, i + 1, now)
  }

  // The loops of the abort path: everything that waits fails.
  function FailAll(p: Places): Places
    requires QueuesNamed(p)
    decreases |p.recvq|
  {
    if p.recvq == [] then p
    else
      MoveToCompShape(p, 0, Failed);
      FailAll(MoveToComp(p, 0, Failed))
  }

  // What the asserts in ktli_receive check.
  predicate Collectable(s: State, k: KioId) {
    && k in s.p.kios
    && (Done(s.p.kios[k].state) ==>
          var i := Address(s.p.compq, CompQ, s.p.kios[k].qbp); i < |s.p.compq| && s.p.compq[i].kio == k)
  }

  // What ktli_receive does, field by field.
  function Reaped(s: State, k: KioId): State
    requires Collectable(s, k)
  {
    if !Done(s.p.kios[k].state) then s
    else s.(p := s.p.(compq := Without(s.p.compq, Address(s.p.compq, CompQ, s.p.kios[k].qbp)),
                      kios := s.p.kios[k := s.p.kios[k].(qbp := None)],
                      handedBack := s.p.handedBack + [k]))
  }

  // That is the Reap step, and it is possible for every kio its caller still waits for.
  lemma ReapedIsReap(s: State, k: KioId)
    requires Inv(s) && k in s.p.kios && k !in s.p.handedBack
    ensures Collectable(s, k) && Reaped(s, k) == DoReap(s, k) && Inv(Reaped(s, k))
  {
    ReapInv(s, k);
    if Done(s.p.kios[k].state) {
      FinishedIsOnCompq(s.p, Loose(s), k);
      ReapIs(s, k);
    }
  }

  lemma ReapIs(s: State, k: KioId)
    requires Named(s) && Collectable(s, k) && Done(s.p.kios[k].state)
    ensures DoReap(s, k) == Reaped(s, k)
  {
    assert DoReap(s, k).p.kios == Reaped(s, k).p.kios;
  }

  class Session {
    var session: SessionState
    var sendq: seq<Cell>
    var recvq: seq<Cell>
    var compq: seq<Cell>
    var kios: map<KioId, Kio>
    var nextCell: nat
    var nextSeq: int
    var lastCheck: int
    // where the threads stand, and the history
    ghost var rest: State

    ghost function View(): State
      reads this
    {
      rest.(session := session, nextSeq := nextSeq,
            p := Places(sendq, recvq, compq, kios, rest.p.handedBack, nextCell))
    }

    // ktli_open
    constructor ()
      ensures View() == INIT
      ensures session == Opened && sendq == recvq == compq == [] && kios == map[] && nextSeq == 100
    {
      session, sendq, recvq, compq, kios, nextCell, nextSeq := Opened, [], [], [], map[], 0, FIRST_SEQUENCE;
      lastCheck := 0;
      rest := INIT;
    }

    // ktli_connect
    method Connect(driverOk: bool) returns (rc: Rc)
      modifies this
      ensures old(session) != Opened ==> rc == Failure(EBADFD)
      ensures old(session) == Opened && !driverOk ==> rc == Failure(EDRIVER)
      ensures rc.Success? <==> old(session) == Opened && driverOk
      ensures View() == (if rc.Success? then old(View()).(session := Connected) else old(View()))
    {
      if session != Opened {
        return Failure(EBADFD);
      }
      if !driverOk {
        return Failure(EDRIVER);
      }
      session := Connected;
      return Success;
    }

    // ktli_disconnect
    method Disconnect(driverOk: bool) returns (rc: Rc)
      modifies this
      ensures old(session) != Connected && old(session) != Aborted ==> rc == Failure(ENOTCONN)
      ensures rc.Success? <==> (old(session) == Connected || old(session) == Aborted) && driverOk
      ensures View() == (if rc.Success? then old(View()).(session := Draining) else old(View()))
    {
      if session != Connected && session != Aborted {
        return Failure(ENOTCONN);
      }
      if !driverOk {
        return Failure(EDRIVER);
      }
      session := Draining;
      return Success;
    }

    // ktli_close
    method Close(driverOk: bool) returns (rc: Rc)
      modifies this
      ensures rc.Success? <==>
        old(session) == Unknown
        || (old(session) == Opened && old(sendq) == [] && old(recvq) == [] && old(compq) == [] && driverOk)
      ensures old(session) == Connected || old(session) == Aborted ==> rc == Failure(EISCONN)
      ensures old(session) == Draining ==> rc == Failure(EBADFD)
      ensures old(session) == Opened && (old(sendq) != [] || old(recvq) != [] || old(compq) != []) ==>
        rc == Failure(ENOTEMPTY)
      ensures View() == (if rc.Success? then old(View()).(session := Unknown) else old(View()))
    {
      match session
      case Unknown => return Success;
      case Connected => return Failure(EISCONN);
      case Aborted => return Failure(EISCONN);
      case Draining => return Failure(EBADFD);
      case Opened =>
        if |sendq| != 0 || |recvq| != 0 || |compq| != 0 {
          return Failure(ENOTEMPTY);
        }
        if !driverOk {
          return Failure(EDRIVER);
        }
        session := Unknown;
        return Success;
    }

    // ktli_send; the caller's kio comes in with its flags and whatever its timeout field held
    method Send(k: KioId, reqOnly: bool, oldTimeout: int, hasMessage: bool) returns (rc: Rc)
      requires k !in kios
      modifies this
      ensures rc == if old(session) != Connected then Failure(ENOTCONN)
                    else if !hasMessage then Failure(EINVAL) else Success
      ensures View() == if rc.Success? then DoSubmit(old(View()), k, reqOnly, oldTimeout) else old(View())
    {
      if session != Connected {
        return Failure(ENOTCONN);
      }
      if !hasMessage {
        return Failure(EINVAL);
      }
      rest := rest.(accepted := rest.accepted + [Cell(nextCell, k)]);
      sendq := sendq + [Cell(nextCell, k)];
      kios := kios[k := Kio(New, 0, reqOnly, true, oldTimeout, Some(CellRef(SendQ, nextCell)), None)];
      nextCell := nextCell + 1;
      assert kios == DoSubmit(old(View()), k, reqOnly, oldTimeout).p.kios;
      return Success;
    }

    // The part of ktli_receive that holds the completion queue.
    method Pop(k: KioId) returns (rc: Rc)
      requires Collectable(View(), k)
      modifies this
      ensures View() == Reaped(old(View()), k)
      ensures rc == match old(kios[k].state)
                    case Received => Success
                    case TimedOut => Warning(ETIMEDOUT)
                    case Failed => Warning(ENOMSG)
                    case _ => Failure(ENOENT)
    {
      var st := kios[k].state;
      if st == Received || st == TimedOut || st == Failed {
        var i := Address(compq, CompQ, kios[k].qbp);
        compq := Without(compq, i);
        kios := kios[k := kios[k].(qbp := None)];
        rest := rest.(p := rest.p.(handedBack := rest.p.handedBack + [k]));
        rc := if st == TimedOut then Warning(ETIMEDOUT) else if st == Failed then Warning(ENOMSG) else Success;
      } else {
        rc := Failure(ENOENT);
      }
    }

    // ktli_receive
    method Receive(k: KioId) returns (rc: Rc)
      requires Collectable(View(), k) && QueuesNamed(View().p)
      modifies this
      ensures old(session) != Connected && old(session) != Draining ==> rc == Failure(ENOTCONN) && View() == old(View())
      ensures old(session) == Draining ==>
        && View() == DrainMatched(old(View()), k)
        && rc == if old(sendq) == [] then Unfound(ListEmpty)
                 else if On(old(sendq), k) then Success else Unfound(ListExtent)
      ensures old(session) == Connected ==> View() == Reaped(old(View()), k)
      ensures old(session) == Connected ==>
        rc == match old(kios[k].state)
              case Received => Success
              case TimedOut => Warning(ETIMEDOUT)
              case Failed => Warning(ENOMSG)
              case _ => Failure(ENOENT)
    {
      if session != Connected && session != Draining {
        return Failure(ENOTCONN);
      }
      if session == Draining {
        var found := DrainMatch(k);
        return if found == ListOk then Success else Unfound(found);
      }
      rc := Pop(k);
    }

    // ktli_receive_unsolicited
    method ReceiveUnsolicited() returns (rc: Rc, k: Option<KioId>)
      requires Named(View())
      modifies this
      ensures old(session) != Connected && old(session) != Draining ==> rc == Failure(ENOTCONN) && View() == old(View())
      ensures old(session) == Connected || old(session) == Draining ==> View() == DoReapUnsolicited(old(View()))
      ensures rc == Success <==> k.Some?
      ensures old(session) == Connected || old(session) == Draining ==>
        && (k == None <==> forall i :: 0 <= i < |old(compq)| ==> old(kios)[old(compq)[i].kio].hasRequest)
        && (k == None ==> rc == Failure(ENOENT))
      ensures k.Some? ==>
        exists i :: 0 <= i < |old(compq)|
          && k.value == old(compq)[i].kio && !old(kios)[k.value].hasRequest
          && (forall j :: 0 <= j < i ==> old(kios)[old(compq)[j].kio].hasRequest)
          && compq == old(compq)[..i] + old(compq)[i + 1..]
      ensures k.Some? ==> rest.p.handedBack == old(rest.p.handedBack) + [k.value]
    {
      if session != Connected && session != Draining {
        return Failure(ENOTCONN), None;
      }
      ghost var s := View();
      var i := FindUnsolicited(Places(sendq, recvq, compq, kios, [], nextCell), compq);
      assert i == FindUnsolicited(s.p, compq);
      if i == |compq| {
        return Failure(ENOENT), None;
      }
      k := Some(compq[i].kio);
      compq := Without(compq, i);
      kios := kios[k.value := kios[k.value].(qbp := None)];
      rest := rest.(p := rest.p.(handedBack := rest.p.handedBack + [k.value]));
      assert kios == DoReapUnsolicited(s).p.kios;
      rc := Success;
    }

    // The i-th kio of a queue leaves for the caller: off the list, back pointer cleared, FAILED.
    method TakeOff(n: QueueName, i: nat) returns (k: KioId)
      requires i < |Queue(View().p, n)| && Queue(View().p, n)[i].kio in kios
      modifies this
      ensures k == old(Queue(View().p, n)[i].kio)
      ensures View() == DrainAt(old(View()), n, i)
      ensures n != SendQ ==> sendq == old(sendq)
      ensures n != RecvQ ==> recvq == old(recvq)
      ensures n != CompQ ==> compq == old(compq)
    {
      match n {
        case CompQ =>
          k := compq[i].kio;
          compq := Without(compq, i);
        case RecvQ =>
          k := recvq[i].kio;
          recvq := Without(recvq, i);
        case SendQ =>
          k := sendq[i].kio;
          sendq := Without(sendq, i);
      }
      kios := kios[k := kios[k].(qbp := None)];
      kios := kios[k := kios[k].(state := Failed)];
      rest := rest.(p := rest.p.(handedBack := rest.p.handedBack + [k]),
                    unsentDrained := rest.unsentDrained + if n == SendQ then 1 else 0);
    }

    // ktli_drain
    method Drain() returns (rc: int, k: Option<KioId>)
      requires QueuesNamed(View().p)
      modifies this
      ensures old(session) != Draining ==> rc == -1 && k == None && View() == old(View())
      ensures old(session) == Draining ==> View() == DrainOne(old(View()))
      ensures old(session) == Draining ==> k == NextDrained(old(View()).p)
      ensures old(session) == Draining ==> rc == if k == None then 0 else 1
    {
      if session != Draining {
        return -1, None;
      }
      rc, k := 0, None;
      var i := 0;
      while i < 3 && k == None
        invariant 0 <= i <= 3
        invariant k == None ==> rc == 0 && View() == old(View())
        invariant k == None && 1 <= i ==> compq == []
        invariant k == None && 2 <= i ==> recvq == []
        invariant k == None && 3 <= i ==> sendq == []
        invariant k != None ==> rc == 1 && View() == DrainOne(old(View()))
        invariant k != None ==> k == NextDrained(old(View()).p)
      {
        var n := if i == 0 then CompQ else if i == 1 then RecvQ else SendQ;
        if (if n == CompQ then |compq| else if n == RecvQ then |recvq| else |sendq|) != 0 {
          var kio := TakeOff(n, 0);
          rc, k := 1, Some(kio);
        }
        i := i + 1;
      }
      if k == None {
        session := Opened;
      }
    }

    // ktli_drain_match; the answer is what the last of its three searches said
    method DrainMatch(k: KioId) returns (rc: Found)
      requires session == Draining && QueuesNamed(View().p)
      modifies this
      ensures View() == DrainMatched(old(View()), k)
      ensures rc == if old(sendq) == [] then ListEmpty else if On(old(sendq), k) then ListOk else ListExtent
    {
      hide DrainAt;
      ghost var s := View();
      var left := 0;
      rc := ListEmpty;
      for round := 0 to 3
        invariant View() == MatchUpTo(s, k, round)
        invariant round <= 2 ==> sendq == s.p.sendq
        invariant round == 3 ==>
          rc == if s.p.sendq == [] then ListEmpty else if On(s.p.sendq, k) then ListOk else ListExtent
        invariant left == (if 1 <= round then |compq| else 0) + (if 2 <= round then |recvq| else 0)
                          + (if 3 <= round then |sendq| else 0)
      {
        var n := Nth(round);
        var q := if n == CompQ then compq else if n == RecvQ then recvq else sendq;
        assert q == Queue(View().p, n);
        var i := FindKio(q, k);
        rc := Traverse(q, i);
        if rc == ListOk {
          var _ := TakeOff(n, i);
        }
        left := left + if n == CompQ then |compq| else if n == RecvQ then |recvq| else |sendq|;
      }
      if left == 0 {
        session := Opened;
      }
    }

    // A client empties a draining session (src/ktli_test.c:272-274).
    method DrainAll() returns (out: seq<KioId>, calls: nat)
      requires session == Draining && QueuesNamed(View().p)
      modifies this
      ensures out == Queued(old(View()).p) && calls == |out| + 1
      ensures session == Opened && sendq == recvq == compq == []
      ensures rest.p.handedBack == old(rest.p.handedBack) + out
    {
      out, calls := [], 0;
      ghost var s0 := View();
      DrainedStarts(s0);
      hide Drained, DrainOne, Queued;
      var rc := 1;
      while rc == 1
        invariant Drained(s0, View(), rc, out, calls)
        decreases rc, |Queued(View().p)|
      {
        DrainedGoesOn(s0, View(), out, calls);
        var k: Option<KioId>;
        rc, k := Drain();
        calls := calls + 1;
        if k.Some? {
          out := out + [k.value];
        }
        DrainedMeans(s0, View(), rc, out, calls);
      }
      DrainedMeans(s0, View(), rc, out, calls);
    }

    // ktli_receiver's timeout check, with the receive queue locked
    method CheckTimeouts(now: int)
      requires QueuesNamed(View().p)
      modifies this
      ensures lastCheck == now
      ensures View() == if old(lastCheck) == now then old(View())
                        else old(View()).(p := ScanFrom(old(View()).p, 0, now))
    {
      if lastCheck == now {
        return;
      }
      var cursor := 0;
      while cursor < |recvq|
        invariant cursor <= |recvq| && QueuesNamed(View().p)
        invariant View() == old(View()).(p := View().p)
        invariant ScanFrom(View().p, cursor, now) == ScanFrom(old(View()).p, 0, now)
        invariant lastCheck == old(lastCheck)
        decreases |recvq| - cursor
      {
        if kios[recvq[cursor].kio].timeout < now {
          MoveToCompShape(View().p, cursor, TimedOut);
          Complete(cursor, TimedOut);
        } else {
          cursor := cursor + 1;
        }
      }
      lastCheck := now;
    }

    // The i-th waiting kio moves to the rear of the completion queue.
    method Complete(i: nat, st: KioState)
      requires i < |recvq| && recvq[i].kio in kios
      modifies this
      ensures View() == old(View()).(p := MoveToComp(old(View()).p, i, st)) && lastCheck == old(lastCheck)
    {
      var k := recvq[i].kio;
      recvq := Without(recvq, i);
      kios := kios[k := kios[k].(qbp := None)];
      compq := compq + [Cell(nextCell, k)];
      kios := kios[k := kios[k].(qbp := Some(CellRef(CompQ, nextCell)), state := st)];
      nextCell := nextCell + 1;
    }

    // The loops of ktli_recvmsg's abort path. A thread gets to them only where it may lock a mutex it holds
    // already; elsewhere it waits for itself (Transport's Locked). The variable sq names the receive queue, so
    // the second loop, meant for the send queue, finds the receive queue empty and does nothing.
    method AbortQueues()
      requires QueuesNamed(View().p)
      modifies this
      ensures View() == old(View()).(p := FailAll(old(View()).p))
      ensures recvq == [] && sendq == old(sendq)
    {
      while |recvq| != 0
        invariant QueuesNamed(View().p) && View() == old(View()).(p := View().p)
        invariant FailAll(View().p) == FailAll(old(View()).p) && sendq == old(sendq)
        decreases |recvq|
      {
        MoveToCompShape(View().p, 0, Failed);
        Complete(0, Failed);
      }
    }

    // --- ktli_sender, one critical section or store at a time ---

    // The front of the send queue comes off and is given the session's next number.
    method TakeFront() returns (k: KioId)
      requires sendq != [] && sendq[0].kio in kios
      modifies this
      ensures View() == DoTake(old(View())) && k == old(sendq[0].kio) && sendq == old(sendq[1..])
      ensures kios == old(kios)[k := old(kios)[k].(sequence := old(nextSeq), qbp := None)]
      ensures nextSeq == old(nextSeq) + 1
    {
      k := sendq[0].kio;
      rest := rest.(sender := Taken(k), taken := rest.taken + [sendq[0]]);
      sendq := Without(sendq, 0);
      kios := kios[k := kios[k].(qbp := None)];
      kios := kios[k := kios[k].(sequence := nextSeq)];
      nextSeq := nextSeq + 1;
    }

    // A request that wants a response is put on the receive queue before it is sent.
    method QueueForResponse(k: KioId)
      requires rest.sender == Taken(k) && k in kios
      modifies this
      ensures View() == DoEnqueue(old(View()))
      ensures recvq == old(recvq) + if old(kios)[k].reqOnly then [] else [Cell(old(nextCell), k)]
    {
      if !kios[k].reqOnly {
        recvq := recvq + [Cell(nextCell, k)];
        kios := kios[k := kios[k].(qbp := Some(CellRef(RecvQ, nextCell)))];
        nextCell := nextCell + 1;
      }
      rest := rest.(sender := Enqueued(k));
      assert kios == DoEnqueue(old(View())).p.kios;
    }

    method SetTimeout(k: KioId, now: int)
      requires rest.sender == Enqueued(k) && k in kios && now == rest.clock
      modifies this
      ensures View() == DoStamp(old(View()))
      ensures kios == old(kios)[k := old(kios)[k].(timeout := now + 30)]
    {
      kios := kios[k := kios[k].(timeout := now + KIO_TIMEOUT_S)];
      rest := rest.(sender := Sending(k));
    }

    // The driver has returned; NEW becomes SENT unless another thread has changed the state.
    method DriverReturned(k: KioId, ok: bool)
      requires rest.sender == Sending(k) && k in kios
      modifies this
      ensures View() == DoDriverSend(old(View()), ok)
      ensures kios
        == old(kios)[k := old(kios)[k].(state := if old(kios)[k].state == New then Sent else old(kios)[k].state)]
    {
      if kios[k].state == New {
        kios := kios[k := kios[k].(state := Sent)];
      }
      rest := rest.(sender := if ok && !kios[k].reqOnly then Waiting else Returned(k, ok),
                    wire := rest.wire + if rest.taken == [] then [] else [rest.taken[|rest.taken| - 1]]);
      assert kios == DoDriverSend(old(View()), ok).p.kios;
    }

    // A failed request comes off the receive queue by its back pointer, if list_setcurr finds it there;
    // if not, whatever the cursor stands on does.
    method PullBack(k: KioId)
      requires rest.sender.Returned? && rest.sender.kio == k && k in kios
      modifies this
      ensures View() == DoPull(old(View()))
      ensures rest.sender == Finishing(k, if old(kios)[k].reqOnly && old(rest).sender.ok then Received else Failed)
    {
      var outcome := if kios[k].reqOnly && rest.sender.ok then Received else Failed;
      if !kios[k].reqOnly {
        var i := Address(recvq, RecvQ, kios[k].qbp);
        if i < |recvq| {
          recvq := Without(recvq, i);
        } else if recvq != [] {
          recvq := Without(recvq, |recvq| - 1);
        }
        kios := kios[k := kios[k].(qbp := None)];
      }
      rest := rest.(sender := Finishing(k, outcome));
    }

    method FinishSend(k: KioId, state: KioState)
      requires rest.sender == Finishing(k, state) && k in kios
      modifies this
      ensures View() == DoFinish(old(View())) && kios[k].state == state
    {
      compq := compq + [Cell(nextCell, k)];
      kios := kios[k := kios[k].(qbp := Some(CellRef(CompQ, nextCell)), state := state)];
      nextCell := nextCell + 1;
      rest := rest.(sender := Waiting);
    }

    // --- the matching half of ktli_recvmsg ---

    // The response is matched to a waiting kio, tossed, or given a kio of its own.
    method MatchResponse(aseq: int, made: KioId) returns (k: Option<KioId>)
      requires Named(View()) && rest.receiver == Listening && (aseq == -1 ==> made !in kios)
      requires aseq <= 0 && aseq != -1 ==> recvq != []
      modifies this
      ensures View() == DoRespond(old(View()), aseq, made)
      ensures k.None? ==> View() == old(View())
      ensures k.Some? ==> rest.receiver == Holding(k.value)
      ensures k.Some? ==> k.value in kios && kios[k.value].answer == Some(aseq) && kios[k.value].qbp == None
      ensures aseq == -1 ==> k == Some(made) && recvq == old(recvq)
      ensures aseq == 0 || aseq < -1 ==>
        k == Some(old(recvq)[|old(recvq)| - 1].kio) && recvq == old(recvq)[..|old(recvq)| - 1]
      ensures aseq > 0 ==>
        (k == None <==> forall i :: 0 <= i < |old(recvq)| ==> old(kios)[old(recvq)[i].kio].sequence != aseq)
      ensures aseq > 0 && k.Some? ==>
        exists i :: 0 <= i < |old(recvq)|
          && k.value == old(recvq)[i].kio && old(kios)[k.value].sequence == aseq
          && recvq == old(recvq)[..i] + old(recvq)[i + 1..]
    {
      ghost var s := View();
      if aseq == -1 {
        k := Some(made);
        kios := kios[made := Kio(New, -1, false, false, 0, None, Some(-1))];
        rest := rest.(receiver := Holding(made));
        return;
      }
      var i := |recvq| - 1;
      if aseq > 0 {
        i := FindSeq(Places(sendq, recvq, compq, kios, [], nextCell), recvq, aseq);
        SameFind(Places(sendq, recvq, compq, kios, [], nextCell), s.p, recvq, aseq);
        if i == |recvq| {
          return None;
        }
      }
      k := Some(recvq[i].kio);
      recvq := Without(recvq, i);
      kios := kios[k.value := kios[k.value].(qbp := None)];
      kios := kios[k.value := kios[k.value].(answer := Some(aseq))];
      rest := rest.(receiver := Holding(k.value));
    }

    method DeliverResponse(k: KioId)
      requires rest.receiver == Holding(k) && k in kios
      modifies this
      ensures View() == DoDeliver(old(View()))
      ensures compq == old(compq) + [Cell(old(nextCell), k)]
      ensures kios == old(kios)[k := old(kios)[k].(state := Received, qbp := Some(CellRef(CompQ, old(nextCell))))]
    {
      compq := compq + [Cell(nextCell, k)];
      kios := kios[k := kios[k].(qbp := Some(CellRef(CompQ, nextCell)), state := Received)];
      nextCell := nextCell + 1;
      rest := rest.(receiver := Listening);
    }
  }

  lemma {:induction false} SameFind(p: Places, p': Places, q: seq<Cell>, a: int)
    requires p.kios == p'.kios && forall j :: 0 <= j < |q| ==> q[j].kio in p.kios
    ensures FindSeq(p, q, a) == FindSeq(p', q, a)
  {
    if q != [] {
      SameFind(p, p', q[1..], a);
    }
  }

  // So far a client's drain calls have brought these kios, in order; rc is what the last call answered.
  ghost predicate Drained(s0: State, s: State, rc: int, out: seq<KioId>, calls: nat) {
    && QueuesNamed(s.p) && s.p.handedBack == s0.p.handedBack + out && (rc == 0 || rc == 1)
    && (rc == 1 ==> s.session == Draining && out + Queued(s.p) == Queued(s0.p) && calls == |out|)
    && (rc == 0 ==> s.session == Opened && out == Queued(s0.p) && Queued(s.p) == [] && calls == |out| + 1)
  }

  lemma DrainedStarts(s: State)
    requires QueuesNamed(s.p) && s.session == Draining
    ensures Drained(s, s, 1, [], 0)
  {
    assert [] + Queued(s.p) == Queued(s.p);
    assert s.p.handedBack + [] == s.p.handedBack;
  }

  lemma DrainedGoesOn(s0: State, s: State, out: seq<KioId>, calls: nat)
    requires Drained(s0, s, 1, out, calls)
    ensures QueuesNamed(s.p) && s.session == Draining
    ensures match NextDrained(s.p)
            case None => Drained(s0, DrainOne(s), 0, out, calls + 1)
            case Some(k) =>
              Drained(s0, DrainOne(s), 1, out + [k], calls + 1) && |Queued(DrainOne(s).p)| < |Queued(s.p)|
  {
    DrainOneShape(s);
    hide Queued, DrainOne, QueuesNamed, NextDrained;
    if NextDrained(s.p).Some? {
      var k := NextDrained(s.p).value;
      assert out + ([k] + Queued(DrainOne(s).p)) == out + [k] + Queued(DrainOne(s).p);
      assert s0.p.handedBack + out + [k] == s0.p.handedBack + (out + [k]);
    } else {
      assert out + [] == out;
    }
  }

  lemma DrainedMeans(s0: State, s: State, rc: int, out: seq<KioId>, calls: nat)
    requires Drained(s0, s, rc, out, calls)
    ensures (rc == 0 || rc == 1) && s.p.handedBack == s0.p.handedBack + out
    ensures rc == 0 ==>
      && out == Queued(s0.p) && calls == |out| + 1 && s.session == Opened
      && s.p.sendq == [] && s.p.recvq == [] && s.p.compq == []
  {
    assert |Queued(s.p)| == |s.p.compq| + |s.p.recvq| + |s.p.sendq|;
  }

  // One call of ktli_drain takes the first of the queued kios.
  lemma DrainOneShape(s: State)
    requires QueuesNamed(s.p)
    ensures QueuesNamed(DrainOne(s).p)
    ensures NextDrained(s.p) == None ==> Queued(s.p) == [] && DrainOne(s).p == s.p
    ensures NextDrained(s.p).Some? ==>
      && Queued(s.p) == [NextDrained(s.p).value] + Queued(DrainOne(s).p)
      && DrainOne(s).p.handedBack == s.p.handedBack + [NextDrained(s.p).value]
      && DrainOne(s).session == s.session
      && NextDrained(s.p).value in s.p.kios && OnlyFailed(s.p, DrainOne(s).p, NextDrained(s.p).value)
  {
    if DrainFrom(s.p).Some? {
      var n := DrainFrom(s.p).value;
      HandBackShape(s.p, n, 0, Failed);
      DrainedIsFailed(s.p, n, 0);
      FrontLeaves(s.p, DrainOne(s).p, n);
    }
  }

  // k is FAILED and off its queue; no other kio changes.
  predicate OnlyFailed(p: Places, p': Places, k: KioId)
    requires k in p.kios
  {
    p'.kios == p.kios[k := p.kios[k].(qbp := None, state := Failed)]
  }

  lemma DrainedIsFailed(p: Places, n: QueueName, i: nat)
    requires i < |Queue(p, n)| && Queue(p, n)[i].kio in p.kios
    ensures OnlyFailed(p, HandBack(Drop(p, n, i), Queue(p, n)[i].kio, Failed), Queue(p, n)[i].kio)
  {
  }

  lemma FrontLeaves(p: Places, p': Places, n: QueueName)
    requires DrainFrom(p) == Some(n)
    requires forall m :: Queue(p', m) == if m == n then Without(Queue(p, m), 0) else Queue(p, m)
    ensures Queued(p) == [Queue(p, n)[0].kio] + Queued(p')
  {
    assert Queue(p', CompQ) == p'.compq && Queue(p', RecvQ) == p'.recvq && Queue(p', SendQ) == p'.sendq;
    assert Queue(p', n) == Queue(p, n)[1..];
    NamesTail(Queue(p, n));
    var k := Queue(p, n)[0].kio;
    match n {
      case CompQ =>
        Regroup([k], Names(p'.compq), Names(p'.recvq), Names(p'.sendq));
      case RecvQ =>
        Regroup([k], [], Names(p'.recvq), Names(p'.sendq));
      case SendQ =>
        Regroup([k], [], [], Names(p'.sendq));
    }
  }

  lemma Regroup(k: seq<KioId>, a: seq<KioId>, b: seq<KioId>, c: seq<KioId>)
    ensures (k + a) + b + c == k + (a + b + c)
    ensures [] + (k + b) + c == k + ([] + b + c) && [] + [] + (k + c) == k + ([] + [] + c)
  {
  }

  // ktli_drain_match answers from its search of the send queue alone: its code is right exactly when
  // the kio is on neither of the other queues.
  lemma DrainMatchCodeIff(s: State, k: KioId)
    requires Inv(s)
    ensures (On(s.p.sendq, k) <==> k in Queued(s.p)) <==> !(On(s.p.compq, k) || On(s.p.recvq, k))
  {
    OnNames(s.p.compq, k);
    OnNames(s.p.recvq, k);
    OnNames(s.p.sendq, k);
    OnOneQueue(s.p, Loose(s), k);
  }

  lemma OnNames(q: seq<Cell>, k: KioId)
    ensures On(q, k) <==> k in Names(q)
  {
    if i :| 0 <= i < |q| && q[i].kio == k {
      assert Names(q)[i] == k;
    }
    if k in Names(q) {
      BagNamesACell(q, k);
    }
  }

  lemma OnOneQueue(p: Places, loose: multiset<KioId>, k: KioId)
    requires OnePlace(p, loose)
    ensures On(p.sendq, k) ==> !On(p.compq, k) && !On(p.recvq, k)
    ensures On(p.recvq, k) ==> !On(p.compq, k)
  {
    assert Queue(p, CompQ) == p.compq && Queue(p, RecvQ) == p.recvq && Queue(p, SendQ) == p.sendq;
    if i :| 0 <= i < |p.sendq| && p.sendq[i].kio == k {
      QueuedIsNowhereElse(p, loose, SendQ, i);
    }
    if i :| 0 <= i < |p.recvq| && p.recvq[i].kio == k {
      QueuedIsNowhereElse(p, loose, RecvQ, i);
    }
  }

  ghost predicate SameHands(s: State, s': State) {
    s'.sender == s.sender && s'.receiver == s.receiver && s'.session == s.session
  }

  lemma MatchInInv(s: State, n: QueueName, k: KioId)
    requires Inv(s)
    ensures Inv(MatchIn(s, n, k)) && SameHands(s, MatchIn(s, n, k))
  {
    var i := FindKio(Queue(s.p, n), k);
    if i < |Queue(s.p, n)| {
      DrainAtInv(s, n, i);
    }
  }

  // ktli_drain_match takes the kio out of the queue it is on, and nothing else out of any.
  lemma MatchInBag(s: State, n: QueueName, k: KioId)
    requires QueuesNamed(s.p)
    ensures var s' := MatchIn(s, n, k);
      && (forall m :: m != n ==> Queue(s'.p, m) == Queue(s.p, m))
      && Bag(Queue(s'.p, n)) == (if On(Queue(s.p, n), k) then Bag(Queue(s.p, n)) - multiset{k} else Bag(Queue(s.p, n)))
      && s'.p.handedBack == (if On(Queue(s.p, n), k) then s.p.handedBack + [k] else s.p.handedBack)
  {
    var i := FindKio(Queue(s.p, n), k);
    if i < |Queue(s.p, n)| {
      BagWithout(Queue(s.p, n), i);
      HandBackShape(s.p, n, i, Failed);
    }
  }

  // --- emptying a draining session ---

  ghost predicate NothingQueued(p: Places) {
    p.compq == [] && p.recvq == [] && p.sendq == []
  }

  function Total(p: Places): multiset<KioId> {
    Bag(p.compq) + Bag(p.recvq) + Bag(p.sendq)
  }

  lemma QueuedBag(p: Places)
    ensures multiset(Queued(p)) == Total(p)
    ensures Queued(p) == [] <==> NothingQueued(p)
  {
    assert |Queued(p)| == |p.compq| + |p.recvq| + |p.sendq|;
  }

  lemma MatchInTotal(s: State, n: QueueName, k: KioId)
    requires QueuesNamed(s.p)
    ensures var s' := MatchIn(s, n, k);
      && (forall m :: m != n ==> Queue(s'.p, m) == Queue(s.p, m))
      && (On(Queue(s.p, n), k) ==>
            Total(s'.p) == Total(s.p) - multiset{k} && s'.p.handedBack == s.p.handedBack + [k])
      && (!On(Queue(s.p, n), k) ==> s' == s)
  {
    var s' := MatchIn(s, n, k);
    MatchInBag(s, n, k);
    if i :| 0 <= i < |Queue(s.p, n)| && Queue(s.p, n)[i].kio == k {
      InBag(Queue(s.p, n), i);
      TotalLess(s.p, s'.p, n, k);
    }
  }

  lemma TotalLess(p: Places, p': Places, n: QueueName, k: KioId)
    requires forall m :: m != n ==> Queue(p', m) == Queue(p, m)
    requires k in Bag(Queue(p, n)) && Bag(Queue(p', n)) == Bag(Queue(p, n)) - multiset{k}
    ensures Total(p') == Total(p) - multiset{k}
  {
    hide Bag;
    assert Queue(p, CompQ) == p.compq && Queue(p, RecvQ) == p.recvq && Queue(p, SendQ) == p.sendq;
    assert Queue(p', CompQ) == p'.compq && Queue(p', RecvQ) == p'.recvq && Queue(p', SendQ) == p'.sendq;
  }

  ghost function AfterThree(s: State, k: KioId): State
    requires QueuesNamed(s.p)
  {
    MatchIn(MatchIn(MatchIn(s, CompQ, k), RecvQ, k), SendQ, k)
  }

  lemma MatchThree(s: State, k: KioId)
    requires QueuesNamed(s.p)
    ensures MatchUpTo(s, k, 3) == AfterThree(s, k)
  {
    assert MatchUpTo(s, k, 1) == MatchIn(MatchUpTo(s, k, 0), CompQ, k);
    assert MatchUpTo(s, k, 2) == MatchIn(MatchUpTo(s, k, 1), RecvQ, k);
    assert MatchUpTo(s, k, 3) == MatchIn(MatchUpTo(s, k, 2), SendQ, k);
  }

  lemma MatchThreeInv(s: State, k: KioId)
    requires Inv(s)
    ensures Inv(AfterThree(s, k)) && SameHands(s, AfterThree(s, k))
  {
    var s1 := MatchIn(s, CompQ, k);
    var s2 := MatchIn(s1, RecvQ, k);
    hide Inv;
    MatchInInv(s, CompQ, k);
    MatchInInv(s1, RecvQ, k);
    MatchInInv(s2, SendQ, k);
  }

  lemma MatchThreeTotal(s: State, k: KioId)
    requires Inv(s) && k in Queued(s.p)
    ensures AfterThree(s, k).p.handedBack == s.p.handedBack + [k]
    ensures Total(AfterThree(s, k).p) == Total(s.p) - multiset{k}
  {
    OnOneQueue(s.p, Loose(s), k);
    OnNames(s.p.compq, k);
    OnNames(s.p.recvq, k);
    OnNames(s.p.sendq, k);
    hide Ok, Rest, Total, On, MatchIn;
    var s1 := MatchIn(s, CompQ, k);
    var s2 := MatchIn(s1, RecvQ, k);
    MatchInTotal(s, CompQ, k);
    MatchInTotal(s1, RecvQ, k);
    MatchInTotal(s2, SendQ, k);
    assert Queue(s.p, CompQ) == s.p.compq && Queue(s.p, RecvQ) == s.p.recvq && Queue(s.p, SendQ) == s.p.sendq;
  }

  lemma MatchInKios(s: State, n: QueueName, k: KioId)
    requires QueuesNamed(s.p)
    ensures var s' := MatchIn(s, n, k);
      && (forall m :: m != n ==> Queue(s'.p, m) == Queue(s.p, m))
      && (On(Queue(s.p, n), k) ==> k in s.p.kios && OnlyFailed(s.p, s'.p, k))
      && (!On(Queue(s.p, n), k) ==> s' == s)
  {
    var i := FindKio(Queue(s.p, n), k);
    if i < |Queue(s.p, n)| {
      HandBackShape(s.p, n, i, Failed);
      DrainedIsFailed(s.p, n, i);
    }
  }

  lemma MatchThreeKios(s: State, k: KioId)
    requires Inv(s) && k in Queued(s.p)
    ensures k in s.p.kios && OnlyFailed(s.p, AfterThree(s, k).p, k)
  {
    hide QueueOk, Rest, On, OnlyFailed;
    OnOneQueue(s.p, Loose(s), k);
    OnNames(s.p.compq, k);
    OnNames(s.p.recvq, k);
    OnNames(s.p.sendq, k);
    hide Inv, Ok;
    assert Queue(s.p, CompQ) == s.p.compq && Queue(s.p, RecvQ) == s.p.recvq && Queue(s.p, SendQ) == s.p.sendq;
    hide Queued, AfterThree;
    if On(s.p.compq, k) {
      MatchedOnce(s, k, CompQ);
    } else if On(s.p.recvq, k) {
      MatchedOnce(s, k, RecvQ);
    } else {
      MatchedOnce(s, k, SendQ);
    }
  }

  // A kio on one queue only is found by one search only.
  lemma MatchedOnce(s: State, k: KioId, n: QueueName)
    requires QueuesNamed(s.p) && forall m :: On(Queue(s.p, m), k) <==> m == n
    ensures k in s.p.kios && OnlyFailed(s.p, AfterThree(s, k).p, k)
  {
    hide On, MatchIn, OnlyFailed;
    var s1 := MatchIn(s, CompQ, k);
    var s2 := MatchIn(s1, RecvQ, k);
    MatchInKios(s, CompQ, k);
    MatchInKios(s1, RecvQ, k);
    MatchInKios(s2, SendQ, k);
  }

  // What one ktli_drain_match call does to a session that has the kio queued: it leaves its queue, goes
  // to the caller, and nothing else moves.
  lemma DrainMatchedShape(s: State, k: KioId)
    requires Inv(s) && k in Queued(s.p)
    ensures var s' := DrainMatched(s, k);
      && Inv(s')
      && s'.p.handedBack == s.p.handedBack + [k]
      && multiset(Queued(s'.p)) == multiset(Queued(s.p)) - multiset{k}
      && s'.session == (if NothingQueued(s'.p) then Opened else s.session)
      && s'.sender == s.sender && s'.receiver == s.receiver
      && k in s.p.kios && OnlyFailed(s.p, s'.p, k)
  {
    MatchThree(s, k);
    MatchThreeKios(s, k);
    MatchThreeInv(s, k);
    MatchThreeTotal(s, k);
    var s3 := AfterThree(s, k);
    QueuedBag(s.p);
    QueuedBag(s3.p);
    hide Inv, Total, OnePlace, AfterThree;
    QuietInv(s3, OpenWhenEmpty(s3));
  }

  // A client that names the kios it wants back, one ktli_drain_match call each; the call refuses once
  // the session is open again.
  ghost function DrainEach(s: State, ks: seq<KioId>): State
    requires QueuesNamed(s.p)
    decreases |ks|
  {
    if ks == [] then s
    else DrainEach(if s.session == Draining then DrainMatched(s, ks[0]) else s, ks[1..])
  }

  // A list of kios that names each queued one once.
  ghost predicate NamesQueued(ks: seq<KioId>, p: Places) {
    multiset(ks) == multiset(Queued(p))
  }

  ghost predicate Emptied(s: State, s': State, ks: seq<KioId>) {
    NothingQueued(s'.p) && s'.session == Opened && s'.p.handedBack == s.p.handedBack + ks
  }

  // Whatever the order in which a client asks for the queued kios, it gets them all, each once and in
  // its own order; the session opens with the last of them.
  lemma {:induction false} DrainMatchAnyOrder(s: State, ks: seq<KioId>)
    requires Inv(s) && s.session == Draining && ks != [] && NamesQueued(ks, s.p)
    ensures Emptied(s, DrainEach(s, ks), ks)
    decreases |ks|
  {
    assert Named(s);
    hide Inv, DrainMatched, NamesQueued, QueuesNamed, NothingQueued, Emptied;
    DrainMatchedNext(s, ks);
    if ks[1..] != [] {
      var s1 := DrainMatched(s, ks[0]);
      DrainMatchAnyOrder(s1, ks[1..]);
      EmptiedFrom(s, s1, DrainEach(s1, ks[1..]), ks);
    }
  }

  lemma EmptiedFrom(s: State, s1: State, s': State, ks: seq<KioId>)
    requires ks != [] && s1.p.handedBack == s.p.handedBack + [ks[0]] && Emptied(s1, s', ks[1..])
    ensures Emptied(s, s', ks)
  {
    assert ks == [ks[0]] + ks[1..];
    assert s.p.handedBack + ([ks[0]] + ks[1..]) == s.p.handedBack + [ks[0]] + ks[1..];
  }

  lemma DrainMatchedNext(s: State, ks: seq<KioId>)
    requires Inv(s) && s.session == Draining && ks != [] && NamesQueued(ks, s.p)
    ensures var s1 := DrainMatched(s, ks[0]);
      && Inv(s1) && NamesQueued(ks[1..], s1.p)
      && s1.p.handedBack == s.p.handedBack + [ks[0]]
      && (if ks[1..] == [] then Emptied(s, s1, ks) else s1.session == Draining)
  {
    var s1 := DrainMatched(s, ks[0]);
    BagTail(ks, Queued(s.p));
    DrainMatchedShape(s, ks[0]);
    QueuedBag(s1.p);
    BagEmpty(ks[1..], Queued(s1.p));
    hide Inv, Queued, NothingQueued, DrainMatched, Emptied;
    if ks[1..] == [] {
      LastEmpties(s, s1, ks);
    }
  }

  lemma LastEmpties(s: State, s1: State, ks: seq<KioId>)
    requires |ks| == 1 && NothingQueued(s1.p) && s1.session == Opened && s1.p.handedBack == s.p.handedBack + [ks[0]]
    ensures Emptied(s, s1, ks)
  {
    assert ks == [ks[0]];
  }

  lemma BagTail(a: seq<KioId>, b: seq<KioId>)
    requires a != [] && multiset(a) == multiset(b)
    ensures a[0] in b && multiset(a[1..]) == multiset(b) - multiset{a[0]}
  {
    assert a == [a[0]] + a[1..];
    assert a[0] in multiset(b);
  }

  lemma BagEmpty(a: seq<KioId>, b: seq<KioId>)
    requires multiset(a) == multiset(b)
    ensures a == [] <==> b == []
  {
    assert |multiset(a)| == |a| && |multiset(b)| == |b|;
  }

  // With empty queues every kio is back with its caller exactly when no thread has one in hand; a
  // session drained while its threads are at work opens, and may be closed, with kios still out.
  lemma AllHandedBackIff(s: State)
    requires Inv(s) && NothingQueued(s.p)
    ensures multiset(s.p.handedBack) == multiset(s.p.kios.Keys) <==> Loose(s) == multiset{}
  {
    hide Rest, QueueOk;
    assert multiset(s.p.handedBack) + Loose(s) == multiset(s.p.kios.Keys);
    if multiset(s.p.handedBack) == multiset(s.p.kios.Keys) {
      assert |Loose(s)| == 0;
    }
  }

  // --- the timeout scan and the abort path ---

  ghost predicate CellsNamed(p: Places, q: seq<Cell>) {
    forall i :: 0 <= i < |q| ==> q[i].kio in p.kios
  }

  function Survivors(p: Places, q: seq<Cell>, now: int): seq<Cell>
    requires CellsNamed(p, q)
  {
    if q == [] then []
    else (if Expired(p, q[0], now) then [] else [q[0]]) + Survivors(p, q[1..], now)
  }

  function ExpiredNames(p: Places, q: seq<Cell>, now: int): seq<KioId>
    requires CellsNamed(p, q)
  {
    if q == [] then []
    else (if Expired(p, q[0], now) then [q[0].kio] else []) + ExpiredNames(p, q[1..], now)
  }

  // Kios move to the rear of the completion queue in this order and in this state; all else stays.
  ghost predicate Completes(p: Places, p': Places, ks: seq<KioId>, st: KioState) {
    && p'.sendq == p.sendq && p'.handedBack == p.handedBack
    && p.compq <= p'.compq && Names(p'.compq) == Names(p.compq) + ks
    && p'.kios.Keys == p.kios.Keys && Keeps(p, p')
    && (forall k :: k in p.kios && k in ks ==> p'.kios[k].state == st)
    && (forall k :: k in p.kios && k !in ks ==> p'.kios[k] == p.kios[k])
  }

  lemma MoveCompletes(p: Places, i: nat, st: KioState)
    requires QueuesNamed(p) && i < |p.recvq|
    ensures QueuesNamed(MoveToComp(p, i, st))
    ensures Completes(p, MoveToComp(p, i, st), [p.recvq[i].kio], st)
    ensures MoveToComp(p, i, st).recvq == Without(p.recvq, i)
  {
    MoveToCompShape(p, i, st);
    var p' := MoveToComp(p, i, st);
    assert p'.compq == p.compq + [Cell(p.nextCell, p.recvq[i].kio)];
    assert Names(p'.compq) == Names(p.compq) + [p.recvq[i].kio];
    assert p'.kios.Keys == p.kios.Keys;
  }

  lemma CompletesChain(p: Places, p1: Places, p2: Places, a: seq<KioId>, b: seq<KioId>, st: KioState)
    requires Completes(p, p1, a, st) && Completes(p1, p2, b, st)
    ensures Completes(p, p2, a + b, st)
  {
    assert Names(p.compq) + a + b == Names(p.compq) + (a + b);
    forall k | k in p.kios ensures k in a + b <==> k in a || k in b {
    }
  }

  lemma {:induction false} ScanFrame(p: Places, p': Places, q: seq<Cell>, now: int)
    requires CellsNamed(p, q) && CellsNamed(p', q) && Keeps(p, p')
    ensures Survivors(p', q, now) == Survivors(p, q, now) && ExpiredNames(p', q, now) == ExpiredNames(p, q, now)
  {
    if q != [] {
      ScanFrame(p, p', q[1..], now);
    }
  }

  lemma {:induction false} ScanFromShape(p: Places, i: nat, now: int)
    requires QueuesNamed(p) && i <= |p.recvq|
    ensures ScanFrom(p, i, now).recvq == p.recvq[..i] + Survivors(p, p.recvq[i..], now)
    ensures Completes(p, ScanFrom(p, i, now), ExpiredNames(p, p.recvq[i..], now), TimedOut)
    decreases |p.recvq| - i
  {
    hide Completes, Keeps;
    if i == |p.recvq| {
      NothingCompletes(p);
    } else {
      assert p.recvq[i..][1..] == p.recvq[i + 1..];
      if Expired(p, p.recvq[i], now) {
        MoveToCompShape(p, i, TimedOut);
        ScanFromShape(MoveToComp(p, i, TimedOut), i, now);
        ScanMoves(p, i, now);
      } else {
        ScanFromShape(p, i + 1, now);
        assert p.recvq[..i + 1] == p.recvq[..i] + [p.recvq[i]];
        assert [] + ExpiredNames(p, p.recvq[i + 1..], now) == ExpiredNames(p, p.recvq[i + 1..], now);
      }
    }
  }

  lemma ScanMoves(p: Places, i: nat, now: int)
    requires QueuesNamed(p) && i < |p.recvq| && Expired(p, p.recvq[i], now)
    requires var p1 := MoveToComp(p, i, TimedOut);
      && QueuesNamed(p1) && i <= |p1.recvq|
      && ScanFrom(p1, i, now).recvq == p1.recvq[..i] + Survivors(p1, p1.recvq[i..], now)
      && Completes(p1, ScanFrom(p1, i, now), ExpiredNames(p1, p1.recvq[i..], now), TimedOut)
    ensures ScanFrom(p, i, now).recvq == p.recvq[..i] + Survivors(p, p.recvq[i..], now)
    ensures Completes(p, ScanFrom(p, i, now), ExpiredNames(p, p.recvq[i..], now), TimedOut)
  {
    var p1 := MoveToComp(p, i, TimedOut);
    hide Completes;
    MoveCompletes(p, i, TimedOut);
    MoveToCompShape(p, i, TimedOut);
    hide Keeps, MoveToComp;
    ScanShift(p, p1, i, now);
    CompletesChain(p, p1, ScanFrom(p1, i, now), [p.recvq[i].kio], ExpiredNames(p1, p1.recvq[i..], now), TimedOut);
  }

  // Taking an expired element out leaves the rest of the scan as it was.
  lemma ScanShift(p: Places, p1: Places, i: nat, now: int)
    requires QueuesNamed(p) && QueuesNamed(p1) && Keeps(p, p1) && i < |p.recvq| && Expired(p, p.recvq[i], now)
    requires p1.recvq == Without(p.recvq, i)
    ensures p1.recvq[..i] == p.recvq[..i]
    ensures Survivors(p1, p1.recvq[i..], now) == Survivors(p, p.recvq[i..], now)
    ensures [p.recvq[i].kio] + ExpiredNames(p1, p1.recvq[i..], now) == ExpiredNames(p, p.recvq[i..], now)
  {
    var rest := p.recvq[i + 1..];
    assert p.recvq[i..][1..] == rest && p1.recvq[i..] == rest;
    hide Keeps;
    ScanFrame(p, p1, rest, now);
  }

  lemma NothingCompletes(p: Places)
    ensures Completes(p, p, [], TimedOut) && Completes(p, p, [], Failed)
  {
    assert Names(p.compq) + [] == Names(p.compq);
  }

  lemma {:induction false} SurvivorsAlive(p: Places, q: seq<Cell>, now: int)
    requires CellsNamed(p, q)
    ensures forall c :: c in Survivors(p, q, now) <==> c in q && !Expired(p, c, now)
    ensures forall k :: k in ExpiredNames(p, q, now) <==> exists c :: c in q && c.kio == k && Expired(p, c, now)
  {
    if q != [] {
      SurvivorsAlive(p, q[1..], now);
    }
  }

  // The timeout check splits the receive queue: nothing expired remains, the survivors keep their order
  // and their cells, the expired go in order to the rear of the completion queue as TIMEDOUT, and no
  // other kio changes.
  lemma ScanPartition(p: Places, now: int)
    requires QueuesNamed(p)
    ensures var p' := ScanFrom(p, 0, now);
      && p'.recvq == Survivors(p, p.recvq, now)
      && Completes(p, p', ExpiredNames(p, p.recvq, now), TimedOut)
      && (forall c :: c in p'.recvq <==> c in p.recvq && p.kios[c.kio].timeout >= now)
      && (forall k :: k in ExpiredNames(p, p.recvq, now) <==>
            exists c :: c in p.recvq && c.kio == k && p.kios[k].timeout < now)
  {
    ScanFromShape(p, 0, now);
    SurvivorsAlive(p, p.recvq, now);
    assert p.recvq[0..] == p.recvq;
  }

  lemma {:induction false} ScanInv(s: State, i: nat, now: int)
    requires Inv(s) && i <= |s.p.recvq|
    ensures Inv(s.(p := ScanFrom(s.p, i, now)))
    decreases |s.p.recvq| - i
  {
    hide Ok, Rest;
    if i < |s.p.recvq| {
      if Expired(s.p, s.p.recvq[i], now) {
        MoveToCompShape(s.p, i, TimedOut);
        MoveToCompInv(s, i, TimedOut);
        ScanInv(s.(p := MoveToComp(s.p, i, TimedOut)), i, now);
      } else {
        ScanInv(s, i + 1, now);
      }
    }
  }

  ghost predicate ExpiredFirst(p: Places, now: int)
    requires QueuesNamed(p)
  {
    forall i, j :: 0 <= i < j < |p.recvq| && Expired(p, p.recvq[j], now) ==> Expired(p, p.recvq[i], now)
  }

  // The request that was queued last still carries whatever timeout it came with.
  predicate StaleLast(s: State, now: int)
    requires QueuesNamed(s.p)
  {
    var n := |s.p.recvq|;
    && n >= 2 && s.sender == Enqueued(s.p.recvq[n - 1].kio)
    && Expired(s.p, s.p.recvq[n - 1], now) && !Expired(s.p, s.p.recvq[n - 2], now)
  }

  // The clock only moves forward, so the expired are the front of the receive queue, except in the
  // moment between queuing a request and setting its timeout.
  lemma ExpiredFirstIff(s: State, now: int)
    requires Inv(s)
    ensures ExpiredFirst(s.p, now) <==> !StaleLast(s, now)
  {
    hide Ok, SenderOk, OrderOk, NumbersOk, AnswersOk;
    var q := s.p.recvq;
    if !StaleLast(s, now) {
      forall i, j | 0 <= i < j < |q| && Expired(s.p, q[j], now) ensures Expired(s.p, q[i], now) {
        if s.sender == Enqueued(q[j].kio) {
          assert j == |q| - 1 && q[i].kio != s.sender.kio;
          if i < |q| - 2 {
            assert q[|q| - 2].kio != s.sender.kio;
          }
        }
      }
    }
  }

  lemma ExpiredAreFirst(s: State, now: int)
    requires Inv(s) && !s.sender.Enqueued?
    ensures ExpiredFirst(s.p, now)
  {
    hide Ok, Rest, ExpiredFirst;
    ExpiredFirstIff(s, now);
  }

  // Once in its loops, the abort path would fail every waiting kio, in order; what still queues to be sent
  // would stay where it is.
  lemma {:induction false} FailAllShape(p: Places)
    requires QueuesNamed(p)
    ensures FailAll(p).recvq == []
    ensures Completes(p, FailAll(p), Names(p.recvq), Failed)
    decreases |p.recvq|
  {
    hide Completes;
    if p.recvq == [] {
      NothingCompletes(p);
    } else {
      MoveToCompShape(p, 0, Failed);
      MoveCompletes(p, 0, Failed);
      var p1 := MoveToComp(p, 0, Failed);
      assert p1.recvq == p.recvq[1..];
      FailAllShape(p1);
      NamesTail(p.recvq);
      CompletesChain(p, p1, FailAll(p), [p.recvq[0].kio], Names(p1.recvq), Failed);
    }
  }

  lemma NamesTail(q: seq<Cell>)
    requires q != []
    ensures Names(q) == [q[0].kio] + Names(q[1..])
  {
  }

  lemma {:induction false} FailAllInv(s: State)
    requires Inv(s)
    ensures Inv(s.(p := FailAll(s.p)))
    decreases |s.p.recvq|
  {
    hide Ok, Rest;
    if s.p.recvq != [] {
      MoveToCompShape(s.p, 0, Failed);
      MoveToCompInv(s, 0, Failed);
      FailAllInv(s.(p := MoveToComp(s.p, 0, Failed)));
    }
  }
}
