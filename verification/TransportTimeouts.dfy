/** How long a request may wait for its response. */
module TransportTimeouts {
  import opened Common
  import opened Places
  import opened Transport
  import opened TransportInvariant
  import opened TransportRuns
  import opened TransportOutcomes

  // The timeout of k is set, and the sender will not set it again.
  ghost predicate Armed(s: State, k: KioId, t: int) {
    && k in s.p.kios && s.p.kios[k].timeout == t
    && !On(s.p.sendq, k) && !About(s.sender, k).Taken? && !About(s.sender, k).Enqueued?
  }

  lemma StampArms(s: State)
    requires Inv(s) && s.sender.Enqueued?
    ensures Armed(DoStamp(s), s.sender.kio, s.clock + 30)
  {
    NotQueuedToSend(s);
    hide Inv, On;
  }

  lemma ArmedByHandBack(s: State, n: QueueName, i: nat, st: KioState, k: KioId, t: int)
    requires Armed(s, k, t) && i < |Queue(s.p, n)| && Queue(s.p, n)[i].kio in s.p.kios
    ensures var p' := HandBack(Drop(s.p, n, i), Queue(s.p, n)[i].kio, st);
      k in p'.kios && p'.kios[k].timeout == t && !On(p'.sendq, k)
  {
    if n == SendQ {
      assert Queue(s.p, n) == s.p.sendq;
      NotOnWithout(s.p.sendq, i, k);
    }
    hide On;
  }

  lemma NotOnWithout(q: seq<Cell>, i: nat, k: KioId)
    requires i < |q| && !On(q, k)
    ensures !On(Without(q, i), k)
  {
  }

  lemma ArmedByCaller(s: State, step: Step, k: KioId, t: int)
    requires Named(s) && Armed(s, k, t) && Enabled(s, step) && !BySender(step) && !ByReceiver(step)
    ensures Armed(Do(s, step), k, t)
  {
    hide On;
    match step
    case Submit(j, _, _) => OnAppend(s.p.sendq, Cell(s.p.nextCell, j), k);
    case Reap(j) =>
      var i := Address(s.p.compq, CompQ, s.p.kios[j].qbp);
      assert Queue(s.p, CompQ) == s.p.compq;
      if Done(s.p.kios[j].state) && i < |s.p.compq| {
        ReapKeepsTimeout(s, j, k);
      }
    case ReapUnsolicited =>
      var i := FindUnsolicited(s.p, s.p.compq);
      assert Queue(s.p, CompQ) == s.p.compq;
      if i < |s.p.compq| {
        ArmedByHandBack(s, CompQ, i, s.p.kios[s.p.compq[i].kio].state, k, t);
      }
    case DrainFront(n) => ArmedByHandBack(s, n, 0, Failed, k, t);
    case DrainMatch(j, n) =>
      var i := FindKio(Queue(s.p, n), j);
      if i < |Queue(s.p, n)| {
        ArmedByHandBack(s, n, i, Failed, k, t);
      }
    case SetSession(_) =>
  }

  lemma ReapKeepsTimeout(s: State, j: KioId, k: KioId)
    requires Named(s) && j in s.p.kios && k in s.p.kios
    ensures DoReap(s, j).p.sendq == s.p.sendq
    ensures k in DoReap(s, j).p.kios && DoReap(s, j).p.kios[k].timeout == s.p.kios[k].timeout
  {
  }

  lemma ArmedBySender(s: State, step: Step, k: KioId, t: int)
    requires Named(s) && Armed(s, k, t) && Enabled(s, step) && BySender(step) && step != Take
    ensures Armed(Do(s, step), k, t)
  {
    hide On;
  }

  lemma ArmedByReceiver(s: State, step: Step, k: KioId, t: int)
    requires Named(s) && Armed(s, k, t) && Enabled(s, step) && ByReceiver(step)
    ensures Armed(Do(s, step), k, t)
  {
    hide On;
  }

  lemma ArmedByTake(s: State, k: KioId, t: int)
    requires Named(s) && Armed(s, k, t) && Enabled(s, Take)
    ensures Armed(Do(s, Take), k, t)
  {
    NotOnWithout(s.p.sendq, 0, k);
    assert s.p.sendq[0].kio != k;
    hide On;
  }

  lemma {:induction false} RunArmed(s: State, steps: seq<Step>, k: KioId, t: int)
    requires Legal(s, steps) && Armed(s, k, t)
    ensures Armed(After(s, steps), k, t)
    decreases |steps|
  {
    hide Armed, Do, Enabled;
    if steps != [] {
      if steps[0] == Take {
        ArmedByTake(s, k, t);
      } else if BySender(steps[0]) {
        ArmedBySender(s, steps[0], k, t);
      } else if ByReceiver(steps[0]) {
        ArmedByReceiver(s, steps[0], k, t);
      } else {
        ArmedByCaller(s, steps[0], k, t);
      }
      RunArmed(Do(s, steps[0]), steps[1..], k, t);
    }
  }

  // Once its timeout is set, a request has thirty seconds: whatever happens, while it still waits the timeout
  // scan can take it exactly when the scan's clock has gone past them.
  lemma ThirtySeconds(s: State, steps: seq<Step>, i: nat, now: int)
    requires Reached(s) && s.sender.Enqueued? && Named(s) && Legal(Do(s, Stamp), steps)
    requires var s' := After(Do(s, Stamp), steps);
      && Named(s') && i < |s'.p.recvq| && s'.p.recvq[i].kio == s.sender.kio
      && s'.receiver == Listening && now <= s'.clock
    ensures Enabled(After(Do(s, Stamp), steps), Expire(i, now)) <==> now > s.clock + 30
  {
    hide Reached, Legal, After, Armed, Ok, Rest, DoStamp;
    ReachedInv(s);
    StampArms(s);
    assert Do(s, Stamp) == DoStamp(s);
    hide Inv, Do;
    RunArmed(Do(s, Stamp), steps, s.sender.kio, s.clock + 30);
    ArmedExpires(After(Do(s, Stamp), steps), i, now, s.clock + 30);
  }

  lemma ArmedExpires(s: State, i: nat, now: int, t: int)
    requires Named(s) && i < |s.p.recvq| && Armed(s, s.p.recvq[i].kio, t) && s.receiver == Listening && now <= s.clock
    ensures Enabled(s, Expire(i, now)) <==> now > t
  {
    hide On;
  }
}
