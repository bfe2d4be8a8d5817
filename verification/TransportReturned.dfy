/** What the transport still does to a kio that is back with its caller. */
module TransportReturned {
  import opened Common
  import opened Places
  import opened Transport
  import opened TransportInvariant
  import opened TransportRuns

  // The step stores into the kio.
  ghost predicate Writes(s: State, step: Step, k: KioId)
    requires Named(s) && Possible(s, step)
  {
    match step
    case Submit(j, _, _) => j == k
    case Reap(j) => j == k && Done(s.p.kios[k].state)
    case ReapUnsolicited =>
      var i := FindUnsolicited(s.p, s.p.compq); i < |s.p.compq| && s.p.compq[i].kio == k
    case DrainFront(n) => Queue(s.p, n)[0].kio == k
    case DrainMatch(j, n) => j == k && FindKio(Queue(s.p, n), k) < |Queue(s.p, n)|
    case Take => s.p.sendq[0].kio == k
    case Enqueue => s.sender.kio == k && !s.p.kios[k].reqOnly
    // the timeout; then the state, the status and the error number
    case Stamp => s.sender.kio == k
    case DriverSend(_) => s.sender.kio == k
    case Pull => s.sender.kio == k && !s.p.kios[k].reqOnly
    case Finish => s.sender.kio == k
    case Respond(ack, made) =>
      if ack == -1 then made == k
      else
        var i := if ack > 0 then FindSeq(s.p, s.p.recvq, ack) else |s.p.recvq| - 1;
        i < |s.p.recvq| && s.p.recvq[i].kio == k
    case Deliver => s.receiver.kio == k
    case Expire(i, _) => s.p.recvq[i].kio == k
    case _ => false
  }

  lemma OthersStay(p: Places, name: QueueName, i: nat, st: KioState, k: KioId)
    requires QueuesNamed(p) && i < |Queue(p, name)| && Queue(p, name)[i].kio in p.kios
    requires k in p.kios && Queue(p, name)[i].kio != k
    ensures var p' := HandBack(Drop(p, name, i), Queue(p, name)[i].kio, st); k in p'.kios && p'.kios[k] == p.kios[k]
  {
  }

  // Nothing else changes it.
  lemma UnwrittenStays(s: State, step: Step, k: KioId)
    requires Inv(s) && Enabled(s, step) && k in s.p.kios && !Writes(s, step, k)
    ensures k in Do(s, step).p.kios && Do(s, step).p.kios[k] == s.p.kios[k]
  {
    if BySender(step) {
      UnwrittenBySender(s, step, k);
    } else if ByReceiver(step) {
      UnwrittenByReceiver(s, step, k);
    } else {
      UnwrittenByCallers(s, step, k);
    }
  }

  lemma UnwrittenBySender(s: State, step: Step, k: KioId)
    requires Named(s) && Enabled(s, step) && k in s.p.kios && !Writes(s, step, k) && BySender(step)
    ensures k in Do(s, step).p.kios && Do(s, step).p.kios[k] == s.p.kios[k]
  {
  }

  lemma UnwrittenByReceiver(s: State, step: Step, k: KioId)
    requires Named(s) && Enabled(s, step) && k in s.p.kios && !Writes(s, step, k) && ByReceiver(step)
    ensures k in Do(s, step).p.kios && Do(s, step).p.kios[k] == s.p.kios[k]
  {
  }

  lemma UnwrittenByCallers(s: State, step: Step, k: KioId)
    requires Inv(s) && Enabled(s, step) && k in s.p.kios && !Writes(s, step, k)
    requires !BySender(step) && !ByReceiver(step)
    ensures k in Do(s, step).p.kios && Do(s, step).p.kios[k] == s.p.kios[k]
  {
    hide Rest;
    assert Queue(s.p, CompQ) == s.p.compq;
    match step
    case Reap(j) =>
      if Done(s.p.kios[j].state) {
        FinishedIsOnCompq(s.p, Loose(s), j);
        OthersStay(s.p, CompQ, Address(s.p.compq, CompQ, s.p.kios[j].qbp), s.p.kios[j].state, k);
      }
    case ReapUnsolicited =>
      var i := FindUnsolicited(s.p, s.p.compq);
      if i < |s.p.compq| {
        OthersStay(s.p, CompQ, i, s.p.kios[s.p.compq[i].kio].state, k);
      }
    case DrainFront(n) =>
      QueuedIsNowhereElse(s.p, Loose(s), n, 0);
      OthersStay(s.p, n, 0, Failed, k);
    case DrainMatch(j, n) =>
      var i := FindKio(Queue(s.p, n), j);
      if i < |Queue(s.p, n)| {
        OthersStay(s.p, n, i, Failed, k);
      }
    case Submit(_, _, _) =>
    case SetSession(_) =>
  }

  // The sender has its name and will use it.
  predicate SenderStores(s: State, k: KioId) {
    || s.sender == Enqueued(k)
    || s.sender == Sending(k)
    || (s.sender.Returned? && s.sender.kio == k && s.receiver != Locked)
  }

  // A kio back with its caller is in no queue and in no hand.
  lemma BackIsNowhere(s: State, k: KioId)
    requires Inv(s) && k in s.p.handedBack
    ensures k in s.p.kios && k !in Loose(s)
    ensures forall n, i :: 0 <= i < |Queue(s.p, n)| ==> Queue(s.p, n)[i].kio != k
  {
    hide Rest, QueueOk;
    assert multiset(s.p.kios.Keys)[k] <= 1 && multiset(s.p.handedBack)[k] >= 1;
    forall n, i | 0 <= i < |Queue(s.p, n)| ensures Queue(s.p, n)[i].kio != k {
      QueuedIsNowhereElse(s.p, Loose(s), n, i);
    }
  }

  // Of all steps, only the sender's can store into it.
  lemma OnlySenderWrites(s: State, step: Step, k: KioId)
    requires Inv(s) && Enabled(s, step) && k in s.p.handedBack
    ensures Writes(s, step, k) ==> SenderStores(s, k) && (step == Stamp || step.DriverSend? || step == Pull)
  {
    BackIsNowhere(s, k);
    assert Queue(s.p, SendQ) == s.p.sendq && Queue(s.p, RecvQ) == s.p.recvq && Queue(s.p, CompQ) == s.p.compq;
    hide Ok, Rest;
  }

  lemma SenderWrites(s: State, k: KioId)
    requires Inv(s) && k in s.p.handedBack && SenderStores(s, k)
    ensures exists step :: Enabled(s, step) && Writes(s, step, k)
  {
    BackIsNowhere(s, k);
    assert Named(s) && !s.p.kios[k].reqOnly;
    hide Inv, Loose;
    NextStore(s, k);
  }

  function StoreOf(sender: Sender): Step {
    if sender.Enqueued? then Stamp else if sender.Sending? then DriverSend(true) else Pull
  }

  lemma NextStore(s: State, k: KioId)
    requires Named(s) && SenderStores(s, k) && k in s.p.kios && !s.p.kios[k].reqOnly
    ensures Enabled(s, StoreOf(s.sender)) && Writes(s, StoreOf(s.sender), k)
  {
  }

  ghost predicate Apart(s: State, k: KioId) {
    k in s.p.handedBack && !SenderStores(s, k)
  }

  lemma BackStaysBack(s: State, step: Step, k: KioId)
    requires Named(s) && Enabled(s, step) && k in s.p.handedBack
    ensures k in Do(s, step).p.handedBack
  {
  }

  lemma StepApart(s: State, step: Step, k: KioId)
    requires Inv(s) && Enabled(s, step) && Apart(s, k)
    ensures Apart(Do(s, step), k) && !Writes(s, step, k)
  {
    OnlySenderWrites(s, step, k);
    BackStaysBack(s, step, k);
    BackIsNowhere(s, k);
    assert Named(s) && (s.sender.Taken? ==> s.sender.kio != k);
    hide Inv, Do, Enabled, Writes, SenderStores, Loose;
    StaysAway(s, step, k);
  }

  // The sender comes to store into a kio only by way of taking it from its queue.
  lemma StaysAway(s: State, step: Step, k: KioId)
    requires Named(s) && Enabled(s, step) && !SenderStores(s, k) && (s.sender.Taken? ==> s.sender.kio != k)
    ensures !SenderStores(Do(s, step), k)
  {
  }

  lemma {:induction false} RunApart(s: State, steps: seq<Step>, k: KioId)
    requires Inv(s) && Legal(s, steps) && Guarded(s, steps) && Apart(s, k)
    ensures Inv(After(s, steps)) && Apart(After(s, steps), k)
    decreases |steps|
  {
    hide Inv, Apart;
    if steps != [] {
      StepApart(s, steps[0], k);
      StepInv(s, steps[0]);
      RunApart(Do(s, steps[0]), steps[1..], k);
    }
  }

  // No step of any schedule from here on stores into the kio.
  ghost predicate NeverWritten(s: State, k: KioId) {
    forall steps, step :: NextIn(s, steps, step) ==> !Writes(After(s, steps), step, k)
  }

  ghost predicate NextIn(s: State, steps: seq<Step>, step: Step) {
    Legal(s, steps) && Guarded(s, steps) && Named(After(s, steps)) && Enabled(After(s, steps), step)
  }

  // A kio handed back is its caller's alone exactly when the sender is not between putting it on the receive
  // queue and being done with it.
  lemma NeverWrittenIff(s: State, k: KioId)
    requires Inv(s) && k in s.p.handedBack
    ensures NeverWritten(s, k) <==> !SenderStores(s, k)
  {
    if SenderStores(s, k) {
      SenderWrites(s, k);
      var step :| Enabled(s, step) && Writes(s, step, k);
      assert Legal(s, []) && Guarded(s, []) && After(s, []) == s;
      assert NextIn(s, [], step);
    } else {
      hide Inv, Writes;
      forall steps, step | NextIn(s, steps, step) ensures !Writes(After(s, steps), step, k) {
        RunApart(s, steps, k);
        StepApart(After(s, steps), step, k);
      }
    }
  }
}
