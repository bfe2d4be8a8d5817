/** What a response does, and what becomes of a request from its submission to its return. */
module TransportAnswers {
  import opened Common
  import opened Places
  import opened Transport
  import opened TransportInvariant
  import opened TransportRuns

  // --- one response ---

  // Kio k leaves the receive queue for the receiver's hand with the response on it; nothing else changes.
  ghost predicate Answered(s: State, s': State, i: nat, ack: int)
    requires i < |s.p.recvq| && s.p.recvq[i].kio in s.p.kios
  {
    var k := s.p.recvq[i].kio;
    s' == s.(receiver := Holding(k),
             p := s.p.(recvq := s.p.recvq[..i] + s.p.recvq[i + 1..],
                       kios := s.p.kios[k := s.p.kios[k].(qbp := None, answer := Some(ack))]))
  }

  lemma MatchAnswered(s: State, i: nat, ack: int)
    requires i < |s.p.recvq| && s.p.recvq[i].kio in s.p.kios
    ensures Answered(s, DoMatch(s, i, ack), i, ack)
  {
    var k := s.p.recvq[i].kio;
    assert DoMatch(s, i, ack).p.kios == s.p.kios[k := s.p.kios[k].(qbp := None, answer := Some(ack))];
  }

  // The response to a request that waits finds it, wherever it is in the queue and whatever else waits.
  lemma ResponseFinds(s: State, i: nat, made: KioId)
    requires Reached(s) && s.receiver == Listening && i < |s.p.recvq|
    ensures s.p.recvq[i].kio in s.p.kios && Named(s)
    ensures var a := s.p.kios[s.p.recvq[i].kio].sequence;
      Enabled(s, Respond(a, made)) && Answered(s, Do(s, Respond(a, made)), i, a)
  {
    hide Inv;
    ReachedInv(s);
    NumberFinds(s, i, made);
  }

  lemma NumberFinds(s: State, i: nat, made: KioId)
    requires Inv(s) && s.receiver == Listening && i < |s.p.recvq|
    ensures s.p.recvq[i].kio in s.p.kios && Named(s)
    ensures var a := s.p.kios[s.p.recvq[i].kio].sequence;
      a > 0 && Enabled(s, Respond(a, made)) && Answered(s, Do(s, Respond(a, made)), i, a)
  {
    hide Rest, Ok, Answered, DoMatch;
    QueueNumbers(s);
    hide Inv;
    var a := s.p.kios[s.p.recvq[i].kio].sequence;
    FindsIt(s, i);
    MatchAnswered(s, i, a);
  }

  lemma FindsIt(s: State, i: nat)
    requires Named(s) && i < |s.p.recvq|
    requires forall m, n :: 0 <= m < n < |s.p.recvq| ==>
      s.p.kios[s.p.recvq[m].kio].sequence < s.p.kios[s.p.recvq[n].kio].sequence
    ensures FindSeq(s.p, s.p.recvq, s.p.kios[s.p.recvq[i].kio].sequence) == i
  {
  }

  // What a response does with any other acknowledged sequence: a positive one that nobody waits for changes
  // nothing, -1 makes a kio of its own, and 0 or below -1 goes to the last kio that waits.
  lemma OtherResponses(s: State, ack: int, made: KioId)
    requires Reached(s) && s.receiver == Listening
    ensures Named(s)
    ensures ack > 0 && (forall i :: 0 <= i < |s.p.recvq| ==> s.p.kios[s.p.recvq[i].kio].sequence != ack) ==>
      Enabled(s, Respond(ack, made)) && Do(s, Respond(ack, made)) == s
    ensures ack == -1 && made !in s.p.kios ==>
      && Enabled(s, Respond(ack, made))
      && Do(s, Respond(ack, made)) == s.(
           receiver := Holding(made),
           p := s.p.(kios := s.p.kios[made := Kio(New, -1, false, false, 0, None, Some(-1))]))
    ensures (ack == 0 || ack < -1) && s.p.recvq != [] ==>
      Enabled(s, Respond(ack, made)) && Answered(s, Do(s, Respond(ack, made)), |s.p.recvq| - 1, ack)
  {
    RecvqOrder(s);
    if (ack == 0 || ack < -1) && s.p.recvq != [] {
      MatchAnswered(s, |s.p.recvq| - 1, ack);
    }
  }

  // --- messages nobody asked for ---

  // A caller that asks for an unsolicited message gets the first completed kio without a request, and nothing
  // happens when there is none.
  lemma UnsolicitedLeaves(s: State, i: nat)
    requires Named(s) && i <= |s.p.compq|
    requires forall j :: 0 <= j < i ==> s.p.kios[s.p.compq[j].kio].hasRequest
    requires i < |s.p.compq| ==> !s.p.kios[s.p.compq[i].kio].hasRequest
    ensures Enabled(s, ReapUnsolicited)
    ensures i == |s.p.compq| ==> Do(s, ReapUnsolicited) == s
    ensures i < |s.p.compq| ==>
      var k := s.p.compq[i].kio;
      Do(s, ReapUnsolicited) == s.(p := s.p.(compq := s.p.compq[..i] + s.p.compq[i + 1..],
                                             kios := s.p.kios[k := s.p.kios[k].(qbp := None)],
                                             handedBack := s.p.handedBack + [k]))
  {
    var f := FindUnsolicited(s.p, s.p.compq);
    assert f == i;
    if i < |s.p.compq| {
      var k := s.p.compq[i].kio;
      assert Do(s, ReapUnsolicited).p.kios == s.p.kios[k := s.p.kios[k].(qbp := None)];
    }
  }
}
