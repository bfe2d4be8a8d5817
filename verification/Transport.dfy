/**
 The KTLI transport as a transition system.

 One sender thread, one receiver thread and any number of API callers work on one session.
 An atomic step is what one of them does while it holds a queue lock, or one store to a field
 that nobody guards. A schedule is a list of such steps; everything proved here holds for every
 schedule, so for every interleaving.
 */
module Transport {
  import opened Common
  import opened Places

  const FIRST_SEQUENCE := 100
  const KIO_TIMEOUT_S := 30

  datatype SessionState = Unknown | Opened | Connected | Aborted | Draining

  // Where ktli_sender stands. From Enqueued on, a request that wants a response is already on
  // the receive queue: the sender only keeps its name.
  datatype Sender =
    | Waiting
    | Taken(kio: KioId)
    | Enqueued(kio: KioId)
    | Sending(kio: KioId)
    | Returned(kio: KioId, ok: bool)
    | Finishing(kio: KioId, outcome: KioState)

  // Where ktli_receiver and ktli_recvmsg stand. The abort path locks the receive queue under two names;
  // once it has done so it waits for itself, with the queue locked.
  datatype Receiver =
    | Listening
    | Holding(kio: KioId)
    | HungUp
    | Locked

  datatype State = State(
    session: SessionState,
    p: Places,
    sender: Sender,
    receiver: Receiver,
    nextSeq: int,
    clock: int,
    assertFired: bool,     // one of the asserts in ktli_receive failed
    // history, never read by the program
    accepted: seq<Cell>,   // what ktli_send queued, in order
    taken: seq<Cell>,      // what the sender numbered, in order
    wire: seq<Cell>,       // what reached the driver's send, in order
    unsentDrained: nat     // how many were drained before they were taken
  )

  datatype Step =
    // API callers
    | Submit(k: KioId, reqOnly: bool, oldTimeout: int)
    | Reap(k: KioId)
    | ReapUnsolicited
    | DrainFront(name: QueueName)
    | DrainMatch(k: KioId, name: QueueName)
    | SetSession(st: SessionState)
    // the sender thread
    | Take
    | Enqueue
    | Stamp
    | DriverSend(ok: bool)
    | Pull
    | Finish
    // the receiver thread
    | Respond(ack: int, made: KioId)
    | Deliver
    | Expire(i: nat, now: int)
    | HangUp
    | HangUpDisconnect(ok: bool)
    // time passes
    | Tick(t: int)

  const EMPTY := Places([], [], [], map[], [], 0)

  const INIT := State(Opened, EMPTY, Waiting, Listening, FIRST_SEQUENCE, 0, false, [], [], [], 0)

  // Where list_setcurr finds the element at address ref, |q| if it is not in this list.
  function Address(q: seq<Cell>, name: QueueName, ref: Option<CellRef>): (i: nat)
    ensures i <= |q|
  {
    if ref.Some? && ref.value.queue == name then Find(q, ref.value.id) else |q|
  }

  // The first element a list_traverse stops at, |q| for LIST_EXTENT and LIST_EMPTY.
  function FindKio(q: seq<Cell>, k: KioId): (i: nat)
    ensures i <= |q|
    ensures i < |q| ==> q[i].kio == k
    ensures forall j :: 0 <= j < i ==> q[j].kio != k
  {
    if q == [] then 0 else if q[0].kio == k then 0 else 1 + FindKio(q[1..], k)
  }

  function FindSeq(p: Places, q: seq<Cell>, a: int): (i: nat)
    requires forall j :: 0 <= j < |q| ==> q[j].kio in p.kios
    ensures i <= |q|
    ensures i < |q| ==> p.kios[q[i].kio].sequence == a
    ensures forall j :: 0 <= j < i ==> p.kios[q[j].kio].sequence != a
  {
    if q == [] then 0 else if p.kios[q[0].kio].sequence == a then 0 else 1 + FindSeq(p, q[1..], a)
  }

  function FindUnsolicited(p: Places, q: seq<Cell>): (i: nat)
    requires forall j :: 0 <= j < |q| ==> q[j].kio in p.kios
    ensures i <= |q|
    ensures i < |q| ==> !p.kios[q[i].kio].hasRequest
    ensures forall j :: 0 <= j < i ==> p.kios[q[j].kio].hasRequest
  {
    if q == [] then 0 else if !p.kios[q[0].kio].hasRequest then 0 else 1 + FindUnsolicited(p, q[1..])
  }

  // Every name in a queue or in a hand is the name of a kio.
  ghost predicate Named(s: State) {
    && QueuesNamed(s.p)
    && (s.sender != Waiting ==> s.sender.kio in s.p.kios)
    && (s.receiver.Holding? ==> s.receiver.kio in s.p.kios)
  }

  // The steps of other threads that lock the receive queue
  ghost predicate LocksRecvq(s: State, step: Step)
    requires Named(s)
  {
    match step
    case Enqueue => s.sender.Taken? && !s.p.kios[s.sender.kio].reqOnly
    case Pull => s.sender.Returned? && !s.p.kios[s.sender.kio].reqOnly
    case DrainFront(n) => n == RecvQ
    case DrainMatch(_, n) => n == RecvQ
    case _ => false
  }

  ghost predicate Enabled(s: State, step: Step)
    requires Named(s)
  {
    (s.receiver == Locked ==> !LocksRecvq(s, step)) && Possible(s, step)
  }

  ghost predicate Possible(s: State, step: Step)
    requires Named(s)
  {
    match step
    // ktli_send assumes the kio is not with the transport; a name stands for one submission
    case Submit(k, _, _) => k !in s.p.kios
    // a caller waits for a kio it sent and has not got back
    case Reap(k) => k in s.p.kios && k !in s.p.handedBack
    case ReapUnsolicited => true
    case DrainFront(n) => Queue(s.p, n) != []
    case DrainMatch(k, n) => k in s.p.kios
    case SetSession(_) => true
    case Take => s.sender == Waiting && s.p.sendq != []
    case Enqueue => s.sender.Taken?
    case Stamp => s.sender.Enqueued?
    case DriverSend(_) => s.sender.Sending?
    case Pull => s.sender.Returned?
    case Finish => s.sender.Finishing?
    case Respond(ack, made) =>
      && s.receiver == Listening
      && (ack == -1 ==> made !in s.p.kios)
      // an ack of 0 (ki_getaseq failed) skips the search and takes the element under the cursor; with
      // nothing on the queue the program follows a null pointer
      && (ack <= 0 && ack != -1 ==> s.p.recvq != [])
    case Deliver => s.receiver.Holding?
    case Expire(i, now) =>
      && s.receiver == Listening
      && i < |s.p.recvq| && now <= s.clock && s.p.kios[s.p.recvq[i].kio].timeout < now
    case HangUp => s.receiver == Listening
    case HangUpDisconnect(_) => s.receiver == HungUp
    case Tick(t) => s.clock <= t
  }

  function DoSubmit(s: State, k: KioId, reqOnly: bool, oldTimeout: int): State {
    var kio := Kio(New, 0, reqOnly, true, oldTimeout, None, None);
    s.(p := Push(Admit(s.p, k, kio), SendQ, k, New), accepted := s.accepted + [Cell(s.p.nextCell, k)])
  }

  function DoTake(s: State): State
    requires s.p.sendq != [] && s.p.sendq[0].kio in s.p.kios
  {
    var k := s.p.sendq[0].kio;
    var p := Drop(s.p, SendQ, 0);
    s.(p := p.(kios := p.kios[k := p.kios[k].(sequence := s.nextSeq)]),
       sender := Taken(k), nextSeq := s.nextSeq + 1, taken := s.taken + [s.p.sendq[0]])
  }

  function DoEnqueue(s: State): State
    requires s.sender.Taken? && s.sender.kio in s.p.kios
  {
    var k := s.sender.kio;
    s.(p := if s.p.kios[k].reqOnly then s.p else Push(s.p, RecvQ, k, s.p.kios[k].state),
       sender := Enqueued(k))
  }

  function DoStamp(s: State): State
    requires s.sender.Enqueued? && s.sender.kio in s.p.kios
  {
    var k := s.sender.kio;
    s.(p := s.p.(kios := s.p.kios[k := s.p.kios[k].(timeout := s.clock + KIO_TIMEOUT_S)]), sender := Sending(k))
  }

  // The driver's send returns; SBCAS turns NEW into SENT and leaves any other state alone.
  function DoDriverSend(s: State, ok: bool): State
    requires s.sender.Sending? && s.sender.kio in s.p.kios
  {
    var k := s.sender.kio;
    var st := if s.p.kios[k].state == New then Sent else s.p.kios[k].state;
    s.(p := s.p.(kios := s.p.kios[k := s.p.kios[k].(state := st)]),
       sender := if ok && !s.p.kios[k].reqOnly then Waiting else Returned(k, ok),
       wire := s.wire + (if s.taken == [] then [] else [s.taken[|s.taken| - 1]]))
  }

  // A request that failed is taken off the receive queue by its back pointer. When list_setcurr
  // does not find it there, the cursor stays at the rear and list_remove_curr takes that element.
  function DoPull(s: State): State
    requires s.sender.Returned? && s.sender.kio in s.p.kios
  {
    var k := s.sender.kio;
    if s.p.kios[k].reqOnly then
      s.(sender := Finishing(k, if s.sender.ok then Received else Failed))
    else
      var q := s.p.recvq;
      var i := Address(q, RecvQ, s.p.kios[k].qbp);
      var rest := if i < |q| then Without(q, i) else if q != [] then Without(q, |q| - 1) else [];
      s.(p := s.p.(recvq := rest, kios := s.p.kios[k := s.p.kios[k].(qbp := None)]),
         sender := Finishing(k, Failed))
  }

  function DoFinish(s: State): State
    requires s.sender.Finishing? && s.sender.kio in s.p.kios
  {
    s.(p := Push(s.p, CompQ, s.sender.kio, s.sender.outcome), sender := Waiting)
  }

  // The response in p goes onto the i-th waiting kio, which the receiver takes in hand.
  function DoMatch(s: State, i: nat, ack: int): State
    requires i < |s.p.recvq| && s.p.recvq[i].kio in s.p.kios
  {
    var k := s.p.recvq[i].kio;
    var p := Drop(s.p, RecvQ, i);
    s.(p := p.(kios := p.kios[k := p.kios[k].(answer := Some(ack))]), receiver := Holding(k))
  }

  function DoRespond(s: State, ack: int, made: KioId): State
    requires Named(s)
    requires ack <= 0 && ack != -1 ==> s.p.recvq != []
  {
    if ack > 0 then
      var i := FindSeq(s.p, s.p.recvq, ack);
      if i < |s.p.recvq| then DoMatch(s, i, ack) else s   // a late response is tossed
    else if ack == -1 then
      s.(p := Admit(s.p, made, Kio(New, -1, false, false, 0, None, Some(-1))), receiver := Holding(made))
    else
      DoMatch(s, |s.p.recvq| - 1, ack)
  }

  function DoDeliver(s: State): State
    requires s.receiver.Holding? && s.receiver.kio in s.p.kios
  {
    s.(p := Push(s.p, CompQ, s.receiver.kio, Received), receiver := Listening)
  }

  // The i-th waiting kio goes to the completion queue in state st.
  function MoveToComp(p: Places, i: nat, st: KioState): Places
    requires i < |p.recvq| && p.recvq[i].kio in p.kios
  {
    Push(Drop(p, RecvQ, i), CompQ, p.recvq[i].kio, st)
  }

  function DoReap(s: State, k: KioId): State
    requires Named(s) && k in s.p.kios
  {
    if !Done(s.p.kios[k].state) then s   // ENOENT
    else
      var i := Address(s.p.compq, CompQ, s.p.kios[k].qbp);
      if i == |s.p.compq| then s.(assertFired := true)
      else
        s.(p := HandBack(Drop(s.p, CompQ, i), k, s.p.kios[k].state),
           assertFired := s.assertFired || s.p.compq[i].kio != k)
  }

  function DoReapUnsolicited(s: State): State
    requires Named(s)
  {
    var i := FindUnsolicited(s.p, s.p.compq);
    if i == |s.p.compq| then s
    else s.(p := HandBack(Drop(s.p, CompQ, i), s.p.compq[i].kio, s.p.kios[s.p.compq[i].kio].state))
  }

  // One kio leaves a queue for the caller, marked FAILED.
  function DrainAt(s: State, n: QueueName, i: nat): State
    requires i < |Queue(s.p, n)| && Queue(s.p, n)[i].kio in s.p.kios
  {
    s.(p := HandBack(Drop(s.p, n, i), Queue(s.p, n)[i].kio, Failed),
       unsentDrained := s.unsentDrained + if n == SendQ then 1 else 0)
  }

  function Do(s: State, step: Step): State
    requires Named(s) && Enabled(s, step)
  {
    match step
    case Submit(k, reqOnly, oldTimeout) => DoSubmit(s, k, reqOnly, oldTimeout)
    case Reap(k) => DoReap(s, k)
    case ReapUnsolicited => DoReapUnsolicited(s)
    case DrainFront(n) => DrainAt(s, n, 0)
    case DrainMatch(k, n) =>
      var i := FindKio(Queue(s.p, n), k);
      if i < |Queue(s.p, n)| then DrainAt(s, n, i) else s
    case SetSession(st) => s.(session := st)
    case Take => DoTake(s)
    case Enqueue => DoEnqueue(s)
    case Stamp => DoStamp(s)
    case DriverSend(ok) => DoDriverSend(s, ok)
    case Pull => DoPull(s)
    case Finish => DoFinish(s)
    case Respond(ack, made) => DoRespond(s, ack, made)
    case Deliver => DoDeliver(s)
    case Expire(i, now) => s.(p := MoveToComp(s.p, i, TimedOut))
    case HangUp => s.(session := Aborted, receiver := HungUp)
    case HangUpDisconnect(ok) =>
      s.(session := if ok && (s.session == Connected || s.session == Aborted) then Draining else s.session,
         receiver := Locked)
    case Tick(t) => s.(clock := t)
  }
}
