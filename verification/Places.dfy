/**
 The queues of a KTLI session and the kios they hold.

 A session owns three lists (send, receive and completion queue). A list element is a
 cell with its own identity; each kio carries a back pointer to the cell it sits in.
 Everything here is about places: where a kio is, what its state and back pointer say,
 and that moving one kio never disturbs another.
 */
module Places {
  import opened Common

  // A kio is named by the submission (or the unsolicited message) that brought it in.
  type KioId = nat

  datatype KioState = New | Sent | Received | Failed | TimedOut

  datatype QueueName = SendQ | RecvQ | CompQ

  // The address of a list element.
  datatype CellRef = CellRef(queue: QueueName, id: nat)

  datatype Cell = Cell(id: nat, kio: KioId)

  datatype Kio = Kio(
    state: KioState,
    sequence: int,
    reqOnly: bool,          // KIOF_REQONLY
    hasRequest: bool,       // kio_sendmsg.km_cnt != 0
    timeout: int,           // kio_timeout.tv_sec
    qbp: Option<CellRef>,
    answer: Option<int>     // acknowledged sequence of the response hung on the kio
  )

  datatype Places = Places(
    sendq: seq<Cell>,
    recvq: seq<Cell>,
    compq: seq<Cell>,
    kios: map<KioId, Kio>,
    handedBack: seq<KioId>, // in the order they left the transport
    nextCell: nat
  )

  predicate Done(st: KioState) {
    st == Received || st == Failed || st == TimedOut
  }

  function Queue(p: Places, name: QueueName): seq<Cell> {
    match name
    case SendQ => p.sendq
    case RecvQ => p.recvq
    case CompQ => p.compq
  }

  function WithQueue(p: Places, name: QueueName, q: seq<Cell>): Places {
    match name
    case SendQ => p.(sendq := q)
    case RecvQ => p.(recvq := q)
    case CompQ => p.(compq := q)
  }

  function Without(q: seq<Cell>, i: nat): seq<Cell>
    requires i < |q|
  {
    q[..i] + q[i + 1..]
  }

  function Names(q: seq<Cell>): seq<KioId> {
    seq(|q|, i requires 0 <= i < |q| => q[i].kio)
  }

  function Bag(q: seq<Cell>): multiset<KioId> {
    multiset(Names(q))
  }

  // list_mvrear, list_insert_after, then the back pointer and the state
  function Push(p: Places, name: QueueName, k: KioId, st: KioState): Places
    requires k in p.kios
  {
    WithQueue(p, name, Queue(p, name) + [Cell(p.nextCell, k)]).(
      kios := p.kios[k := p.kios[k].(qbp := Some(CellRef(name, p.nextCell)), state := st)],
      nextCell := p.nextCell + 1)
  }

  // list_remove_curr or list_remove_front, then the back pointer is cleared
  function Drop(p: Places, name: QueueName, i: nat): Places
    requires i < |Queue(p, name)| && Queue(p, name)[i].kio in p.kios
  {
    var k := Queue(p, name)[i].kio;
    WithQueue(p, name, Without(Queue(p, name), i)).(kios := p.kios[k := p.kios[k].(qbp := None)])
  }

  // Control of the kio returns to the caller, in state st.
  function HandBack(p: Places, k: KioId, st: KioState): Places
    requires k in p.kios
  {
    p.(kios := p.kios[k := p.kios[k].(state := st)], handedBack := p.handedBack + [k])
  }

  // A kio enters the transport (or is made by the receiver for an unsolicited message).
  function Admit(p: Places, k: KioId, kio: Kio): Places {
    p.(kios := p.kios[k := kio])
  }

  // Where the search for a cell by its address ends; |q| when no cell has it (list_setcurr failing).
  function Find(q: seq<Cell>, id: nat): (i: nat)
    ensures i <= |q|
    ensures i < |q| ==> q[i].id == id
    ensures forall j :: 0 <= j < i ==> q[j].id != id
  {
    if q == [] then 0 else if q[0].id == id then 0 else 1 + Find(q[1..], id)
  }

  predicate StateFits(name: QueueName, st: KioState) {
    match name
    case SendQ => st == New
    case RecvQ => st == New || st == Sent
    case CompQ => Done(st)
  }

  ghost predicate QueuesNamed(p: Places) {
    && (forall i :: 0 <= i < |p.sendq| ==> p.sendq[i].kio in p.kios)
    && (forall i :: 0 <= i < |p.recvq| ==> p.recvq[i].kio in p.kios)
    && (forall i :: 0 <= i < |p.compq| ==> p.compq[i].kio in p.kios)
  }

  ghost predicate QueueOk(p: Places, name: QueueName) {
    var q := Queue(p, name);
    && (forall i :: 0 <= i < |q| ==>
          && q[i].id < p.nextCell
          && q[i].kio in p.kios
          && p.kios[q[i].kio].qbp == Some(CellRef(name, q[i].id))
          && StateFits(name, p.kios[q[i].kio].state))
    && (forall i, j :: 0 <= i < j < |q| ==> q[i].id < q[j].id)
  }

  // Every kio is in exactly one place: one cell of one queue, handed back, or loose in some hand.
  ghost predicate OnePlace(p: Places, loose: multiset<KioId>) {
    Bag(p.sendq) + Bag(p.recvq) + Bag(p.compq) + multiset(p.handedBack) + loose == multiset(p.kios.Keys)
  }

  ghost predicate Ok(p: Places, loose: multiset<KioId>) {
    && OnePlace(p, loose)
    && QueueOk(p, SendQ) && QueueOk(p, RecvQ) && QueueOk(p, CompQ)
    && (forall k :: k in loose ==> k in p.kios && p.kios[k].qbp == None && !Done(p.kios[k].state))
    && (forall k :: k in p.handedBack ==> k in p.kios && p.kios[k].qbp == None && Done(p.kios[k].state))
  }

  lemma BagAppend(q: seq<Cell>, c: Cell)
    ensures Bag(q + [c]) == Bag(q) + multiset{c.kio}
  {
    assert Names(q + [c]) == Names(q) + [c.kio];
  }

  lemma BagWithout(q: seq<Cell>, i: nat)
    requires i < |q|
    ensures Bag(q) == Bag(Without(q, i)) + multiset{q[i].kio}
  {
    assert Names(q) == Names(q)[..i] + [q[i].kio] + Names(q)[i + 1..];
    assert Names(Without(q, i)) == Names(q)[..i] + Names(q)[i + 1..];
  }

  lemma InBag(q: seq<Cell>, i: nat)
    requires i < |q|
    ensures q[i].kio in Bag(q)
  {
    assert Names(q)[i] == q[i].kio;
  }

  lemma BagNamesACell(q: seq<Cell>, k: KioId)
    requires k in Bag(q)
    ensures exists i :: 0 <= i < |q| && q[i].kio == k
  {
    var i :| 0 <= i < |Names(q)| && Names(q)[i] == k;
    assert q[i].kio == k;
  }

  // A loose kio sits in no queue and has not been handed back.
  lemma LooseIsNowhereElse(p: Places, loose: multiset<KioId>, k: KioId)
    requires OnePlace(p, loose) && k in loose
    ensures k in p.kios && loose[k] == 1 && k !in p.handedBack
    ensures forall n, i :: 0 <= i < |Queue(p, n)| ==> Queue(p, n)[i].kio != k
  {
    assert multiset(p.kios.Keys)[k] <= 1;
    forall n, i | 0 <= i < |Queue(p, n)|
      ensures Queue(p, n)[i].kio != k
    {
      InBag(Queue(p, n), i);
    }
  }

  // A queued kio sits in that cell only.
  lemma QueuedIsNowhereElse(p: Places, loose: multiset<KioId>, name: QueueName, i: nat)
    requires OnePlace(p, loose) && i < |Queue(p, name)|
    ensures Queue(p, name)[i].kio in p.kios
    ensures Queue(p, name)[i].kio !in p.handedBack && Queue(p, name)[i].kio !in loose
    ensures forall n, j :: 0 <= j < |Queue(p, n)| && (n != name || j != i) ==>
      Queue(p, n)[j].kio != Queue(p, name)[i].kio
  {
    var k := Queue(p, name)[i].kio;
    InBag(Queue(p, name), i);
    assert multiset(p.kios.Keys)[k] <= 1;
    forall n, j | 0 <= j < |Queue(p, n)| && (n != name || j != i)
      ensures Queue(p, n)[j].kio != k
    {
      if n == name {
        var rest := Without(Queue(p, name), i);
        BagWithout(Queue(p, name), i);
        var at: nat := if j < i then j else j - 1;
        assert rest[at] == Queue(p, name)[j];
        InBag(rest, at);
      } else {
        InBag(Queue(p, n), j);
      }
    }
  }

  // A queue that one change does not touch stays in order.
  lemma QueueFrame(p: Places, p': Places, n: QueueName, k: KioId)
    requires QueueOk(p, n)
    requires Queue(p', n) == Queue(p, n) && p.nextCell <= p'.nextCell
    requires forall j :: j in p.kios && j != k ==> j in p'.kios && p'.kios[j] == p.kios[j]
    requires forall i :: 0 <= i < |Queue(p, n)| ==> Queue(p, n)[i].kio != k
    ensures QueueOk(p', n)
  {
  }

  lemma PushQueueOk(p: Places, name: QueueName, k: KioId, st: KioState)
    requires QueueOk(p, name) && k in p.kios && StateFits(name, st)
    requires forall i :: 0 <= i < |Queue(p, name)| ==> Queue(p, name)[i].kio != k
    ensures QueueOk(Push(p, name, k, st), name)
  {
    var p' := Push(p, name, k, st);
    assert Queue(p', name) == Queue(p, name) + [Cell(p.nextCell, k)];
    assert forall j :: j in p.kios && j != k ==> p'.kios[j] == p.kios[j];
  }

  lemma PushOnePlace(p: Places, loose: multiset<KioId>, name: QueueName, k: KioId, st: KioState)
    requires OnePlace(p, loose) && k in loose && k in p.kios
    ensures OnePlace(Push(p, name, k, st), loose - multiset{k})
  {
    BagAppend(Queue(p, name), Cell(p.nextCell, k));
    assert loose == (loose - multiset{k}) + multiset{k};
    assert Push(p, name, k, st).kios.Keys == p.kios.Keys;
  }

  // The kio in hand goes to the rear of a queue.
  lemma PushOk(p: Places, loose: multiset<KioId>, name: QueueName, k: KioId, st: KioState)
    requires Ok(p, loose) && k in loose && StateFits(name, st)
    ensures Ok(Push(p, name, k, st), loose - multiset{k})
  {
    hide QueueOk, OnePlace;
    LooseIsNowhereElse(p, loose, k);
    PushOnePlace(p, loose, name, k, st);
    PushQueueOk(p, name, k, st);
    forall n | n != name ensures QueueOk(Push(p, name, k, st), n) {
      QueueFrame(p, Push(p, name, k, st), n, k);
    }
  }

  lemma DropQueueOk(p: Places, name: QueueName, i: nat, p': Places)
    requires QueueOk(p, name) && i < |Queue(p, name)|
    requires Queue(p', name) == Without(Queue(p, name), i) && p'.nextCell == p.nextCell
    requires forall j :: j in p.kios && j != Queue(p, name)[i].kio ==> j in p'.kios && p'.kios[j] == p.kios[j]
    requires forall j :: 0 <= j < |Queue(p, name)| && j != i ==> Queue(p, name)[j].kio != Queue(p, name)[i].kio
    ensures QueueOk(p', name)
  {
    assert forall j :: 0 <= j < |Queue(p', name)| ==> Queue(p', name)[j] == Queue(p, name)[if j >= i then j + 1 else j];
  }

  lemma DropOnePlace(p: Places, loose: multiset<KioId>, name: QueueName, i: nat)
    requires OnePlace(p, loose) && i < |Queue(p, name)| && Queue(p, name)[i].kio in p.kios
    ensures OnePlace(Drop(p, name, i), loose + multiset{Queue(p, name)[i].kio})
  {
    BagWithout(Queue(p, name), i);
    assert Drop(p, name, i).kios.Keys == p.kios.Keys;
  }

  // The i-th kio of the send or receive queue goes into a hand.
  lemma DropOk(p: Places, loose: multiset<KioId>, name: QueueName, i: nat)
    requires Ok(p, loose) && i < |Queue(p, name)| && name != CompQ
    ensures Queue(p, name)[i].kio in p.kios
    ensures Ok(Drop(p, name, i), loose + multiset{Queue(p, name)[i].kio})
  {
    hide QueueOk, OnePlace;
    QueuedIsNowhereElse(p, loose, name, i);
    DropOnePlace(p, loose, name, i);
    var p' := Drop(p, name, i);
    DropQueueOk(p, name, i, p');
    forall n | n != name ensures QueueOk(p', n) {
      QueueFrame(p, p', n, Queue(p, name)[i].kio);
    }
    NotDone(p, name, i);
  }

  lemma NotDone(p: Places, name: QueueName, i: nat)
    requires QueueOk(p, name) && i < |Queue(p, name)| && name != CompQ
    ensures Queue(p, name)[i].kio in p.kios && !Done(p.kios[Queue(p, name)[i].kio].state)
  {
  }

  lemma HandBackOnePlace(p: Places, loose: multiset<KioId>, k: KioId, st: KioState)
    requires OnePlace(p, loose + multiset{k}) && k in p.kios
    ensures OnePlace(HandBack(p, k, st), loose)
  {
    assert multiset(p.handedBack + [k]) == multiset(p.handedBack) + multiset{k};
    assert HandBack(p, k, st).kios.Keys == p.kios.Keys;
  }

  // The i-th kio of any queue goes back to the caller.
  lemma HandBackOk(p: Places, loose: multiset<KioId>, name: QueueName, i: nat, st: KioState)
    requires Ok(p, loose) && i < |Queue(p, name)| && Done(st)
    ensures Queue(p, name)[i].kio in p.kios
    ensures Ok(HandBack(Drop(p, name, i), Queue(p, name)[i].kio, st), loose)
  {
    hide QueueOk, OnePlace;
    var k := Queue(p, name)[i].kio;
    QueuedIsNowhereElse(p, loose, name, i);
    DropOnePlace(p, loose, name, i);
    HandBackOnePlace(Drop(p, name, i), loose, k, st);
    var p' := HandBack(Drop(p, name, i), k, st);
    DropQueueOk(p, name, i, p');
    forall n | n != name ensures QueueOk(p', n) {
      QueueFrame(p, p', n, k);
    }
  }

  lemma AdmitOnePlace(p: Places, loose: multiset<KioId>, k: KioId, kio: Kio)
    requires OnePlace(p, loose) && k !in p.kios
    ensures OnePlace(Admit(p, k, kio), loose + multiset{k})
  {
    assert Admit(p, k, kio).kios.Keys == p.kios.Keys + {k};
    assert multiset(p.kios.Keys + {k}) == multiset(p.kios.Keys) + multiset{k};
  }

  lemma AdmitOk(p: Places, loose: multiset<KioId>, k: KioId, kio: Kio)
    requires Ok(p, loose) && k !in p.kios
    requires kio.qbp == None && !Done(kio.state)
    ensures Ok(Admit(p, k, kio), loose + multiset{k})
  {
    AdmitOnePlace(p, loose, k, kio);
    forall n ensures QueueOk(Admit(p, k, kio), n) {
      QueueFrame(p, Admit(p, k, kio), n, k);
    }
  }

  ghost predicate Touches(p: Places, k: KioId, kio: Kio) {
    && k in p.kios
    && kio.qbp == p.kios[k].qbp
    && (kio.state == p.kios[k].state || (p.kios[k].state == New && kio.state == Sent))
    && (kio.state != p.kios[k].state ==> forall i :: 0 <= i < |p.sendq| ==> p.sendq[i].kio != k)
  }

  lemma TouchQueueOk(p: Places, k: KioId, kio: Kio, n: QueueName)
    requires QueueOk(p, n) && Touches(p, k, kio)
    ensures QueueOk(p.(kios := p.kios[k := kio]), n)
  {
    var p' := p.(kios := p.kios[k := kio]);
    assert Queue(p', n) == Queue(p, n);
  }

  // Fields other than state and back pointer may change freely; a pending kio may become Sent.
  lemma TouchOk(p: Places, loose: multiset<KioId>, k: KioId, kio: Kio)
    requires Ok(p, loose) && Touches(p, k, kio)
    ensures Ok(p.(kios := p.kios[k := kio]), loose)
  {
    var p' := p.(kios := p.kios[k := kio]);
    assert OnePlace(p', loose) by {
      assert p'.kios.Keys == p.kios.Keys;
    }
    forall n ensures QueueOk(p', n) {
      TouchQueueOk(p, k, kio, n);
    }
  }

  // A kio with a back pointer sits in the cell it points to; one without sits in no queue.
  lemma OwnPlace(p: Places, loose: multiset<KioId>, k: KioId)
    requires Ok(p, loose) && k in p.kios
    ensures p.kios[k].qbp == None <==> k in loose || k in p.handedBack
    ensures p.kios[k].qbp.Some? ==>
      exists i :: 0 <= i < |Queue(p, p.kios[k].qbp.value.queue)|
               && Queue(p, p.kios[k].qbp.value.queue)[i] == Cell(p.kios[k].qbp.value.id, k)
  {
    assert k in multiset(p.kios.Keys);
    if n :| k in Bag(Queue(p, n)) {
      BagNamesACell(Queue(p, n), k);
      var i :| 0 <= i < |Queue(p, n)| && Queue(p, n)[i].kio == k;
    } else {
      assert k !in Bag(Queue(p, SendQ)) && k !in Bag(Queue(p, RecvQ)) && k !in Bag(Queue(p, CompQ));
    }
  }

  lemma NoRepeats(q: seq<KioId>, i: nat, j: nat)
    requires i < j < |q| && multiset(q)[q[j]] <= 1
    ensures q[i] != q[j]
  {
    assert q == q[..j] + [q[j]] + q[j + 1..];
    assert multiset(q)[q[j]] == multiset(q[..j])[q[j]] + 1 + multiset(q[j + 1..])[q[j]];
    assert q[..j][i] == q[i];
  }

  ghost predicate On(q: seq<Cell>, k: KioId) {
    exists i :: 0 <= i < |q| && q[i].kio == k
  }

  // The state of a kio the transport owns says whether it is complete, and its back pointer is the
  // cell it sits in.
  lemma StateTellsTheQueue(p: Places, loose: multiset<KioId>, k: KioId)
    requires Ok(p, loose) && k in p.kios && k !in p.handedBack
    ensures Done(p.kios[k].state) <==> On(p.compq, k)
    ensures forall n, i :: 0 <= i < |Queue(p, n)| && Queue(p, n)[i].kio == k ==>
      p.kios[k].qbp == Some(CellRef(n, Queue(p, n)[i].id))
  {
    OwnPlace(p, loose, k);
    assert Queue(p, CompQ) == p.compq;
    assert QueueOk(p, SendQ) && QueueOk(p, RecvQ) && QueueOk(p, CompQ);
  }
}
