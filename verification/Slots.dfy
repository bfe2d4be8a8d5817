/**
 The table of sessions (src/ktli_session.c): slots are taken and given back by compare-and-swap, from
 any number of threads.
 */
module Slots {
  import opened Common

  const KTS_MAX_SESSIONS := 1024

  // A session record; each allocation has a name of its own.
  type Record = nat

  // --- one caller alone ---

  // kts_alloc_slot: the first free slot, -1 if there is none
  method AllocSlot(table: array<Option<Record>>, ks: Record) returns (kts: int)
    modifies table
    ensures kts == -1 <==> None !in old(table[..])
    ensures kts == -1 ==> table[..] == old(table[..])
    ensures kts != -1 ==>
      && 0 <= kts < table.Length && None !in old(table[..kts]) && old(table[kts]) == None
      && table[..] == old(table[..])[kts := Some(ks)]
  {
    kts := -1;
    var i := 0;
    while i < table.Length && kts == -1
      invariant 0 <= i <= table.Length
      invariant kts == -1 ==> table[..] == old(table[..]) && None !in table[..i]
      invariant kts != -1 ==>
        && 0 <= kts < table.Length && None !in old(table[..kts]) && old(table[kts]) == None
        && table[..] == old(table[..])[kts := Some(ks)]
    {
      if table[i] == None {
        table[i] := Some(ks);
        kts := i;
      }
      i := i + 1;
    }
  }

  // --- any number of callers ---

  // A caller, named by the record it allocated: it scans, holds a slot, and gives it back in four steps.
  datatype Pc =
    | Scanning(i: nat)
    | Holding(i: nat)
    | Clearing(i: nat, ks: Option<Record>)
    | Cleared(i: nat)
    | Freeing(i: nat)
    | Finished

  datatype Table = Table(slots: seq<Option<Record>>, callers: map<Record, Pc>, freed: seq<Record>)

  datatype Step =
    | Malloc(ks: Record)
    | Try(ks: Record)
    | ReadSlot(ks: Record)
    | ClearSlot(ks: Record)
    | CheckSlot(ks: Record)
    | FreeSlot(ks: Record)

  predicate WellFormed(t: Table) {
    && |t.slots| == KTS_MAX_SESSIONS
    && (forall ks :: ks in t.callers ==> InTable(t.callers[ks]))
  }

  predicate InTable(pc: Pc) {
    match pc
    case Scanning(i) => i <= KTS_MAX_SESSIONS
    case Finished => true
    case _ => pc.i < KTS_MAX_SESSIONS
  }

  predicate Enabled(t: Table, step: Step) {
    match step
    case Malloc(ks) => ks !in t.callers
    case Try(ks) => ks in t.callers && t.callers[ks].Scanning?
    case ReadSlot(ks) => ks in t.callers && t.callers[ks].Holding?
    case ClearSlot(ks) => ks in t.callers && t.callers[ks].Clearing?
    case CheckSlot(ks) => ks in t.callers && t.callers[ks].Cleared?
    case FreeSlot(ks) => ks in t.callers && t.callers[ks].Freeing?
  }

  function Do(t: Table, step: Step): (t': Table)
    requires WellFormed(t) && Enabled(t, step)
    ensures WellFormed(t')
  {
    var ks := step.ks;
    match step
    case Malloc(_) => t.(callers := t.callers[ks := Scanning(0)])
    case Try(_) =>
      var i := t.callers[ks].i;
      if i == KTS_MAX_SESSIONS then t.(callers := t.callers[ks := Finished], freed := t.freed + [ks])
      else if t.slots[i] == None then t.(slots := t.slots[i := Some(ks)], callers := t.callers[ks := Holding(i)])
      else t.(callers := t.callers[ks := Scanning(i + 1)])
    case ReadSlot(_) =>
      var i := t.callers[ks].i;
      t.(callers := t.callers[ks := Clearing(i, t.slots[i])])
    case ClearSlot(_) =>
      var i := t.callers[ks].i;
      if t.slots[i] == t.callers[ks].ks then
        t.(slots := t.slots[i := None], callers := t.callers[ks := Cleared(i)])
      else t.(callers := t.callers[ks := Finished])
    case CheckSlot(_) =>
      var i := t.callers[ks].i;
      t.(callers := t.callers[ks := if t.slots[i] != None then Freeing(i) else Finished])
    case FreeSlot(_) =>
      var i := t.callers[ks].i;
      t.(callers := t.callers[ks := Finished],
         freed := if t.slots[i] == None then t.freed else t.freed + [t.slots[i].value])
  }

  predicate Holds(t: Table, ks: Record, i: nat) {
    ks in t.callers && (t.callers[ks] == Holding(i) || t.callers[ks] == Clearing(i, Some(ks)))
  }

  // A slot names its holder and a holder is named by its slot.
  ghost predicate Inv(t: Table) {
    && WellFormed(t)
    && (forall i: nat, ks: Record :: i < KTS_MAX_SESSIONS ==> (t.slots[i] == Some(ks) <==> Holds(t, ks, i)))
    && (forall ks :: ks in t.callers && t.callers[ks].Clearing? ==> t.callers[ks].ks == Some(ks))
  }

  lemma StepInv(t: Table, step: Step)
    requires Inv(t) && Enabled(t, step)
    ensures Inv(Do(t, step))
  {
    OthersHold(t, step);
    if step.Try? {
      TryInv(t, step.ks);
    } else if step.ReadSlot? || step.ClearSlot? {
      LetGoInv(t, step);
    } else {
      assert forall i: nat :: !Holds(t, step.ks, i) && !Holds(Do(t, step), step.ks, i);
      hide Holds;
    }
  }

  lemma OthersHold(t: Table, step: Step)
    requires WellFormed(t) && Enabled(t, step)
    ensures forall ks: Record, i: nat :: ks != step.ks ==> (Holds(Do(t, step), ks, i) <==> Holds(t, ks, i))
  {
  }

  lemma TryInv(t: Table, ks: Record)
    requires Inv(t) && Enabled(t, Try(ks))
    ensures Inv(Do(t, Try(ks)))
  {
    var t', i := Do(t, Try(ks)), t.callers[ks].i;
    OthersHold(t, Try(ks));
    assert forall j: nat :: !Holds(t, ks, j);
    assert forall j: nat :: Holds(t', ks, j) <==> j == i < KTS_MAX_SESSIONS && t.slots[i] == None;
    hide Holds;
  }

  lemma LetGoInv(t: Table, step: Step)
    requires Inv(t) && Enabled(t, step) && (step.ReadSlot? || step.ClearSlot?)
    ensures Inv(Do(t, step))
  {
    var t', i := Do(t, step), t.callers[step.ks].i;
    OthersHold(t, step);
    assert forall j: nat :: Holds(t, step.ks, j) <==> j == i;
    assert forall j: nat :: Holds(t', step.ks, j) <==> step.ReadSlot? && j == i;
    hide Holds;
  }

  ghost predicate Legal(t: Table, steps: seq<Step>)
    requires WellFormed(t)
    decreases |steps|
  {
    steps != [] ==> Enabled(t, steps[0]) && Legal(Do(t, steps[0]), steps[1..])
  }

  ghost function After(t: Table, steps: seq<Step>): (t': Table)
    requires WellFormed(t) && Legal(t, steps)
    ensures WellFormed(t')
    decreases |steps|
  {
    if steps == [] then t else After(Do(t, steps[0]), steps[1..])
  }

  lemma {:induction false} RunInv(t: Table, steps: seq<Step>)
    requires Inv(t) && Legal(t, steps)
    ensures Inv(After(t, steps))
    decreases |steps|
  {
    if steps != [] {
      StepInv(t, steps[0]);
      RunInv(Do(t, steps[0]), steps[1..]);
    }
  }

  // kts_init
  ghost predicate Initial(t: Table) {
    && |t.slots| == KTS_MAX_SESSIONS && (forall i :: 0 <= i < KTS_MAX_SESSIONS ==> t.slots[i] == None)
    && t.callers == map[] && t.freed == []
  }

  ghost predicate Reached(t: Table) {
    exists t0, steps :: Initial(t0) && Legal(t0, steps) && After(t0, steps) == t
  }

  lemma ReachedInv(t: Table)
    requires Reached(t)
    ensures Inv(t)
  {
    var t0, steps :| Initial(t0) && Legal(t0, steps) && After(t0, steps) == t;
    RunInv(t0, steps);
  }

  // No slot is held by two callers at once, in any interleaving.
  lemma NoSharing(t: Table, a: Record, b: Record, i: nat)
    requires Reached(t) && Holds(t, a, i) && Holds(t, b, i)
    ensures a == b && i < 1024 && t.slots[i] == Some(a)
  {
    ReachedInv(t);
    assert InTable(t.callers[a]);
  }

  // Giving a slot back frees nothing, unless another caller has taken the slot meanwhile; then it is that
  // caller's record, still in use, that is freed.
  lemma FreeHitsTheHolderIff(t: Table, ks: Record)
    requires Reached(t) && Enabled(t, FreeSlot(ks)) && WellFormed(t)
    ensures var i := t.callers[ks].i;
      var t' := Do(t, FreeSlot(ks));
      && (t'.freed == t.freed <==> t.slots[i] == None)
      && (t'.freed != t.freed ==>
            exists other :: other != ks && Holds(t, other, i) && Holds(t', other, i) && t'.freed == t.freed + [other])
  {
    ReachedInv(t);
    var i := t.callers[ks].i;
    assert InTable(t.callers[ks]);
    if t.slots[i] != None {
      var other := t.slots[i].value;
      assert Holds(t, other, i) && Holds(Do(t, FreeSlot(ks)), other, i);
      assert Do(t, FreeSlot(ks)).freed == t.freed + [other];
    } else {
      assert Do(t, FreeSlot(ks)).freed == t.freed;
    }
  }

  // One caller gives its slot back while another takes it: between clearing the slot and looking at it
  // again, the record of the other appears there.
  const OVERLAP: seq<Step> :=
    [Malloc(1), Try(1), ReadSlot(1), ClearSlot(1), Malloc(2), Try(2), CheckSlot(1)]

  lemma LiveRecordIsFreed(t0: Table)
    requires Initial(t0)
    ensures Legal(t0, OVERLAP)
    ensures var t := After(t0, OVERLAP);
      && Reached(t) && Enabled(t, FreeSlot(1)) && Holds(t, 2, 0)
      && Do(t, FreeSlot(1)).freed == [2] && Holds(Do(t, FreeSlot(1)), 2, 0)
  {
    var t3 := Do(Do(Do(t0, Malloc(1)), Try(1)), ReadSlot(1));
    FirstHolds(t0);
    TakenBetween(t3);
    var rest := OVERLAP[1..][1..][1..];
    assert rest == TAKE_BETWEEN;
  }

  lemma FirstHolds(t0: Table)
    requires Initial(t0)
    ensures Enabled(t0, Malloc(1)) && Enabled(Do(t0, Malloc(1)), Try(1))
    ensures Enabled(Do(Do(t0, Malloc(1)), Try(1)), ReadSlot(1))
    ensures var t3 := Do(Do(Do(t0, Malloc(1)), Try(1)), ReadSlot(1));
      t3.slots[0] == Some(1) && t3.callers == map[1 := Clearing(0, Some(1))] && t3.freed == []
  {
  }

  const TAKE_BETWEEN: seq<Step> := [ClearSlot(1), Malloc(2), Try(2), CheckSlot(1)]

  lemma TakenBetween(t3: Table)
    requires WellFormed(t3) && t3.slots[0] == Some(1) && t3.callers == map[1 := Clearing(0, Some(1))] && t3.freed == []
    ensures Legal(t3, TAKE_BETWEEN)
    ensures var t := After(t3, TAKE_BETWEEN);
      t.slots[0] == Some(2) && t.callers == map[1 := Freeing(0), 2 := Holding(0)] && t.freed == []
  {
    var t4 := Do(t3, ClearSlot(1));
    var t5 := Do(t4, Malloc(2));
    var t6 := Do(t5, Try(2));
    var t7 := Do(t6, CheckSlot(1));
    assert t6.slots[0] == Some(2) && t6.callers == map[1 := Cleared(0), 2 := Holding(0)];
    assert Legal(t6, [CheckSlot(1)]) && After(t6, [CheckSlot(1)]) == t7 by {
      assert [CheckSlot(1)][1..] == [];
    }
    assert Legal(t5, [Try(2), CheckSlot(1)]) && After(t5, [Try(2), CheckSlot(1)]) == t7 by {
      assert [Try(2), CheckSlot(1)][1..] == [CheckSlot(1)];
    }
    assert TAKE_BETWEEN[1..] == [Malloc(2), Try(2), CheckSlot(1)];
    assert TAKE_BETWEEN[1..][1..] == [Try(2), CheckSlot(1)];
  }

  // kts_isvalid; None where it reads past the end of the table
  function IsValid(kts: int, slots: seq<Option<Record>>): Option<bool> {
    if kts < 0 || kts > KTS_MAX_SESSIONS then Some(false)
    else if kts >= |slots| then None
    else Some(slots[kts] != None)
  }

  // An index is valid exactly when some caller holds that slot; for one index the question itself is not.
  lemma ValidIsHeldIff(t: Table, kts: int)
    requires Reached(t)
    ensures IsValid(kts, t.slots) == None <==> kts == 1024
    ensures IsValid(kts, t.slots) == Some(true) <==> 0 <= kts && exists ks :: Holds(t, ks, kts)
  {
    ReachedInv(t);
    if 0 <= kts < KTS_MAX_SESSIONS && t.slots[kts] != None {
      assert Holds(t, t.slots[kts].value, kts);
    }
    if 0 <= kts && exists ks :: Holds(t, ks, kts) {
      var ks :| Holds(t, ks, kts);
      assert InTable(t.callers[ks]);
      assert t.slots[kts] == Some(ks);
    }
  }

  // --- one caller while the others stand still ---

  function Tries(ks: Record, n: nat): seq<Step> {
    if n == 0 then [] else [Try(ks)] + Tries(ks, n - 1)
  }

  // A caller that scans past n taken slots takes the next one, and gives up only when there is none; then its
  // own record is freed.
  lemma {:induction false} ScanAlone(t: Table, ks: Record, n: nat)
    requires WellFormed(t) && ks in t.callers && t.callers[ks].Scanning? && t.callers[ks].i + n <= 1024
    requires var i := t.callers[ks].i;
      && (forall j :: i <= j < i + n ==> t.slots[j] != None) && (i + n < 1024 ==> t.slots[i + n] == None)
    ensures Legal(t, Tries(ks, n + 1))
    ensures After(t, Tries(ks, n + 1)) ==
      var m := t.callers[ks].i + n;
      if m < 1024 then t.(slots := t.slots[m := Some(ks)], callers := t.callers[ks := Holding(m)])
      else t.(callers := t.callers[ks := Finished], freed := t.freed + [ks])
    decreases n
  {
    var t1 := Do(t, Try(ks));
    assert Tries(ks, n + 1)[1..] == Tries(ks, n);
    if n == 0 {
      assert Legal(t1, []);
    } else {
      ScanAlone(t1, ks, n - 1);
      assert t1.callers[ks := Holding(t.callers[ks].i + n)] == t.callers[ks := Holding(t.callers[ks].i + n)];
      assert t1.callers[ks := Finished] == t.callers[ks := Finished];
    }
  }

  // A caller that gives its slot back empties it; its record is not freed.
  lemma GivenBackAlone(t: Table, ks: Record)
    requires Reached(t) && WellFormed(t) && ks in t.callers && t.callers[ks].Holding?
    ensures Legal(t, [ReadSlot(ks), ClearSlot(ks), CheckSlot(ks)])
    ensures After(t, [ReadSlot(ks), ClearSlot(ks), CheckSlot(ks)])
         == t.(slots := t.slots[t.callers[ks].i := None], callers := t.callers[ks := Finished])
  {
    ReachedInv(t);
    var i := t.callers[ks].i;
    assert InTable(t.callers[ks]) && Holds(t, ks, i);
    hide Inv;
    var t1 := Do(t, ReadSlot(ks));
    var t2 := Do(t1, ClearSlot(ks));
    var t3 := Do(t2, CheckSlot(ks));
    assert t3.callers == t.callers[ks := Finished];
    assert [ReadSlot(ks), ClearSlot(ks), CheckSlot(ks)][1..] == [ClearSlot(ks), CheckSlot(ks)];
    assert [ClearSlot(ks), CheckSlot(ks)][1..] == [CheckSlot(ks)] && [CheckSlot(ks)][1..] == [];
    assert Legal(t2, [CheckSlot(ks)]) && After(t2, [CheckSlot(ks)]) == t3;
    assert Legal(t1, [ClearSlot(ks), CheckSlot(ks)]) && After(t1, [ClearSlot(ks), CheckSlot(ks)]) == t3;
  }
}
