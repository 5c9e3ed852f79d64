/** While fewer threads have registered than half the slots of the first table, that table
    stays the only one and always has an empty slot, so that every scan ends. */
module ProducerHashRoom {
  import opened Totals
  import opened Modular
  import opened Ranges
  import opened ProducerHash
  import opened ProducerHashSafety

  /** The thread has raised the count and not used a slot for it yet. */
  function Holding(p: Pc): int {
    if p.Decide? || p.Grow? || p.Obtain? || p.Scan? || p.Insert? || p.Uncount? then 1 else 0
  }

  function UsedSlots(keys: seq<Key>): (slots: set<nat>) {
    set pos: nat | pos < |keys| && keys[pos] != Empty
  }

  /** No thread is growing the table, and none has drawn a number above `tries`. */
  predicate Small(p: Pc, tries: nat) {
    !p.Grow? && (p.Decide? ==> p.n <= tries)
  }

  ghost predicate SmallAt(s: State, t: Tid, tries: nat)
    requires t in s.pc
  {
    Small(s.pc[t], tries)
  }

  /** One table of `cap` slots; the count is that of the slots used and of the threads that
      are about to use one, and `tries` threads have raised it. */
  ghost predicate Roomy(s: State, cap: nat, tries: nat) {
    && |s.tables| == 1 && |s.tables[0].keys| == cap && s.count <= tries
    && |UsedSlots(s.tables[0].keys)| + Total(s.pc, Holding) == s.count
    && forall t {:trigger SmallAt(s, t, tries)} :: t in s.pc ==> SmallAt(s, t, tries)
  }

  // ---------------------------------------------------------------------- steps

  lemma SetUsed(keys: seq<Key>, pos: nat, key: Key)
    requires pos < |keys| && key != Empty
    ensures |UsedSlots(keys[pos := key])| == |UsedSlots(keys)| + if keys[pos] == Empty then 1 else 0
  {
    var used, used' := UsedSlots(keys), UsedSlots(keys[pos := key]);
    assert used' == used + {pos};
  }

  /** What a step of t changes: how many slots are used, the count, and t's part of it. */
  ghost predicate RoomEffect(s: State, s': State, t: Tid, cap: nat, tries: nat) {
    && t in s.pc && t in s'.pc && s'.pc == s.pc[t := s'.pc[t]]
    && |s.tables| == |s'.tables| == 1 && |s'.tables[0].keys| == cap
    && |UsedSlots(s'.tables[0].keys)| + Holding(s'.pc[t]) - s'.count
       == |UsedSlots(s.tables[0].keys)| + Holding(s.pc[t]) - s.count
    && Small(s'.pc[t], if s'.count > s.count then tries + 1 else tries)
    && s'.count <= s.count + 1
  }

  lemma EffectKeepsRoom(s: State, s': State, t: Tid, cap: nat, tries: nat)
    requires Roomy(s, cap, tries) && RoomEffect(s, s', t, cap, tries)
    ensures Roomy(s', cap, if s'.count > s.count then tries + 1 else tries)
  {
    TotalUpdate(s.pc, t, s'.pc[t], Holding);
    var tries' := if s'.count > s.count then tries + 1 else tries;
    forall u | u in s'.pc ensures SmallAt(s', u, tries') {
      assert u != t ==> SmallAt(s, u, tries);
    }
  }

  /** With one table there is nothing to copy forward. */
  lemma NoMigration(s: State, t: Tid)
    requires Inv(s) && |s.tables| == 1 && t in s.pc
    ensures !s.pc[t].Migrate?
  {
    assert ThreadOk(s, t);
    if s.pc[t].Migrate? {
      var j: nat :| At(s.tables[0], Start(s, t), t, j);
      assert NotIn(s.tables[0], t) && Holds(s.tables[0], Spot(s.tables[0], Start(s, t), j), t);
    }
  }

  lemma LookupHasEffect(s: State, s': State, t: Tid, cap: nat, tries: nat)
    requires Inv(s) && Roomy(s, cap, tries) && LookupStep(s, s', t)
    ensures RoomEffect(s, s', t, cap, tries)
  {
    NoMigration(s, t);
    assert ThreadOk(s, t);
    if DoMigrateStore(s, s', t) {
      assert s'.tables[0].keys == s.tables[0].keys;
    }
  }

  lemma CountHasEffect(s: State, s': State, t: Tid, cap: nat, tries: nat)
    requires Inv(s) && Roomy(s, cap, tries) && tries < cap / 2
    requires DoCount(s, s', t) || DoDecide(s, s', t) || DoGrow(s, s', t) || DoObtain(s, s', t) || DoScan(s, s', t)
    ensures RoomEffect(s, s', t, cap, tries)
  {
    assert ThreadOk(s, t) && SmallAt(s, t, tries);
  }

  lemma InsertHasEffect(s: State, s': State, t: Tid, cap: nat, tries: nat)
    requires Inv(s) && Roomy(s, cap, tries)
    requires DoInsert(s, s', t) || DoUncount(s, s', t) || DoInsertStore(s, s', t)
    ensures RoomEffect(s, s', t, cap, tries)
  {
    assert ThreadOk(s, t);
    if DoInsert(s, s', t) {
      var pos := Spot(s.tables[0], Start(s, t), s.pc[t].j);
      SetUsed(s.tables[0].keys, pos, Id(t));
    } else if DoInsertStore(s, s', t) {
      assert s'.tables[0].keys == s.tables[0].keys;
    }
  }

  lemma ExitHasEffect(s: State, s': State, t: Tid, cap: nat, tries: nat)
    requires Inv(s) && Roomy(s, cap, tries) && ExitStep(s, s', t)
    ensures RoomEffect(s, s', t, cap, tries)
  {
    assert ThreadOk(s, t);
    if DoExitScan(s, s', t) {
      var pos := Spot(s.tables[0], Start(s, t), s.pc[t].j);
      SetUsed(s.tables[0].keys, pos, Tomb);
    }
  }

  lemma NextKeepsRoom(s: State, s': State, cap: nat, tries: nat)
    requires Inv(s) && Roomy(s, cap, tries) && Next(s, s') && tries < cap / 2
    ensures Roomy(s', cap, if s'.count > s.count then tries + 1 else tries)
  {
    var t :| LookupStep(s, s', t) || InsertStep(s, s', t) || ExitStep(s, s', t);
    if LookupStep(s, s', t) {
      LookupHasEffect(s, s', t, cap, tries);
    } else if DoInsert(s, s', t) || DoUncount(s, s', t) || DoInsertStore(s, s', t) {
      InsertHasEffect(s, s', t, cap, tries);
    } else if InsertStep(s, s', t) {
      CountHasEffect(s, s', t, cap, tries);
    } else {
      ExitHasEffect(s, s', t, cap, tries);
    }
    EffectKeepsRoom(s, s', t, cap, tries);
  }

  // --------------------------------------------------------------- main results

  /** How many threads have begun to register before state i: only that raises the count. */
  ghost function Registrations(run: seq<State>, i: nat): nat
    requires i < |run|
  {
    if i == 0 then 0 else Registrations(run, i - 1) + if run[i].count > run[i - 1].count then 1 else 0
  }

  lemma {:induction false} RunKeepsRoom(run: seq<State>, i: nat)
    requires IsRun(run) && i < |run| && Registrations(run, i) < |run[0].tables[0].keys| / 2
    ensures Roomy(run[i], |run[0].tables[0].keys|, Registrations(run, i))
  {
    var cap := |run[0].tables[0].keys|;
    if i == 0 {
      assert UsedSlots(run[0].tables[0].keys) == {};
      TotalZero(run[0].pc, Holding);
    } else {
      RunKeepsRoom(run, i - 1);
      RunKeepsInv(run, i - 1);
      assert StepAt(run, i - 1);
      NextKeepsRoom(run[i - 1], run[i], cap, Registrations(run, i - 1));
    }
  }

  /** While fewer threads have registered than half the slots of the first table, no larger
      one is needed and some slot is empty. */
  lemma SlotIsFree(run: seq<State>, i: nat)
    requires IsRun(run) && i < |run| && Registrations(run, i) < |run[0].tables[0].keys| / 2
    ensures |run[i].tables| == 1
    ensures exists pos: nat :: pos < |run[i].tables[0].keys| && run[i].tables[0].keys[pos] == Empty
  {
    RunKeepsRoom(run, i);
    var keys := run[i].tables[0].keys;
    TotalCovers(run[i].pc, Holding);
    if forall pos: nat :: pos < |keys| ==> keys[pos] != Empty {
      FullIsAll(keys);
    }
  }

  lemma FullIsAll(keys: seq<Key>)
    requires forall pos: nat :: pos < |keys| ==> keys[pos] != Empty
    ensures |UsedSlots(keys)| == |keys|
  {
    assert UsedSlots(keys) == Range(0, |keys|);
  }

  /** The slots that a scan has gone past. */
  function Scanned(p: Pc): nat {
    match p
    case Probe(_, _, j) => j
    case Insert(_, _, j, _) => j
    case ExitScan(_, _, j) => j
    case _ => 0
  }

  /** Then no scan, be it for a lookup, an insertion or an exit, goes once round the table. */
  lemma ScansEnd(run: seq<State>, i: nat, t: Tid)
    requires IsRun(run) && i < |run| && Registrations(run, i) < |run[0].tables[0].keys| / 2
    requires t in run[i].pc
    ensures Scanned(run[i].pc[t]) < |run[0].tables[0].keys|
  {
    var s := run[i];
    SlotIsFree(run, i);
    RunKeepsRoom(run, i);
    RunKeepsInv(run, i);
    assert ThreadOk(s, t);
    var tab, start := s.tables[0], Start(s, t);
    var pos: nat :| pos < |tab.keys| && tab.keys[pos] == Empty;
    var d := Wrap(pos - start, |tab.keys|);
    ReachesSlot(tab, start, pos);
    assert !Used(tab, start, d);
  }

  lemma ReachesSlot(tab: Table, start: nat, pos: nat)
    requires pos < |tab.keys|
    ensures Spot(tab, start, Wrap(pos - start, |tab.keys|)) == pos
  {
    WrapAdd(pos - start, start, |tab.keys|);
    WrapIsRemainder(pos, |tab.keys|);
    ModSmall(pos, |tab.keys|);
  }
}
