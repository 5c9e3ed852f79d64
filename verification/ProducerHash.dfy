/** The hash from threads to their implicit producers: a chain of tables with
    linear probing, in which every thread only ever writes its own key. A thread
    looks itself up in all tables, newest first; it inserts itself into the newest
    table it knows; it copies its entry forward when it finds it in an older one;
    and when it exits it turns its entries into tombstones. Each load, CAS and store
    is one step. */
module ProducerHash {
  import opened Options
  import opened Modular

  type Tid = nat
  type Pid = nat

  datatype Key = Empty | Tomb | Id(t: Tid)

  datatype Table = Table(keys: seq<Key>, values: seq<Pid>)

  /** Which of the two compare-and-swaps at a slot comes next. */
  datatype Try = First | Second

  datatype Pc =
    | Idle
    | Probe(main: nat, h: nat, j: nat)
    | Migrate(main: nat, value: Pid, j: nat, try: Try)
    | MigrateStore(main: nat, value: Pid, pos: nat)
    | Count(main: nat)
    | Decide(main: nat, n: int)
    | Grow(main: nat, n: int)
    | Obtain(main: nat)
    | Scan(main: nat, left: nat)
    | Insert(main: nat, p: Pid, j: nat, try: Try)
    | Uncount(main: nat, p: Pid, pos: nat)
    | InsertStore(main: nat, p: Pid, pos: nat)
    | Return(result: Option<Pid>)
    | ExitScan(p: Pid, h: nat, j: nat)
    | ExitMark(p: Pid)

  /** The chain of tables, oldest first, the newest of which is current; the count
      of used slots; the resize flag; the producers and whether each is active; the
      threads and their hash values. History: the producer each thread has obtained
      and not given up. */
  datatype State = State(
    tables: seq<Table>,
    count: int,
    resizing: bool,
    active: seq<bool>,
    pc: map<Tid, Pc>,
    hash: map<Tid, nat>,
    mine: map<Tid, Option<Pid>>)

  // -------------------------------------------------------------------- slots

  function Start(s: State, t: Tid): nat {
    if t in s.hash then s.hash[t] else 0
  }

  /** The j-th slot that a thread probes. */
  function Spot(tab: Table, start: nat, j: nat): nat
    requires tab.keys != []
    ensures Spot(tab, start, j) < |tab.keys|
  {
    WrapIsRemainder(start + j, |tab.keys|);
    Wrap(start + j, |tab.keys|)
  }

  predicate TableOk(tab: Table) {
    tab.keys != [] && |tab.values| == |tab.keys|
  }

  ghost predicate TablesOk(s: State) {
    s.tables != [] && forall h: nat {:trigger s.tables[h]} :: h < |s.tables| ==> TableOk(s.tables[h])
  }

  function SetKey(s: State, h: nat, pos: nat, key: Key): State
    requires h < |s.tables| && pos < |s.tables[h].keys|
  {
    s.(tables := s.tables[h := s.tables[h].(keys := s.tables[h].keys[pos := key])])
  }

  function SetValue(s: State, h: nat, pos: nat, p: Pid): State
    requires h < |s.tables| && pos < |s.tables[h].values|
  {
    s.(tables := s.tables[h := s.tables[h].(values := s.tables[h].values[pos := p])])
  }

  function Goto(s: State, t: Tid, p: Pc): State {
    s.(pc := s.pc[t := p])
  }

  // -------------------------------------------------------------------- steps

  /** get_or_add_implicit_producer loads the current table. */
  ghost predicate Begin(s: State, s': State, t: Tid) {
    && t in s.pc && s.pc[t] == Idle && s.tables != []
    && s' == Goto(s, t, Probe(|s.tables| - 1, |s.tables| - 1, 0))
  }

  ghost predicate DoProbe(s: State, s': State, t: Tid) {
    && t in s.pc && s.pc[t].Probe? && t in s.mine
    && (var p := s.pc[t];
        && p.h < |s.tables| && TableOk(s.tables[p.h])
        && (var tab := s.tables[p.h];
            var pos := Spot(tab, Start(s, t), p.j);
            s' == Goto(s, t, match tab.keys[pos]
                             case Id(u) =>
                               if u != t then Probe(p.main, p.h, p.j + 1)
                               else if p.h == p.main then Return(Some(tab.values[pos]))
                               else Migrate(p.main, tab.values[pos], 0, First)
                             case Empty => if p.h == 0 then Count(p.main) else Probe(p.main, p.h - 1, 0)
                             case Tomb => Probe(p.main, p.h, p.j + 1))))
  }

  /** Copying forward: an empty slot is tried first, then a tombstone. */
  ghost predicate DoMigrate(s: State, s': State, t: Tid) {
    && t in s.pc && s.pc[t].Migrate?
    && (var p := s.pc[t];
        && p.main < |s.tables| && TableOk(s.tables[p.main])
        && (var pos := Spot(s.tables[p.main], Start(s, t), p.j);
            s' == if s.tables[p.main].keys[pos] == (if p.try.First? then Empty else Tomb)
                  then Goto(SetKey(s, p.main, pos, Id(t)), t, MigrateStore(p.main, p.value, pos))
                  else Goto(s, t, if p.try.First? then Migrate(p.main, p.value, p.j, Second)
                                  else Migrate(p.main, p.value, p.j + 1, First))))
  }

  ghost predicate DoMigrateStore(s: State, s': State, t: Tid) {
    && t in s.pc && s.pc[t].MigrateStore?
    && (var p := s.pc[t];
        && p.main < |s.tables| && p.pos < |s.tables[p.main].values|
        && s' == Goto(SetValue(s, p.main, p.pos, p.value), t, Return(Some(p.value))))
  }

  ghost predicate DoCount(s: State, s': State, t: Tid) {
    && t in s.pc && s.pc[t].Count?
    && s' == Goto(s, t, Decide(s.pc[t].main, s.count + 1)).(count := s.count + 1)
  }

  /** Start growing, go on to insert, or wait for somebody else's larger table. */
  ghost predicate DoDecide(s: State, s': State, t: Tid) {
    && t in s.pc && s.pc[t].Decide? && s.tables != []
    && (var p := s.pc[t];
        && p.main < |s.tables|
        && (var cap := |s.tables[p.main].keys|;
            || (p.n >= cap / 2 && !s.resizing
                && s' == Goto(s, t, Grow(|s.tables| - 1, p.n)).(resizing := true))
            || ((p.n < cap / 2 || s.resizing)
                && s' == Goto(s, t, if p.n < cap / 2 + cap / 4 then Obtain(p.main)
                                    else Decide(|s.tables| - 1, p.n)))))
  }

  function NewTable(cap: nat): (tab: Table)
    ensures |tab.keys| == |tab.values| == cap
    ensures forall k :: 0 <= k < cap ==> tab.keys[k] == Empty
  {
    Table(seq(cap, _ => Empty), seq(cap, _ => 0))
  }

  /** Doubled until n is less than half of it. */
  function GrownCap(cap: nat, n: int): (grown: nat)
    requires cap > 0
    ensures grown >= cap && n < grown / 2 && (grown == cap || n >= grown / 4)
    decreases 2 * n - cap + 1
  {
    if n < cap / 2 then cap else GrownCap(2 * cap, n)
  }

  /** Under the resize flag: append a larger table if still needed; allocation may fail. */
  ghost predicate DoGrow(s: State, s': State, t: Tid) {
    && t in s.pc && s.pc[t].Grow?
    && (var p := s.pc[t];
        && p.main < |s.tables| && TableOk(s.tables[p.main])
        && (var cap := |s.tables[p.main].keys|;
            if p.n >= cap / 2 then
              || s' == Goto(s, t, Return(None)).(resizing := false, count := s.count - 1)
              || s' == Goto(s, t, Obtain(p.main + 1)).(
                         tables := s.tables[..p.main + 1] + [NewTable(GrownCap(2 * cap, p.n))], resizing := false)
            else
              s' == Goto(s, t, if p.n < cap / 2 + cap / 4 then Obtain(p.main) else Decide(|s.tables| - 1, p.n)).(
                         resizing := false)))
  }

  /** recycle_or_create_producer: the list of producers is loaded, newest first ... */
  ghost predicate DoObtain(s: State, s': State, t: Tid) {
    && t in s.pc && s.pc[t].Obtain?
    && s' == Goto(s, t, Scan(s.pc[t].main, |s.active|))
  }

  /** ... and an inactive one is taken by a CAS on its flag; when the list has come to its
      end a new one is made. Creation may fail. */
  ghost predicate DoScan(s: State, s': State, t: Tid) {
    && t in s.pc && s.pc[t].Scan? && t in s.mine
    && (var p := s.pc[t];
        if p.left == 0 then
          || s' == Goto(s, t, Return(None)).(count := s.count - 1)
          || s' == Goto(s, t, Insert(p.main, |s.active|, 0, First)).(
                     active := s.active + [true], mine := s.mine[t := Some(|s.active|)])
        else
          && p.left <= |s.active|
          && s' == if s.active[p.left - 1] then Goto(s, t, Scan(p.main, p.left - 1))
                   else Goto(s, t, Insert(p.main, p.left - 1, 0, First)).(
                          active := s.active[p.left - 1 := true], mine := s.mine[t := Some(p.left - 1)]))
  }

  /** Inserting: a tombstone is tried first, then an empty slot. */
  ghost predicate DoInsert(s: State, s': State, t: Tid) {
    && t in s.pc && s.pc[t].Insert?
    && (var p := s.pc[t];
        && p.main < |s.tables| && TableOk(s.tables[p.main])
        && (var pos := Spot(s.tables[p.main], Start(s, t), p.j);
            s' == if s.tables[p.main].keys[pos] == (if p.try.First? then Tomb else Empty)
                  then Goto(SetKey(s, p.main, pos, Id(t)), t,
                            if p.try.First? then Uncount(p.main, p.p, pos) else InsertStore(p.main, p.p, pos))
                  else Goto(s, t, if p.try.First? then Insert(p.main, p.p, p.j, Second)
                                  else Insert(p.main, p.p, p.j + 1, First))))
  }

  /** A tombstone was counted already. */
  ghost predicate DoUncount(s: State, s': State, t: Tid) {
    && t in s.pc && s.pc[t].Uncount?
    && s' == Goto(s, t, InsertStore(s.pc[t].main, s.pc[t].p, s.pc[t].pos)).(count := s.count - 1)
  }

  ghost predicate DoInsertStore(s: State, s': State, t: Tid) {
    && t in s.pc && s.pc[t].InsertStore?
    && (var p := s.pc[t];
        && p.main < |s.tables| && p.pos < |s.tables[p.main].values|
        && s' == Goto(SetValue(s, p.main, p.pos, p.p), t, Return(Some(p.p))))
  }

  ghost predicate Finish(s: State, s': State, t: Tid) {
    t in s.pc && s.pc[t].Return? && s' == Goto(s, t, Idle)
  }

  /** implicit_producer_thread_exited: only registered by threads with a producer. */
  ghost predicate BeginExit(s: State, s': State, t: Tid) {
    && t in s.pc && s.pc[t] == Idle && t in s.mine && s.mine[t].Some? && s.tables != []
    && s' == Goto(s, t, ExitScan(s.mine[t].value, |s.tables| - 1, 0))
  }

  ghost predicate DoExitScan(s: State, s': State, t: Tid) {
    && t in s.pc && s.pc[t].ExitScan?
    && (var p := s.pc[t];
        && p.h < |s.tables| && TableOk(s.tables[p.h])
        && (var pos := Spot(s.tables[p.h], Start(s, t), p.j);
            var key := s.tables[p.h].keys[pos];
            var next := if p.h == 0 then ExitMark(p.p) else ExitScan(p.p, p.h - 1, 0);
            s' == if key == Id(t) then Goto(SetKey(s, p.h, pos, Tomb), t, next)
                  else if key == Empty then Goto(s, t, next)
                  else Goto(s, t, ExitScan(p.p, p.h, p.j + 1))))
  }

  /** The producer becomes recyclable; a later thread may reuse the id. */
  ghost predicate DoExitMark(s: State, s': State, t: Tid) {
    && t in s.pc && s.pc[t].ExitMark? && s.pc[t].p < |s.active|
    && s' == Goto(s, t, Idle).(active := s.active[s.pc[t].p := false], mine := s.mine[t := None])
  }

  ghost predicate LookupStep(s: State, s': State, t: Tid) {
    || Begin(s, s', t) || DoProbe(s, s', t) || DoMigrate(s, s', t) || DoMigrateStore(s, s', t) || Finish(s, s', t)
  }

  ghost predicate InsertStep(s: State, s': State, t: Tid) {
    || DoCount(s, s', t) || DoDecide(s, s', t) || DoGrow(s, s', t) || DoObtain(s, s', t)
    || DoScan(s, s', t) || DoInsert(s, s', t) || DoUncount(s, s', t) || DoInsertStore(s, s', t)
  }

  ghost predicate ExitStep(s: State, s': State, t: Tid) {
    BeginExit(s, s', t) || DoExitScan(s, s', t) || DoExitMark(s, s', t)
  }

  ghost predicate Init(s: State) {
    && |s.tables| == 1 && TableOk(s.tables[0])
    && (forall k :: 0 <= k < |s.tables[0].keys| ==> s.tables[0].keys[k] == Empty)
    && s.count == 0 && !s.resizing && s.active == [] && s.mine.Keys == s.pc.Keys
    && (forall t :: t in s.pc ==> s.pc[t] == Idle && s.mine[t] == None)
  }

  ghost predicate Next(s: State, s': State) {
    exists t :: LookupStep(s, s', t) || InsertStep(s, s', t) || ExitStep(s, s', t)
  }

  ghost predicate StepAt(run: seq<State>, i: nat)
    requires i + 1 < |run|
  {
    Next(run[i], run[i + 1])
  }

  ghost predicate IsRun(run: seq<State>) {
    && run != [] && Init(run[0])
    && forall i: nat {:trigger StepAt(run, i)} :: i + 1 < |run| ==> StepAt(run, i)
  }
}
