/** Single writer: a thread that has obtained an implicit producer finds the same
    one in every later lookup until it exits, and no two threads share one. */
module ProducerHashSafety {
  import opened Options
  import opened ProducerHash

  // ------------------------------------------------------------ one table

  predicate Holds(tab: Table, pos: nat, t: Tid) {
    pos < |tab.keys| && tab.keys[pos] == Id(t)
  }

  ghost predicate NotIn(tab: Table, t: Tid) {
    forall pos: nat {:trigger Holds(tab, pos, t)} :: !Holds(tab, pos, t)
  }

  predicate Used(tab: Table, start: nat, i: nat) {
    tab.keys != [] && tab.keys[Spot(tab, start, i)] != Empty
  }

  /** None of the first j slots on the probe path is empty: a lookup gets past them. */
  ghost predicate Solid(tab: Table, start: nat, j: nat) {
    forall i: nat {:trigger Used(tab, start, i)} :: i < j ==> Used(tab, start, i)
  }

  /** t's key is at its j-th slot, and a lookup gets there. */
  ghost predicate At(tab: Table, start: nat, t: Tid, j: nat) {
    tab.keys != [] && tab.keys[Spot(tab, start, j)] == Id(t) && Solid(tab, start, j)
  }

  ghost predicate OnPath(tab: Table, start: nat, t: Tid, pos: nat) {
    tab.keys != [] && exists j: nat :: At(tab, start, t, j) && Spot(tab, start, j) == pos
  }

  /** t's key is not among the first j slots on its path. */
  ghost predicate Clear(tab: Table, start: nat, t: Tid, j: nat) {
    forall i: nat {:trigger Used(tab, start, i)} ::
      i < j ==> Used(tab, start, i) && tab.keys[Spot(tab, start, i)] != Id(t)
  }

  // ------------------------------------------------------------- one thread

  /** The slot where t has put its key and not stored its producer yet. */
  predicate Pending(p: Pc, h: nat, pos: nat) {
    || (p.MigrateStore? && p.main == h && p.pos == pos)
    || (p.Uncount? && p.main == h && p.pos == pos)
    || (p.InsertStore? && p.main == h && p.pos == pos)
  }

  /** An entry of t: on t's path, the only one in its table, with t's producer. */
  ghost predicate EntryOk(tab: Table, start: nat, p: Pc, mine: Option<Pid>, t: Tid, h: nat, pos: nat) {
    Holds(tab, pos, t) ==>
      && mine.Some? && OnPath(tab, start, t, pos)
      && (Pending(p, h, pos) || (pos < |tab.values| && tab.values[pos] == mine.value))
  }

  ghost predicate SingleIn(tab: Table, t: Tid, a: nat, b: nat) {
    Holds(tab, a, t) && Holds(tab, b, t) ==> a == b
  }

  ghost predicate EntriesOk(tables: seq<Table>, start: nat, p: Pc, mine: Option<Pid>, t: Tid) {
    && (forall h: nat, pos: nat {:trigger Holds(tables[h], pos, t)} ::
          h < |tables| ==> EntryOk(tables[h], start, p, mine, t, h, pos))
    && (forall h: nat, a: nat, b: nat {:trigger SingleIn(tables[h], t, a, b)} ::
          h < |tables| ==> SingleIn(tables[h], t, a, b))
  }

  /** t has no entry in the tables from h on. */
  ghost predicate NoneFrom(tables: seq<Table>, t: Tid, h: nat) {
    forall k: nat {:trigger NotIn(tables[k], t)} :: h <= k < |tables| ==> NotIn(tables[k], t)
  }

  ghost predicate FoundIn(tab: Table, start: nat, t: Tid) {
    exists j: nat :: At(tab, start, t, j)
  }

  ghost predicate Findable(tables: seq<Table>, start: nat, t: Tid) {
    exists h: nat :: h < |tables| && FoundIn(tables[h], start, t)
  }

  /** Lookups in progress and the like know the tables they work on. */
  ghost predicate PcOk(tables: seq<Table>, start: nat, p: Pc, mine: Option<Pid>, t: Tid) {
    match p
    case Idle => mine.Some? ==> Findable(tables, start, t)
    case Return(result) => result == mine && (mine.Some? ==> Findable(tables, start, t))
    case Probe(main, h, j) =>
      h <= main < |tables| && NoneFrom(tables, t, h + 1) && Clear(tables[h], start, t, j)
      && (mine.Some? ==> Findable(tables, start, t))
    case Migrate(main, value, j, try) =>
      main < |tables| && mine == Some(value) && Findable(tables, start, t) && NoneFrom(tables, t, main)
      && Solid(tables[main], start, j) && (try.Second? ==> Used(tables[main], start, j))
    case MigrateStore(main, value, pos) =>
      main < |tables| && mine == Some(value) && Findable(tables, start, t) && Holds(tables[main], pos, t)
    case Count(main) => main < |tables| && mine == None
    case Decide(main, _) => main < |tables| && mine == None
    case Grow(main, _) => main == |tables| - 1 && mine == None
    case Obtain(main) => main < |tables| && mine == None
    case Scan(main, _) => main < |tables| && mine == None
    case Insert(main, p, j, try) =>
      main < |tables| && mine == Some(p) && NoneFrom(tables, t, 0) && Solid(tables[main], start, j)
    case Uncount(main, p, pos) =>
      main < |tables| && mine == Some(p) && Findable(tables, start, t) && Holds(tables[main], pos, t)
    case InsertStore(main, p, pos) =>
      main < |tables| && mine == Some(p) && Findable(tables, start, t) && Holds(tables[main], pos, t)
    case ExitScan(p, h, j) =>
      h < |tables| && mine == Some(p) && NoneFrom(tables, t, h + 1) && Clear(tables[h], start, t, j)
    case ExitMark(p) => mine == Some(p) && NoneFrom(tables, t, 0)
  }

  ghost predicate ThreadOk(s: State, t: Tid)
    requires t in s.pc && t in s.mine
  {
    && EntriesOk(s.tables, Start(s, t), s.pc[t], s.mine[t], t)
    && PcOk(s.tables, Start(s, t), s.pc[t], s.mine[t], t)
  }

  // ------------------------------------------------------------- all threads

  ghost predicate ActiveOk(s: State, t: Tid)
    requires t in s.mine
  {
    s.mine[t].Some? ==> s.mine[t].value < |s.active| && s.active[s.mine[t].value]
  }

  ghost predicate Apart(s: State, t: Tid, u: Tid)
    requires t in s.mine && u in s.mine
  {
    t != u && s.mine[t].Some? ==> s.mine[u] != s.mine[t]
  }

  /** Keys in the tables are those of known threads. */
  ghost predicate KnownKey(s: State, h: nat, pos: nat) {
    h < |s.tables| && pos < |s.tables[h].keys| && s.tables[h].keys[pos].Id? ==> s.tables[h].keys[pos].t in s.pc
  }

  predicate GrowsAlone(s: State, t: Tid, u: Tid)
    requires t in s.pc && u in s.pc
  {
    && (s.pc[t].Grow? ==> s.resizing)
    && (s.pc[t].Grow? && s.pc[u].Grow? ==> t == u)
  }

  ghost predicate Inv(s: State) {
    && TablesOk(s) && s.mine.Keys == s.pc.Keys
    && (forall t {:trigger ThreadOk(s, t)} :: t in s.pc ==> ThreadOk(s, t))
    && (forall t {:trigger ActiveOk(s, t)} :: t in s.mine ==> ActiveOk(s, t))
    && (forall t, u {:trigger Apart(s, t, u)} :: t in s.mine && u in s.mine ==> Apart(s, t, u))
    && (forall t, u {:trigger GrowsAlone(s, t, u)} :: t in s.pc && u in s.pc ==> GrowsAlone(s, t, u))
    && (forall h: nat, pos: nat {:trigger KnownKey(s, h, pos)} :: KnownKey(s, h, pos))
  }

  // ------------------------------------------------ what others' steps leave alone

  /** tab' as it looks to t, compared with tab: slots once used stay used, and t's own
      entries are as they were. */
  ghost predicate TableKept(tab: Table, tab': Table, t: Tid) {
    && |tab'.keys| == |tab.keys| && |tab'.values| == |tab.values|
    && (forall pos: nat {:trigger tab'.keys[pos]} ::
          pos < |tab.keys| && tab.keys[pos] != Empty ==> tab'.keys[pos] != Empty)
    && (forall pos: nat {:trigger Holds(tab, pos, t)} {:trigger Holds(tab', pos, t)} ::
          Holds(tab, pos, t) <==> Holds(tab', pos, t))
    && (forall pos: nat {:trigger tab'.values[pos]} ::
          pos < |tab.values| && Holds(tab, pos, t) ==> tab'.values[pos] == tab.values[pos])
  }

  ghost predicate TableKeptAt(tables: seq<Table>, tables': seq<Table>, t: Tid, h: nat)
    requires h < |tables| && h < |tables'|
  {
    TableKept(tables[h], tables'[h], t)
  }

  /** The same tables, each kept, and perhaps new ones without t. */
  ghost predicate TablesKept(tables: seq<Table>, tables': seq<Table>, t: Tid) {
    && |tables| <= |tables'|
    && (forall h: nat {:trigger TableKeptAt(tables, tables', t, h)} ::
          h < |tables| ==> TableKeptAt(tables, tables', t, h))
    && NoneFrom(tables', t, |tables|)
  }

  lemma KeptPath(tab: Table, tab': Table, start: nat, t: Tid, i: nat)
    requires TableKept(tab, tab', t)
    ensures Used(tab, start, i) ==> Used(tab', start, i)
    ensures tab.keys != [] ==> Spot(tab', start, i) == Spot(tab, start, i)
    ensures tab.keys != [] ==> (tab.keys[Spot(tab, start, i)] == Id(t) <==> tab'.keys[Spot(tab', start, i)] == Id(t))
  {
    if tab.keys != [] {
      var pos := Spot(tab, start, i);
      assert Holds(tab, pos, t) <==> Holds(tab', pos, t);
    }
  }

  lemma KeptSolid(tab: Table, tab': Table, start: nat, t: Tid, j: nat)
    requires TableKept(tab, tab', t)
    ensures Solid(tab, start, j) ==> Solid(tab', start, j)
    ensures Clear(tab, start, t, j) ==> Clear(tab', start, t, j)
    ensures At(tab, start, t, j) ==> At(tab', start, t, j)
  {
    forall i: nat | i < j && Used(tab, start, i) ensures Used(tab', start, i) {
      KeptPath(tab, tab', start, t, i);
    }
    if Clear(tab, start, t, j) {
      forall i: nat | i < j ensures Used(tab', start, i) && tab'.keys[Spot(tab', start, i)] != Id(t) {
        assert Used(tab, start, i);
        KeptPath(tab, tab', start, t, i);
      }
    }
    KeptPath(tab, tab', start, t, j);
  }

  lemma KeptFound(tab: Table, tab': Table, start: nat, t: Tid)
    requires TableKept(tab, tab', t) && FoundIn(tab, start, t)
    ensures FoundIn(tab', start, t)
  {
    var j: nat :| At(tab, start, t, j);
    KeptSolid(tab, tab', start, t, j);
  }

  lemma KeptEntry(tab: Table, tab': Table, start: nat, p: Pc, mine: Option<Pid>, t: Tid, h: nat, pos: nat)
    requires TableKept(tab, tab', t) && EntryOk(tab, start, p, mine, t, h, pos)
    ensures EntryOk(tab', start, p, mine, t, h, pos)
  {
    if Holds(tab', pos, t) {
      assert Holds(tab, pos, t);
      var j: nat :| At(tab, start, t, j) && Spot(tab, start, j) == pos;
      KeptSolid(tab, tab', start, t, j);
      KeptPath(tab, tab', start, t, j);
    }
  }

  lemma KeptEntries(tables: seq<Table>, tables': seq<Table>, start: nat, p: Pc, mine: Option<Pid>, t: Tid)
    requires TablesKept(tables, tables', t) && EntriesOk(tables, start, p, mine, t)
    ensures EntriesOk(tables', start, p, mine, t)
  {
    forall h: nat, pos: nat | h < |tables'| ensures EntryOk(tables'[h], start, p, mine, t, h, pos) {
      if h < |tables| {
        assert TableKeptAt(tables, tables', t, h);
        assert EntryOk(tables[h], start, p, mine, t, h, pos) by {
          assert Holds(tables[h], pos, t) || !Holds(tables[h], pos, t);
        }
        KeptEntry(tables[h], tables'[h], start, p, mine, t, h, pos);
      } else {
        assert NotIn(tables'[h], t);
        assert !Holds(tables'[h], pos, t);
      }
    }
    forall h: nat, a: nat, b: nat | h < |tables'| ensures SingleIn(tables'[h], t, a, b) {
      if h < |tables| {
        assert TableKeptAt(tables, tables', t, h) && SingleIn(tables[h], t, a, b);
        assert Holds(tables[h], a, t) <==> Holds(tables'[h], a, t);
        assert Holds(tables[h], b, t) <==> Holds(tables'[h], b, t);
      } else {
        assert NotIn(tables'[h], t);
        assert !Holds(tables'[h], a, t);
      }
    }
  }

  lemma KeptNone(tables: seq<Table>, tables': seq<Table>, t: Tid, h: nat)
    requires TablesKept(tables, tables', t) && NoneFrom(tables, t, h)
    ensures NoneFrom(tables', t, h)
  {
    forall k: nat | h <= k < |tables'| ensures NotIn(tables'[k], t) {
      if k < |tables| {
        assert TableKeptAt(tables, tables', t, k) && NotIn(tables[k], t);
        forall pos: nat ensures !Holds(tables'[k], pos, t) {
          assert Holds(tables[k], pos, t) <==> Holds(tables'[k], pos, t);
        }
      } else {
        assert NotIn(tables'[k], t);
      }
    }
  }

  lemma KeptFindable(tables: seq<Table>, tables': seq<Table>, start: nat, t: Tid)
    requires TablesKept(tables, tables', t) && Findable(tables, start, t)
    ensures Findable(tables', start, t)
  {
    var h: nat :| h < |tables| && FoundIn(tables[h], start, t);
    assert TableKeptAt(tables, tables', t, h);
    KeptFound(tables[h], tables'[h], start, t);
  }

  lemma KeptPc(tables: seq<Table>, tables': seq<Table>, start: nat, p: Pc, mine: Option<Pid>, t: Tid)
    requires TablesKept(tables, tables', t) && PcOk(tables, start, p, mine, t)
    requires p.Grow? ==> |tables'| == |tables|
    ensures PcOk(tables', start, p, mine, t)
  {
    if Findable(tables, start, t) {
      KeptFindable(tables, tables', start, t);
    }
    match p
    case Probe(main, h, j) =>
      KeptNone(tables, tables', t, h + 1);
      assert TableKeptAt(tables, tables', t, h);
      KeptSolid(tables[h], tables'[h], start, t, j);
    case Migrate(main, _, j, _) =>
      KeptNone(tables, tables', t, main);
      assert TableKeptAt(tables, tables', t, main);
      KeptSolid(tables[main], tables'[main], start, t, j);
      KeptPath(tables[main], tables'[main], start, t, j);
    case MigrateStore(main, _, pos) => assert TableKeptAt(tables, tables', t, main);
    case Insert(main, _, j, _) =>
      KeptNone(tables, tables', t, 0);
      assert TableKeptAt(tables, tables', t, main);
      KeptSolid(tables[main], tables'[main], start, t, j);
    case Uncount(main, _, pos) => assert TableKeptAt(tables, tables', t, main);
    case InsertStore(main, _, pos) => assert TableKeptAt(tables, tables', t, main);
    case ExitScan(_, h, j) =>
      KeptNone(tables, tables', t, h + 1);
      assert TableKeptAt(tables, tables', t, h);
      KeptSolid(tables[h], tables'[h], start, t, j);
    case ExitMark(_) => KeptNone(tables, tables', t, 0);
    case Idle =>
    case Return(_) =>
    case Count(_) =>
    case Decide(_, _) =>
    case Grow(_, _) =>
    case Obtain(_) =>
    case Scan(_, _) =>
  }

  lemma KeptThread(s: State, s': State, t: Tid)
    requires t in s.pc && t in s.mine && ThreadOk(s, t) && TablesKept(s.tables, s'.tables, t)
    requires t in s'.pc && t in s'.mine && s'.pc[t] == s.pc[t] && s'.mine[t] == s.mine[t] && s'.hash == s.hash
    requires s.pc[t].Grow? ==> |s'.tables| == |s.tables|
    ensures ThreadOk(s', t)
  {
    KeptEntries(s.tables, s'.tables, Start(s, t), s.pc[t], s.mine[t], t);
    KeptPc(s.tables, s'.tables, Start(s, t), s.pc[t], s.mine[t], t);
  }

  lemma SameTablesKept(tables: seq<Table>, t: Tid)
    ensures TablesKept(tables, tables, t)
  {
  }

  /** Writing a key over an empty slot, a tombstone or an own key, as others see it. */
  lemma SetKeyKeeps(s: State, h: nat, pos: nat, key: Key, t: Tid)
    requires h < |s.tables| && pos < |s.tables[h].keys|
    requires s.tables[h].keys[pos] != Id(t) && key != Id(t) && key != Empty
    ensures TablesKept(s.tables, SetKey(s, h, pos, key).tables, t)
  {
    var tables' := SetKey(s, h, pos, key).tables;
    forall k: nat | k < |s.tables| ensures TableKeptAt(s.tables, tables', t, k) {
      forall x: nat ensures Holds(s.tables[k], x, t) <==> Holds(tables'[k], x, t) {
      }
    }
  }

  /** Writing a value beside somebody else's key. */
  lemma SetValueKeeps(s: State, h: nat, pos: nat, p: Pid, t: Tid)
    requires h < |s.tables| && pos < |s.tables[h].values| && !Holds(s.tables[h], pos, t)
    ensures TablesKept(s.tables, SetValue(s, h, pos, p).tables, t)
  {
    var tables' := SetValue(s, h, pos, p).tables;
    forall k: nat | k < |s.tables| ensures TableKeptAt(s.tables, tables', t, k) {
      forall x: nat ensures Holds(s.tables[k], x, t) <==> Holds(tables'[k], x, t) {
      }
    }
  }

  // ----------------------------------------------------- putting a step together

  /** Thread t has moved; it is fine itself, and the others see their tables kept. */
  lemma OthersFine(s: State, s': State, t: Tid)
    requires Inv(s) && t in s.pc && TablesOk(s') && s'.hash == s.hash
    requires t in s'.pc && t in s'.mine && s'.pc == s.pc[t := s'.pc[t]] && s'.mine == s.mine[t := s'.mine[t]]
    requires ThreadOk(s', t)
    requires forall u {:trigger TablesKept(s.tables, s'.tables, u)} ::
      u in s.pc && u != t ==> TablesKept(s.tables, s'.tables, u)
    requires |s'.tables| != |s.tables| ==> s.pc[t].Grow?
    ensures s'.mine.Keys == s'.pc.Keys
    ensures forall u {:trigger ThreadOk(s', u)} :: u in s'.pc ==> ThreadOk(s', u)
  {
    forall u | u in s'.pc ensures ThreadOk(s', u) {
      if u != t {
        assert ThreadOk(s, u) && GrowsAlone(s, t, u);
        KeptThread(s, s', u);
      }
    }
  }

  ghost predicate SameProducers(s: State, s': State) {
    s'.mine == s.mine && s'.active == s.active
  }

  /** Steps that leave producers and the resize flag alone. */
  lemma RestFine(s: State, s': State, t: Tid)
    requires Inv(s) && t in s.pc && t in s'.pc && s'.pc == s.pc[t := s'.pc[t]]
    requires SameProducers(s, s') && s'.resizing == s.resizing && !s'.pc[t].Grow? && !s.pc[t].Grow?
    requires forall h: nat, pos: nat {:trigger KnownKey(s', h, pos)} :: KnownKey(s', h, pos)
    requires TablesOk(s') && forall u {:trigger ThreadOk(s', u)} :: u in s'.pc ==> ThreadOk(s', u)
    ensures Inv(s')
  {
    forall u | u in s'.mine ensures ActiveOk(s', u) {
      assert ActiveOk(s, u);
    }
    forall u, v | u in s'.mine && v in s'.mine ensures Apart(s', u, v) {
      assert Apart(s, u, v);
    }
    forall u, v | u in s'.pc && v in s'.pc ensures GrowsAlone(s', u, v) {
      assert GrowsAlone(s, u, v);
    }
  }

  lemma SameKnown(s: State, s': State)
    requires Inv(s) && s'.tables == s.tables && s'.pc.Keys == s.pc.Keys
    ensures forall h: nat, pos: nat {:trigger KnownKey(s', h, pos)} :: KnownKey(s', h, pos)
  {
    forall h: nat, pos: nat ensures KnownKey(s', h, pos) {
      assert KnownKey(s, h, pos);
    }
  }

  /** A step that only moves t's program point (and perhaps the count). */
  lemma ControlStep(s: State, s': State, t: Tid, q: Pc)
    requires Inv(s) && t in s.pc && s' == Goto(s, t, q).(count := s'.count)
    requires !q.Grow? && !s.pc[t].Grow?
    requires PcOk(s.tables, Start(s, t), q, s.mine[t], t)
    requires forall h: nat, pos: nat {:trigger Pending(s.pc[t], h, pos)} ::
      !Pending(s.pc[t], h, pos) || Pending(q, h, pos)
    ensures Inv(s')
  {
    assert ThreadOk(s, t);
    PendingMonotone(s.tables, Start(s, t), s.pc[t], q, s.mine[t], t);
    forall u | u in s.pc && u != t ensures TablesKept(s.tables, s'.tables, u) {
      SameTablesKept(s.tables, u);
    }
    assert TablesOk(s');
    OthersFine(s, s', t);
    SameKnown(s, s');
    RestFine(s, s', t);
  }

  lemma PendingMonotone(tables: seq<Table>, start: nat, p: Pc, q: Pc, mine: Option<Pid>, t: Tid)
    requires EntriesOk(tables, start, p, mine, t)
    requires forall h: nat, pos: nat {:trigger Pending(p, h, pos)} :: !Pending(p, h, pos) || Pending(q, h, pos)
    ensures EntriesOk(tables, start, q, mine, t)
  {
    forall h: nat, pos: nat | h < |tables| ensures EntryOk(tables[h], start, q, mine, t, h, pos) {
      assert EntryOk(tables[h], start, p, mine, t, h, pos) by {
        assert Holds(tables[h], pos, t) || !Holds(tables[h], pos, t);
      }
      assert Pending(p, h, pos) ==> Pending(q, h, pos);
    }
  }

  // ------------------------------------------------------------------- lookups

  lemma EntryAt(tables: seq<Table>, start: nat, p: Pc, mine: Option<Pid>, t: Tid, h: nat, pos: nat)
    requires EntriesOk(tables, start, p, mine, t) && h < |tables|
    ensures EntryOk(tables[h], start, p, mine, t, h, pos)
  {
    assert Holds(tables[h], pos, t) || !Holds(tables[h], pos, t);
  }

  /** An empty slot ends the search: t's key is not in this table. */
  lemma EmptyMeansAbsent(tables: seq<Table>, start: nat, p: Pc, mine: Option<Pid>, t: Tid, h: nat, j: nat)
    requires EntriesOk(tables, start, p, mine, t) && h < |tables| && TableOk(tables[h])
    requires Clear(tables[h], start, t, j) && tables[h].keys[Spot(tables[h], start, j)] == Empty
    ensures NotIn(tables[h], t)
  {
    forall k: nat ensures !At(tables[h], start, t, k) {
      assert !Used(tables[h], start, j);
      assert k < j ==> Used(tables[h], start, k);
    }
    forall pos: nat ensures !Holds(tables[h], pos, t) {
      EntryAt(tables, start, p, mine, t, h, pos);
    }
  }

  lemma FoundSomewhere(tables: seq<Table>, start: nat, t: Tid)
    requires NoneFrom(tables, t, 0)
    ensures !Findable(tables, start, t)
  {
    forall h: nat | h < |tables| ensures !FoundIn(tables[h], start, t) {
      assert NotIn(tables[h], t);
      forall j: nat ensures !At(tables[h], start, t, j) {
        assert tables[h].keys != [] ==> !Holds(tables[h], Spot(tables[h], start, j), t);
      }
    }
  }

  lemma OneFurther(tab: Table, start: nat, t: Tid, j: nat)
    requires tab.keys != [] && tab.keys[Spot(tab, start, j)] != Empty
    ensures Solid(tab, start, j) ==> Solid(tab, start, j + 1)
    ensures Clear(tab, start, t, j) && tab.keys[Spot(tab, start, j)] != Id(t) ==> Clear(tab, start, t, j + 1)
  {
    assert Used(tab, start, j);
  }

  lemma NoneFromDown(tables: seq<Table>, t: Tid, h: nat)
    requires NoneFrom(tables, t, h + 1) && h < |tables| && NotIn(tables[h], t)
    ensures NoneFrom(tables, t, h)
  {
    forall k: nat | h <= k < |tables| ensures NotIn(tables[k], t) {
    }
  }

  lemma KeepsBegin(s: State, s': State, t: Tid)
    requires Inv(s) && Begin(s, s', t)
    ensures Inv(s')
  {
    assert ThreadOk(s, t);
    ControlStep(s, s', t, s'.pc[t]);
  }

  lemma KeepsProbe(s: State, s': State, t: Tid)
    requires Inv(s) && DoProbe(s, s', t)
    ensures Inv(s')
  {
    var p, start := s.pc[t], Start(s, t);
    var tab := s.tables[p.h];
    var pos := Spot(tab, start, p.j);
    assert ThreadOk(s, t);
    if tab.keys[pos] == Empty {
      EmptyMeansAbsent(s.tables, start, p, s.mine[t], t, p.h, p.j);
      NoneFromDown(s.tables, t, p.h);
      if p.h == 0 {
        FoundSomewhere(s.tables, start, t);
      }
    } else if tab.keys[pos] == Id(t) {
      EntryAt(s.tables, start, p, s.mine[t], t, p.h, pos);
      assert Holds(tab, pos, t);
    } else {
      OneFurther(tab, start, t, p.j);
    }
    ControlStep(s, s', t, s'.pc[t]);
  }

  // ------------------------------------------------------- putting one's own entry

  /** t puts its key into a table where it had none. */
  lemma OwnKeyPut(tables: seq<Table>, tables': seq<Table>, start: nat, p: Pc, q: Pc, mine: Option<Pid>,
      t: Tid, h: nat, j: nat)
    requires EntriesOk(tables, start, p, mine, t) && mine.Some? && h < |tables| && TableOk(tables[h])
    requires NotIn(tables[h], t) && Solid(tables[h], start, j)
    requires forall k: nat, x: nat {:trigger Pending(p, k, x)} :: !Pending(p, k, x)
    requires var pos := Spot(tables[h], start, j);
      Pending(q, h, pos) && tables' == tables[h := tables[h].(keys := tables[h].keys[pos := Id(t)])]
    ensures EntriesOk(tables', start, q, mine, t) && Findable(tables', start, t)
    ensures Holds(tables'[h], Spot(tables[h], start, j), t)
  {
    var pos, tab' := Spot(tables[h], start, j), tables'[h];
    forall i: nat | i < j ensures Used(tab', start, i) {
      assert Used(tables[h], start, i);
    }
    assert At(tab', start, t, j);
    assert FoundIn(tables'[h], start, t);
    forall k: nat, x: nat | k < |tables'| ensures EntryOk(tables'[k], start, q, mine, t, k, x) {
      if k != h {
        EntryAt(tables, start, p, mine, t, k, x);
        assert !Pending(p, k, x);
      } else {
        assert !Holds(tables[h], x, t);
      }
    }
    forall k: nat, a: nat, b: nat | k < |tables'| ensures SingleIn(tables'[k], t, a, b) {
      if k != h {
        assert SingleIn(tables[k], t, a, b);
      } else {
        assert !Holds(tables[h], a, t) && !Holds(tables[h], b, t);
      }
    }
  }

  /** A key written by t leaves all keys known and the tables in shape. */
  lemma KeyWritten(s: State, s': State, t: Tid, h: nat, pos: nat, key: Key)
    requires Inv(s) && t in s.pc && h < |s.tables| && pos < |s.tables[h].keys|
    requires s'.tables == SetKey(s, h, pos, key).tables && s'.pc.Keys == s.pc.Keys
    requires key == Id(t) || key == Tomb
    ensures TablesOk(s')
    ensures forall k: nat, x: nat {:trigger KnownKey(s', k, x)} :: KnownKey(s', k, x)
  {
    forall k: nat, x: nat ensures KnownKey(s', k, x) {
      assert KnownKey(s, k, x);
    }
    forall k: nat | k < |s'.tables| ensures TableOk(s'.tables[k]) {
      assert TableOk(s.tables[k]);
    }
  }

  /** t has written a key over an empty slot, a tombstone or its own key. */
  lemma KeyStep(s: State, s': State, t: Tid, h: nat, pos: nat, key: Key, q: Pc)
    requires Inv(s) && t in s.pc && h < |s.tables| && pos < |s.tables[h].keys|
    requires s.tables[h].keys[pos].Id? ==> s.tables[h].keys[pos].t == t
    requires key == Id(t) || key == Tomb
    requires s' == Goto(SetKey(s, h, pos, key), t, q) && !q.Grow? && !s.pc[t].Grow?
    requires EntriesOk(s'.tables, Start(s, t), q, s.mine[t], t) && PcOk(s'.tables, Start(s, t), q, s.mine[t], t)
    ensures Inv(s')
  {
    KeyWritten(s, s', t, h, pos, key);
    forall u | u in s.pc && u != t ensures TablesKept(s.tables, s'.tables, u) {
      SetKeyKeeps(s, h, pos, key, u);
    }
    assert ThreadOk(s', t);
    OthersFine(s, s', t);
    RestFine(s, s', t);
  }

  lemma PutKeyStep(s: State, s': State, t: Tid, h: nat, j: nat, q: Pc)
    requires Inv(s) && t in s.pc && h < |s.tables| && TableOk(s.tables[h])
    requires s.pc[t].Migrate? || s.pc[t].Insert?
    requires NotIn(s.tables[h], t) && Solid(s.tables[h], Start(s, t), j) && s.mine[t].Some?
    requires var pos := Spot(s.tables[h], Start(s, t), j);
      && s' == Goto(SetKey(s, h, pos, Id(t)), t, q)
      && (s.tables[h].keys[pos] == Empty || s.tables[h].keys[pos] == Tomb)
      && (q == MigrateStore(h, s.mine[t].value, pos) || q == Uncount(h, s.mine[t].value, pos)
          || q == InsertStore(h, s.mine[t].value, pos))
    ensures Inv(s')
  {
    var start, pos := Start(s, t), Spot(s.tables[h], Start(s, t), j);
    assert ThreadOk(s, t);
    OwnKeyPut(s.tables, s'.tables, start, s.pc[t], q, s.mine[t], t, h, j);
    KeyStep(s, s', t, h, pos, Id(t), q);
  }

  lemma KeepsMigrate(s: State, s': State, t: Tid)
    requires Inv(s) && DoMigrate(s, s', t)
    ensures Inv(s')
  {
    var p, start := s.pc[t], Start(s, t);
    assert ThreadOk(s, t) && NotIn(s.tables[p.main], t);
    var tab := s.tables[p.main];
    var pos := Spot(tab, start, p.j);
    if tab.keys[pos] == (if p.try.First? then Empty else Tomb) {
      PutKeyStep(s, s', t, p.main, p.j, s'.pc[t]);
    } else {
      if p.try.Second? {
        assert Used(tab, start, p.j);
        OneFurther(tab, start, t, p.j);
      }
      ControlStep(s, s', t, s'.pc[t]);
    }
  }

  lemma KeepsInsert(s: State, s': State, t: Tid)
    requires Inv(s) && DoInsert(s, s', t)
    ensures Inv(s')
  {
    var p, start := s.pc[t], Start(s, t);
    assert ThreadOk(s, t) && NotIn(s.tables[p.main], t);
    var tab := s.tables[p.main];
    var pos := Spot(tab, start, p.j);
    if tab.keys[pos] == (if p.try.First? then Tomb else Empty) {
      PutKeyStep(s, s', t, p.main, p.j, s'.pc[t]);
    } else {
      if p.try.Second? {
        OneFurther(tab, start, t, p.j);
      }
      ControlStep(s, s', t, s'.pc[t]);
    }
  }

  /** t stores its producer beside its key. */
  lemma OwnValueStored(tables: seq<Table>, tables': seq<Table>, start: nat, p: Pc, q: Pc, mine: Option<Pid>,
      t: Tid, h: nat, pos: nat)
    requires EntriesOk(tables, start, p, mine, t) && mine.Some? && h < |tables| && TableOk(tables[h])
    requires Holds(tables[h], pos, t) && pos < |tables[h].values|
    requires forall k: nat, x: nat {:trigger Pending(p, k, x)} :: Pending(p, k, x) ==> k == h && x == pos
    requires tables' == tables[h := tables[h].(values := tables[h].values[pos := mine.value])]
    ensures EntriesOk(tables', start, q, mine, t)
  {
    forall k: nat, x: nat | k < |tables'| ensures EntryOk(tables'[k], start, q, mine, t, k, x) {
      EntryAt(tables, start, p, mine, t, k, x);
      assert Pending(p, k, x) ==> k == h && x == pos;
      if Holds(tables'[k], x, t) {
        var j: nat :| At(tables[k], start, t, j) && Spot(tables[k], start, j) == x;
        SameKeysPath(tables[k], tables'[k], start, t, j);
      }
    }
    forall k: nat, a: nat, b: nat | k < |tables'| ensures SingleIn(tables'[k], t, a, b) {
      assert SingleIn(tables[k], t, a, b);
    }
  }

  lemma SameKeysPath(tab: Table, tab': Table, start: nat, t: Tid, j: nat)
    requires tab'.keys == tab.keys && At(tab, start, t, j)
    ensures At(tab', start, t, j) && Spot(tab', start, j) == Spot(tab, start, j)
  {
    forall i: nat | i < j ensures Used(tab', start, i) {
      assert Used(tab, start, i);
    }
  }

  lemma SameKeysFindable(tables: seq<Table>, tables': seq<Table>, start: nat, t: Tid)
    requires Findable(tables, start, t) && |tables'| == |tables|
    requires forall h: nat {:trigger tables'[h]} :: h < |tables| ==> tables'[h].keys == tables[h].keys
    ensures Findable(tables', start, t)
  {
    var h: nat :| h < |tables| && FoundIn(tables[h], start, t);
    var j: nat :| At(tables[h], start, t, j);
    SameKeysPath(tables[h], tables'[h], start, t, j);
    assert FoundIn(tables'[h], start, t);
  }

  lemma StoreStep(s: State, s': State, t: Tid, h: nat, pos: nat)
    requires Inv(s) && t in s.pc && h < |s.tables| && TableOk(s.tables[h]) && s.mine[t].Some?
    requires s.pc[t] == MigrateStore(h, s.mine[t].value, pos) || s.pc[t] == InsertStore(h, s.mine[t].value, pos)
    requires Holds(s.tables[h], pos, t) && Findable(s.tables, Start(s, t), t)
    requires s' == Goto(SetValue(s, h, pos, s.mine[t].value), t, Return(s.mine[t]))
    ensures Inv(s')
  {
    assert ThreadOk(s, t);
    OwnValueStored(s.tables, s'.tables, Start(s, t), s.pc[t], s'.pc[t], s.mine[t], t, h, pos);
    SameKeysFindable(s.tables, s'.tables, Start(s, t), t);
    forall u | u in s.pc && u != t ensures TablesKept(s.tables, s'.tables, u) {
      SetValueKeeps(s, h, pos, s.mine[t].value, u);
    }
    forall k: nat | k < |s'.tables| ensures TableOk(s'.tables[k]) {
      assert TableOk(s.tables[k]);
    }
    forall k: nat, x: nat ensures KnownKey(s', k, x) {
      assert KnownKey(s, k, x);
    }
    OthersFine(s, s', t);
    RestFine(s, s', t);
  }

  lemma KeepsMigrateStore(s: State, s': State, t: Tid)
    requires Inv(s) && DoMigrateStore(s, s', t)
    ensures Inv(s')
  {
    assert ThreadOk(s, t);
    StoreStep(s, s', t, s.pc[t].main, s.pc[t].pos);
  }

  lemma KeepsInsertStore(s: State, s': State, t: Tid)
    requires Inv(s) && DoInsertStore(s, s', t)
    ensures Inv(s')
  {
    assert ThreadOk(s, t);
    StoreStep(s, s', t, s.pc[t].main, s.pc[t].pos);
  }

  // ------------------------------------------------------------------ inserting

  lemma KeepsControl(s: State, s': State, t: Tid)
    requires Inv(s) && (DoCount(s, s', t) || DoObtain(s, s', t) || DoUncount(s, s', t) || Finish(s, s', t)
                        || BeginExit(s, s', t))
    ensures Inv(s')
  {
    assert ThreadOk(s, t);
    ControlStep(s, s', t, s'.pc[t]);
  }

  /** Taking the resize flag. */
  lemma TakesFlag(s: State, s': State, t: Tid, n: int)
    requires Inv(s) && t in s.pc && s.pc[t].Decide? && !s.resizing
    requires s' == Goto(s, t, Grow(|s.tables| - 1, n)).(resizing := true)
    ensures Inv(s')
  {
    assert ThreadOk(s, t);
    PendingMonotone(s.tables, Start(s, t), s.pc[t], s'.pc[t], s.mine[t], t);
    forall u | u in s.pc && u != t ensures TablesKept(s.tables, s'.tables, u) {
      SameTablesKept(s.tables, u);
    }
    assert TablesOk(s');
    OthersFine(s, s', t);
    SameKnown(s, s');
    forall u | u in s'.mine ensures ActiveOk(s', u) {
      assert ActiveOk(s, u);
    }
    forall u, v | u in s'.mine && v in s'.mine ensures Apart(s', u, v) {
      assert Apart(s, u, v);
    }
    forall u, v | u in s'.pc && v in s'.pc ensures GrowsAlone(s', u, v) {
      assert GrowsAlone(s, u, v) && GrowsAlone(s, v, u);
    }
  }

  lemma KeepsDecide(s: State, s': State, t: Tid)
    requires Inv(s) && DoDecide(s, s', t)
    ensures Inv(s')
  {
    assert ThreadOk(s, t);
    if s'.pc[t].Grow? {
      TakesFlag(s, s', t, s.pc[t].n);
    } else {
      ControlStep(s, s', t, s'.pc[t]);
    }
  }

  /** The flag is given back; perhaps a table was appended. */
  lemma ReleasesFlag(s: State, s': State, t: Tid, q: Pc)
    requires Inv(s) && t in s.pc && s.pc[t].Grow? && !q.Grow?
    requires s' == Goto(s, t, q).(tables := s'.tables, resizing := false, count := s'.count)
    requires TablesOk(s') && EntriesOk(s'.tables, Start(s, t), q, s.mine[t], t)
    requires PcOk(s'.tables, Start(s, t), q, s.mine[t], t)
    requires forall u {:trigger TablesKept(s.tables, s'.tables, u)} :: u in s.pc ==> TablesKept(s.tables, s'.tables, u)
    requires forall h: nat, pos: nat {:trigger KnownKey(s', h, pos)} :: KnownKey(s', h, pos)
    ensures Inv(s')
  {
    OthersFine(s, s', t);
    forall u | u in s'.mine ensures ActiveOk(s', u) {
      assert ActiveOk(s, u);
    }
    forall u, v | u in s'.mine && v in s'.mine ensures Apart(s', u, v) {
      assert Apart(s, u, v);
    }
    forall u, v | u in s'.pc && v in s'.pc ensures GrowsAlone(s', u, v) {
      assert GrowsAlone(s, t, u) && GrowsAlone(s, u, t);
    }
  }

  lemma AppendKeeps(tables: seq<Table>, tables': seq<Table>, cap: nat, t: Tid)
    requires tables' == tables + [NewTable(cap)]
    ensures TablesKept(tables, tables', t)
  {
    forall k: nat | |tables| <= k < |tables'| ensures NotIn(tables'[k], t) {
    }
    forall h: nat | h < |tables| ensures TableKeptAt(tables, tables', t, h) {
    }
  }

  lemma KeepsGrowAppend(s: State, s': State, t: Tid, cap: nat)
    requires Inv(s) && t in s.pc && s.pc[t].Grow? && cap > 0
    requires s' == Goto(s, t, Obtain(s.pc[t].main + 1)).(tables := s.tables + [NewTable(cap)], resizing := false)
    ensures Inv(s')
  {
    assert ThreadOk(s, t);
    forall u | u in s.pc ensures TablesKept(s.tables, s'.tables, u) {
      AppendKeeps(s.tables, s'.tables, cap, u);
    }
    KeptEntries(s.tables, s'.tables, Start(s, t), s.pc[t], s.mine[t], t);
    PendingMonotone(s'.tables, Start(s, t), s.pc[t], s'.pc[t], s.mine[t], t);
    forall h: nat | h < |s'.tables| ensures TableOk(s'.tables[h]) {
      assert h < |s.tables| ==> TableOk(s.tables[h]);
    }
    forall h: nat, pos: nat ensures KnownKey(s', h, pos) {
      assert KnownKey(s, h, pos);
    }
    ReleasesFlag(s, s', t, s'.pc[t]);
  }

  lemma KeepsGrowNot(s: State, s': State, t: Tid, q: Pc)
    requires Inv(s) && t in s.pc && s.pc[t].Grow? && !q.Grow?
    requires s' == Goto(s, t, q).(resizing := false, count := s'.count)
    requires PcOk(s.tables, Start(s, t), q, s.mine[t], t)
    ensures Inv(s')
  {
    assert ThreadOk(s, t);
    PendingMonotone(s.tables, Start(s, t), s.pc[t], q, s.mine[t], t);
    forall u | u in s.pc ensures TablesKept(s.tables, s'.tables, u) {
      SameTablesKept(s.tables, u);
    }
    assert TablesOk(s');
    SameKnown(s, s');
    ReleasesFlag(s, s', t, q);
  }

  lemma KeepsGrow(s: State, s': State, t: Tid)
    requires Inv(s) && DoGrow(s, s', t)
    ensures Inv(s')
  {
    var p := s.pc[t];
    assert ThreadOk(s, t);
    assert s.tables[..p.main + 1] == s.tables;
    if s'.tables == s.tables {
      KeepsGrowNot(s, s', t, s'.pc[t]);
    } else {
      KeepsGrowAppend(s, s', t, |s'.tables[p.main + 1].keys|);
    }
  }

  /** A thread that has no producer has no entry, so it may take any. */
  lemma ObtainEntries(tables: seq<Table>, start: nat, p: Pc, q: Pc, t: Tid, mine': Option<Pid>)
    requires EntriesOk(tables, start, p, None, t)
    ensures EntriesOk(tables, start, q, mine', t) && NoneFrom(tables, t, 0)
  {
    forall h: nat | h < |tables| ensures NotIn(tables[h], t) {
      forall pos: nat ensures !Holds(tables[h], pos, t) {
        EntryAt(tables, start, p, None, t, h, pos);
      }
    }
    forall h: nat, a: nat, b: nat | h < |tables| ensures SingleIn(tables[h], t, a, b) {
      assert SingleIn(tables[h], t, a, b);
    }
    forall h: nat, pos: nat | h < |tables| ensures EntryOk(tables[h], start, q, mine', t, h, pos) {
      assert NotIn(tables[h], t) && !Holds(tables[h], pos, t);
    }
  }

  lemma TakesProducer(s: State, s': State, t: Tid, p: Pid)
    requires Inv(s) && t in s.pc && s.pc[t].Scan?
    requires s' == Goto(s, t, Insert(s.pc[t].main, p, 0, First)).(active := s'.active, mine := s.mine[t := Some(p)])
    requires p < |s'.active| && s'.active[p] && |s.active| <= |s'.active|
    requires p < |s.active| ==> !s.active[p]
    requires forall k :: 0 <= k < |s.active| && k != p ==> s'.active[k] == s.active[k]
    ensures Inv(s')
  {
    assert ThreadOk(s, t);
    ObtainEntries(s.tables, Start(s, t), s.pc[t], s'.pc[t], t, Some(p));
    forall u | u in s.pc && u != t ensures TablesKept(s.tables, s'.tables, u) {
      SameTablesKept(s.tables, u);
    }
    assert TablesOk(s');
    OthersFine(s, s', t);
    SameKnown(s, s');
    forall u | u in s'.mine ensures ActiveOk(s', u) {
      assert ActiveOk(s, u);
    }
    forall u, v | u in s'.mine && v in s'.mine ensures Apart(s', u, v) {
      assert Apart(s, u, v) && ActiveOk(s, u) && ActiveOk(s, v);
    }
    forall u, v | u in s'.pc && v in s'.pc ensures GrowsAlone(s', u, v) {
      assert GrowsAlone(s, u, v);
    }
  }

  lemma KeepsScan(s: State, s': State, t: Tid)
    requires Inv(s) && DoScan(s, s', t)
    ensures Inv(s')
  {
    assert ThreadOk(s, t);
    if s'.pc[t].Insert? {
      TakesProducer(s, s', t, s'.pc[t].p);
    } else {
      ControlStep(s, s', t, s'.pc[t]);
    }
  }

  // -------------------------------------------------------------------- exiting

  /** t takes its entry out of table h. */
  lemma OwnKeyRemoved(tables: seq<Table>, tables': seq<Table>, start: nat, p: Pc, q: Pc, mine: Option<Pid>,
      t: Tid, h: nat, pos: nat)
    requires EntriesOk(tables, start, p, mine, t) && h < |tables| && Holds(tables[h], pos, t)
    requires forall k: nat, x: nat {:trigger Pending(p, k, x)} :: !Pending(p, k, x)
    requires tables' == tables[h := tables[h].(keys := tables[h].keys[pos := Tomb])]
    ensures EntriesOk(tables', start, q, mine, t) && NotIn(tables'[h], t)
  {
    forall x: nat ensures !Holds(tables'[h], x, t) {
      assert SingleIn(tables[h], t, x, pos);
    }
    forall k: nat, x: nat | k < |tables'| ensures EntryOk(tables'[k], start, q, mine, t, k, x) {
      if k != h {
        EntryAt(tables, start, p, mine, t, k, x);
        assert !Pending(p, k, x);
      } else {
        assert !Holds(tables'[h], x, t);
      }
    }
    forall k: nat, a: nat, b: nat | k < |tables'| ensures SingleIn(tables'[k], t, a, b) {
      if k != h {
        assert SingleIn(tables[k], t, a, b);
      } else {
        assert !Holds(tables'[h], a, t);
      }
    }
  }

  lemma ExitRemoves(s: State, s': State, t: Tid, pos: nat, q: Pc)
    requires Inv(s) && t in s.pc && s.pc[t].ExitScan? && s.pc[t].h < |s.tables| && Holds(s.tables[s.pc[t].h], pos, t)
    requires s' == Goto(SetKey(s, s.pc[t].h, pos, Tomb), t, q)
    requires q == if s.pc[t].h == 0 then ExitMark(s.pc[t].p) else ExitScan(s.pc[t].p, s.pc[t].h - 1, 0)
    ensures Inv(s')
  {
    var h := s.pc[t].h;
    assert ThreadOk(s, t);
    OwnKeyRemoved(s.tables, s'.tables, Start(s, t), s.pc[t], q, s.mine[t], t, h, pos);
    forall k: nat | h + 1 <= k < |s'.tables| ensures NotIn(s'.tables[k], t) {
      assert NotIn(s.tables[k], t);
    }
    NoneFromDown(s'.tables, t, h);
    KeyStep(s, s', t, h, pos, Tomb, q);
  }

  /** t goes on to its next slot, or to the next table after an empty slot. */
  lemma ExitGoesOn(s: State, t: Tid, q: Pc)
    requires TablesOk(s) && t in s.pc && s.pc[t].ExitScan? && t in s.mine && ThreadOk(s, t)
    requires var p, tab := s.pc[t], s.tables[s.pc[t].h];
      var key := tab.keys[Spot(tab, Start(s, t), p.j)];
      && key != Id(t)
      && q == if key == Empty then (if p.h == 0 then ExitMark(p.p) else ExitScan(p.p, p.h - 1, 0))
              else ExitScan(p.p, p.h, p.j + 1)
    ensures PcOk(s.tables, Start(s, t), q, s.mine[t], t)
  {
    var p, start := s.pc[t], Start(s, t);
    var tab := s.tables[p.h];
    if tab.keys[Spot(tab, start, p.j)] == Empty {
      EmptyMeansAbsent(s.tables, start, p, s.mine[t], t, p.h, p.j);
      NoneFromDown(s.tables, t, p.h);
    } else {
      OneFurther(tab, start, t, p.j);
    }
  }

  lemma KeepsExitScan(s: State, s': State, t: Tid)
    requires Inv(s) && DoExitScan(s, s', t)
    ensures Inv(s')
  {
    var p := s.pc[t];
    var pos := Spot(s.tables[p.h], Start(s, t), p.j);
    assert ThreadOk(s, t);
    if s.tables[p.h].keys[pos] == Id(t) {
      ExitRemoves(s, s', t, pos, s'.pc[t]);
    } else {
      ExitGoesOn(s, t, s'.pc[t]);
      ControlStep(s, s', t, s'.pc[t]);
    }
  }

  lemma KeepsExitMark(s: State, s': State, t: Tid)
    requires Inv(s) && DoExitMark(s, s', t)
    ensures Inv(s')
  {
    var p := s.pc[t].p;
    assert ThreadOk(s, t);
    forall h: nat, pos: nat | h < |s.tables| ensures EntryOk(s.tables[h], Start(s, t), Idle, None, t, h, pos) {
      assert NotIn(s.tables[h], t) && !Holds(s.tables[h], pos, t);
    }
    forall u | u in s.pc && u != t ensures TablesKept(s.tables, s'.tables, u) {
      SameTablesKept(s.tables, u);
    }
    assert TablesOk(s');
    OthersFine(s, s', t);
    SameKnown(s, s');
    forall u | u in s'.mine ensures ActiveOk(s', u) {
      assert ActiveOk(s, u) && Apart(s, t, u);
    }
    forall u, v | u in s'.mine && v in s'.mine ensures Apart(s', u, v) {
      assert Apart(s, u, v);
    }
    forall u, v | u in s'.pc && v in s'.pc ensures GrowsAlone(s', u, v) {
      assert GrowsAlone(s, u, v);
    }
  }

  // ----------------------------------------------------------------------- runs

  lemma InitGivesInv(s: State)
    requires Init(s)
    ensures Inv(s)
  {
    forall t | t in s.pc ensures ThreadOk(s, t) {
      forall h: nat, pos: nat | h < |s.tables|
        ensures EntryOk(s.tables[h], Start(s, t), s.pc[t], s.mine[t], t, h, pos)
      {
        assert !Holds(s.tables[h], pos, t);
      }
    }
  }

  lemma LookupStepKeepsInv(s: State, s': State, t: Tid)
    requires Inv(s) && LookupStep(s, s', t)
    ensures Inv(s')
  {
    if Begin(s, s', t) { KeepsBegin(s, s', t); }
    else if DoProbe(s, s', t) { KeepsProbe(s, s', t); }
    else if DoMigrate(s, s', t) { KeepsMigrate(s, s', t); }
    else if DoMigrateStore(s, s', t) { KeepsMigrateStore(s, s', t); }
    else { KeepsControl(s, s', t); }
  }

  lemma InsertStepKeepsInv(s: State, s': State, t: Tid)
    requires Inv(s) && InsertStep(s, s', t)
    ensures Inv(s')
  {
    if DoDecide(s, s', t) { KeepsDecide(s, s', t); }
    else if DoGrow(s, s', t) { KeepsGrow(s, s', t); }
    else if DoScan(s, s', t) { KeepsScan(s, s', t); }
    else if DoInsert(s, s', t) { KeepsInsert(s, s', t); }
    else if DoInsertStore(s, s', t) { KeepsInsertStore(s, s', t); }
    else { KeepsControl(s, s', t); }
  }

  lemma NextKeepsInv(s: State, s': State)
    requires Inv(s) && Next(s, s')
    ensures Inv(s')
  {
    var t :| LookupStep(s, s', t) || InsertStep(s, s', t) || ExitStep(s, s', t);
    if LookupStep(s, s', t) {
      LookupStepKeepsInv(s, s', t);
    } else if InsertStep(s, s', t) {
      InsertStepKeepsInv(s, s', t);
    } else {
      if DoExitScan(s, s', t) { KeepsExitScan(s, s', t); }
      else if DoExitMark(s, s', t) { KeepsExitMark(s, s', t); }
      else { KeepsControl(s, s', t); }
    }
  }

  lemma {:induction false} RunKeepsInv(run: seq<State>, i: nat)
    requires IsRun(run) && i < |run|
    ensures Inv(run[i])
  {
    if i == 0 {
      InitGivesInv(run[0]);
    } else {
      RunKeepsInv(run, i - 1);
      assert StepAt(run, i - 1);
      NextKeepsInv(run[i - 1], run[i]);
    }
  }

  // --------------------------------------------------------------- main results

  /** No two threads hold the same producer, and a held producer is active. */
  lemma NoSharing(run: seq<State>, i: nat, t: Tid, u: Tid)
    requires IsRun(run) && i < |run| && t in run[i].mine && u in run[i].mine && t != u && run[i].mine[t].Some?
    ensures run[i].mine[u] != run[i].mine[t]
    ensures run[i].mine[t].value < |run[i].active| && run[i].active[run[i].mine[t].value]
  {
    RunKeepsInv(run, i);
    assert Apart(run[i], t, u) && ActiveOk(run[i], t);
  }

  /** A call returns the thread's own producer, or nothing to a thread that has none
      because memory was exhausted. */
  lemma LookupReturnsOwn(run: seq<State>, i: nat, t: Tid)
    requires IsRun(run) && i < |run| && t in run[i].pc && run[i].pc[t].Return?
    ensures t in run[i].mine && run[i].pc[t].result == run[i].mine[t]
  {
    RunKeepsInv(run, i);
    assert ThreadOk(run[i], t);
  }

  /** A thread that has a producer never goes on to obtain another: its lookup finds
      the entry, whatever the others insert, remove, copy or append meanwhile. */
  lemma NeverInsertsTwice(run: seq<State>, i: nat, t: Tid)
    requires IsRun(run) && i < |run| && t in run[i].pc
    requires var p := run[i].pc[t]; p.Count? || p.Decide? || p.Grow? || p.Obtain? || p.Scan?
    ensures t in run[i].mine && run[i].mine[t] == None
  {
    RunKeepsInv(run, i);
    assert ThreadOk(run[i], t);
  }

  ghost predicate Exits(s: State, s': State, t: Tid) {
    DoExitMark(s, s', t)
  }

  /** So once obtained, the producer stays the thread's own until it exits. */
  lemma ProducerStays(run: seq<State>, i: nat, t: Tid)
    requires IsRun(run) && i + 1 < |run| && t in run[i].mine && run[i].mine[t].Some?
    requires !Exits(run[i], run[i + 1], t)
    ensures t in run[i + 1].mine && run[i + 1].mine[t] == run[i].mine[t]
  {
    var s, s' := run[i], run[i + 1];
    RunKeepsInv(run, i);
    assert StepAt(run, i);
    assert ThreadOk(s, t);
    var u :| LookupStep(s, s', u) || InsertStep(s, s', u) || ExitStep(s, s', u);
    StepChangesMine(s, s', u, t);
  }

  lemma StepChangesMine(s: State, s': State, u: Tid, t: Tid)
    requires LookupStep(s, s', u) || InsertStep(s, s', u) || ExitStep(s, s', u)
    requires t in s.mine && t in s.pc && !(u == t && s.pc[t].Scan?) && !Exits(s, s', t)
    ensures t in s'.mine && s'.mine[t] == s.mine[t]
  {
    if LookupStep(s, s', u) {
      LookupKeepsMine(s, s', u);
    } else if InsertStep(s, s', u) {
      InsertKeepsMine(s, s', u, t);
    }
  }

  lemma LookupKeepsMine(s: State, s': State, u: Tid)
    requires LookupStep(s, s', u)
    ensures s'.mine == s.mine
  {
  }

  lemma InsertKeepsMine(s: State, s': State, u: Tid, t: Tid)
    requires InsertStep(s, s', u) && t in s.mine && t in s.pc && !(u == t && s.pc[t].Scan?)
    ensures t in s'.mine && s'.mine[t] == s.mine[t]
  {
    if DoScan(s, s', u) {
      ScanKeepsMine(s, s', u, t);
    }
  }

  lemma ScanKeepsMine(s: State, s': State, u: Tid, t: Tid)
    requires DoScan(s, s', u) && t in s.mine && t != u
    ensures t in s'.mine && s'.mine[t] == s.mine[t]
  {
  }

  /** An entry of a thread carries that thread's producer, except for the moment
      between its two stores; so nobody can be led to a foreign producer. */
  lemma EntriesCarryOwner(run: seq<State>, i: nat, t: Tid, h: nat, pos: nat)
    requires IsRun(run) && i < |run| && h < |run[i].tables| && Holds(run[i].tables[h], pos, t)
    ensures t in run[i].pc && t in run[i].mine && run[i].mine[t].Some?
    ensures Pending(run[i].pc[t], h, pos)
      || (pos < |run[i].tables[h].values| && Some(run[i].tables[h].values[pos]) == run[i].mine[t])
  {
    var s := run[i];
    RunKeepsInv(run, i);
    assert KnownKey(s, h, pos);
    assert ThreadOk(s, t);
    EntryAt(s.tables, Start(s, t), s.pc[t], s.mine[t], t, h, pos);
  }

  /** After its exit a thread has no entry left, so a later thread with the same id
      starts afresh. */
  lemma ExitLeavesNothing(run: seq<State>, i: nat, t: Tid)
    requires IsRun(run) && i < |run| && t in run[i].pc && run[i].pc[t].ExitMark?
    ensures forall h: nat, pos: nat :: h < |run[i].tables| ==> !Holds(run[i].tables[h], pos, t)
  {
    RunKeepsInv(run, i);
    assert ThreadOk(run[i], t);
    forall h: nat, pos: nat | h < |run[i].tables| ensures !Holds(run[i].tables[h], pos, t) {
      assert NotIn(run[i].tables[h], t);
    }
  }
}
