/** Whole calls of get_or_add_implicit_producer: a thread without a producer gets one that
    is new or was free, or an allocation has failed; and a thread that gets its producer
    finds its entry afterwards in a table that is no older than the newest one was when it
    called. */
module ProducerHashCalls {
  import opened Options
  import opened ProducerHash
  import opened ProducerHashSafety

  predicate Returning(s: State, t: Tid) {
    t in s.pc && s.pc[t].Return?
  }

  /** t calls at i and returns at j. */
  ghost predicate Call(run: seq<State>, i: nat, j: nat, t: Tid) {
    && i + 1 < j < |run| && Begin(run[i], run[i + 1], t) && Returning(run[j], t)
    && forall k: nat {:trigger run[k]} :: i < k < j ==> !Returning(run[k], t)
  }

  /** From s to s' producer p becomes t's: it is new, or was inactive. */
  predicate Takes(s: State, s': State, t: Tid, p: Pid) {
    && t in s.mine && s.mine[t] == None && t in s'.mine && s'.mine[t] == Some(p)
    && (p == |s.active| || (p < |s.active| && !s.active[p])) && p < |s'.active| && s'.active[p]
  }

  /** t's entry is in some table from number m on. */
  ghost predicate EntryFrom(s: State, t: Tid, m: nat) {
    exists h: nat, pos: nat :: m <= h < |s.tables| && Holds(s.tables[h], pos, t)
  }

  /** Inside the call t works in tables from number m on, except for looking itself up. */
  ghost predicate Calling(s: State, t: Tid, m: nat) {
    && t in s.pc && t in s.mine && m < |s.tables|
    && match s.pc[t]
       case Probe(main, _, _) => m <= main
       case Migrate(main, _, _, _) => m <= main
       case MigrateStore(main, _, _) => m <= main
       case Count(main) => m <= main
       case Decide(main, _) => m <= main
       case Grow(main, _) => m <= main
       case Obtain(main) => m <= main
       case Scan(main, _) => m <= main
       case Insert(main, _, _, _) => m <= main
       case Uncount(main, _, _) => m <= main
       case InsertStore(main, _, _) => m <= main
       case Return(result) => result.Some? ==> EntryFrom(s, t, m)
       case _ => false
  }

  /** The thread has found no producer to reuse and makes one. */
  predicate Creates(p: Pc) {
    p.Scan? && p.left == 0
  }

  /** What a step of the call may make of t's producer and of its return. */
  ghost predicate CallEffect(s: State, s': State, t: Tid, m: nat) {
    && Calling(s', t, m) && t in s.pc && t in s.mine
    && (s'.pc[t] == Return(None) && s.pc[t] != Return(None) ==> s.pc[t].Grow? || Creates(s.pc[t]))
    && (s'.mine[t] == s.mine[t] || (s'.mine[t].Some? && Takes(s, s', t, s'.mine[t].value)))
  }

  lemma StoreHasEffect(s: State, s': State, t: Tid, m: nat)
    requires Inv(s) && Calling(s, t, m) && (DoMigrateStore(s, s', t) || DoInsertStore(s, s', t))
    ensures CallEffect(s, s', t, m)
  {
    assert ThreadOk(s, t);
    var main, pos := s.pc[t].main, s.pc[t].pos;
    assert Holds(s'.tables[main], pos, t);
  }

  lemma ProbeHasEffect(s: State, s': State, t: Tid, m: nat)
    requires Inv(s) && Calling(s, t, m) && DoProbe(s, s', t)
    ensures CallEffect(s, s', t, m)
  {
    assert ThreadOk(s, t);
    if s'.pc[t].Return? && s'.pc[t].result.Some? {
      assert Holds(s'.tables[s.pc[t].h], Spot(s.tables[s.pc[t].h], Start(s, t), s.pc[t].j), t);
    }
  }

  lemma LookupHasEffect(s: State, s': State, t: Tid, m: nat)
    requires Inv(s) && Calling(s, t, m) && !s.pc[t].Return? && LookupStep(s, s', t)
    ensures CallEffect(s, s', t, m)
  {
    if DoProbe(s, s', t) {
      ProbeHasEffect(s, s', t, m);
    } else if DoMigrateStore(s, s', t) {
      StoreHasEffect(s, s', t, m);
    } else {
      assert DoMigrate(s, s', t);
    }
  }

  lemma InsertHasEffect(s: State, s': State, t: Tid, m: nat)
    requires Inv(s) && Calling(s, t, m) && InsertStep(s, s', t)
    ensures CallEffect(s, s', t, m)
  {
    assert ThreadOk(s, t);
    if DoInsertStore(s, s', t) {
      StoreHasEffect(s, s', t, m);
    } else if DoGrow(s, s', t) {
      GrowHasEffect(s, s', t, m);
    } else if DoScan(s, s', t) {
      ScanHasEffect(s, s', t, m);
    }
  }

  lemma GrowHasEffect(s: State, s': State, t: Tid, m: nat)
    requires Inv(s) && Calling(s, t, m) && DoGrow(s, s', t)
    ensures CallEffect(s, s', t, m)
  {
    assert ThreadOk(s, t);
  }

  lemma ScanHasEffect(s: State, s': State, t: Tid, m: nat)
    requires Inv(s) && Calling(s, t, m) && DoScan(s, s', t)
    ensures CallEffect(s, s', t, m)
  {
    assert ThreadOk(s, t);
  }

  lemma LookupLeaves(s: State, s': State, t: Tid, u: Tid)
    requires u != t && t in s.pc && LookupStep(s, s', u)
    ensures t in s'.pc && s'.pc[t] == s.pc[t] && |s'.tables| == |s.tables|
  {
    if DoMigrate(s, s', u) {
      MigrateLeaves(s, s', t, u);
    }
  }

  lemma MigrateLeaves(s: State, s': State, t: Tid, u: Tid)
    requires u != t && t in s.pc && DoMigrate(s, s', u)
    ensures t in s'.pc && s'.pc[t] == s.pc[t] && |s'.tables| == |s.tables|
  {
  }

  lemma GrowLeaves(s: State, s': State, t: Tid, u: Tid)
    requires Inv(s) && u != t && t in s.pc && DoGrow(s, s', u)
    ensures t in s'.pc && s'.pc[t] == s.pc[t] && |s'.tables| >= |s.tables|
  {
    assert ThreadOk(s, u);
  }

  lemma InsertLeaves(s: State, s': State, t: Tid, u: Tid)
    requires u != t && t in s.pc && InsertStep(s, s', u) && !DoGrow(s, s', u)
    ensures t in s'.pc && s'.pc[t] == s.pc[t] && |s'.tables| == |s.tables|
  {
    if DoScan(s, s', u) {
      ScanLeaves(s, s', t, u);
    } else if DoInsert(s, s', u) {
      PutLeaves(s, s', t, u);
    } else {
      ControlLeaves(s, s', t, u);
    }
  }

  lemma ControlLeaves(s: State, s': State, t: Tid, u: Tid)
    requires u != t && t in s.pc
    requires
      || DoCount(s, s', u) || DoDecide(s, s', u) || DoObtain(s, s', u) || DoUncount(s, s', u)
      || DoInsertStore(s, s', u)
    ensures t in s'.pc && s'.pc[t] == s.pc[t] && |s'.tables| == |s.tables|
  {
  }

  lemma ScanLeaves(s: State, s': State, t: Tid, u: Tid)
    requires u != t && t in s.pc && DoScan(s, s', u)
    ensures t in s'.pc && s'.pc[t] == s.pc[t] && |s'.tables| == |s.tables|
  {
  }

  lemma PutLeaves(s: State, s': State, t: Tid, u: Tid)
    requires u != t && t in s.pc && DoInsert(s, s', u)
    ensures t in s'.pc && s'.pc[t] == s.pc[t] && |s'.tables| == |s.tables|
  {
  }

  lemma ExitLeaves(s: State, s': State, t: Tid, u: Tid)
    requires u != t && t in s.pc && ExitStep(s, s', u)
    ensures t in s'.pc && s'.pc[t] == s.pc[t] && |s'.tables| == |s.tables|
  {
  }

  /** The others leave t where it is, and no table disappears. */
  lemma OthersLeave(s: State, s': State, t: Tid, u: Tid)
    requires Inv(s) && u != t && t in s.pc
    requires LookupStep(s, s', u) || InsertStep(s, s', u) || ExitStep(s, s', u)
    ensures t in s'.pc && s'.pc[t] == s.pc[t] && |s'.tables| >= |s.tables|
  {
    if LookupStep(s, s', u) {
      LookupLeaves(s, s', t, u);
    } else if DoGrow(s, s', u) {
      GrowLeaves(s, s', t, u);
    } else if InsertStep(s, s', u) {
      InsertLeaves(s, s', t, u);
    } else {
      ExitLeaves(s, s', t, u);
    }
  }

  lemma StepHasEffect(s: State, s': State, t: Tid, m: nat)
    requires Inv(s) && Calling(s, t, m) && !s.pc[t].Return? && Next(s, s')
    ensures CallEffect(s, s', t, m)
  {
    var u :| LookupStep(s, s', u) || InsertStep(s, s', u) || ExitStep(s, s', u);
    if u != t {
      OthersLeave(s, s', t, u);
      StepChangesMine(s, s', u, t);
    } else if LookupStep(s, s', t) {
      LookupHasEffect(s, s', t, m);
    } else if InsertStep(s, s', t) {
      InsertHasEffect(s, s', t, m);
    }
  }

  ghost predicate TookBetween(run: seq<State>, i: nat, k: nat, t: Tid, p: Pid) {
    exists j: nat :: i < j < k < |run| && Takes(run[j], run[j + 1], t, p)
  }

  lemma CallSteps(run: seq<State>, k: nat, t: Tid, m: nat)
    requires IsRun(run) && k + 1 < |run| && Calling(run[k], t, m) && !run[k].pc[t].Return?
    ensures CallEffect(run[k], run[k + 1], t, m)
  {
    RunKeepsInv(run, k);
    assert StepAt(run, k);
    StepHasEffect(run[k], run[k + 1], t, m);
  }

  lemma {:induction false} CallGoesOn(run: seq<State>, i: nat, k: nat, j: nat, t: Tid)
    requires IsRun(run) && Call(run, i, j, t) && i < k <= j && t in run[i].mine
    ensures Calling(run[k], t, |run[i].tables| - 1)
    ensures run[k].mine[t] == run[i].mine[t]
         || (run[k].mine[t].Some? && TookBetween(run, i, k, t, run[k].mine[t].value))
  {
    var m := |run[i].tables| - 1;
    if k > i + 1 {
      CallGoesOn(run, i, k - 1, j, t);
      assert !Returning(run[k - 1], t);
      CallSteps(run, k - 1, t, m);
      if run[k].mine[t] != run[k - 1].mine[t] {
        assert Takes(run[k - 1], run[k], t, run[k].mine[t].value);
      }
    }
  }

  /** A call by a thread without a producer: it ends with one that is new or was inactive
      when it became the thread's, between the call and the return, and that is active; or
      with none, and then the last thing the call did was an allocation that failed. */
  lemma CallObtains(run: seq<State>, i: nat, j: nat, t: Tid)
    requires IsRun(run) && Call(run, i, j, t) && t in run[i].mine && run[i].mine[t] == None
    ensures t in run[j].mine && t in run[j - 1].pc
    ensures match run[j].pc[t].result
      case Some(p) =>
        && run[j].mine[t] == Some(p) && p < |run[j].active| && run[j].active[p]
        && exists k: nat :: i < k < j && Takes(run[k], run[k + 1], t, p)
      case None => run[j - 1].pc[t].Grow? || Creates(run[j - 1].pc[t])
  {
    CallGoesOn(run, i, j, j, t);
    CallGoesOn(run, i, j - 1, j, t);
    LookupReturnsOwn(run, j, t);
    if run[j].pc[t].result.Some? {
      RunKeepsInv(run, j);
      assert ActiveOk(run[j], t);
    } else {
      assert !Returning(run[j - 1], t);
      CallSteps(run, j - 1, t, |run[i].tables| - 1);
    }
  }

  /** A call that returns a producer leaves the thread's entry in a table that is no older
      than the newest one at the time of the call: found there, inserted, or copied
      forward. */
  lemma CallRegisters(run: seq<State>, i: nat, j: nat, t: Tid)
    requires IsRun(run) && Call(run, i, j, t) && t in run[i].mine && run[j].pc[t].result.Some?
    ensures run[i].tables != []
    ensures exists h: nat, pos: nat :: |run[i].tables| - 1 <= h < |run[j].tables| && Holds(run[j].tables[h], pos, t)
  {
    CallGoesOn(run, i, j, j, t);
    assert EntryFrom(run[j], t, |run[i].tables| - 1);
  }

  // -------------------------------------------------------------- the load

  /** A thread that has drawn number n may insert into tables of this size. */
  predicate MayInsert(n: int, tab: Table) {
    n < |tab.keys| / 2 + |tab.keys| / 4
  }

  /** t, with number n, is about to insert into a table that n allows, or has done so. */
  ghost predicate Loaded(s: State, t: Tid, n: int) {
    && t in s.pc
    && match s.pc[t]
       case Decide(_, x) => x == n
       case Grow(_, x) => x == n
       case Obtain(main) => main < |s.tables| && MayInsert(n, s.tables[main])
       case Scan(main, _) => main < |s.tables| && MayInsert(n, s.tables[main])
       case Insert(main, _, _, _) => main < |s.tables| && MayInsert(n, s.tables[main])
       case Uncount(main, _, _) => main < |s.tables| && MayInsert(n, s.tables[main])
       case InsertStore(main, _, _) => main < |s.tables| && MayInsert(n, s.tables[main])
       case Return(result) => result.Some? ==> InsertedWithin(s, t, n)
       case _ => false
  }

  ghost predicate InsertedWithin(s: State, t: Tid, n: int) {
    exists h: nat, pos: nat :: h < |s.tables| && Holds(s.tables[h], pos, t) && MayInsert(n, s.tables[h])
  }

  ghost predicate SizesKept(s: State, s': State) {
    && |s.tables| <= |s'.tables|
    && forall h: nat {:trigger s.tables[h]} {:trigger s'.tables[h]} ::
         h < |s.tables| ==> |s'.tables[h].keys| == |s.tables[h].keys|
  }

  lemma OwnStepLoaded(s: State, s': State, t: Tid, n: int)
    requires Inv(s) && Loaded(s, t, n) && !s.pc[t].Return? && InsertStep(s, s', t)
    ensures Loaded(s', t, n)
  {
    if DoInsertStore(s, s', t) {
      StoreLoads(s, s', t, n);
    } else if DoInsert(s, s', t) {
      PutLoads(s, s', t, n);
    } else if DoGrow(s, s', t) {
      GrowLoads(s, s', t, n);
    } else {
      ControlLoads(s, s', t, n);
    }
  }

  lemma ControlLoads(s: State, s': State, t: Tid, n: int)
    requires Inv(s) && Loaded(s, t, n) && !s.pc[t].Return?
    requires DoDecide(s, s', t) || DoObtain(s, s', t) || DoScan(s, s', t) || DoUncount(s, s', t)
    ensures Loaded(s', t, n)
  {
    assert ThreadOk(s, t);
  }

  lemma StoreLoads(s: State, s': State, t: Tid, n: int)
    requires Inv(s) && Loaded(s, t, n) && DoInsertStore(s, s', t)
    ensures Loaded(s', t, n)
  {
    assert ThreadOk(s, t);
    assert Holds(s'.tables[s.pc[t].main], s.pc[t].pos, t);
  }

  lemma PutLoads(s: State, s': State, t: Tid, n: int)
    requires Loaded(s, t, n) && DoInsert(s, s', t)
    ensures Loaded(s', t, n)
  {
    assert |s'.tables[s.pc[t].main].keys| == |s.tables[s.pc[t].main].keys|;
  }

  lemma GrowLoads(s: State, s': State, t: Tid, n: int)
    requires Inv(s) && t in s.pc && DoGrow(s, s', t) && s.pc[t].n == n
    ensures Loaded(s', t, n)
  {
    assert ThreadOk(s, t);
  }

  lemma LookupKeepsSizes(s: State, s': State, u: Tid)
    requires LookupStep(s, s', u)
    ensures SizesKept(s, s')
  {
    if DoMigrate(s, s', u) {
    } else if DoMigrateStore(s, s', u) {
    } else {
      assert s'.tables == s.tables;
    }
  }

  lemma InsertKeepsSizes(s: State, s': State, u: Tid)
    requires Inv(s) && InsertStep(s, s', u)
    ensures SizesKept(s, s')
  {
    assert u in s.pc && ThreadOk(s, u);
    if DoInsert(s, s', u) {
    } else if DoInsertStore(s, s', u) {
    } else if DoGrow(s, s', u) {
    } else {
      assert s'.tables == s.tables;
    }
  }

  lemma ExitKeepsSizes(s: State, s': State, u: Tid)
    requires ExitStep(s, s', u)
    ensures SizesKept(s, s')
  {
    if DoExitScan(s, s', u) {
    } else {
      assert s'.tables == s.tables;
    }
  }

  lemma StepLoaded(s: State, s': State, t: Tid, n: int)
    requires Inv(s) && Loaded(s, t, n) && !s.pc[t].Return? && Next(s, s')
    ensures Loaded(s', t, n)
  {
    var u :| LookupStep(s, s', u) || InsertStep(s, s', u) || ExitStep(s, s', u);
    if u == t {
      assert InsertStep(s, s', t);
      OwnStepLoaded(s, s', t, n);
    } else {
      OthersLeave(s, s', t, u);
      if LookupStep(s, s', u) {
        LookupKeepsSizes(s, s', u);
      } else if InsertStep(s, s', u) {
        InsertKeepsSizes(s, s', u);
      } else {
        ExitKeepsSizes(s, s', u);
      }
    }
  }

  lemma CountLoads(s: State, s': State, t: Tid)
    requires t in s.pc && s.pc[t].Count? && Next(s, s') && t in s'.pc && !s'.pc[t].Count? && Inv(s)
    ensures Loaded(s', t, s'.count)
  {
    var u :| LookupStep(s, s', u) || InsertStep(s, s', u) || ExitStep(s, s', u);
    if u != t {
      OthersLeave(s, s', t, u);
    } else {
      OnlyCounts(s, s', t);
    }
  }

  lemma OnlyCounts(s: State, s': State, t: Tid)
    requires t in s.pc && s.pc[t].Count?
    requires LookupStep(s, s', t) || InsertStep(s, s', t) || ExitStep(s, s', t)
    ensures DoCount(s, s', t)
  {
  }

  lemma CountLoadsAt(run: seq<State>, k: nat, t: Tid)
    requires IsRun(run) && k + 1 < |run| && t in run[k].pc && run[k].pc[t].Count?
    requires t in run[k + 1].pc && !run[k + 1].pc[t].Count?
    ensures Loaded(run[k + 1], t, run[k + 1].count)
  {
    RunKeepsInv(run, k);
    assert StepAt(run, k);
    CountLoads(run[k], run[k + 1], t);
  }

  lemma LoadedAt(run: seq<State>, i: nat, t: Tid, n: int)
    requires IsRun(run) && i + 1 < |run| && Loaded(run[i], t, n) && !run[i].pc[t].Return?
    ensures Loaded(run[i + 1], t, n)
  {
    RunKeepsInv(run, i);
    assert StepAt(run, i);
    StepLoaded(run[i], run[i + 1], t, n);
  }

  lemma {:induction false} LoadGoesOn(run: seq<State>, k: nat, i: nat, j: nat, t: Tid)
    requires IsRun(run) && k < i <= j < |run| && t in run[k].pc && run[k].pc[t].Count?
    requires t in run[k + 1].pc && !run[k + 1].pc[t].Count?
    requires forall m: nat {:trigger run[m]} :: k < m < j ==> !Returning(run[m], t)
    ensures Loaded(run[i], t, run[k + 1].count)
  {
    if i == k + 1 {
      CountLoadsAt(run, k, t);
    } else {
      LoadGoesOn(run, k, i - 1, j, t);
      assert !Returning(run[i - 1], t);
      LoadedAt(run, i - 1, t, run[k + 1].count);
    }
  }

  /** A call that counts itself as number n and returns a producer has put its entry into a
      table of which n is less than three quarters: so the tables grow in time. */
  lemma LoadIsKept(run: seq<State>, k: nat, j: nat, t: Tid)
    requires IsRun(run) && k + 1 < j < |run| && t in run[k].pc && run[k].pc[t].Count?
    requires t in run[k + 1].pc && !run[k + 1].pc[t].Count?
    requires Returning(run[j], t) && run[j].pc[t].result.Some?
    requires forall m: nat {:trigger run[m]} :: k < m < j ==> !Returning(run[m], t)
    ensures exists h: nat, pos: nat ::
      && h < |run[j].tables| && Holds(run[j].tables[h], pos, t)
      && run[k + 1].count < |run[j].tables[h].keys| / 2 + |run[j].tables[h].keys| / 4
  {
    LoadGoesOn(run, k, j, j, t);
    assert InsertedWithin(run[j], t, run[k + 1].count);
  }
}
