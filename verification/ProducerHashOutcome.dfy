/** What a call of get_or_add_implicit_producer comes to: it makes a new producer only when
    none could be reused, and wherever it is it can still return one if memory can be had. */
module ProducerHashOutcome {
  import opened Options
  import opened ProducerHash
  import opened ProducerHashSafety
  import opened ProducerHashCalls
  import Room = ProducerHashRoom

  // ------------------------------------------------------ reuse before creation

  /** t's step in its scan: on to the next producer, past one that is in use. */
  lemma OwnScanStep(s: State, s': State, t: Tid)
    requires t in s.pc && s.pc[t].Scan? && t in s'.pc && s'.pc[t].Scan?
    requires LookupStep(s, s', t) || InsertStep(s, s', t) || ExitStep(s, s', t)
    ensures s.pc[t].left > 0 && s'.pc[t].left == s.pc[t].left - 1
    ensures s.pc[t].left <= |s.active| && s.active[s.pc[t].left - 1]
  {
    OnlyScans(s, s', t);
  }

  lemma OnlyScans(s: State, s': State, t: Tid)
    requires t in s.pc && s.pc[t].Scan?
    requires LookupStep(s, s', t) || InsertStep(s, s', t) || ExitStep(s, s', t)
    ensures DoScan(s, s', t)
  {
  }

  lemma OtherScanStep(s: State, s': State, u: Tid, t: Tid)
    requires Inv(s) && u != t && (LookupStep(s, s', u) || InsertStep(s, s', u) || ExitStep(s, s', u))
    requires t in s.pc && s.pc[t].Scan?
    ensures t in s'.pc && s'.pc[t] == s.pc[t]
  {
    OthersLeave(s, s', t, u);
  }

  /** The scan is where it was, or one producer further. */
  predicate ScanMoved(s: State, s': State, t: Tid)
    requires t in s.pc && s.pc[t].Scan? && t in s'.pc && s'.pc[t].Scan?
  {
    || s'.pc[t].left == s.pc[t].left
    || (s'.pc[t].left == s.pc[t].left - 1 < |s.active| && s.active[s'.pc[t].left])
  }

  lemma ScanMoves(s: State, s': State, t: Tid)
    requires Inv(s) && Next(s, s')
    requires t in s.pc && s.pc[t].Scan? && t in s'.pc && s'.pc[t].Scan?
    ensures ScanMoved(s, s', t)
  {
    if u :| u != t && (LookupStep(s, s', u) || InsertStep(s, s', u) || ExitStep(s, s', u)) {
      OtherScanStep(s, s', u, t);
    } else {
      OwnScanStep(s, s', t);
    }
  }

  lemma ScanStep(run: seq<State>, k: nat, t: Tid)
    requires IsRun(run) && k + 1 < |run|
    requires t in run[k].pc && run[k].pc[t].Scan? && t in run[k + 1].pc && run[k + 1].pc[t].Scan?
    ensures var p, q := run[k].pc[t].left, run[k + 1].pc[t].left;
      q == p || (p > 0 && q == p - 1 < |run[k].active| && run[k].active[q])
  {
    RunKeepsInv(run, k);
    assert StepAt(run, k);
    ScanMoves(run[k], run[k + 1], t);
  }

  lemma ScanBegins(run: seq<State>, i: nat, t: Tid)
    requires IsRun(run) && i + 1 < |run| && t in run[i].pc && run[i].pc[t].Obtain?
    requires t in run[i + 1].pc && run[i + 1].pc[t].Scan?
    ensures run[i + 1].pc[t].left == |run[i].active|
  {
    var s, s' := run[i], run[i + 1];
    RunKeepsInv(run, i);
    assert StepAt(run, i);
    var u :| LookupStep(s, s', u) || InsertStep(s, s', u) || ExitStep(s, s', u);
    if u == t {
      OnlyObtains(s, s', t);
    } else {
      OthersLeave(s, s', t, u);
    }
  }

  lemma OnlyObtains(s: State, s': State, t: Tid)
    requires t in s.pc && s.pc[t].Obtain?
    requires LookupStep(s, s', t) || InsertStep(s, s', t) || ExitStep(s, s', t)
    ensures DoObtain(s, s', t)
  {
  }

  /** t scans the list of producers from i to j. */
  predicate Scans(run: seq<State>, i: nat, j: nat, t: Tid) {
    && i < j < |run| && t in run[i].pc && run[i].pc[t].Obtain?
    && forall k: nat {:trigger run[k]} :: i < k <= j ==> t in run[k].pc && run[k].pc[t].Scan?
  }

  ghost predicate InUseBetween(run: seq<State>, i: nat, j: nat, p: Pid) {
    exists k: nat :: i <= k <= j < |run| && p < |run[k].active| && run[k].active[p]
  }

  lemma {:induction false} ScannedWereInUse(run: seq<State>, i: nat, j: nat, t: Tid, p: Pid)
    requires IsRun(run) && Scans(run, i, j, t) && run[j].pc[t].left <= p < |run[i].active|
    ensures InUseBetween(run, i, j, p)
  {
    if j == i + 1 {
      ScanBegins(run, i, t);
    } else {
      ScanStep(run, j - 1, t);
      if run[j - 1].pc[t].left <= p {
        ScannedWereInUse(run, i, j - 1, t, p);
      } else {
        assert run[j - 1].active[p];
      }
    }
  }

  /** A call makes a new producer only if each producer that was there when it began to scan
      the list was in use at some moment of the scan. */
  lemma ReusesFirst(run: seq<State>, i: nat, j: nat, t: Tid, p: Pid)
    requires IsRun(run) && Scans(run, i, j, t) && Creates(run[j].pc[t]) && p < |run[i].active|
    ensures exists k: nat :: i <= k <= j && p < |run[k].active| && run[k].active[p]
  {
    ScannedWereInUse(run, i, j, t, p);
  }

  // ------------------------------------------------------- an exit frees a producer

  ghost predicate HeldBySomeone(s: State, p: Pid) {
    exists t :: t in s.mine && s.mine[t] == Some(p)
  }

  ghost predicate ActiveIsHeld(s: State) {
    forall p: Pid {:trigger HeldBySomeone(s, p)} {:trigger s.active[p]} ::
      p < |s.active| && s.active[p] ==> HeldBySomeone(s, p)
  }

  predicate SameProducers(s: State, s': State) {
    s'.mine == s.mine && s'.active == s.active
  }

  lemma LookupKeepsProducers(s: State, s': State, u: Tid)
    requires LookupStep(s, s', u)
    ensures SameProducers(s, s')
  {
  }

  lemma InsertKeepsProducers(s: State, s': State, u: Tid)
    requires InsertStep(s, s', u) && !DoScan(s, s', u)
    ensures SameProducers(s, s')
  {
  }

  lemma ScanKeepsHeld(s: State, s': State, u: Tid)
    requires Inv(s) && ActiveIsHeld(s) && DoScan(s, s', u)
    ensures ActiveIsHeld(s')
  {
    assert ThreadOk(s, u);
    forall p: Pid | p < |s'.active| && s'.active[p] ensures HeldBySomeone(s', p) {
      if p < |s.active| && s.active[p] {
        var t :| t in s.mine && s.mine[t] == Some(p);
        assert t in s'.mine && s'.mine[t] == Some(p);
      } else {
        assert s'.mine[u] == Some(p);
      }
    }
  }

  lemma ExitKeepsHeld(s: State, s': State, u: Tid)
    requires Inv(s) && ActiveIsHeld(s) && ExitStep(s, s', u)
    ensures ActiveIsHeld(s')
  {
    assert ThreadOk(s, u);
    if DoExitMark(s, s', u) {
      forall p: Pid | p < |s'.active| && s'.active[p] ensures HeldBySomeone(s', p) {
        var t :| t in s.mine && s.mine[t] == Some(p);
        assert t in s'.mine && s'.mine[t] == Some(p);
      }
    } else {
      assert SameProducers(s, s');
      KeepsHeld(s, s');
    }
  }

  lemma KeepsHeld(s: State, s': State)
    requires ActiveIsHeld(s) && SameProducers(s, s')
    ensures ActiveIsHeld(s')
  {
    forall p: Pid | p < |s'.active| && s'.active[p] ensures HeldBySomeone(s', p) {
      assert HeldBySomeone(s, p);
    }
  }

  lemma NextKeepsHeld(s: State, s': State)
    requires Inv(s) && ActiveIsHeld(s) && Next(s, s')
    ensures ActiveIsHeld(s')
  {
    var u :| LookupStep(s, s', u) || InsertStep(s, s', u) || ExitStep(s, s', u);
    if DoScan(s, s', u) {
      ScanKeepsHeld(s, s', u);
    } else if ExitStep(s, s', u) {
      ExitKeepsHeld(s, s', u);
    } else {
      if LookupStep(s, s', u) {
        LookupKeepsProducers(s, s', u);
      } else {
        InsertKeepsProducers(s, s', u);
      }
      KeepsHeld(s, s');
    }
  }

  lemma {:induction false} RunKeepsHeld(run: seq<State>, i: nat)
    requires IsRun(run) && i < |run|
    ensures ActiveIsHeld(run[i])
  {
    if i > 0 {
      RunKeepsHeld(run, i - 1);
      RunKeepsInv(run, i - 1);
      assert StepAt(run, i - 1);
      NextKeepsHeld(run[i - 1], run[i]);
    }
  }

  /** A producer is in use exactly while some thread has it: an exit makes it free for the
      next call, and with the last exit all are free. */
  lemma InUseMeansHeld(run: seq<State>, i: nat, p: Pid)
    requires IsRun(run) && i < |run|
    ensures p < |run[i].active| && run[i].active[p] <==> exists t :: t in run[i].mine && run[i].mine[t] == Some(p)
  {
    RunKeepsHeld(run, i);
    RunKeepsInv(run, i);
    if t :| t in run[i].mine && run[i].mine[t] == Some(p) {
      assert ActiveOk(run[i], t);
    }
    if p < |run[i].active| && run[i].active[p] {
      assert HeldBySomeone(run[i], p);
    }
  }

  // ------------------------------------------------------- every call can succeed

  /** A scan never looks behind the end of the list. */
  predicate ScanOk(s: State, t: Tid)
    requires t in s.pc
  {
    s.pc[t].Scan? ==> s.pc[t].left <= |s.active|
  }

  /** No step removes a producer or a thread. */
  predicate Grows(s: State, s': State) {
    |s'.active| >= |s.active| && s'.pc.Keys == s.pc.Keys
  }

  lemma LookupGrows(s: State, s': State, u: Tid)
    requires LookupStep(s, s', u)
    ensures Grows(s, s')
  {
    if DoMigrate(s, s', u) {
    } else {
      assert s'.pc == s.pc[u := s'.pc[u]];
    }
  }

  lemma GrowGrows(s: State, s': State, u: Tid)
    requires DoGrow(s, s', u) || DoScan(s, s', u)
    ensures Grows(s, s')
  {
  }

  lemma InsertGrows(s: State, s': State, u: Tid)
    requires InsertStep(s, s', u)
    ensures Grows(s, s')
  {
    if DoGrow(s, s', u) || DoScan(s, s', u) {
      GrowGrows(s, s', u);
    } else if DoInsert(s, s', u) {
      PutGrows(s, s', u);
    } else {
      ControlGrows(s, s', u);
    }
  }

  lemma PutGrows(s: State, s': State, u: Tid)
    requires DoInsert(s, s', u)
    ensures Grows(s, s')
  {
  }

  lemma ControlGrows(s: State, s': State, u: Tid)
    requires
      || DoCount(s, s', u) || DoDecide(s, s', u) || DoObtain(s, s', u) || DoUncount(s, s', u)
      || DoInsertStore(s, s', u)
    ensures Grows(s, s')
  {
  }

  lemma ExitGrows(s: State, s': State, u: Tid)
    requires ExitStep(s, s', u)
    ensures Grows(s, s')
  {
  }

  lemma StepGrows(s: State, s': State, u: Tid)
    requires LookupStep(s, s', u) || InsertStep(s, s', u) || ExitStep(s, s', u)
    ensures Grows(s, s')
  {
    if LookupStep(s, s', u) {
      LookupGrows(s, s', u);
    } else if InsertStep(s, s', u) {
      InsertGrows(s, s', u);
    } else {
      ExitGrows(s, s', u);
    }
  }

  lemma InsertScans(s: State, s': State, t: Tid)
    requires t in s.pc && ScanOk(s, t) && t in s'.pc && InsertStep(s, s', t) && s'.pc[t].Scan?
    ensures ScanOk(s', t)
  {
    if s.pc[t].Scan? {
      OwnScanStep(s, s', t);
      StepGrows(s, s', t);
    }
  }

  lemma OthersDoNotScan(s: State, s': State, t: Tid)
    requires t in s.pc && t in s'.pc && (LookupStep(s, s', t) || ExitStep(s, s', t))
    ensures !s'.pc[t].Scan?
  {
    if DoMigrate(s, s', t) {
    } else if DoExitScan(s, s', t) {
    } else {
      assert s'.pc == s.pc[t := s'.pc[t]];
    }
  }

  lemma StepKeepsScanOk(s: State, s': State, u: Tid, t: Tid)
    requires LookupStep(s, s', u) || InsertStep(s, s', u) || ExitStep(s, s', u)
    requires Inv(s) && Grows(s, s') && t in s.pc && ScanOk(s, t)
    ensures ScanOk(s', t)
  {
    if u != t {
      OthersLeave(s, s', t, u);
    } else if InsertStep(s, s', t) {
      if s'.pc[t].Scan? {
        InsertScans(s, s', t);
      }
    } else {
      OthersDoNotScan(s, s', t);
    }
  }

  lemma NextKeepsScanOk(s: State, s': State)
    requires Inv(s) && Next(s, s')
    ensures Grows(s, s')
    ensures forall t :: t in s.pc && ScanOk(s, t) ==> t in s'.pc && ScanOk(s', t)
  {
    var u :| LookupStep(s, s', u) || InsertStep(s, s', u) || ExitStep(s, s', u);
    StepGrows(s, s', u);
    forall t | t in s.pc && ScanOk(s, t) ensures t in s'.pc && ScanOk(s', t) {
      StepKeepsScanOk(s, s', u, t);
    }
  }

  lemma {:induction false} RunKeepsScanOk(run: seq<State>, i: nat, t: Tid)
    requires IsRun(run) && i < |run| && t in run[i].pc
    ensures ScanOk(run[i], t)
  {
    if i > 0 {
      RunKeepsInv(run, i - 1);
      assert StepAt(run, i - 1);
      NextKeepsScanOk(run[i - 1], run[i]);
      RunKeepsScanOk(run, i - 1, t);
    }
  }

  /** Before the return of the call, or before the call. */
  predicate InCall(p: Pc) {
    !p.Return? && !p.ExitScan? && !p.ExitMark?
  }

  /** Steps of the call that raise the count and are still to come. */
  function Needs(p: Pc): nat {
    if p.Idle? || p.Probe? || p.Count? then 1 else 0
  }

  /** How far the call has come ... */
  function Stage(p: Pc): nat {
    match p
    case Idle => 8
    case Probe(_, _, _) => 7
    case Count(_) => 6
    case Decide(_, _) => 5
    case Obtain(_) => 4
    case Scan(_, _) => 3
    case Insert(_, _, _, _) => 2
    case Uncount(_, _, _) => 1
    case _ => 0
  }

  /** ... and what is left of its scan. */
  function Rest(p: Pc, cap: nat): int {
    match p
    case Probe(_, _, j) => cap - j
    case Scan(_, left) => left
    case Insert(_, _, j, try) => 2 * (cap - j) - if try.Second? then 1 else 0
    case _ => 0
  }

  /** t's call, in the only table, with room for everybody who has counted itself. */
  ghost predicate Ready(s: State, t: Tid, cap: nat, tries: nat) {
    && Inv(s) && Room.Roomy(s, cap, tries) && t in s.pc && t in s.mine && InCall(s.pc[t])
    && tries + Needs(s.pc[t]) < cap / 2 && Room.Scanned(s.pc[t]) < cap && ScanOk(s, t)
  }

  /** One step of t nearer to its return with a producer. */
  ghost predicate Nearer(s: State, s': State, t: Tid, cap: nat) {
    && t in s.pc && t in s'.pc && (s'.count > s.count ==> s.pc[t].Count?)
    && (|| (s'.pc[t].Return? && s'.pc[t].result.Some?)
        || (InCall(s'.pc[t])
            && (|| Stage(s'.pc[t]) < Stage(s.pc[t])
                || (Stage(s'.pc[t]) == Stage(s.pc[t]) && Rest(s'.pc[t], cap) < Rest(s.pc[t], cap)))))
  }

  lemma ProbeAhead(s: State, t: Tid, cap: nat, tries: nat) returns (s': State)
    requires Ready(s, t, cap, tries) && s.pc[t].Probe?
    ensures DoProbe(s, s', t)
    ensures Nearer(s, s', t, cap)
  {
    assert ThreadOk(s, t);
    var p, tab := s.pc[t], s.tables[0];
    var pos := Spot(tab, Start(s, t), p.j);
    s' := Goto(s, t, match tab.keys[pos]
                     case Id(u) => if u != t then Probe(p.main, p.h, p.j + 1) else Return(Some(tab.values[pos]))
                     case Empty => Count(p.main)
                     case Tomb => Probe(p.main, p.h, p.j + 1));
  }

  lemma BeginAhead(s: State, t: Tid, cap: nat, tries: nat) returns (s': State)
    requires Ready(s, t, cap, tries) && s.pc[t].Idle?
    ensures Begin(s, s', t)
    ensures Nearer(s, s', t, cap)
  {
    s' := Goto(s, t, Probe(|s.tables| - 1, |s.tables| - 1, 0));
  }

  lemma CountAhead(s: State, t: Tid, cap: nat, tries: nat) returns (s': State)
    requires Ready(s, t, cap, tries) && (s.pc[t].Count? || s.pc[t].Decide? || s.pc[t].Obtain?)
    ensures DoCount(s, s', t) || DoDecide(s, s', t) || DoObtain(s, s', t)
    ensures Nearer(s, s', t, cap)
  {
    assert ThreadOk(s, t) && Room.SmallAt(s, t, tries);
    if s.pc[t].Count? {
      s' := Goto(s, t, Decide(s.pc[t].main, s.count + 1)).(count := s.count + 1);
    } else if s.pc[t].Decide? {
      s' := Goto(s, t, Obtain(s.pc[t].main));
    } else {
      s' := Goto(s, t, Scan(s.pc[t].main, |s.active|));
    }
  }

  lemma ScanAhead(s: State, t: Tid, cap: nat) returns (s': State)
    requires t in s.pc && t in s.mine && s.pc[t].Scan? && ScanOk(s, t)
    ensures DoScan(s, s', t)
    ensures Nearer(s, s', t, cap)
  {
    var p := s.pc[t];
    if p.left == 0 {
      s' := Goto(s, t, Insert(p.main, |s.active|, 0, First)).(
              active := s.active + [true], mine := s.mine[t := Some(|s.active|)]);
    } else if s.active[p.left - 1] {
      s' := Goto(s, t, Scan(p.main, p.left - 1));
    } else {
      s' := Goto(s, t, Insert(p.main, p.left - 1, 0, First)).(
              active := s.active[p.left - 1 := true], mine := s.mine[t := Some(p.left - 1)]);
    }
  }

  lemma InsertAhead(s: State, t: Tid, cap: nat) returns (s': State)
    requires t in s.pc && s.pc[t].Insert? && s.pc[t].j < cap
    requires s.pc[t].main < |s.tables| && TableOk(s.tables[s.pc[t].main])
    ensures DoInsert(s, s', t)
    ensures Nearer(s, s', t, cap)
  {
    var p := s.pc[t];
    var pos := Spot(s.tables[p.main], Start(s, t), p.j);
    if s.tables[p.main].keys[pos] == (if p.try.First? then Tomb else Empty) {
      s' := Goto(SetKey(s, p.main, pos, Id(t)), t,
                 if p.try.First? then Uncount(p.main, p.p, pos) else InsertStore(p.main, p.p, pos));
    } else {
      s' := Goto(s, t, if p.try.First? then Insert(p.main, p.p, p.j, Second) else Insert(p.main, p.p, p.j + 1, First));
    }
  }

  lemma StoreAhead(s: State, t: Tid, cap: nat, tries: nat) returns (s': State)
    requires Ready(s, t, cap, tries) && (s.pc[t].Uncount? || s.pc[t].InsertStore? || s.pc[t].MigrateStore?)
    ensures DoUncount(s, s', t) || DoInsertStore(s, s', t) || DoMigrateStore(s, s', t)
    ensures Nearer(s, s', t, cap)
  {
    assert ThreadOk(s, t);
    var p := s.pc[t];
    if p.Uncount? {
      s' := Goto(s, t, InsertStore(p.main, p.p, p.pos)).(count := s.count - 1);
    } else if p.InsertStore? {
      s' := Goto(SetValue(s, p.main, p.pos, p.p), t, Return(Some(p.p)));
    } else {
      s' := Goto(SetValue(s, p.main, p.pos, p.value), t, Return(Some(p.value)));
    }
  }

  lemma Ahead(s: State, t: Tid, cap: nat, tries: nat) returns (s': State)
    requires Ready(s, t, cap, tries)
    ensures Next(s, s') && Nearer(s, s', t, cap)
  {
    Room.NoMigration(s, t);
    assert ThreadOk(s, t) && Room.SmallAt(s, t, tries);
    match s.pc[t] {
      case Idle => s' := BeginAhead(s, t, cap, tries);
      case Probe(_, _, _) => s' := ProbeAhead(s, t, cap, tries);
      case Scan(_, _) => s' := ScanAhead(s, t, cap);
      case Insert(_, _, _, _) => s' := InsertAhead(s, t, cap);
      case Count(_) => s' := CountAhead(s, t, cap, tries);
      case Decide(_, _) => s' := CountAhead(s, t, cap, tries);
      case Obtain(_) => s' := CountAhead(s, t, cap, tries);
      case _ => s' := StoreAhead(s, t, cap, tries);
    }
    assert LookupStep(s, s', t) || InsertStep(s, s', t);
  }

  lemma {:induction false} SameRegistrations(run: seq<State>, longer: seq<State>, i: nat)
    requires i < |run| <= |longer| && run == longer[..|run|]
    ensures Room.Registrations(longer, i) == Room.Registrations(run, i)
  {
    if i > 0 {
      SameRegistrations(run, longer, i - 1);
    }
  }

  lemma IsReady(run: seq<State>, t: Tid)
    requires IsRun(run) && t in run[|run| - 1].pc && InCall(run[|run| - 1].pc[t])
    requires Room.Registrations(run, |run| - 1) + Needs(run[|run| - 1].pc[t]) < |run[0].tables[0].keys| / 2
    ensures Ready(run[|run| - 1], t, |run[0].tables[0].keys|, Room.Registrations(run, |run| - 1))
  {
    RunKeepsInv(run, |run| - 1);
    Room.RunKeepsRoom(run, |run| - 1);
    Room.ScansEnd(run, |run| - 1, t);
    RunKeepsScanOk(run, |run| - 1, t);
  }

  lemma Appended(run: seq<State>, s': State)
    requires IsRun(run) && Next(run[|run| - 1], s')
    ensures IsRun(run + [s'])
  {
    var next := run + [s'];
    forall k: nat | k + 1 < |next| ensures StepAt(next, k) {
      if k + 1 < |run| {
        assert StepAt(run, k);
      }
    }
  }

  lemma RegistrationsAfter(run: seq<State>, s': State)
    requires run != []
    ensures Room.Registrations(run + [s'], |run|) ==
      Room.Registrations(run, |run| - 1) + if s'.count > run[|run| - 1].count then 1 else 0
  {
    SameRegistrations(run, run + [s'], |run| - 1);
  }

  /** There is room for t's call, and it is not over. */
  ghost predicate Open(run: seq<State>, t: Tid)
    requires run != [] && run[0].tables != []
  {
    var s := run[|run| - 1];
    && t in s.pc && InCall(s.pc[t])
    && Room.Registrations(run, |run| - 1) + Needs(s.pc[t]) < |run[0].tables[0].keys| / 2
  }

  /** The next run ends with the return, or a step nearer to it. */
  ghost predicate Further(run: seq<State>, next: seq<State>, t: Tid)
    requires run != [] && next != [] && run[0].tables != [] && t in run[|run| - 1].pc
  {
    var p, s' := run[|run| - 1].pc[t], next[|next| - 1];
    && t in s'.pc && next[0] == run[0]
    && (|| (s'.pc[t].Return? && s'.pc[t].result.Some?)
        || (Open(next, t)
            && (|| Stage(s'.pc[t]) < Stage(p)
                || (Stage(s'.pc[t]) == Stage(p)
                    && Rest(s'.pc[t], |run[0].tables[0].keys|) < Rest(p, |run[0].tables[0].keys|)))))
  }

  lemma GoesFurther(run: seq<State>, t: Tid) returns (next: seq<State>)
    requires IsRun(run) && Open(run, t)
    ensures IsRun(next) && run <= next && Further(run, next, t)
  {
    IsReady(run, t);
    var s' := Ahead(run[|run| - 1], t, |run[0].tables[0].keys|, Room.Registrations(run, |run| - 1));
    next := run + [s'];
    Appended(run, s');
    RegistrationsAfter(run, s');
  }

  lemma RestIsLeft(run: seq<State>, t: Tid)
    requires IsRun(run) && Open(run, t)
    ensures Rest(run[|run| - 1].pc[t], |run[0].tables[0].keys|) >= 0
  {
    IsReady(run, t);
  }

  lemma {:induction false} GoesAhead(run: seq<State>, t: Tid) returns (longer: seq<State>)
    requires IsRun(run) && Open(run, t)
    ensures IsRun(longer) && run <= longer && Returning(longer[|longer| - 1], t)
    ensures longer[|longer| - 1].pc[t].result.Some?
    decreases Stage(run[|run| - 1].pc[t]), Rest(run[|run| - 1].pc[t], |run[0].tables[0].keys|)
  {
    RestIsLeft(run, t);
    longer := GoesFurther(run, t);
    if !longer[|longer| - 1].pc[t].Return? {
      longer := GoesAhead(longer, t);
    }
  }

  /** While fewer threads have registered than half the slots of the first table: a thread can
      call, and wherever its call is, it can go on to return a producer. */
  lemma CallCanSucceed(run: seq<State>, t: Tid)
    requires IsRun(run) && t in run[|run| - 1].pc && InCall(run[|run| - 1].pc[t])
    requires Room.Registrations(run, |run| - 1) + 1 < |run[0].tables[0].keys| / 2
    ensures exists longer: seq<State> ::
      && IsRun(longer) && run <= longer && Returning(longer[|longer| - 1], t)
      && longer[|longer| - 1].pc[t].result.Some?
  {
    var longer := GoesAhead(run, t);
  }

  /** A thread that grows the hash can get its larger, empty table, in which its number is
      less than half the slots. */
  lemma GrowingCanSucceed(run: seq<State>, t: Tid)
    requires IsRun(run) && t in run[|run| - 1].pc && run[|run| - 1].pc[t].Grow?
    ensures exists s' ::
      && Next(run[|run| - 1], s') && t in s'.pc && s'.pc[t].Obtain? && s'.pc[t].main == |s'.tables| - 1
      && run[|run| - 1].pc[t].n < |s'.tables[|s'.tables| - 1].keys| / 2
  {
    var s := run[|run| - 1];
    RunKeepsInv(run, |run| - 1);
    assert ThreadOk(s, t);
    var p, cap := s.pc[t], |s.tables[s.pc[t].main].keys|;
    var s';
    if p.n >= cap / 2 {
      s' := Goto(s, t, Obtain(p.main + 1)).(
              tables := s.tables[..p.main + 1] + [NewTable(GrownCap(2 * cap, p.n))], resizing := false);
    } else {
      s' := Goto(s, t, Obtain(p.main)).(resizing := false);
    }
    assert DoGrow(s, s', t);
    assert InsertStep(s, s', t);
  }

  // --------------------------------------------------------- every exit can end

  predicate Exiting(p: Pc) {
    p.ExitScan? || p.ExitMark?
  }

  /** The slots still to be scanned by an exit in the only table, and the mark. */
  function ExitLeft(p: Pc, cap: nat): nat {
    if p.ExitScan? then 1 + (if p.j < cap then cap - p.j else 0) else 0
  }

  lemma ExitAhead(s: State, t: Tid, cap: nat, tries: nat) returns (s': State)
    requires Inv(s) && Room.Roomy(s, cap, tries) && t in s.pc && t in s.mine && s.pc[t].ExitScan? && s.pc[t].j < cap
    ensures ExitStep(s, s', t) && t in s'.pc && s'.count <= s.count && s'.active == s.active && s'.mine == s.mine
    ensures Exiting(s'.pc[t]) && ExitLeft(s'.pc[t], cap) < ExitLeft(s.pc[t], cap) && s'.pc[t].p == s.pc[t].p
  {
    assert ThreadOk(s, t);
    var p, tab := s.pc[t], s.tables[0];
    var pos := Spot(tab, Start(s, t), p.j);
    if tab.keys[pos] == Id(t) {
      s' := Goto(SetKey(s, p.h, pos, Tomb), t, ExitMark(p.p));
    } else if tab.keys[pos] == Empty {
      s' := Goto(s, t, ExitMark(p.p));
    } else {
      s' := Goto(s, t, ExitScan(p.p, p.h, p.j + 1));
    }
    assert DoExitScan(s, s', t);
  }

  lemma Marks(s: State, t: Tid) returns (s': State)
    requires Inv(s) && t in s.pc && t in s.mine && s.pc[t].ExitMark?
    ensures ExitStep(s, s', t) && t in s'.pc && s'.pc[t] == Idle && t in s'.mine && s'.mine[t] == None
    ensures s.pc[t].p < |s'.active| && !s'.active[s.pc[t].p]
  {
    assert ThreadOk(s, t) && ActiveOk(s, t);
    s' := Goto(s, t, Idle).(active := s.active[s.pc[t].p := false], mine := s.mine[t := None]);
    assert DoExitMark(s, s', t);
  }

  ghost predicate HasRoom(run: seq<State>)
    requires run != [] && run[0].tables != []
  {
    Room.Registrations(run, |run| - 1) < |run[0].tables[0].keys| / 2
  }

  lemma ExitGoesOn(run: seq<State>, t: Tid) returns (s': State)
    requires IsRun(run) && HasRoom(run) && t in run[|run| - 1].pc && run[|run| - 1].pc[t].ExitScan?
    ensures IsRun(run + [s']) && HasRoom(run + [s']) && t in s'.pc && Exiting(s'.pc[t])
    ensures s'.pc[t].p == run[|run| - 1].pc[t].p
    ensures var cap := |run[0].tables[0].keys|; ExitLeft(s'.pc[t], cap) < ExitLeft(run[|run| - 1].pc[t], cap)
  {
    var s, cap := run[|run| - 1], |run[0].tables[0].keys|;
    RunKeepsInv(run, |run| - 1);
    Room.RunKeepsRoom(run, |run| - 1);
    Room.ScansEnd(run, |run| - 1, t);
    s' := ExitAhead(s, t, cap, Room.Registrations(run, |run| - 1));
    ExitIsNext(s, s', t);
    Appended(run, s');
    RegistrationsAfter(run, s');
  }

  lemma ExitIsNext(s: State, s': State, t: Tid)
    requires ExitStep(s, s', t)
    ensures Next(s, s')
  {
  }

  lemma {:induction false} ExitsAhead(run: seq<State>, t: Tid) returns (longer: seq<State>)
    requires IsRun(run) && HasRoom(run) && t in run[|run| - 1].pc && Exiting(run[|run| - 1].pc[t])
    ensures IsRun(longer) && run <= longer && Exited(longer[|longer| - 1], t, run[|run| - 1].pc[t].p)
    decreases ExitLeft(run[|run| - 1].pc[t], |run[0].tables[0].keys|)
  {
    if run[|run| - 1].pc[t].ExitScan? {
      var s' := ExitGoesOn(run, t);
      longer := ExitsAhead(run + [s'], t);
    } else {
      RunKeepsInv(run, |run| - 1);
      var s' := Marks(run[|run| - 1], t);
      ExitIsNext(run[|run| - 1], s', t);
      Appended(run, s');
      longer := run + [s'];
    }
  }

  /** t has no producer any more, and p can be reused. */
  predicate Exited(s: State, t: Tid, p: Pid) {
    t in s.pc && s.pc[t] == Idle && t in s.mine && s.mine[t] == None && p < |s.active| && !s.active[p]
  }

  /** A thread with a producer can begin to exit. */
  lemma ExitCanBegin(run: seq<State>, t: Tid)
    requires IsRun(run) && t in run[|run| - 1].pc && run[|run| - 1].pc[t] == Idle
    requires t in run[|run| - 1].mine && run[|run| - 1].mine[t].Some?
    ensures exists s' ::
      IsRun(run + [s']) && t in s'.pc && s'.pc[t].ExitScan? && Some(s'.pc[t].p) == run[|run| - 1].mine[t]
  {
    var s := run[|run| - 1];
    RunKeepsInv(run, |run| - 1);
    var s' := Goto(s, t, ExitScan(s.mine[t].value, |s.tables| - 1, 0));
    assert BeginExit(s, s', t);
    ExitIsNext(s, s', t);
    Appended(run, s');
  }

  /** Under the same condition an exit that has begun can end, and makes the thread's producer
      free. */
  lemma ExitCanEnd(run: seq<State>, t: Tid)
    requires IsRun(run) && HasRoom(run) && t in run[|run| - 1].pc && Exiting(run[|run| - 1].pc[t])
    ensures exists longer: seq<State> ::
      IsRun(longer) && run <= longer && Exited(longer[|longer| - 1], t, run[|run| - 1].pc[t].p)
  {
    var longer := ExitsAhead(run, t);
  }

  // ------------------------------------------------------------- nobody is stuck

  lemma LookupCanStep(s: State, t: Tid) returns (s': State)
    requires Inv(s) && t in s.pc && (s.pc[t].Probe? || s.pc[t].Migrate? || s.pc[t].MigrateStore? || s.pc[t].Return?)
    ensures LookupStep(s, s', t)
  {
    assert ThreadOk(s, t);
    if s.pc[t].Probe? {
      s' := Probed(s, t);
    } else if s.pc[t].Migrate? {
      s' := Migrated(s, t);
    } else if s.pc[t].MigrateStore? {
      s' := Goto(SetValue(s, s.pc[t].main, s.pc[t].pos, s.pc[t].value), t, Return(Some(s.pc[t].value)));
      assert DoMigrateStore(s, s', t);
    } else {
      s' := Goto(s, t, Idle);
      assert Finish(s, s', t);
    }
  }

  lemma Probed(s: State, t: Tid) returns (s': State)
    requires t in s.pc && t in s.mine && s.pc[t].Probe?
    requires s.pc[t].h <= s.pc[t].main && s.pc[t].h < |s.tables| && TableOk(s.tables[s.pc[t].h])
    ensures DoProbe(s, s', t)
  {
    var p, tab := s.pc[t], s.tables[s.pc[t].h];
    var pos := Spot(tab, Start(s, t), p.j);
    s' := Goto(s, t, match tab.keys[pos]
                     case Id(u) =>
                       if u != t then Probe(p.main, p.h, p.j + 1)
                       else if p.h == p.main then Return(Some(tab.values[pos]))
                       else Migrate(p.main, tab.values[pos], 0, First)
                     case Empty => if p.h == 0 then Count(p.main) else Probe(p.main, p.h - 1, 0)
                     case Tomb => Probe(p.main, p.h, p.j + 1));
  }

  lemma Migrated(s: State, t: Tid) returns (s': State)
    requires t in s.pc && s.pc[t].Migrate? && s.pc[t].main < |s.tables| && TableOk(s.tables[s.pc[t].main])
    ensures DoMigrate(s, s', t)
  {
    var p := s.pc[t];
    var pos := Spot(s.tables[p.main], Start(s, t), p.j);
    if s.tables[p.main].keys[pos] == (if p.try.First? then Empty else Tomb) {
      s' := Goto(SetKey(s, p.main, pos, Id(t)), t, MigrateStore(p.main, p.value, pos));
    } else {
      s' := Goto(s, t, if p.try.First? then Migrate(p.main, p.value, p.j, Second)
                       else Migrate(p.main, p.value, p.j + 1, First));
    }
  }

  lemma ControlCanStep(s: State, t: Tid) returns (s': State)
    requires Inv(s) && t in s.pc
    requires s.pc[t].Count? || s.pc[t].Obtain? || s.pc[t].Uncount? || s.pc[t].InsertStore?
    ensures InsertStep(s, s', t)
  {
    assert ThreadOk(s, t);
    var p := s.pc[t];
    if p.Count? {
      s' := Goto(s, t, Decide(p.main, s.count + 1)).(count := s.count + 1);
      assert DoCount(s, s', t);
    } else if p.Obtain? {
      s' := Goto(s, t, Scan(p.main, |s.active|));
      assert DoObtain(s, s', t);
    } else if p.Uncount? {
      s' := Goto(s, t, InsertStore(p.main, p.p, p.pos)).(count := s.count - 1);
      assert DoUncount(s, s', t);
    } else {
      s' := Goto(SetValue(s, p.main, p.pos, p.p), t, Return(Some(p.p)));
      assert DoInsertStore(s, s', t);
    }
  }

  lemma DecideCanStep(s: State, t: Tid) returns (s': State)
    requires Inv(s) && t in s.pc && (s.pc[t].Decide? || s.pc[t].Grow?)
    ensures InsertStep(s, s', t)
  {
    assert ThreadOk(s, t);
    var p := s.pc[t];
    var cap := |s.tables[p.main].keys|;
    if p.Grow? {
      s' := if p.n >= cap / 2 then Goto(s, t, Return(None)).(resizing := false, count := s.count - 1)
            else Goto(s, t, Obtain(p.main)).(resizing := false);
      assert DoGrow(s, s', t);
    } else {
      s' := if p.n >= cap / 2 && !s.resizing then Goto(s, t, Grow(|s.tables| - 1, p.n)).(resizing := true)
            else Goto(s, t, if p.n < cap / 2 + cap / 4 then Obtain(p.main) else Decide(|s.tables| - 1, p.n));
      assert DoDecide(s, s', t);
    }
  }

  lemma CanStep(s: State, t: Tid) returns (s': State)
    requires Inv(s) && t in s.pc && ScanOk(s, t) && s.pc[t] != Idle
    ensures LookupStep(s, s', t) || InsertStep(s, s', t) || ExitStep(s, s', t)
  {
    assert ThreadOk(s, t);
    match s.pc[t] {
      case Scan(_, _) => s' := ScanAhead(s, t, 0);
      case Insert(_, _, j, _) => s' := InsertAhead(s, t, j + 1);
      case Decide(_, _) => s' := DecideCanStep(s, t);
      case Grow(_, _) => s' := DecideCanStep(s, t);
      case ExitScan(_, _, _) => s' := Scanned(s, t);
      case ExitMark(_) => s' := Marks(s, t);
      case Count(_) => s' := ControlCanStep(s, t);
      case Obtain(_) => s' := ControlCanStep(s, t);
      case Uncount(_, _, _) => s' := ControlCanStep(s, t);
      case InsertStore(_, _, _) => s' := ControlCanStep(s, t);
      case _ => s' := LookupCanStep(s, t);
    }
  }

  lemma Scanned(s: State, t: Tid) returns (s': State)
    requires Inv(s) && t in s.pc && s.pc[t].ExitScan?
    ensures ExitStep(s, s', t)
  {
    assert ThreadOk(s, t);
    var p := s.pc[t];
    var pos := Spot(s.tables[p.h], Start(s, t), p.j);
    var key := s.tables[p.h].keys[pos];
    var next := if p.h == 0 then ExitMark(p.p) else ExitScan(p.p, p.h - 1, 0);
    s' := if key == Id(t) then Goto(SetKey(s, p.h, pos, Tomb), t, next)
          else if key == Empty then Goto(s, t, next)
          else Goto(s, t, ExitScan(p.p, p.h, p.j + 1));
    assert DoExitScan(s, s', t);
  }

  /** Inside a call or an exit a thread can always take its next step: the tables, slots and
      producers that it works on are there. */
  lemma NeverStuck(run: seq<State>, i: nat, t: Tid)
    requires IsRun(run) && i < |run| && t in run[i].pc && run[i].pc[t] != Idle
    ensures exists s' :: LookupStep(run[i], s', t) || InsertStep(run[i], s', t) || ExitStep(run[i], s', t)
  {
    RunKeepsInv(run, i);
    RunKeepsScanOk(run, i, t);
    var s' := CanStep(run[i], t);
  }
}
