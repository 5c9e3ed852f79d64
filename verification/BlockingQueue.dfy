/** BlockingConcurrentQueue: a queue and a semaphore that counts its items. An
    enqueue adds the items first and signals afterwards; a dequeue first gets
    units from the semaphore and then loops until it has as many items.

    The inner queue is seen through the number of its items: an inner dequeue may
    fail at any time, or remove one item. */
module BlockingQueue {
  import opened Totals
  import opened Ranges
  import Sem = Semaphore

  type Tid = nat

  datatype State = State(sem: Sem.State, items: nat)

  /** enqueue or enqueue_bulk: the inner enqueue of n items succeeds; the signal is
      still to come. (An inner enqueue that fails changes nothing.) */
  ghost predicate Enqueue(s: State, s': State, t: Tid, n: nat) {
    Sem.StartSignal(s.sem, s'.sem, t, n) && s'.items == s.items + n
  }

  /** Any operation that ends in a wait on the semaphore begins. */
  ghost predicate Begin(s: State, s': State, t: Tid, op: Sem.Op) {
    Sem.StartWait(s.sem, s'.sem, t, op) && s'.items == s.items
  }

  ghost predicate SemStep(s: State, s': State, t: Tid) {
    Sem.Exec(s.sem, s'.sem, t) && s'.items == s.items
  }

  /** The inner dequeue succeeds, and one of the thread's units is used up. */
  ghost predicate Dequeue(s: State, s': State, t: Tid) {
    && t in s.sem.pc && s.sem.pc[t].Return? && s.sem.pc[t].got > 0 && s.items > 0
    && Sem.Use(s.sem, s'.sem, t) && s'.items == s.items - 1
  }

  /** The operation returns to its caller. */
  ghost predicate Finish(s: State, s': State, t: Tid) {
    && t in s.sem.pc && s.sem.pc[t] == Sem.Return(0)
    && Sem.Use(s.sem, s'.sem, t) && s'.items == s.items
  }

  ghost predicate Init(s: State) {
    Sem.Init(s.sem) && s.sem.initial == 0 && s.items == 0
  }

  ghost predicate Next(s: State, s': State) {
    || (exists t, n: nat :: Enqueue(s, s', t, n))
    || (exists t, op :: Begin(s, s', t, op))
    || (exists t :: SemStep(s, s', t))
    || (exists t :: Dequeue(s, s', t))
    || (exists t :: Finish(s, s', t))
  }

  ghost predicate StepAt(run: seq<State>, i: nat)
    requires i + 1 < |run|
  {
    Next(run[i], run[i + 1])
  }

  ghost predicate IsRun(run: seq<State>) {
    && run != [] && Init(run[0])
    && forall i: nat {:trigger StepAt(run, i)} :: i + 1 < |run| ==> StepAt(run, i)
  }

  /** Items enqueued and not signalled yet. */
  function Owed(p: Sem.Pc): int {
    if p.SignalAdd? then p.n else 0
  }

  ghost predicate Inv(s: State) {
    && Sem.Inv(s.sem) && s.sem.initial == 0
    && s.items + s.sem.used == s.sem.signalled + Total(s.sem.pc, Owed)
  }

  lemma ExecOwes(s: Sem.State, s': Sem.State, t: Tid)
    requires t in s.pc && Sem.PcOk(s.pc[t]) && Sem.Exec(s, s', t)
    ensures t in s'.pc && s'.signalled - s.signalled == Owed(s.pc[t]) - Owed(s'.pc[t])
  {
  }

  lemma NextKeepsInv(s: State, s': State)
    requires Inv(s) && Next(s, s')
    ensures Inv(s')
  {
    var t;
    if u, n: nat :| Enqueue(s, s', u, n) {
      t := u;
    } else if u, op :| Begin(s, s', u, op) {
      t := u;
    } else if u :| SemStep(s, s', u) {
      t := u;
      assert Sem.PcAt(s.sem, u);
      ExecOwes(s.sem, s'.sem, u);
      Sem.ExecHasEffect(s.sem, s'.sem, u);
    } else if u :| Dequeue(s, s', u) {
      t := u;
    } else {
      t :| Finish(s, s', t);
    }
    Sem.NextKeepsInv(s.sem, s'.sem);
    TotalUpdate(s.sem.pc, t, s'.sem.pc[t], Owed);
  }

  lemma {:induction false} RunKeepsInv(run: seq<State>, i: nat)
    requires IsRun(run) && i < |run|
    ensures Inv(run[i])
  {
    if i == 0 {
      Sem.InitGivesInv(run[0].sem);
      TotalZero(run[0].sem.pc, Owed);
    } else {
      RunKeepsInv(run, i - 1);
      assert StepAt(run, i - 1);
      NextKeepsInv(run[i - 1], run[i]);
    }
  }

  // ------------------------------------------------------------ main results

  /** Every item in the inner queue is accounted for: not signalled yet, covered by
      a unit nobody has, or covered by a unit whose owner is about to dequeue. */
  lemma ItemsAreAccountedFor(run: seq<State>, i: nat)
    requires IsRun(run) && i < |run|
    ensures var s := run[i];
      s.items == Total(s.sem.pc, Owed) + Sem.Units(s.sem) + Total(s.sem.pc, Sem.Got)
      && Total(s.sem.pc, Owed) >= 0 && Sem.Units(s.sem) >= 0
  {
    RunKeepsInv(run, i);
    Sem.UnitsAre(run[i].sem);
    TotalCovers(run[i].sem.pc, Owed);
  }

  /** A thread that loops on the inner dequeue after its wait has an item present
      for each unit it still holds, whatever the other threads hold. */
  lemma SpinnersHaveItems(run: seq<State>, i: nat, t: Tid)
    requires IsRun(run) && i < |run| && t in run[i].sem.pc && run[i].sem.pc[t].Return?
    ensures run[i].sem.pc[t].got <= run[i].items
  {
    var s := run[i].sem;
    ItemsAreAccountedFor(run, i);
    TotalCovers(s.pc, Sem.Got);
    assert Sem.Got(s.pc[t]) <= Total(s.pc, Sem.Got);
  }

  /** There is an item for each unit that any of the threads holds, so that they never
      compete for an item; in particular no two of them do. */
  lemma SpinnersDoNotCompete(run: seq<State>, i: nat)
    requires IsRun(run) && i < |run|
    ensures Total(run[i].sem.pc, Sem.Got) <= run[i].items
    ensures forall t, u {:trigger run[i].sem.pc[t], run[i].sem.pc[u]} ::
      t != u && t in run[i].sem.pc && run[i].sem.pc[t].Return? && u in run[i].sem.pc && run[i].sem.pc[u].Return? ==>
        run[i].sem.pc[t].got + run[i].sem.pc[u].got <= run[i].items
  {
    var s := run[i].sem;
    ItemsAreAccountedFor(run, i);
    RunKeepsInv(run, i);
    forall t, u | t != u && t in s.pc && s.pc[t].Return? && u in s.pc && s.pc[u].Return?
      ensures s.pc[t].got + s.pc[u].got <= run[i].items
    {
      TotalCoversTwo(s.pc, t, u, Sem.Got);
    }
  }

  /** With no operation under way the semaphore's count is the number of items. */
  lemma QuietCountIsItems(run: seq<State>, i: nat)
    requires IsRun(run) && i < |run|
    requires forall t :: t in run[i].sem.pc ==> run[i].sem.pc[t] == Sem.Idle
    ensures run[i].sem.count == run[i].items && run[i].sem.permits == 0
  {
    var s := run[i].sem;
    ItemsAreAccountedFor(run, i);
    RunKeepsInv(run, i);
    TotalZero(s.pc, Sem.Got);
    TotalZero(s.pc, Owed);
    TotalZero(s.pc, Sem.Waiting);
    TotalZero(s.pc, Sem.Posting);
  }

  /** So a thread that loops on the inner dequeue can always take an item. */
  lemma SpinnersCanDequeue(run: seq<State>, i: nat, t: Tid)
    requires IsRun(run) && i < |run| && t in run[i].sem.pc
    requires run[i].sem.pc[t].Return? && run[i].sem.pc[t].got > 0
    ensures exists s' ::
      && Dequeue(run[i], s', t) && s'.items == run[i].items - 1
      && t in s'.sem.pc && s'.sem.pc[t] == Sem.Return(run[i].sem.pc[t].got - 1)
  {
    var s := run[i];
    SpinnersHaveItems(run, i, t);
    var got := s.sem.pc[t].got;
    var s' := State(Sem.Goto(s.sem, t, Sem.Return(got - 1)).(used := s.sem.used + 1), s.items - 1);
    assert Dequeue(s, s', t);
  }

  /** With no operation under way and items there, a call that nobody disturbs gets units for
      all of them, up to what it asks for. */
  lemma ItemsCanBeHad(run: seq<State>, i: nat, t: Tid, op: Sem.Op)
    requires IsRun(run) && i < |run| && run[i].items > 0 && op.max >= 1 && op.mode != Sem.Rest
    requires t in run[i].sem.pc && forall u :: u in run[i].sem.pc ==> run[i].sem.pc[u] == Sem.Idle
    ensures exists a: State, m: State, b: State ::
      && Begin(run[i], a, t, op) && SemStep(a, m, t) && SemStep(m, b, t) && b.items == run[i].items
      && t in b.sem.pc && b.sem.pc[t] == Sem.Return(Min(run[i].items, op.max))
  {
    var s := run[i];
    QuietCountIsItems(run, i);
    var a := State(Sem.Goto(s.sem, t, Sem.TryLoad(op)).(asked := s.sem.asked[t := op.max]), s.items);
    var m, b := Sem.LoadThenCas(a.sem, t);
    Sem.TryIsExec(a.sem, m, t);
    Sem.TryIsExec(m, b, t);
    assert Begin(s, a, t, op) && SemStep(a, State(m, s.items), t) && SemStep(State(m, s.items), State(b, s.items), t);
  }

  /** An idle thread can enqueue n items, and its signal then adds n units and leaves it as
      many permits to post as there are waiters to wake. */
  lemma EnqueuesCanSignal(s: State, t: Tid, n: nat)
    requires t in s.sem.pc && s.sem.pc[t] == Sem.Idle
    ensures exists a: State, b: State ::
      && Enqueue(s, a, t, n) && SemStep(a, b, t)
      && b.items == s.items + n && b.sem.count == s.sem.count + n
      && t in b.sem.pc
      && var wakes := Min(Sem.Below(s.sem.count), n);
         b.sem.pc[t] == if wakes > 0 then Sem.Post(wakes) else Sem.Idle
  {
    var a := State(Sem.Goto(s.sem, t, Sem.SignalAdd(n)), s.items + n);
    var wakes := Min(Sem.Below(s.sem.count), n);
    var sem := Sem.Goto(a.sem, t, if wakes > 0 then Sem.Post(wakes) else Sem.Idle).(
      count := s.sem.count + n, signalled := s.sem.signalled + n);
    Sem.SignalIsExec(a.sem, sem, t);
    assert Enqueue(s, a, t, n) && SemStep(a, State(sem, a.items), t);
  }

  /** A call with nothing left to dequeue can return. */
  lemma CallersCanReturn(s: State, t: Tid)
    requires t in s.sem.pc && s.sem.pc[t] == Sem.Return(0)
    ensures exists s' :: Finish(s, s', t) && t in s'.sem.pc && s'.sem.pc[t] == Sem.Idle && s'.items == s.items
  {
    assert Finish(s, State(Sem.Goto(s.sem, t, Sem.Idle), s.items), t);
  }
}
