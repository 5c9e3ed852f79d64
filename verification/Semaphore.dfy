/** LightweightSemaphore: a count that goes negative while threads wait, and an
    operating system semaphore that wakes them. Every load, CAS, fetch_add and
    system call is one step of one thread.

    `wait`, `tryWait` and their timed forms are the case max == 1 of `waitMany` and
    `tryWaitMany`, and are modelled as such. */
module Semaphore {
  import opened Totals
  import opened Ranges

  type Tid = nat

  /** What to do when no unit is to be had at once: give up, or wait (for ever, not
      at all, or until a timeout). After a slow wait, Rest tries for more and adds
      the one unit already got. */
  datatype Mode = JustTry | WaitForever | WaitZero | WaitTimed | Rest

  datatype Op = Op(max: nat, mode: Mode)

  datatype Pc =
    | Idle
    | TryLoad(op: Op)
    | TryCas(op: Op, seen: int)
    | SpinLoad(op: Op)
    | SpinCas(op: Op, seen: int)
    | FetchSub(op: Op)
    | Sleep(op: Op)
    | CancelLoad(op: Op)
    | CancelTry(op: Op)
    | CancelCas(op: Op, seen: int)
    | Return(got: nat)
    | SignalAdd(n: nat)
    | Post(n: nat)

  /** The count, the permits of the system semaphore and the threads; history: the
      units there were at first, those signalled, acquired, and used up by callers,
      and how many each thread asked for. */
  datatype State = State(
    count: int,
    permits: nat,
    pc: map<Tid, Pc>,
    initial: nat,
    signalled: nat,
    acquired: nat,
    used: nat,
    asked: map<Tid, nat>)

  // ------------------------------------------------------------------- steps

  function Goto(s: State, t: Tid, p: Pc): State {
    s.(pc := s.pc[t := p])
  }

  function Bonus(op: Op): nat {
    if op.mode == Rest then 1 else 0
  }

  function CountAfter(seen: int, max: nat): int {
    if seen > max then seen - max else 0
  }

  /** No unit was there when the quick attempt looked. */
  function GiveUp(op: Op): Pc {
    if op.mode == JustTry || op.mode == Rest then Return(Bonus(op))
    else if op.max == 0 then Return(0)
    else SpinLoad(op)
  }

  /** A unit came by the slow path. */
  function SlowSuccess(op: Op): Pc {
    if op.max > 1 then TryLoad(Op(op.max - 1, Rest)) else Return(1)
  }

  function AfterTry(op: Op, count: int): Pc {
    if count > 0 then TryCas(op, count) else GiveUp(op)
  }

  /** A quick attempt returned `got`: a waiting operation that got nothing goes on. */
  function AfterTryCas(op: Op, got: nat): Pc {
    if got == 0 && op.mode != JustTry && op.mode != Rest then GiveUp(op) else Return(Bonus(op) + got)
  }

  ghost predicate DoTryLoad(s: State, s': State, t: Tid) {
    && t in s.pc && s.pc[t].TryLoad?
    && s' == Goto(s, t, AfterTry(s.pc[t].op, s.count))
  }

  /** The CAS may fail although the count is as expected. */
  ghost predicate DoTryCas(s: State, s': State, t: Tid) {
    && t in s.pc && s.pc[t].TryCas? && s.pc[t].seen > 0
    && (var op, seen := s.pc[t].op, s.pc[t].seen;
        var got := seen - CountAfter(seen, op.max);
        || (s.count == seen && got >= 0
            && s' == Goto(s, t, AfterTryCas(op, got)).(count := CountAfter(seen, op.max), acquired := s.acquired + got))
        || s' == Goto(s, t, AfterTry(op, s.count)))
  }

  /** The spinning loop looks again ... */
  ghost predicate DoSpinLoad(s: State, s': State, t: Tid) {
    && t in s.pc && s.pc[t].SpinLoad?
    && (var op := s.pc[t].op;
        || s' == Goto(s, t, FetchSub(op))
        || (s' == Goto(s, t, if s.count > 0 then SpinCas(op, s.count) else SpinLoad(op))))
  }

  /** ... and tries, until its spins are used up. */
  ghost predicate DoSpinCas(s: State, s': State, t: Tid) {
    && t in s.pc && s.pc[t].SpinCas? && s.pc[t].seen > 0
    && (var op, seen := s.pc[t].op, s.pc[t].seen;
        var got := seen - CountAfter(seen, op.max);
        if s.count == seen then
          got >= 0 && s' == Goto(s, t, Return(got)).(count := CountAfter(seen, op.max), acquired := s.acquired + got)
        else s' == Goto(s, t, SpinLoad(op)))
  }

  ghost predicate DoFetchSub(s: State, s': State, t: Tid) {
    && t in s.pc && s.pc[t].FetchSub?
    && (var op := s.pc[t].op;
        s' == if s.count > 0 then Goto(s, t, SlowSuccess(op)).(count := s.count - 1, acquired := s.acquired + 1)
              else Goto(s, t, if op.mode == WaitZero then CancelLoad(op) else Sleep(op)).(count := s.count - 1))
  }

  /** The system semaphore wakes the thread, or the wait times out or fails. */
  ghost predicate DoSleep(s: State, s': State, t: Tid) {
    && t in s.pc && s.pc[t].Sleep?
    && (var op := s.pc[t].op;
        || (s.permits > 0 && s' == Goto(s, t, SlowSuccess(op)).(permits := s.permits - 1, acquired := s.acquired + 1))
        || s' == Goto(s, t, CancelLoad(op)))
  }

  ghost predicate DoCancelLoad(s: State, s': State, t: Tid) {
    && t in s.pc && s.pc[t].CancelLoad?
    && s' == Goto(s, t, if s.count >= 0 then CancelTry(s.pc[t].op) else CancelCas(s.pc[t].op, s.count))
  }

  ghost predicate DoCancelTry(s: State, s': State, t: Tid) {
    && t in s.pc && s.pc[t].CancelTry?
    && (var op := s.pc[t].op;
        s' == if s.permits > 0 then Goto(s, t, SlowSuccess(op)).(permits := s.permits - 1, acquired := s.acquired + 1)
              else Goto(s, t, CancelLoad(op)))
  }

  ghost predicate DoCancelCas(s: State, s': State, t: Tid) {
    && t in s.pc && s.pc[t].CancelCas? && s.pc[t].seen < 0
    && s' == if s.count == s.pc[t].seen then Goto(s, t, Return(0)).(count := s.count + 1)
             else Goto(s, t, CancelLoad(s.pc[t].op))
  }

  /** signal: fetch_add, then one post for each waiter that the new units reach. */
  ghost predicate DoSignalAdd(s: State, s': State, t: Tid) {
    && t in s.pc && s.pc[t].SignalAdd?
    && (var n := s.pc[t].n;
        var toRelease := if -s.count < n then -s.count else n as int;
        s' == Goto(s, t, if toRelease > 0 then Post(toRelease) else Idle).(
                count := s.count + n, signalled := s.signalled + n))
  }

  ghost predicate DoPost(s: State, s': State, t: Tid) {
    && t in s.pc && s.pc[t].Post? && s.pc[t].n > 0
    && s' == Goto(s, t, if s.pc[t].n == 1 then Idle else Post(s.pc[t].n - 1)).(permits := s.permits + 1)
  }

  /** One step inside an operation. */
  ghost predicate Exec(s: State, s': State, t: Tid) {
    || DoTryLoad(s, s', t) || DoTryCas(s, s', t) || DoSpinLoad(s, s', t) || DoSpinCas(s, s', t)
    || DoFetchSub(s, s', t) || DoSleep(s, s', t)
    || DoCancelLoad(s, s', t) || DoCancelTry(s, s', t) || DoCancelCas(s, s', t)
    || DoSignalAdd(s, s', t) || DoPost(s, s', t)
  }

  /** tryWaitMany, or waitMany with one of the three kinds of timeout. */
  ghost predicate StartWait(s: State, s': State, t: Tid, op: Op) {
    && t in s.pc && s.pc[t] == Idle && op.mode != Rest
    && s' == Goto(s, t, TryLoad(op)).(asked := s.asked[t := op.max])
  }

  ghost predicate StartSignal(s: State, s': State, t: Tid, n: nat) {
    t in s.pc && s.pc[t] == Idle && s' == Goto(s, t, SignalAdd(n))
  }

  /** The caller uses up one of the units it got, or has none left. */
  ghost predicate Use(s: State, s': State, t: Tid) {
    && t in s.pc && s.pc[t].Return?
    && s' == if s.pc[t].got == 0 then Goto(s, t, Idle)
             else Goto(s, t, Return(s.pc[t].got - 1)).(used := s.used + 1)
  }

  ghost predicate Init(s: State) {
    && s.count == s.initial && s.permits == s.signalled == s.acquired == s.used == 0
    && forall t :: t in s.pc ==> s.pc[t] == Idle
  }

  ghost predicate Next(s: State, s': State) {
    || (exists t :: Exec(s, s', t))
    || (exists t, op :: StartWait(s, s', t, op))
    || (exists t, n: nat :: StartSignal(s, s', t, n))
    || (exists t :: Use(s, s', t))
  }

  ghost predicate StepAt(run: seq<State>, i: nat)
    requires i + 1 < |run|
  {
    Next(run[i], run[i + 1])
  }

  ghost predicate IsRun(run: seq<State>) {
    && run != [] && Init(run[0])
    && forall i: nat {:trigger StepAt(run, i)} :: i + 1 < |run| ==> StepAt(run, i)
  }

  // --------------------------------------------------------------- invariant

  /** The thread is in the slow path: it has lowered the count and got no unit. */
  function Waiting(p: Pc): int {
    if p.Sleep? || p.CancelLoad? || p.CancelTry? || p.CancelCas? then 1 else 0
  }

  /** Permits that the thread is going to post. */
  function Posting(p: Pc): int {
    if p.Post? then p.n else 0
  }

  /** Units acquired and not used yet. */
  function Got(p: Pc): int {
    match p
    case Return(got) => got
    case TryLoad(op) => Bonus(op)
    case TryCas(op, _) => Bonus(op)
    case _ => 0
  }

  /** What a thread's program point promises about its locals. */
  predicate PcOk(p: Pc) {
    && (p.TryCas? || p.SpinCas? ==> p.seen > 0)
    && (p.CancelCas? ==> p.seen < 0)
    && (p.Post? ==> p.n > 0)
    && (p.SpinLoad? || p.SpinCas? || p.FetchSub? || p.Sleep? || p.CancelLoad? || p.CancelTry? || p.CancelCas? ==>
          p.op.mode != Rest && p.op.mode != JustTry && p.op.max > 0)
  }

  ghost predicate PcAt(s: State, t: Tid)
    requires t in s.pc
  {
    PcOk(s.pc[t])
  }

  function Below(count: int): int {
    if count < 0 then -count else 0
  }

  ghost predicate Balance(s: State) {
    && Total(s.pc, Waiting) == Below(s.count) + Total(s.pc, Posting) + s.permits
    && s.initial + s.signalled == s.acquired + s.count + Total(s.pc, Waiting)
    && s.acquired == s.used + Total(s.pc, Got)
  }

  ghost predicate Inv(s: State) {
    Balance(s) && forall t {:trigger PcAt(s, t)} :: t in s.pc ==> PcAt(s, t)
  }

  /** The change that a step of t from p to q makes to the counters, in one place. */
  ghost predicate Effect(s: State, s': State, t: Tid, p: Pc, q: Pc) {
    && t in s.pc && s.pc[t] == p && s'.pc == s.pc[t := q] && s'.initial == s.initial && PcOk(q)
    && Waiting(q) - Waiting(p) == Below(s'.count) - Below(s.count) + Posting(q) - Posting(p) + s'.permits - s.permits
    && s'.signalled - s.signalled == s'.acquired - s.acquired + s'.count - s.count + Waiting(q) - Waiting(p)
    && s'.acquired - s.acquired == s'.used - s.used + Got(q) - Got(p)
  }

  lemma EffectKeepsInv(s: State, s': State, t: Tid, p: Pc, q: Pc)
    requires Inv(s) && Effect(s, s', t, p, q)
    ensures Inv(s')
  {
    TotalUpdate(s.pc, t, q, Waiting);
    TotalUpdate(s.pc, t, q, Posting);
    TotalUpdate(s.pc, t, q, Got);
    forall u | u in s'.pc ensures PcAt(s', u) {
      assert u != t ==> PcAt(s, u);
    }
  }

  lemma TryHasEffect(s: State, s': State, t: Tid)
    requires DoTryLoad(s, s', t) || DoTryCas(s, s', t)
    ensures Effect(s, s', t, s.pc[t], s'.pc[t])
  {
  }

  lemma SpinHasEffect(s: State, s': State, t: Tid)
    requires t in s.pc && PcOk(s.pc[t])
    requires DoSpinLoad(s, s', t) || DoSpinCas(s, s', t) || DoFetchSub(s, s', t) || DoSleep(s, s', t)
    ensures Effect(s, s', t, s.pc[t], s'.pc[t])
  {
  }

  lemma CancelHasEffect(s: State, s': State, t: Tid)
    requires t in s.pc && PcOk(s.pc[t])
    requires DoCancelLoad(s, s', t) || DoCancelTry(s, s', t) || DoCancelCas(s, s', t)
    ensures Effect(s, s', t, s.pc[t], s'.pc[t])
  {
  }

  lemma SignalHasEffect(s: State, s': State, t: Tid)
    requires DoSignalAdd(s, s', t) || DoPost(s, s', t)
    ensures Effect(s, s', t, s.pc[t], s'.pc[t])
  {
  }

  lemma ExecHasEffect(s: State, s': State, t: Tid)
    requires t in s.pc && PcOk(s.pc[t]) && Exec(s, s', t)
    ensures t in s'.pc && Effect(s, s', t, s.pc[t], s'.pc[t]) && s'.used == s.used
  {
    if DoTryLoad(s, s', t) || DoTryCas(s, s', t) {
      TryHasEffect(s, s', t);
    } else if DoSpinLoad(s, s', t) || DoSpinCas(s, s', t) || DoFetchSub(s, s', t) || DoSleep(s, s', t) {
      SpinHasEffect(s, s', t);
    } else if DoCancelLoad(s, s', t) || DoCancelTry(s, s', t) || DoCancelCas(s, s', t) {
      CancelHasEffect(s, s', t);
    } else {
      SignalHasEffect(s, s', t);
    }
  }

  lemma ExecKeepsInv(s: State, s': State, t: Tid)
    requires Inv(s) && Exec(s, s', t)
    ensures Inv(s')
  {
    assert t in s.pc && PcAt(s, t);
    ExecHasEffect(s, s', t);
    EffectKeepsInv(s, s', t, s.pc[t], s'.pc[t]);
  }

  lemma InitGivesInv(s: State)
    requires Init(s)
    ensures Inv(s)
  {
    TotalZero(s.pc, Waiting);
    TotalZero(s.pc, Posting);
    TotalZero(s.pc, Got);
  }

  lemma NextKeepsInv(s: State, s': State)
    requires Inv(s) && Next(s, s')
    ensures Inv(s')
  {
    if t :| Exec(s, s', t) {
      ExecKeepsInv(s, s', t);
    } else if t, op :| StartWait(s, s', t, op) {
      EffectKeepsInv(s, s', t, Idle, TryLoad(op));
    } else if t, n: nat :| StartSignal(s, s', t, n) {
      EffectKeepsInv(s, s', t, Idle, SignalAdd(n));
    } else {
      var t :| Use(s, s', t);
      EffectKeepsInv(s, s', t, s.pc[t], s'.pc[t]);
    }
  }

  lemma {:induction false} RunKeepsInv(run: seq<State>, i: nat)
    requires IsRun(run) && i < |run|
    ensures Inv(run[i])
  {
    if i == 0 {
      InitGivesInv(run[0]);
    } else {
      RunKeepsInv(run, i - 1);
      assert StepAt(run, i - 1);
      NextKeepsInv(run[i - 1], run[i]);
    }
  }

  // ------------------------------------------------------------ main results

  /** Units neither acquired nor taken back. */
  function Units(s: State): int {
    s.initial + s.signalled - s.acquired
  }

  lemma UnitsAre(s: State)
    requires Inv(s)
    ensures Units(s) == (if s.count > 0 then s.count else 0) + Total(s.pc, Posting) + s.permits
    ensures Total(s.pc, Posting) >= 0 && Total(s.pc, Got) >= 0
  {
    forall t | t in s.pc ensures Posting(s.pc[t]) >= 0 && Got(s.pc[t]) >= 0 {
      assert PcAt(s, t);
    }
    TotalCovers(s.pc, Posting);
    TotalCovers(s.pc, Got);
  }

  /** Permits are never over-issued: what was acquired was there at first or was
      signalled, and what is left is in the count, posted, or being posted. */
  lemma NeverOverIssued(run: seq<State>, i: nat)
    requires IsRun(run) && i < |run|
    ensures run[i].acquired <= run[i].initial + run[i].signalled
    ensures var s := run[i];
      Units(s) == (if s.count > 0 then s.count else 0) + Total(s.pc, Posting) + s.permits
  {
    RunKeepsInv(run, i);
    UnitsAre(run[i]);
  }

  /** The books: slow-path waiters are those the negative count stands for and
      those for whom a permit is posted or about to be. */
  lemma WaitersAreCounted(run: seq<State>, i: nat)
    requires IsRun(run) && i < |run|
    ensures var s := run[i];
      && Total(s.pc, Waiting) == Below(s.count) + Total(s.pc, Posting) + s.permits
      && s.initial + s.signalled == s.acquired + s.count + Total(s.pc, Waiting)
  {
    RunKeepsInv(run, i);
  }

  /** A timed-out waiter that sees a count of zero or more has a permit coming: one
      is posted, or a signaller is about to post one. */
  lemma CancellerHasPermit(run: seq<State>, i: nat, t: Tid)
    requires IsRun(run) && i < |run| && t in run[i].pc && Waiting(run[i].pc[t]) == 1 && run[i].count >= 0
    ensures run[i].permits > 0 || exists u :: u in run[i].pc && run[i].pc[u].Post? && run[i].pc[u].n > 0
  {
    var s := run[i];
    RunKeepsInv(run, i);
    TotalCovers(s.pc, Waiting);
    if s.permits == 0 {
      TotalWitness(s.pc, Posting);
    }
  }

  /** No wake-up is lost: while a unit is left and a thread waits, a permit is
      posted or being posted, so some waiter can go on. */
  lemma NoLostWakeup(run: seq<State>, i: nat, t: Tid)
    requires IsRun(run) && i < |run| && t in run[i].pc && Waiting(run[i].pc[t]) == 1 && Units(run[i]) > 0
    ensures run[i].permits > 0 || exists u :: u in run[i].pc && run[i].pc[u].Post? && run[i].pc[u].n > 0
  {
    var s := run[i];
    RunKeepsInv(run, i);
    UnitsAre(s);
    if s.count >= 0 {
      CancellerHasPermit(run, i, t);
    } else if s.permits == 0 {
      TotalWitness(s.pc, Posting);
    }
  }

  // ------------------------------------------------------ what one call acquires

  /** A thread never holds more units than it asked for. */
  predicate Modest(p: Pc, asked: nat) {
    match p
    case TryLoad(op) => Bonus(op) + op.max <= asked
    case TryCas(op, _) => Bonus(op) + op.max <= asked
    case SpinLoad(op) => 1 <= op.max <= asked
    case SpinCas(op, _) => 1 <= op.max <= asked
    case FetchSub(op) => 1 <= op.max <= asked
    case Sleep(op) => 1 <= op.max <= asked
    case CancelLoad(op) => 1 <= op.max <= asked
    case CancelTry(op) => 1 <= op.max <= asked
    case CancelCas(op, _) => 1 <= op.max <= asked
    case Return(got) => got <= asked
    case _ => true
  }

  ghost predicate ModestAt(s: State, t: Tid)
    requires t in s.pc
  {
    s.pc[t] == Idle || s.pc[t].SignalAdd? || s.pc[t].Post? || (t in s.asked && Modest(s.pc[t], s.asked[t]))
  }

  ghost predicate AllModest(s: State) {
    forall t {:trigger ModestAt(s, t)} :: t in s.pc ==> ModestAt(s, t)
  }

  lemma ExecIsModest(s: State, s': State, t: Tid)
    requires t in s.pc && Exec(s, s', t) && ModestAt(s, t)
    ensures t in s'.pc && ModestAt(s', t) && s'.asked == s.asked && s'.pc == s.pc[t := s'.pc[t]]
  {
    if DoTryLoad(s, s', t) || DoTryCas(s, s', t) {
      TryIsModest(s, s', t);
    } else if DoSpinLoad(s, s', t) || DoSpinCas(s, s', t) || DoFetchSub(s, s', t) || DoSleep(s, s', t) {
      SpinIsModest(s, s', t);
    }
  }

  lemma TryIsModest(s: State, s': State, t: Tid)
    requires t in s.pc && (DoTryLoad(s, s', t) || DoTryCas(s, s', t)) && ModestAt(s, t)
    ensures t in s'.pc && ModestAt(s', t) && s'.asked == s.asked && s'.pc == s.pc[t := s'.pc[t]]
  {
  }

  lemma SpinIsModest(s: State, s': State, t: Tid)
    requires DoSpinLoad(s, s', t) || DoSpinCas(s, s', t) || DoFetchSub(s, s', t) || DoSleep(s, s', t)
    requires t in s.pc && ModestAt(s, t)
    ensures t in s'.pc && ModestAt(s', t) && s'.asked == s.asked && s'.pc == s.pc[t := s'.pc[t]]
  {
  }

  lemma OthersStayModest(s: State, s': State, t: Tid)
    requires AllModest(s) && t in s.pc && t in s'.pc && s'.pc == s.pc[t := s'.pc[t]] && ModestAt(s', t)
    requires forall u :: u != t && u in s.asked ==> u in s'.asked && s'.asked[u] == s.asked[u]
    ensures AllModest(s')
  {
    forall u | u in s'.pc ensures ModestAt(s', u) {
      assert u != t ==> ModestAt(s, u);
    }
  }

  lemma NextIsModest(s: State, s': State)
    requires AllModest(s) && Next(s, s')
    ensures AllModest(s')
  {
    if t :| t in s.pc && Exec(s, s', t) {
      assert ModestAt(s, t);
      ExecIsModest(s, s', t);
      OthersStayModest(s, s', t);
    } else if t, op :| StartWait(s, s', t, op) {
      OthersStayModest(s, s', t);
    } else if t, n: nat :| StartSignal(s, s', t, n) {
      OthersStayModest(s, s', t);
    } else {
      var t :| Use(s, s', t);
      assert ModestAt(s, t);
      OthersStayModest(s, s', t);
    }
  }

  /** A call returns at most as many units as it was asked for. */
  lemma {:induction false} NeverMoreThanAsked(run: seq<State>, i: nat)
    requires IsRun(run) && i < |run|
    ensures AllModest(run[i])
    ensures forall t :: t in run[i].pc && run[i].pc[t].Return? ==>
      t in run[i].asked && run[i].pc[t].got <= run[i].asked[t]
  {
    if i > 0 {
      NeverMoreThanAsked(run, i - 1);
      assert StepAt(run, i - 1);
      NextIsModest(run[i - 1], run[i]);
    }
    forall t | t in run[i].pc && run[i].pc[t].Return?
      ensures t in run[i].asked && run[i].pc[t].got <= run[i].asked[t]
    {
      assert ModestAt(run[i], t);
    }
  }

  /** The thread is inside a quick attempt. */
  predicate Trying(s: State, t: Tid, op: Op) {
    t in s.pc && (s.pc[t].TryLoad? || s.pc[t].TryCas?) && s.pc[t].op == op
  }

  predicate Returning(s: State, t: Tid) {
    t in s.pc && s.pc[t].Return?
  }

  /** From s to s' thread t takes what is there, up to what it asks for, and returns. */
  predicate TakesWhatIsThere(s: State, s': State, t: Tid, max: nat) {
    && Returning(s', t)
    && s'.pc[t].got == Min(if s.count > 0 then s.count else 0, max)
    && s'.count == s.count - s'.pc[t].got && s'.acquired == s.acquired + s'.pc[t].got
  }

  lemma TryingGoesOn(s: State, s': State, t: Tid, op: Op)
    requires Trying(s, t, op) && op.mode.JustTry? && Next(s, s')
    ensures Trying(s', t, op) || TakesWhatIsThere(s, s', t, op.max)
  {
    if u :| u != t && u in s.pc && Exec(s, s', u) {
      ExecMovesOne(s, s', u);
    } else if Exec(s, s', t) {
      TryGoesOn(s, s', t, op);
    }
  }

  lemma ExecMovesOne(s: State, s': State, u: Tid)
    requires u in s.pc && Exec(s, s', u)
    ensures u in s'.pc && s'.pc == s.pc[u := s'.pc[u]]
  {
  }

  lemma TryGoesOn(s: State, s': State, t: Tid, op: Op)
    requires Trying(s, t, op) && op.mode.JustTry? && Exec(s, s', t)
    ensures Trying(s', t, op) || TakesWhatIsThere(s, s', t, op.max)
  {
  }

  lemma RunGoesOn(run: seq<State>, i: nat, t: Tid, op: Op)
    requires IsRun(run) && i + 1 < |run| && Trying(run[i], t, op) && op.mode.JustTry?
    ensures Trying(run[i + 1], t, op) || TakesWhatIsThere(run[i], run[i + 1], t, op.max)
  {
    assert StepAt(run, i);
    TryingGoesOn(run[i], run[i + 1], t, op);
  }

  lemma {:induction false} TriesUntilReturn(run: seq<State>, first: nat, i: nat, t: Tid, op: Op)
    requires IsRun(run) && first < i < |run| && StartWait(run[first], run[first + 1], t, op) && op.mode.JustTry?
    requires forall j :: first < j <= i ==> !Returning(run[j], t)
    ensures Trying(run[i], t, op)
  {
    if i > first + 1 {
      TriesUntilReturn(run, first, i - 1, t, op);
      RunGoesOn(run, i - 1, t, op);
    }
  }

  /** A call of tryWaitMany, begun at `first` and returning at `last`, has got all that
      was there at the moment before, up to what it asked for: it returns nothing only
      if nothing was there, however often other threads made its CAS fail. */
  lemma QuickAttemptIsGreedy(run: seq<State>, first: nat, last: nat, t: Tid, op: Op)
    requires IsRun(run) && first < last < |run| && StartWait(run[first], run[first + 1], t, op) && op.mode.JustTry?
    requires Returning(run[last], t) && forall j :: first < j < last ==> !Returning(run[j], t)
    ensures var before := run[last - 1];
      && run[last].pc[t].got == Min(if before.count > 0 then before.count else 0, op.max)
      && run[last].count == before.count - run[last].pc[t].got
  {
    if last > first + 1 {
      TriesUntilReturn(run, first, last - 1, t, op);
      RunGoesOn(run, last - 1, t, op);
    }
  }

  // ---------------------------------------------------------------- waiting calls

  /** t is inside a call that may wait for up to op.max units. */
  predicate InWait(s: State, t: Tid, op: Op) {
    && t in s.pc
    && match s.pc[t]
       case TryLoad(o) => o == op || (op.max > 1 && o == Op(op.max - 1, Rest))
       case TryCas(o, _) => o == op || (op.max > 1 && o == Op(op.max - 1, Rest))
       case SpinLoad(o) => o == op
       case SpinCas(o, _) => o == op
       case FetchSub(o) => o == op
       case Sleep(o) => o == op
       case CancelLoad(o) => o == op
       case CancelTry(o) => o == op
       case CancelCas(o, _) => o == op
       case _ => false
  }

  /** From s to s' the call returns: with nothing only as a waiter that takes back its
      count, and with less than it asked for only if no unit is left. */
  predicate WaitReturns(s: State, s': State, t: Tid, max: nat) {
    && Returning(s', t) && t in s.pc
    && (s'.pc[t].got == 0 ==> Waiting(s.pc[t]) == 1 && s.count < 0 && s'.count == s.count + 1)
    && (0 < s'.pc[t].got < max ==> s'.count <= 0)
  }

  lemma TryWaits(s: State, s': State, t: Tid, op: Op)
    requires InWait(s, t, op) && op.max >= 1 && op.mode != JustTry && op.mode != Rest
    requires DoTryLoad(s, s', t) || DoTryCas(s, s', t)
    ensures InWait(s', t, op) || WaitReturns(s, s', t, op.max)
  {
  }

  lemma SpinWaits(s: State, s': State, t: Tid, op: Op)
    requires InWait(s, t, op) && op.max >= 1 && op.mode != JustTry && op.mode != Rest
    requires DoSpinLoad(s, s', t) || DoSpinCas(s, s', t) || DoFetchSub(s, s', t) || DoSleep(s, s', t)
    ensures InWait(s', t, op) || WaitReturns(s, s', t, op.max)
  {
  }

  lemma CancelWaits(s: State, s': State, t: Tid, op: Op)
    requires InWait(s, t, op) && op.max >= 1 && op.mode != JustTry && op.mode != Rest
    requires DoCancelLoad(s, s', t) || DoCancelTry(s, s', t) || DoCancelCas(s, s', t)
    ensures InWait(s', t, op) || WaitReturns(s, s', t, op.max)
  {
  }

  lemma ExecWaits(s: State, s': State, t: Tid, op: Op)
    requires InWait(s, t, op) && op.max >= 1 && op.mode != JustTry && op.mode != Rest && Exec(s, s', t)
    ensures InWait(s', t, op) || WaitReturns(s, s', t, op.max)
  {
    if DoTryLoad(s, s', t) || DoTryCas(s, s', t) {
      TryWaits(s, s', t, op);
    } else if DoSpinLoad(s, s', t) || DoSpinCas(s, s', t) || DoFetchSub(s, s', t) || DoSleep(s, s', t) {
      SpinWaits(s, s', t, op);
    } else if DoCancelLoad(s, s', t) || DoCancelTry(s, s', t) || DoCancelCas(s, s', t) {
      CancelWaits(s, s', t, op);
    }
  }

  /** A step moves one thread. */
  lemma NextMovesOne(s: State, s': State, t: Tid)
    requires t in s.pc && Next(s, s')
    ensures Exec(s, s', t) || (t in s'.pc && s'.pc[t] == s.pc[t]) || s.pc[t] == Idle || s.pc[t].Return?
  {
    if u :| u != t && u in s.pc && Exec(s, s', u) {
      ExecMovesOne(s, s', u);
    }
  }

  lemma WaitGoesOn(s: State, s': State, t: Tid, op: Op)
    requires InWait(s, t, op) && op.max >= 1 && op.mode != JustTry && op.mode != Rest && Next(s, s')
    ensures InWait(s', t, op) || WaitReturns(s, s', t, op.max)
  {
    NextMovesOne(s, s', t);
    if Exec(s, s', t) {
      ExecWaits(s, s', t, op);
    }
  }

  lemma RunWaits(run: seq<State>, i: nat, t: Tid, op: Op)
    requires IsRun(run) && i + 1 < |run| && InWait(run[i], t, op)
    requires op.max >= 1 && op.mode != JustTry && op.mode != Rest
    ensures InWait(run[i + 1], t, op) || WaitReturns(run[i], run[i + 1], t, op.max)
  {
    assert StepAt(run, i);
    WaitGoesOn(run[i], run[i + 1], t, op);
  }

  lemma {:induction false} WaitsUntilReturn(run: seq<State>, first: nat, i: nat, t: Tid, op: Op)
    requires IsRun(run) && first < i < |run| && StartWait(run[first], run[first + 1], t, op)
    requires op.max >= 1 && op.mode != JustTry
    requires forall j :: first < j <= i ==> !Returning(run[j], t)
    ensures InWait(run[i], t, op)
  {
    if i > first + 1 {
      WaitsUntilReturn(run, first, i - 1, t, op);
      RunWaits(run, i - 1, t, op);
    }
  }

  /** A call that may wait, begun at `first` and returning at `last`. With nothing it
      returns only as a waiter that gives up: it had lowered the count, was waiting, and
      has just taken that back while the count was still negative. With less than it
      asked for it returns only if that leaves no unit. */
  lemma WaitsForUnits(run: seq<State>, first: nat, last: nat, t: Tid, op: Op)
    requires IsRun(run) && first < last < |run| && StartWait(run[first], run[first + 1], t, op)
    requires op.max >= 1 && op.mode != JustTry
    requires Returning(run[last], t) && forall j :: first < j < last ==> !Returning(run[j], t)
    ensures t in run[last - 1].pc
    ensures run[last].pc[t].got == 0 ==>
      Waiting(run[last - 1].pc[t]) == 1 && run[last - 1].count < 0 && run[last].count == run[last - 1].count + 1
    ensures 0 < run[last].pc[t].got < op.max ==> run[last].count <= 0
  {
    if last > first + 1 {
      WaitsUntilReturn(run, first, last - 1, t, op);
      RunWaits(run, last - 1, t, op);
    }
  }

  predicate Cancels(p: Pc) {
    p.CancelLoad? || p.CancelTry? || p.CancelCas?
  }

  /** The system call that t sleeps in comes back without a permit. */
  predicate WakesWithout(s: State, s': State, t: Tid) {
    t in s.pc && s.pc[t].Sleep? && t in s'.pc && Cancels(s'.pc[t])
  }

  predicate WakesAt(run: seq<State>, i: nat, t: Tid)
    requires i + 1 < |run|
  {
    WakesWithout(run[i], run[i + 1], t)
  }

  lemma ExecForever(s: State, s': State, t: Tid, op: Op)
    requires InWait(s, t, op) && op.mode == WaitForever && !Cancels(s.pc[t]) && Exec(s, s', t)
    requires t in s'.pc && !WakesWithout(s, s', t)
    ensures !Cancels(s'.pc[t])
  {
    if DoTryLoad(s, s', t) || DoTryCas(s, s', t) {
    } else {
      SpinsForever(s, s', t, op);
    }
  }

  lemma SpinsForever(s: State, s': State, t: Tid, op: Op)
    requires InWait(s, t, op) && op.mode == WaitForever && t in s'.pc && !WakesWithout(s, s', t)
    requires DoSpinLoad(s, s', t) || DoSpinCas(s, s', t) || DoFetchSub(s, s', t) || DoSleep(s, s', t)
    ensures !Cancels(s'.pc[t])
  {
  }

  lemma ForeverGoesOn(run: seq<State>, i: nat, t: Tid, op: Op)
    requires IsRun(run) && i + 1 < |run| && InWait(run[i], t, op) && op.mode == WaitForever
    requires !Cancels(run[i].pc[t]) && t in run[i + 1].pc && !WakesAt(run, i, t)
    ensures !Cancels(run[i + 1].pc[t])
  {
    assert StepAt(run, i);
    NextMovesOne(run[i], run[i + 1], t);
    if Exec(run[i], run[i + 1], t) {
      ExecForever(run[i], run[i + 1], t, op);
    }
  }

  lemma {:induction false} ForeverDoesNotCancel(run: seq<State>, first: nat, i: nat, t: Tid, op: Op)
    requires IsRun(run) && first < i < |run| && StartWait(run[first], run[first + 1], t, op)
    requires op.max >= 1 && op.mode == WaitForever
    requires forall j :: first < j <= i ==> !Returning(run[j], t)
    requires forall j: nat {:trigger WakesAt(run, j, t)} :: first < j < i ==> !WakesAt(run, j, t)
    ensures InWait(run[i], t, op) && !Cancels(run[i].pc[t])
  {
    WaitsUntilReturn(run, first, i, t, op);
    if i > first + 1 {
      ForeverDoesNotCancel(run, first, i - 1, t, op);
      assert !WakesAt(run, i - 1, t);
      ForeverGoesOn(run, i - 1, t, op);
    }
  }

  /** A call without a timeout has at least one unit when it returns, unless the system's wait
      came back without a permit. */
  lemma WaitForeverGetsSome(run: seq<State>, first: nat, last: nat, t: Tid, op: Op)
    requires IsRun(run) && first < last < |run| && StartWait(run[first], run[first + 1], t, op)
    requires op.max >= 1 && op.mode == WaitForever
    requires Returning(run[last], t) && forall j :: first < j < last ==> !Returning(run[j], t)
    requires forall j: nat {:trigger WakesAt(run, j, t)} :: first < j < last ==> !WakesAt(run, j, t)
    ensures 1 <= run[last].pc[t].got <= op.max
  {
    if last > first + 1 {
      ForeverDoesNotCancel(run, first, last - 1, t, op);
      ReturnsFromWait(run, last - 1, t, op);
    }
  }

  lemma ReturnsFromWait(run: seq<State>, i: nat, t: Tid, op: Op)
    requires IsRun(run) && i + 1 < |run| && InWait(run[i], t, op) && !Cancels(run[i].pc[t])
    requires op.max >= 1 && op.mode == WaitForever && Returning(run[i + 1], t)
    ensures 1 <= run[i + 1].pc[t].got <= op.max
  {
    assert StepAt(run, i);
    NextMovesOne(run[i], run[i + 1], t);
    GetsSome(run[i], run[i + 1], t, op);
  }

  lemma GetsSome(s: State, s': State, t: Tid, op: Op)
    requires InWait(s, t, op) && !Cancels(s.pc[t]) && op.max >= 1 && op.mode == WaitForever
    requires Exec(s, s', t) && Returning(s', t)
    ensures 1 <= s'.pc[t].got <= op.max
  {
    if DoTryLoad(s, s', t) || DoTryCas(s, s', t) {
      TriesGetSome(s, s', t, op);
    } else {
      SpinsGetSome(s, s', t, op);
    }
  }

  lemma TriesGetSome(s: State, s': State, t: Tid, op: Op)
    requires InWait(s, t, op) && op.max >= 1 && op.mode == WaitForever && Returning(s', t)
    requires DoTryLoad(s, s', t) || DoTryCas(s, s', t)
    ensures 1 <= s'.pc[t].got <= op.max
  {
  }

  lemma SpinsGetSome(s: State, s': State, t: Tid, op: Op)
    requires InWait(s, t, op) && op.max >= 1 && op.mode == WaitForever && Returning(s', t)
    requires DoSpinLoad(s, s', t) || DoSpinCas(s, s', t) || DoFetchSub(s, s', t) || DoSleep(s, s', t)
    ensures 1 <= s'.pc[t].got <= op.max
  {
  }

  // ------------------------------------------------------- calls can go on

  /** n steps of t lead from s to s'. */
  ghost predicate ExecTo(s: State, s': State, t: Tid, n: nat)
    decreases n
  {
    if n == 0 then s' == s else exists m :: Exec(s, m, t) && ExecTo(m, s', t, n - 1)
  }

  lemma TryIsExec(s: State, s': State, t: Tid)
    requires DoTryLoad(s, s', t) || DoTryCas(s, s', t)
    ensures Exec(s, s', t)
  {
  }

  lemma SpinIsExec(s: State, s': State, t: Tid)
    requires DoSpinLoad(s, s', t) || DoSpinCas(s, s', t) || DoFetchSub(s, s', t) || DoSleep(s, s', t)
    ensures Exec(s, s', t)
  {
  }

  lemma CancelIsExec(s: State, s': State, t: Tid)
    requires DoCancelLoad(s, s', t) || DoCancelTry(s, s', t) || DoCancelCas(s, s', t)
    ensures Exec(s, s', t)
  {
  }

  lemma TwoSteps(s: State, m: State, s': State, t: Tid)
    requires Exec(s, m, t) && Exec(m, s', t)
    ensures ExecTo(s, s', t, 2)
  {
    assert ExecTo(s', s', t, 0);
    assert ExecTo(m, s', t, 1);
  }

  lemma ThreeSteps(s: State, m1: State, m2: State, s': State, t: Tid)
    requires Exec(s, m1, t) && Exec(m1, m2, t) && Exec(m2, s', t)
    ensures ExecTo(s, s', t, 3)
  {
    TwoSteps(m1, m2, s', t);
  }

  /** A call that nobody disturbs while units are there gets them in two steps, up to what
      it asks for. */
  lemma UnitsCanBeHad(s: State, t: Tid)
    requires t in s.pc && s.pc[t].TryLoad? && s.count > 0 && s.pc[t].op.max >= 1
    ensures var got := Min(s.count, s.pc[t].op.max);
      exists s' ::
        && ExecTo(s, s', t, 2) && t in s'.pc && s'.pc[t] == Return(Bonus(s.pc[t].op) + got)
        && s'.count == s.count - got && s'.acquired == s.acquired + got
  {
    var m, s' := LoadThenCas(s, t);
    TryIsExec(s, m, t);
    TryIsExec(m, s', t);
    TwoSteps(s, m, s', t);
  }

  lemma LoadThenCas(s: State, t: Tid) returns (m: State, s': State)
    requires t in s.pc && s.pc[t].TryLoad? && s.count > 0 && s.pc[t].op.max >= 1
    ensures DoTryLoad(s, m, t) && DoTryCas(m, s', t)
    ensures var got := Min(s.count, s.pc[t].op.max);
      && t in s'.pc && s'.pc[t] == Return(Bonus(s.pc[t].op) + got)
      && s'.count == s.count - got && s'.acquired == s.acquired + got
  {
    var op, got := s.pc[t].op, Min(s.count, s.pc[t].op.max);
    m := Goto(s, t, TryCas(op, s.count));
    s' := Goto(m, t, Return(Bonus(op) + got)).(count := s.count - got, acquired := s.acquired + got);
    assert CountAfter(s.count, op.max) == s.count - got;
  }

  /** So can a waiting call while it spins. */
  lemma SpinnersCanTake(s: State, t: Tid)
    requires t in s.pc && s.pc[t].SpinLoad? && s.count > 0 && s.pc[t].op.max >= 1
    ensures var got := Min(s.count, s.pc[t].op.max);
      exists s' ::
        && ExecTo(s, s', t, 2) && t in s'.pc && s'.pc[t] == Return(got)
        && s'.count == s.count - got && s'.acquired == s.acquired + got
  {
    var m, s' := SpinThenCas(s, t);
    SpinIsExec(s, m, t);
    SpinIsExec(m, s', t);
    TwoSteps(s, m, s', t);
  }

  lemma SpinThenCas(s: State, t: Tid) returns (m: State, s': State)
    requires t in s.pc && s.pc[t].SpinLoad? && s.count > 0 && s.pc[t].op.max >= 1
    ensures DoSpinLoad(s, m, t) && DoSpinCas(m, s', t)
    ensures var got := Min(s.count, s.pc[t].op.max);
      t in s'.pc && s'.pc[t] == Return(got) && s'.count == s.count - got && s'.acquired == s.acquired + got
  {
    var op, got := s.pc[t].op, Min(s.count, s.pc[t].op.max);
    m := Goto(s, t, SpinCas(op, s.count));
    s' := Goto(m, t, Return(got)).(count := s.count - got, acquired := s.acquired + got);
    assert CountAfter(s.count, op.max) == s.count - got;
  }

  /** With no unit there, a call that may wait can come to sleep in three steps, counted. */
  lemma WaitersCanSleep(s: State, t: Tid)
    requires t in s.pc && s.pc[t].TryLoad? && s.count <= 0 && s.pc[t].op.max >= 1
    requires s.pc[t].op.mode == WaitForever || s.pc[t].op.mode == WaitTimed
    ensures exists s' ::
      ExecTo(s, s', t, 3) && t in s'.pc && s'.pc[t] == Sleep(s.pc[t].op) && s'.count == s.count - 1
  {
    var m1, m2, s' := SleepSteps(s, t);
    TryIsExec(s, m1, t);
    SpinIsExec(m1, m2, t);
    SpinIsExec(m2, s', t);
    ThreeSteps(s, m1, m2, s', t);
  }

  lemma SleepSteps(s: State, t: Tid) returns (m1: State, m2: State, s': State)
    requires t in s.pc && s.pc[t].TryLoad? && s.count <= 0 && s.pc[t].op.max >= 1
    requires s.pc[t].op.mode == WaitForever || s.pc[t].op.mode == WaitTimed
    ensures DoTryLoad(s, m1, t) && DoSpinLoad(m1, m2, t) && DoFetchSub(m2, s', t)
    ensures t in s'.pc && s'.pc[t] == Sleep(s.pc[t].op) && s'.count == s.count - 1
  {
    m1 := Goto(s, t, SpinLoad(s.pc[t].op));
    m2 := Goto(m1, t, FetchSub(s.pc[t].op));
    s' := Goto(m2, t, Sleep(s.pc[t].op)).(count := s.count - 1);
  }

  /** A posted permit wakes a sleeper, and lets one that is giving up have its unit. */
  lemma PermitWakesWaiter(s: State, t: Tid)
    requires t in s.pc && (s.pc[t].Sleep? || s.pc[t].CancelTry?) && s.permits > 0
    ensures exists s' ::
      && Exec(s, s', t) && t in s'.pc && s'.permits == s.permits - 1 && s'.acquired == s.acquired + 1
      && s'.pc[t] == if s.pc[t].op.max > 1 then TryLoad(Op(s.pc[t].op.max - 1, Rest)) else Return(1)
  {
    var op := s.pc[t].op;
    var s' := Goto(s, t, SlowSuccess(op)).(permits := s.permits - 1, acquired := s.acquired + 1);
    if s.pc[t].Sleep? {
      SpinIsExec(s, s', t);
    } else {
      CancelIsExec(s, s', t);
    }
  }

  /** While the count is negative a sleeper can give up in three steps, and takes its count
      back. */
  lemma SleepersCanGiveUp(s: State, t: Tid)
    requires t in s.pc && s.pc[t].Sleep? && s.count < 0
    ensures exists s' ::
      ExecTo(s, s', t, 3) && t in s'.pc && s'.pc[t] == Return(0) && s'.count == s.count + 1 && s'.permits == s.permits
  {
    var m1, m2, s' := CancelSteps(s, t);
    SpinIsExec(s, m1, t);
    CancelIsExec(m1, m2, t);
    CancelIsExec(m2, s', t);
    ThreeSteps(s, m1, m2, s', t);
  }

  lemma CancelSteps(s: State, t: Tid) returns (m1: State, m2: State, s': State)
    requires t in s.pc && s.pc[t].Sleep? && s.count < 0
    ensures DoSleep(s, m1, t) && DoCancelLoad(m1, m2, t) && DoCancelCas(m2, s', t)
    ensures t in s'.pc && s'.pc[t] == Return(0) && s'.count == s.count + 1 && s'.permits == s.permits
  {
    m1 := Goto(s, t, CancelLoad(s.pc[t].op));
    m2 := Goto(m1, t, CancelCas(s.pc[t].op, s.count));
    s' := Goto(m2, t, Return(0)).(count := s.count + 1);
  }

  /** A signaller that has permits to post can post them all. */
  lemma {:induction false} PostsCanBeMade(s: State, t: Tid)
    requires t in s.pc && s.pc[t].Post? && s.pc[t].n > 0
    ensures exists s' ::
      ExecTo(s, s', t, s.pc[t].n) && t in s'.pc && s'.pc[t] == Idle && s'.permits == s.permits + s.pc[t].n
    decreases s.pc[t].n
  {
    var n := s.pc[t].n;
    var m := Goto(s, t, if n == 1 then Idle else Post(n - 1)).(permits := s.permits + 1);
    SignalIsExec(s, m, t);
    if n == 1 {
      assert ExecTo(m, m, t, 0) && ExecTo(s, m, t, 1);
    } else {
      PostsCanBeMade(m, t);
      var s' :| ExecTo(m, s', t, n - 1) && t in s'.pc && s'.pc[t] == Idle && s'.permits == m.permits + n - 1;
      assert ExecTo(s, s', t, n);
    }
  }

  lemma SignalIsExec(s: State, s': State, t: Tid)
    requires DoSignalAdd(s, s', t) || DoPost(s, s', t)
    ensures Exec(s, s', t)
  {
  }

  /** A thread inside an operation can always take its next step. */
  lemma NeverStuck(run: seq<State>, i: nat, t: Tid)
    requires IsRun(run) && i < |run| && t in run[i].pc && !run[i].pc[t].Idle? && !run[i].pc[t].Return?
    ensures exists s' :: Exec(run[i], s', t) && t in s'.pc
  {
    RunKeepsInv(run, i);
    assert PcAt(run[i], t);
    CanStep(run[i], t);
  }

  lemma CanStep(s: State, t: Tid)
    requires t in s.pc && PcOk(s.pc[t]) && !s.pc[t].Idle? && !s.pc[t].Return?
    ensures exists s' :: Exec(s, s', t) && t in s'.pc
  {
    var p := s.pc[t];
    if p.TryLoad? || p.TryCas? {
      var s' := Goto(s, t, AfterTry(p.op, s.count));
      TryIsExec(s, s', t);
    } else if p.SpinLoad? || p.SpinCas? || p.FetchSub? || p.Sleep? {
      var s' := Spun(s, t);
      SpinIsExec(s, s', t);
    } else if p.CancelLoad? || p.CancelTry? || p.CancelCas? {
      var s' := Cancelled(s, t);
      CancelIsExec(s, s', t);
    } else {
      var s' := Signalled(s, t);
      SignalIsExec(s, s', t);
    }
  }

  lemma Spun(s: State, t: Tid) returns (s': State)
    requires t in s.pc && PcOk(s.pc[t])
    requires s.pc[t].SpinLoad? || s.pc[t].SpinCas? || s.pc[t].FetchSub? || s.pc[t].Sleep?
    ensures t in s'.pc && (DoSpinLoad(s, s', t) || DoSpinCas(s, s', t) || DoFetchSub(s, s', t) || DoSleep(s, s', t))
  {
    var p := s.pc[t];
    if p.SpinLoad? {
      s' := Goto(s, t, FetchSub(p.op));
    } else if p.Sleep? {
      s' := Goto(s, t, CancelLoad(p.op));
    } else if p.SpinCas? {
      var got := p.seen - CountAfter(p.seen, p.op.max);
      s' := if s.count == p.seen then
              Goto(s, t, Return(got)).(count := CountAfter(p.seen, p.op.max), acquired := s.acquired + got)
            else Goto(s, t, SpinLoad(p.op));
    } else {
      s' := if s.count > 0 then Goto(s, t, SlowSuccess(p.op)).(count := s.count - 1, acquired := s.acquired + 1)
            else Goto(s, t, if p.op.mode == WaitZero then CancelLoad(p.op) else Sleep(p.op)).(count := s.count - 1);
    }
  }

  lemma Cancelled(s: State, t: Tid) returns (s': State)
    requires t in s.pc && PcOk(s.pc[t]) && (s.pc[t].CancelLoad? || s.pc[t].CancelTry? || s.pc[t].CancelCas?)
    ensures t in s'.pc && (DoCancelLoad(s, s', t) || DoCancelTry(s, s', t) || DoCancelCas(s, s', t))
  {
    var p := s.pc[t];
    if p.CancelLoad? {
      s' := Goto(s, t, if s.count >= 0 then CancelTry(p.op) else CancelCas(p.op, s.count));
    } else if p.CancelTry? {
      s' := if s.permits > 0 then Goto(s, t, SlowSuccess(p.op)).(permits := s.permits - 1, acquired := s.acquired + 1)
            else Goto(s, t, CancelLoad(p.op));
    } else {
      s' := if s.count == p.seen then Goto(s, t, Return(0)).(count := s.count + 1) else Goto(s, t, CancelLoad(p.op));
    }
  }

  lemma Signalled(s: State, t: Tid) returns (s': State)
    requires t in s.pc && PcOk(s.pc[t]) && (s.pc[t].SignalAdd? || s.pc[t].Post?)
    ensures t in s'.pc && (DoSignalAdd(s, s', t) || DoPost(s, s', t))
  {
    var n := s.pc[t].n;
    if s.pc[t].Post? {
      s' := Goto(s, t, if n == 1 then Idle else Post(n - 1)).(permits := s.permits + 1);
    } else {
      var toRelease := if -s.count < n then -s.count else n as int;
      s' := Goto(s, t, if toRelease > 0 then Post(toRelease) else Idle).(
              count := s.count + n, signalled := s.signalled + n);
    }
  }

  /** With no operation under way the count is exactly what is left. */
  lemma QuietCountIsExact(run: seq<State>, i: nat)
    requires IsRun(run) && i < |run|
    requires forall t :: t in run[i].pc ==> run[i].pc[t].Idle? || run[i].pc[t].Return?
    ensures run[i].count == Units(run[i]) >= 0 && run[i].permits == 0
  {
    var s := run[i];
    RunKeepsInv(run, i);
    TotalZero(s.pc, Waiting);
    TotalZero(s.pc, Posting);
  }
}
