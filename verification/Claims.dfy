/** How consumers of one implicit producer claim indices.

    A consumer first bumps the optimistic count, then looks at the tail again,
    and either takes an index from the head or books its bump as overcommitted.
    Its copy of the overcommit counter may be arbitrarily old. Each load, store
    and fetch_add is one step. `dequeue` is the case max == 1 of `dequeue_bulk`.

    Counters are unbounded here; module CircularOrder says when the wrapped
    comparisons of the code agree with them. */
module Claims {
  import opened Totals
  import opened CircularOrder
  import opened Modular
  import opened Ranges

  type Tid = nat

  datatype Pc =
    | Idle
    | LoadOvercommit(max: nat, tail: nat)
    | LoadOptimistic(max: nat, tail: nat, overcommit: nat)
    | AddOptimistic(desired: nat, overcommit: nat)
    | Recheck(first: nat, desired: nat, overcommit: nat)
    | GiveBack(first: nat, count: nat, actual: nat)
    | Take(actual: nat)

  /** The four shared counters, the consumers, and three history variables: the
      tickets (units of the optimistic count) that were approved and rejected,
      and for each index below the head the thread that claimed it. */
  datatype State = State(
    tail: nat,
    head: nat,
    optimistic: nat,
    overcommit: nat,
    pc: map<Tid, Pc>,
    approved: set<nat>,
    rejected: set<nat>,
    claimed: seq<Tid>)

  // ---------------------------------------------------------------- steps

  ghost function Goto(s: State, t: Tid, p: Pc): State {
    s.(pc := s.pc[t := p])
  }

  ghost function ExecLoadOptimistic(s: State, t: Tid, max: nat, tail: nat, overcommit: nat): State {
    var desired := tail - (s.optimistic - overcommit);
    if 0 < desired then Goto(s, t, AddOptimistic(Min(desired, max), overcommit))
    else Goto(s, t, Idle)
  }

  ghost function ExecAddOptimistic(s: State, t: Tid, desired: nat, overcommit: nat): State {
    Goto(s, t, Recheck(s.optimistic, desired, overcommit)).(optimistic := s.optimistic + desired)
  }

  /** The second look at the tail decides how many of the tickets are good. */
  function Granted(tail: nat, first: nat, desired: nat, overcommit: nat): nat {
    var actual := tail - (first - overcommit);
    if 0 < actual then Min(desired, actual) else 0
  }

  ghost function ExecRecheck(s: State, t: Tid, first: nat, desired: nat, overcommit: nat): State {
    var actual := Granted(s.tail, first, desired, overcommit);
    var p := if actual < desired then GiveBack(first + actual, desired - actual, actual) else Take(actual);
    Goto(s, t, p).(approved := s.approved + Range(first, actual))
  }

  ghost function ExecGiveBack(s: State, t: Tid, first: nat, count: nat, actual: nat): State {
    Goto(s, t, if actual > 0 then Take(actual) else Idle).(
      overcommit := s.overcommit + count,
      rejected := s.rejected + Range(first, count))
  }

  ghost function ExecTake(s: State, t: Tid, actual: nat): State {
    Goto(s, t, Idle).(head := s.head + actual, claimed := s.claimed + seq(actual, _ => t))
  }

  /** One step of consumer t inside `dequeue` or `dequeue_bulk`. */
  ghost function Exec(s: State, t: Tid): State
    requires t in s.pc
  {
    match s.pc[t]
    case Idle => s
    case LoadOvercommit(max, tail) => Goto(s, t, LoadOptimistic(max, tail, s.overcommit))
    case LoadOptimistic(max, tail, overcommit) => ExecLoadOptimistic(s, t, max, tail, overcommit)
    case AddOptimistic(desired, overcommit) => ExecAddOptimistic(s, t, desired, overcommit)
    case Recheck(first, desired, overcommit) => ExecRecheck(s, t, first, desired, overcommit)
    case GiveBack(first, count, actual) => ExecGiveBack(s, t, first, count, actual)
    case Take(actual) => ExecTake(s, t, actual)
  }

  /** A consumer starts, asking for at most max elements, and loads the tail. */
  ghost predicate Start(s: State, s': State, t: Tid, max: nat) {
    t in s.pc && s.pc[t] == Idle && s' == Goto(s, t, LoadOvercommit(max, s.tail))
  }

  /** The producer publishes a larger tail. */
  ghost predicate Publish(s: State, s': State, tail: nat) {
    s.tail <= tail && s' == s.(tail := tail)
  }

  ghost predicate Init(s: State) {
    && s.tail == s.head == s.optimistic == s.overcommit == 0
    && s.approved == {} && s.rejected == {} && s.claimed == []
    && forall t :: t in s.pc ==> s.pc[t] == Idle
  }

  ghost predicate Next(s: State, s': State) {
    || (exists t :: t in s.pc && s' == Exec(s, t))
    || (exists t, max: nat :: Start(s, s', t, max))
    || (exists tail: nat :: Publish(s, s', tail))
  }

  ghost predicate StepAt(run: seq<State>, i: nat)
    requires i + 1 < |run|
  {
    Next(run[i], run[i + 1])
  }

  ghost predicate IsRun(run: seq<State>) {
    && run != [] && Init(run[0])
    && forall i: nat {:trigger StepAt(run, i)} :: i + 1 < |run| ==> StepAt(run, i)
  }

  // ------------------------------------------------------------ invariant

  /** Tickets that t has drawn and that are neither approved nor rejected yet. */
  function Pending(p: Pc): set<nat> {
    match p
    case Recheck(first, desired, _) => Range(first, desired)
    case GiveBack(first, count, _) => Range(first, count)
    case _ => {}
  }

  function PendingCount(p: Pc): int {
    match p
    case Recheck(_, desired, _) => desired
    case GiveBack(_, count, _) => count
    case _ => 0
  }

  /** Indices that t is entitled to but has not taken from the head yet. */
  function Untaken(p: Pc): int {
    match p
    case GiveBack(_, _, actual) => actual
    case Take(actual) => actual
    case _ => 0
  }

  /** Claims that are still undecided or untaken. */
  function Undecided(p: Pc): int {
    PendingCount(p) + Untaken(p)
  }

  ghost function RejectedBelow(rejected: set<nat>, x: nat): set<nat> {
    set r | r in rejected && r < x
  }

  /** A stale copy of the overcommit counter is still covered by rejected
      tickets that are older than the thread's own. */
  ghost predicate CopyCovered(s: State, t: Tid)
    requires t in s.pc
  {
    match s.pc[t]
    case LoadOptimistic(_, _, overcommit) => overcommit <= s.overcommit
    case AddOptimistic(_, overcommit) => overcommit <= s.overcommit
    case Recheck(first, _, overcommit) => overcommit <= |RejectedBelow(s.rejected, first)|
    case _ => true
  }

  ghost predicate PendingFresh(s: State, t: Tid)
    requires t in s.pc
  {
    && Pending(s.pc[t]) !! s.approved
    && Pending(s.pc[t]) !! s.rejected
    && forall x :: x in Pending(s.pc[t]) ==> x < s.optimistic
  }

  ghost predicate Apart(s: State, t: Tid, u: Tid)
    requires t in s.pc && u in s.pc
  {
    t != u ==> Pending(s.pc[t]) !! Pending(s.pc[u])
  }

  /** An approved ticket, discounted by the older rejected ones, lies below the tail. */
  ghost predicate WithinTail(s: State, x: nat) {
    x - |RejectedBelow(s.rejected, x)| < s.tail
  }

  ghost predicate Tickets(s: State) {
    && s.approved !! s.rejected
    && (forall x :: x in s.approved || x in s.rejected ==> x < s.optimistic)
    && (forall t {:trigger PendingFresh(s, t)} :: t in s.pc ==> PendingFresh(s, t))
    && (forall t, u {:trigger Apart(s, t, u)} :: t in s.pc && u in s.pc ==> Apart(s, t, u))
  }

  ghost predicate Bounds(s: State) {
    && (forall t {:trigger CopyCovered(s, t)} :: t in s.pc ==> CopyCovered(s, t))
    && (forall x {:trigger WithinTail(s, x)} :: x in s.approved ==> WithinTail(s, x))
  }

  ghost predicate Counts(s: State) {
    && |s.rejected| == s.overcommit
    && |s.approved| == s.head + Total(s.pc, Untaken)
    && s.optimistic == |s.approved| + |s.rejected| + Total(s.pc, PendingCount)
    && |s.claimed| == s.head
  }

  ghost predicate Inv(s: State) {
    Tickets(s) && Bounds(s) && Counts(s)
  }

  // -------------------------------------------------------- set arithmetic

  lemma {:induction false} Largest(xs: set<nat>) returns (m: nat)
    requires xs != {}
    ensures m in xs && forall x :: x in xs ==> x <= m
    decreases |xs|
  {
    m :| m in xs;
    if xs != {m} {
      var rest := xs - {m};
      var k := Largest(rest);
      assert xs == rest + {m};
      if k > m { m := k; }
    }
  }

  /** The heart of the argument: however old the copies of the overcommit
      counter were, no more tickets are approved than elements were published. */
  lemma ApprovedWithinTail(s: State)
    requires Tickets(s) && Bounds(s)
    ensures |s.approved| <= s.tail
  {
    if s.approved != {} {
      var m := Largest(s.approved);
      var older := RejectedBelow(s.rejected, m);
      assert WithinTail(s, m);
      assert s.approved + older <= Range(0, m + 1);
      SubsetSize(s.approved + older, Range(0, m + 1));
      assert |s.approved + older| == |s.approved| + |older|;
    }
  }

  lemma MoreRejected(a: set<nat>, b: set<nat>, x: nat)
    requires a <= b
    ensures |RejectedBelow(a, x)| <= |RejectedBelow(b, x)|
  {
    SubsetSize(RejectedBelow(a, x), RejectedBelow(b, x));
  }

  lemma MoreBelow(a: set<nat>, x: nat, y: nat)
    requires x <= y
    ensures |RejectedBelow(a, x)| <= |RejectedBelow(a, y)|
  {
    SubsetSize(RejectedBelow(a, x), RejectedBelow(a, y));
  }

  lemma CountsMove(s: State, t: Tid, p: Pc)
    requires t in s.pc
    ensures Total(s.pc[t := p], Untaken) == Total(s.pc, Untaken) - Untaken(s.pc[t]) + Untaken(p)
    ensures Total(s.pc[t := p], PendingCount) == Total(s.pc, PendingCount) - PendingCount(s.pc[t]) + PendingCount(p)
  {
    TotalUpdate(s.pc, t, p, Untaken);
    TotalUpdate(s.pc, t, p, PendingCount);
  }

  // -------------------------------------------------- one lemma per step

  /** Moves that draw, decide and take nothing. */
  lemma KeepsGoto(s: State, t: Tid, p: Pc)
    requires Inv(s) && t in s.pc
    requires Pending(s.pc[t]) == Pending(p) == {} && Undecided(s.pc[t]) == Undecided(p) == 0
    requires PendingCount(s.pc[t]) == PendingCount(p)
    requires CopyCovered(Goto(s, t, p), t)
    ensures Inv(Goto(s, t, p))
  {
    var s' := Goto(s, t, p);
    CountsMove(s, t, p);
    forall u | u in s'.pc ensures PendingFresh(s', u) && CopyCovered(s', u) {
      assert PendingFresh(s, u) && CopyCovered(s, u);
    }
    forall u, v | u in s'.pc && v in s'.pc ensures Apart(s', u, v) {
      assert Apart(s, u, v);
    }
    forall x | x in s'.approved ensures WithinTail(s', x) {
      assert WithinTail(s, x);
    }
  }

  lemma KeepsLoadOptimistic(s: State, t: Tid, max: nat, tail: nat, overcommit: nat)
    requires Inv(s) && t in s.pc && s.pc[t] == LoadOptimistic(max, tail, overcommit)
    ensures Inv(ExecLoadOptimistic(s, t, max, tail, overcommit))
  {
    assert CopyCovered(s, t);
    var desired := tail - (s.optimistic - overcommit);
    if 0 < desired {
      KeepsGoto(s, t, AddOptimistic(Min(desired, max), overcommit));
    } else {
      KeepsGoto(s, t, Idle);
    }
  }

  lemma KeepsAddOptimistic(s: State, t: Tid, desired: nat, overcommit: nat)
    requires Inv(s) && t in s.pc && s.pc[t] == AddOptimistic(desired, overcommit)
    ensures Inv(ExecAddOptimistic(s, t, desired, overcommit))
  {
    var s' := ExecAddOptimistic(s, t, desired, overcommit);
    CountsMove(s, t, s'.pc[t]);
    assert CopyCovered(s, t);
    assert RejectedBelow(s.rejected, s.optimistic) == s.rejected;
    forall u | u in s'.pc ensures PendingFresh(s', u) && CopyCovered(s', u) {
      assert PendingFresh(s, u) && CopyCovered(s, u);
    }
    forall u, v | u in s'.pc && v in s'.pc ensures Apart(s', u, v) {
      assert Apart(s, u, v) && PendingFresh(s, u) && PendingFresh(s, v);
    }
    forall x | x in s'.approved ensures WithinTail(s', x) {
      assert WithinTail(s, x);
    }
  }

  /** The granted tickets come out of t's own pending ones. */
  lemma GrantSplitsPending(s: State, t: Tid, first: nat, desired: nat, overcommit: nat)
    requires t in s.pc && s.pc[t] == Recheck(first, desired, overcommit)
    ensures var s' := ExecRecheck(s, t, first, desired, overcommit);
      var good := Range(first, Granted(s.tail, first, desired, overcommit));
      && good <= Pending(s.pc[t])
      && Pending(s'.pc[t]) == Pending(s.pc[t]) - good
      && PendingCount(s'.pc[t]) + |good| == PendingCount(s.pc[t])
      && Untaken(s'.pc[t]) == |good|
  {
  }

  lemma RecheckKeepsTickets(s: State, t: Tid, first: nat, desired: nat, overcommit: nat)
    requires Tickets(s) && t in s.pc && s.pc[t] == Recheck(first, desired, overcommit)
    ensures Tickets(ExecRecheck(s, t, first, desired, overcommit))
  {
    var s' := ExecRecheck(s, t, first, desired, overcommit);
    GrantSplitsPending(s, t, first, desired, overcommit);
    assert PendingFresh(s, t);
    forall u | u in s'.pc ensures PendingFresh(s', u) {
      assert PendingFresh(s, u) && Apart(s, t, u);
    }
    forall u, v | u in s'.pc && v in s'.pc ensures Apart(s', u, v) {
      assert Apart(s, u, v);
    }
  }

  lemma RecheckKeepsBounds(s: State, t: Tid, first: nat, desired: nat, overcommit: nat)
    requires Bounds(s) && t in s.pc && s.pc[t] == Recheck(first, desired, overcommit)
    ensures Bounds(ExecRecheck(s, t, first, desired, overcommit))
  {
    var s' := ExecRecheck(s, t, first, desired, overcommit);
    assert CopyCovered(s, t);
    forall u | u in s'.pc ensures CopyCovered(s', u) {
      assert CopyCovered(s, u);
    }
    forall x | x in s'.approved ensures WithinTail(s', x) {
      if x in s.approved {
        assert WithinTail(s, x);
      } else {
        MoreBelow(s.rejected, first, x);
      }
    }
  }

  lemma KeepsRecheck(s: State, t: Tid, first: nat, desired: nat, overcommit: nat)
    requires Inv(s) && t in s.pc && s.pc[t] == Recheck(first, desired, overcommit)
    ensures Inv(ExecRecheck(s, t, first, desired, overcommit))
  {
    var s' := ExecRecheck(s, t, first, desired, overcommit);
    CountsMove(s, t, s'.pc[t]);
    GrantSplitsPending(s, t, first, desired, overcommit);
    RecheckKeepsTickets(s, t, first, desired, overcommit);
    RecheckKeepsBounds(s, t, first, desired, overcommit);
    assert PendingFresh(s, t);
  }

  lemma GiveBackKeepsTickets(s: State, t: Tid, first: nat, count: nat, actual: nat)
    requires Tickets(s) && t in s.pc && s.pc[t] == GiveBack(first, count, actual)
    ensures Tickets(ExecGiveBack(s, t, first, count, actual))
  {
    var s' := ExecGiveBack(s, t, first, count, actual);
    assert PendingFresh(s, t);
    forall u | u in s'.pc ensures PendingFresh(s', u) {
      assert PendingFresh(s, u) && Apart(s, t, u);
    }
    forall u, v | u in s'.pc && v in s'.pc ensures Apart(s', u, v) {
      assert Apart(s, u, v);
    }
  }

  lemma GiveBackKeepsBounds(s: State, t: Tid, first: nat, count: nat, actual: nat)
    requires Bounds(s) && t in s.pc && s.pc[t] == GiveBack(first, count, actual)
    ensures Bounds(ExecGiveBack(s, t, first, count, actual))
  {
    var s' := ExecGiveBack(s, t, first, count, actual);
    forall u | u in s'.pc ensures CopyCovered(s', u) {
      assert CopyCovered(s, u);
      if s.pc[u].Recheck? {
        MoreRejected(s.rejected, s'.rejected, s.pc[u].first);
      }
    }
    forall x | x in s'.approved ensures WithinTail(s', x) {
      assert WithinTail(s, x);
      MoreRejected(s.rejected, s'.rejected, x);
    }
  }

  lemma KeepsGiveBack(s: State, t: Tid, first: nat, count: nat, actual: nat)
    requires Inv(s) && t in s.pc && s.pc[t] == GiveBack(first, count, actual)
    ensures Inv(ExecGiveBack(s, t, first, count, actual))
  {
    var s' := ExecGiveBack(s, t, first, count, actual);
    CountsMove(s, t, s'.pc[t]);
    assert PendingFresh(s, t);
    assert |s'.rejected| == |s.rejected| + count;
    GiveBackKeepsTickets(s, t, first, count, actual);
    GiveBackKeepsBounds(s, t, first, count, actual);
  }

  lemma KeepsTake(s: State, t: Tid, actual: nat)
    requires Inv(s) && t in s.pc && s.pc[t] == Take(actual)
    ensures Inv(ExecTake(s, t, actual))
  {
    var s' := ExecTake(s, t, actual);
    CountsMove(s, t, Idle);
    forall u | u in s'.pc ensures PendingFresh(s', u) && CopyCovered(s', u) {
      assert PendingFresh(s, u) && CopyCovered(s, u);
    }
    forall u, v | u in s'.pc && v in s'.pc ensures Apart(s', u, v) {
      assert Apart(s, u, v);
    }
    forall x | x in s'.approved ensures WithinTail(s', x) {
      assert WithinTail(s, x);
    }
  }

  lemma KeepsPublish(s: State, s': State, tail: nat)
    requires Inv(s) && Publish(s, s', tail)
    ensures Inv(s')
  {
    forall u | u in s'.pc ensures PendingFresh(s', u) && CopyCovered(s', u) {
      assert PendingFresh(s, u) && CopyCovered(s, u);
    }
    forall u, v | u in s'.pc && v in s'.pc ensures Apart(s', u, v) {
      assert Apart(s, u, v);
    }
    forall x | x in s'.approved ensures WithinTail(s', x) {
      assert WithinTail(s, x);
    }
  }

  lemma ExecKeepsInv(s: State, t: Tid)
    requires Inv(s) && t in s.pc
    ensures Inv(Exec(s, t))
  {
    assert CopyCovered(s, t);
    match s.pc[t]
    case Idle =>
    case LoadOvercommit(max, tail) => KeepsGoto(s, t, LoadOptimistic(max, tail, s.overcommit));
    case LoadOptimistic(max, tail, overcommit) => KeepsLoadOptimistic(s, t, max, tail, overcommit);
    case AddOptimistic(desired, overcommit) => KeepsAddOptimistic(s, t, desired, overcommit);
    case Recheck(first, desired, overcommit) => KeepsRecheck(s, t, first, desired, overcommit);
    case GiveBack(first, count, actual) => KeepsGiveBack(s, t, first, count, actual);
    case Take(actual) => KeepsTake(s, t, actual);
  }

  lemma InitGivesInv(s: State)
    requires Init(s)
    ensures Inv(s)
  {
    TotalZero(s.pc, Untaken);
    TotalZero(s.pc, PendingCount);
  }

  lemma NextKeepsInv(s: State, s': State)
    requires Inv(s) && Next(s, s')
    ensures Inv(s')
  {
    if t :| t in s.pc && s' == Exec(s, t) {
      ExecKeepsInv(s, t);
    } else if t, max: nat :| Start(s, s', t, max) {
      KeepsGoto(s, t, LoadOvercommit(max, s.tail));
    } else {
      var tail: nat :| Publish(s, s', tail);
      KeepsPublish(s, s', tail);
    }
  }

  lemma {:induction false} RunKeepsInv(run: seq<State>, i: nat)
    requires IsRun(run) && i < |run|
    ensures Inv(run[i])
  {
    if i == 0 {
      InitGivesInv(run[0]);
    } else {
      RunKeepsInv(run, i - 1);
      assert StepAt(run, i - 1);
      NextKeepsInv(run[i - 1], run[i]);
    }
  }

  // --------------------------------------------------------- main results

  /** The counters balance in every reachable state. */
  lemma CountersBalance(run: seq<State>, i: nat)
    requires IsRun(run) && i < |run|
    ensures var s := run[i];
      s.optimistic == s.head + s.overcommit + Total(s.pc, Untaken) + Total(s.pc, PendingCount)
  {
    RunKeepsInv(run, i);
  }

  lemma TakeIsCovered(s: State, t: Tid)
    requires Inv(s) && t in s.pc && s.pc[t].Take?
    ensures s.head + s.pc[t].actual <= s.tail
  {
    ApprovedWithinTail(s);
    TotalCovers(s.pc, Untaken);
    assert Untaken(s.pc[t]) <= Total(s.pc, Untaken);
  }

  /** Claims never overrun the tail, counting those already granted but not yet
      taken; so a thread that takes its indices takes published ones. */
  lemma ClaimsNeverOverrun(run: seq<State>, i: nat)
    requires IsRun(run) && i < |run|
    ensures run[i].head + Total(run[i].pc, Untaken) <= run[i].tail
    ensures forall t :: t in run[i].pc && run[i].pc[t].Take? ==> run[i].head + run[i].pc[t].actual <= run[i].tail
  {
    var s := run[i];
    RunKeepsInv(run, i);
    ApprovedWithinTail(s);
    TotalCovers(s.pc, Untaken);
    forall t | t in s.pc && s.pc[t].Take? ensures s.head + s.pc[t].actual <= s.tail {
      TakeIsCovered(s, t);
    }
  }

  lemma StepExtendsClaims(s: State, s': State)
    requires Next(s, s')
    ensures s.claimed <= s'.claimed
  {
    if t :| t in s.pc && s' == Exec(s, t) {
      ExecExtendsClaims(s, t);
    }
  }

  lemma ExecExtendsClaims(s: State, t: Tid)
    requires t in s.pc
    ensures s.claimed <= Exec(s, t).claimed
  {
  }

  /** Each index below the head has exactly one claimer, for good: later states
      only append to the record, and the indices a thread takes are new. */
  lemma {:induction false} ClaimsAreForGood(run: seq<State>, i: nat, j: nat)
    requires IsRun(run) && i <= j < |run|
    ensures run[i].claimed <= run[j].claimed
    ensures |run[j].claimed| == run[j].head <= run[j].tail
    decreases j
  {
    RunKeepsInv(run, j);
    ClaimsNeverOverrun(run, j);
    TotalCovers(run[j].pc, Untaken);
    if i < j {
      ClaimsAreForGood(run, i, j - 1);
      assert StepAt(run, j - 1);
      StepExtendsClaims(run[j - 1], run[j]);
    }
  }

  /** At quiescence every bump of the optimistic count is booked: the elements
      still present are exactly tail - head, and a new attempt sees them all. */
  lemma QuiescentCountersAgree(run: seq<State>, i: nat)
    requires IsRun(run) && i < |run|
    requires forall t :: t in run[i].pc ==> run[i].pc[t] == Idle
    ensures run[i].tail - (run[i].optimistic - run[i].overcommit) == run[i].tail - run[i].head >= 0
  {
    CountersBalance(run, i);
    ClaimsNeverOverrun(run, i);
    TotalZero(run[i].pc, Untaken);
    TotalZero(run[i].pc, PendingCount);
  }

  /** t starts with no other thread at work, asks for max, and runs on its own. */
  ghost function Undisturbed(s: State, t: Tid, max: nat): State
    requires t in s.pc
  {
    Exec(Exec(Exec(Exec(Goto(s, t, LoadOvercommit(max, s.tail)), t), t), t), t)
  }

  /** Then it gets as many elements as there are, up to max; with none, it fails. With
      max == 0 and elements present it goes on although it claims none of them. */
  lemma UndisturbedAttemptGetsAll(run: seq<State>, i: nat, t: Tid, max: nat)
    requires IsRun(run) && i < |run| && t in run[i].pc
    requires forall u :: u in run[i].pc ==> run[i].pc[u] == Idle
    ensures var present := run[i].tail - run[i].head;
      Undisturbed(run[i], t, max).pc[t] == if present > 0 then Take(Min(present, max)) else Idle
  {
    var s := run[i];
    QuiescentCountersAgree(run, i);
    var s1 := Goto(s, t, LoadOvercommit(max, s.tail));
    var s2 := Exec(s1, t);
    assert s2.pc[t] == LoadOptimistic(max, s.tail, s.overcommit);
    var s3 := Exec(s2, t);
    if s.tail > s.head {
      assert s3.pc[t] == AddOptimistic(Min(s.tail - s.head, max), s.overcommit);
      var s4 := Exec(s3, t);
      assert s4.pc[t] == Recheck(s.optimistic, Min(s.tail - s.head, max), s.overcommit);
    }
  }

  /** Half the range of the 64-bit counters. */
  const HALF_RANGE: nat := 0x8000_0000_0000_0000

  /** `count < tail` on wrapped counters, as `dequeue` and as `dequeue_bulk` write it,
      and the difference that the latter computes. */
  predicate TestsAgree(count: int, tail: int) {
    var range := 2 * HALF_RANGE;
    && (CircularLessThan(count % range, tail % range, HALF_RANGE) <==> count < tail)
    && (CircularLessThan(0, (tail - count) % range, HALF_RANGE) <==> count < tail)
    && (count < tail ==> (tail - count) % range == tail - count)
  }

  lemma CloseTestsAgree(count: int, tail: int)
    requires -1 * HALF_RANGE <= tail - count && tail - count < HALF_RANGE
    ensures TestsAgree(count, tail)
  {
    WrappedComparisonAgrees(count, tail, HALF_RANGE);
    WrappedComparisonAgrees(0, tail - count, HALF_RANGE);
    ModSmall(0, 2 * HALF_RANGE);
    if count < tail {
      ModSmall(tail - count, 2 * HALF_RANGE);
    }
  }

  /** From the load of the overcommit counter to the second look at the tail. */
  predicate Looking(p: Pc) {
    p.LoadOptimistic? || p.AddOptimistic? || p.Recheck?
  }

  /** t loaded the overcommit counter in state a, and the tail before that. */
  predicate Under(a: State, s: State, t: Tid, tail: nat) {
    && t in s.pc && Looking(s.pc[t]) && s.pc[t].overcommit == a.overcommit
    && a.optimistic <= s.optimistic && a.tail <= s.tail
    && (s.pc[t].LoadOptimistic? ==> s.pc[t].tail == tail)
    && (s.pc[t].Recheck? ==> a.optimistic <= s.pc[t].first <= s.optimistic)
  }

  lemma ExecStaysUnder(a: State, s: State, t: Tid, tail: nat, u: Tid)
    requires Under(a, s, t, tail) && u in s.pc && t in Exec(s, u).pc && Looking(Exec(s, u).pc[t])
    ensures Under(a, Exec(s, u), t, tail)
  {
  }

  lemma StaysUnder(a: State, s: State, s': State, t: Tid, tail: nat)
    requires Under(a, s, t, tail) && Next(s, s') && t in s'.pc && Looking(s'.pc[t])
    ensures Under(a, s', t, tail)
  {
    if u :| u in s.pc && s' == Exec(s, u) {
      ExecStaysUnder(a, s, t, tail, u);
    }
  }

  /** t loads the overcommit counter at i and is not beyond its second look at j. */
  ghost predicate Attempt(run: seq<State>, i: nat, j: nat, t: Tid) {
    && i < j < |run| && t in run[i].pc && run[i].pc[t].LoadOvercommit?
    && forall k: nat {:trigger run[k]} :: i < k <= j ==> t in run[k].pc && Looking(run[k].pc[t])
  }

  lemma FirstExecIsUnder(s: State, t: Tid, u: Tid)
    requires t in s.pc && s.pc[t].LoadOvercommit? && u in s.pc && t in Exec(s, u).pc && Looking(Exec(s, u).pc[t])
    ensures Under(s, Exec(s, u), t, s.pc[t].tail)
  {
  }

  lemma FirstStepIsUnder(s: State, s': State, t: Tid)
    requires t in s.pc && s.pc[t].LoadOvercommit? && Next(s, s') && t in s'.pc && Looking(s'.pc[t])
    ensures Under(s, s', t, s.pc[t].tail)
  {
    if u :| u in s.pc && s' == Exec(s, u) {
      FirstExecIsUnder(s, t, u);
    }
  }

  lemma AttemptBegins(run: seq<State>, i: nat, t: Tid)
    requires IsRun(run) && Attempt(run, i, i + 1, t)
    ensures Under(run[i], run[i + 1], t, run[i].pc[t].tail)
  {
    assert StepAt(run, i);
    FirstStepIsUnder(run[i], run[i + 1], t);
  }

  lemma AttemptGoesOn(run: seq<State>, a: State, j: nat, t: Tid, tail: nat)
    requires IsRun(run) && j + 1 < |run| && Under(a, run[j], t, tail)
    requires t in run[j + 1].pc && Looking(run[j + 1].pc[t])
    ensures Under(a, run[j + 1], t, tail)
  {
    assert StepAt(run, j);
    StaysUnder(a, run[j], run[j + 1], t, tail);
  }

  lemma {:induction false} AttemptStaysUnder(run: seq<State>, i: nat, j: nat, t: Tid)
    requires IsRun(run) && Attempt(run, i, j, t)
    ensures Under(run[i], run[j], t, run[i].pc[t].tail)
  {
    if j == i + 1 {
      AttemptBegins(run, i, t);
    } else {
      AttemptStaysUnder(run, i, j - 1, t);
      AttemptGoesOn(run, run[i], j - 1, t, run[i].pc[t].tail);
    }
  }

  ghost predicate TailCopiesAreOld(s: State) {
    forall t {:trigger s.pc[t]} :: t in s.pc && s.pc[t].LoadOvercommit? ==> s.pc[t].tail <= s.tail
  }

  lemma {:induction false} TailCopiesStayOld(run: seq<State>, i: nat)
    requires IsRun(run) && i < |run|
    ensures TailCopiesAreOld(run[i])
  {
    if i > 0 {
      TailCopiesStayOld(run, i - 1);
      assert StepAt(run, i - 1);
      NextKeepsCopiesOld(run[i - 1], run[i]);
    }
  }

  lemma NextKeepsCopiesOld(s: State, s': State)
    requires TailCopiesAreOld(s) && Next(s, s')
    ensures TailCopiesAreOld(s')
  {
    if u :| u in s.pc && s' == Exec(s, u) {
      ExecKeepsCopiesOld(s, u);
    }
  }

  lemma ExecKeepsCopiesOld(s: State, u: Tid)
    requires TailCopiesAreOld(s) && u in s.pc
    ensures TailCopiesAreOld(Exec(s, u))
  {
  }

  /** Both looks at the tail on wrapped counters decide like the unbounded ones, however
      large the counters have become, as long as less than half their range happens
      around one attempt: of elements present when it began or enqueued since, and of
      tickets undecided then or drawn since. */
  lemma WrappedLooksAgree(run: seq<State>, i: nat, j: nat, t: Tid)
    requires IsRun(run) && Attempt(run, i, j, t)
    requires run[j].tail - run[i].head < HALF_RANGE
    requires var a := run[i];
      (a.tail - a.pc[t].tail) + Total(a.pc, Untaken) + Total(a.pc, PendingCount) + (run[j].optimistic - a.optimistic)
      <= HALF_RANGE
    ensures run[j].pc[t].LoadOptimistic? ==>
      TestsAgree(run[j].optimistic - run[j].pc[t].overcommit, run[j].pc[t].tail)
    ensures run[j].pc[t].Recheck? ==> TestsAgree(run[j].pc[t].first - run[j].pc[t].overcommit, run[j].tail)
  {
    var a, p := run[i], run[j].pc[t];
    AttemptStaysUnder(run, i, j, t);
    TailCopiesStayOld(run, i);
    CountersBalance(run, i);
    ClaimsNeverOverrun(run, i);
    UndecidedIsCounted(run, i);
    if p.LoadOptimistic? {
      CloseTestsAgree(run[j].optimistic - p.overcommit, p.tail);
    } else if p.Recheck? {
      CloseTestsAgree(p.first - p.overcommit, run[j].tail);
    }
  }

  lemma UndecidedIsCounted(run: seq<State>, i: nat)
    requires IsRun(run) && i < |run|
    ensures Total(run[i].pc, Untaken) >= 0 && Total(run[i].pc, PendingCount) >= 0
  {
    TotalCovers(run[i].pc, Untaken);
    TotalCovers(run[i].pc, PendingCount);
  }
}
