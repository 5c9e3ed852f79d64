/** Every call of the block store comes to an end, whatever the other threads do: each own
    step brings a consumer nearer to the end of its claim and the producer nearer to the
    return of its enqueue, where obtaining or releasing a block counts as one step. And
    wherever an enqueue is before a failure, it can still append its values if memory can
    be had. */
module BlockStoreProgress {
  import opened Modular
  import opened BlockIndex
  import opened BlockStore
  import opened BlockStoreSafety
  import opened BlockStoreRuns

  // ------------------------------------------------------------------ consumers

  function JobLength(job: Job): nat {
    if job.index < job.stop then job.stop - job.index else 0
  }

  /** The elements of the job behind the block in hand. */
  function Behind(job: Job): nat {
    if End(job) < job.stop then job.stop - End(job) else 0
  }

  /** An upper bound on the steps that the consumer still has to take. */
  function StepsLeft(p: Cons): nat {
    match p
    case Idle => 0
    case LoadHeader(job) => 5 * JobLength(job) + 3
    case LoadTail(job, _) => 5 * JobLength(job) + 2
    case LoadKey(job, _, _) => 5 * JobLength(job) + 1
    case LoadValue(job, _, _) => 5 * JobLength(job)
    case ReadSlot(job, _, _, _, i) => 5 * Behind(job) + 3 + if i < End(job) then End(job) - i else 0
    case SetEmpty(job, _, _, _) => 5 * Behind(job) + 3
    case StoreNull(job, _, _, _, _) => 5 * JobLength(job) + 2
    case FreeBlock(job, _, _, _) => 5 * JobLength(job) + 1
  }

  lemma ConsComesCloser(s: State, s': State, t: Tid)
    requires Safe(s) && ConsStep(s, s', t)
    ensures t in s.cons && t in s'.cons && StepsLeft(s'.cons[t]) < StepsLeft(s.cons[t])
  {
    assert t in s.cons && ConsAt(s, t);
    if DoSetEmpty(s, s', t) {
      SetEmptyComesCloser(s, s', t);
    } else if DoReadSlot(s, s', t) {
      ReadComesCloser(s, s', t);
    } else if DoLoadValue(s, s', t) || DoStoreNull(s, s', t) || DoFreeBlock(s, s', t) {
      BlockComesCloser(s, s', t);
    } else {
      LookupComesCloser(s, s', t);
    }
  }

  lemma SetEmptyComesCloser(s: State, s': State, t: Tid)
    requires DoSetEmpty(s, s', t) && ConsJob(s, s.cons[t])
    ensures t in s'.cons && StepsLeft(s'.cons[t]) < StepsLeft(s.cons[t])
  {
  }

  lemma ReadComesCloser(s: State, s': State, t: Tid)
    requires DoReadSlot(s, s', t) && ConsJob(s, s.cons[t])
    ensures t in s'.cons && StepsLeft(s'.cons[t]) < StepsLeft(s.cons[t])
  {
  }

  lemma BlockComesCloser(s: State, s': State, t: Tid)
    requires (DoLoadValue(s, s', t) || DoStoreNull(s, s', t) || DoFreeBlock(s, s', t)) && ConsJob(s, s.cons[t])
    ensures t in s'.cons && StepsLeft(s'.cons[t]) < StepsLeft(s.cons[t])
  {
  }

  lemma LookupComesCloser(s: State, s': State, t: Tid)
    requires DoLoadHeader(s, s', t) || DoLoadTail(s, s', t) || DoLoadKey(s, s', t)
    ensures t in s'.cons && StepsLeft(s'.cons[t]) < StepsLeft(s.cons[t])
  {
  }

  lemma OthersLeaveCons(s: State, s': State, t: Tid)
    requires Safe(s) && Next(s, s') && t in s.cons && s.cons[t] != Idle
    ensures t in s'.cons && (s'.cons[t] == s.cons[t] || ConsStep(s, s', t))
  {
    if ProdStep(s, s') {
      ProdStepKeepsSafe(s, s');
    } else if u :| ConsStep(s, s', u) {
      ConsLeavesCons(s, s', u, t);
    } else {
      ClaimLeavesCons(s, s', t);
    }
  }

  lemma ConsLeavesCons(s: State, s': State, u: Tid, t: Tid)
    requires Safe(s) && ConsStep(s, s', u) && t in s.cons
    ensures t in s'.cons && (s'.cons[t] == s.cons[t] || u == t)
  {
    ConsStepKeepsSafe(s, s', u);
  }

  lemma ClaimLeavesCons(s: State, s': State, t: Tid)
    requires Publish(s, s') || exists u, count: nat :: Claim(s, s', u, count)
    requires t in s.cons && s.cons[t] != Idle
    ensures t in s'.cons && s'.cons[t] == s.cons[t]
  {
  }

  /** The steps that consumer t takes from i to j. */
  ghost function StepsTaken(run: seq<State>, i: nat, j: nat, t: Tid): nat
    requires i <= j < |run|
    decreases j
  {
    if i == j then 0
    else StepsTaken(run, i, j - 1, t)
         + if t in run[j - 1].cons && t in run[j].cons && run[j].cons[t] != run[j - 1].cons[t] then 1 else 0
  }

  lemma ConsStepAt(run: seq<State>, j: nat, t: Tid)
    requires IsRun(run) && j + 1 < |run| && t in run[j].cons && run[j].cons[t] != Idle
    ensures t in run[j + 1].cons
    ensures run[j + 1].cons[t] == run[j].cons[t] || StepsLeft(run[j + 1].cons[t]) < StepsLeft(run[j].cons[t])
  {
    RunKeepsSafe(run, j);
    assert StepAt(run, j);
    OthersLeaveCons(run[j], run[j + 1], t);
    if ConsStep(run[j], run[j + 1], t) {
      ConsComesCloser(run[j], run[j + 1], t);
    }
  }

  /** A consumer with n indices to fetch is through after at most 5 n + 3 steps of its own,
      whatever the others do meanwhile. */
  lemma {:induction false} FetchStepsAreBounded(run: seq<State>, i: nat, j: nat, t: Tid)
    requires IsRun(run) && i <= j < |run| && t in run[i].cons
    requires forall k: nat {:trigger run[k]} :: i <= k < j && t in run[k].cons ==> run[k].cons[t] != Idle
    ensures t in run[j].cons
    ensures StepsTaken(run, i, j, t) <= StepsLeft(run[i].cons[t]) - StepsLeft(run[j].cons[t])
    ensures run[i].cons[t].LoadHeader? ==> StepsTaken(run, i, j, t) <= 5 * JobLength(run[i].cons[t].job) + 3
    decreases j
  {
    if i < j {
      FetchStepsAreBounded(run, i, j - 1, t);
      assert run[j - 1].cons[t] != Idle;
      ConsStepAt(run, j - 1, t);
    }
  }

  // ------------------------------------------------------------------- producer

  /** The blocks still to be inserted for n values. */
  function BlocksNeeded(tail: nat, count: nat, n: nat): nat {
    if BLOCK_SIZE * count < tail + n then (tail + n - BLOCK_SIZE * count + BLOCK_SIZE - 1) / BLOCK_SIZE else 0
  }

  function Less(a: nat, b: nat): nat {
    if b < a then a - b else 0
  }

  /** An upper bound on the steps that the enqueue in progress still has to take. */
  function ProdLeft(p: Prod, tail: nat, count: nat): nat {
    match p
    case Ready => 0
    case FindSlot(vals, chain) => Inserts(tail, count, vals, chain)
    case StoreKey(vals, chain, _) => Less(Inserts(tail, count, vals, chain), 1)
    case StoreTail(vals, chain, _) => Less(Inserts(tail, count, vals, chain), 2)
    case Requisition(vals, chain, _) => Less(Inserts(tail, count, vals, chain), 3)
    case StoreValue(vals, chain, _, _) => Less(Inserts(tail, count, vals, chain), 4)
    case Rewind(chain, _) => 3 * |chain| + 4
    case ResetValue(chain, _) => 3 * |chain| + 3
    case Undo(chain, next) => 2 * Less(count, next) + |chain| + 2
    case UndoRewind(chain, next) => 2 * Less(count, next) + |chain| + 1
    case GiveBack(chain) => |chain| + 1
    case Write(vals, _, i) => Less(|vals|, i) + 1
    case StoreTailIndex(_, _) => 1
  }

  function Inserts(tail: nat, count: nat, vals: seq<Value>, chain: seq<Block>): nat {
    8 * BlocksNeeded(tail, count, |vals|) + 3 * |chain| + |vals| + 6
  }

  function EnqueueLeft(s: State): nat {
    ProdLeft(s.prod, s.tail, s.ring.count)
  }

  lemma OneBlockFewer(tail: nat, count: nat, n: nat)
    requires BLOCK_SIZE * count < tail + n
    ensures BlocksNeeded(tail, count, n) >= 1 && BlocksNeeded(tail, count + 1, n) == BlocksNeeded(tail, count, n) - 1
  {
    var x := tail + n - BLOCK_SIZE * count;
    assert (x + BLOCK_SIZE - 1) / BLOCK_SIZE == (x - 1) / BLOCK_SIZE + 1;
  }

  lemma FindComesCloser(s: State, s': State)
    requires FindFree(s, s') || FindGrow(s, s')
    ensures EnqueueLeft(s') < EnqueueLeft(s)
  {
    assert s'.ring.count == s.ring.count;
  }

  lemma FindFailComesCloser(s: State, s': State)
    requires Safe(s) && FindFail(s, s')
    ensures EnqueueLeft(s') < EnqueueLeft(s)
  {
    assert Staged(s);
  }

  lemma StoreComesCloser(s: State, s': State)
    requires Safe(s) && (DoStoreKey(s, s') || DoStoreTail(s, s'))
    ensures EnqueueLeft(s') < EnqueueLeft(s)
  {
    assert Staged(s);
    OneBlockFewer(s.tail, s.ring.count, |s.prod.vals|);
  }

  lemma ObtainComesCloser(s: State, s': State)
    requires Safe(s) && ((exists block :: Obtain(s, s', block)) || ObtainFail(s, s'))
    ensures EnqueueLeft(s') < EnqueueLeft(s)
  {
    assert Staged(s);
    OneBlockFewer(s.tail, s.ring.count, |s.prod.vals|);
  }

  lemma StoreValueComesCloser(s: State, s': State)
    requires Safe(s) && DoStoreValue(s, s')
    ensures EnqueueLeft(s') < EnqueueLeft(s)
  {
    assert Staged(s);
    OneBlockFewer(s.tail, s.ring.count, |s.prod.vals|);
  }

  lemma RewindComesCloser(s: State, s': State)
    requires Safe(s) && (DoRewind(s, s') || DoResetValue(s, s'))
    ensures EnqueueLeft(s') < EnqueueLeft(s)
  {
    assert Staged(s);
  }

  lemma UndoComesCloser(s: State, s': State)
    requires DoUndo(s, s')
    ensures EnqueueLeft(s') < EnqueueLeft(s)
  {
  }

  lemma UndoRewindComesCloser(s: State, s': State)
    requires Safe(s) && DoUndoRewind(s, s')
    ensures EnqueueLeft(s') < EnqueueLeft(s)
  {
    assert Staged(s);
  }

  lemma GiveBackComesCloser(s: State, s': State)
    requires UndoDone(s, s') || DoGiveBack(s, s')
    ensures EnqueueLeft(s') < EnqueueLeft(s)
  {
  }

  lemma RevertComesCloser(s: State, s': State)
    requires Safe(s) && RevertStep(s, s')
    ensures EnqueueLeft(s') < EnqueueLeft(s)
  {
    if DoUndo(s, s') {
      UndoComesCloser(s, s');
    } else if DoUndoRewind(s, s') {
      UndoRewindComesCloser(s, s');
    } else if UndoDone(s, s') || DoGiveBack(s, s') {
      GiveBackComesCloser(s, s');
    } else {
      RewindComesCloser(s, s');
    }
  }

  /** Each step of a running enqueue brings it closer to its return. */
  lemma ProdComesCloser(s: State, s': State)
    requires Safe(s) && s.prod != Ready && (ProdStep(s, s') || Publish(s, s'))
    ensures EnqueueLeft(s') < EnqueueLeft(s)
  {
    assert Staged(s);
    if RevertStep(s, s') {
      RevertComesCloser(s, s');
    } else if DoStoreValue(s, s') {
      StoreValueComesCloser(s, s');
    } else if FindFree(s, s') || FindGrow(s, s') {
      FindComesCloser(s, s');
    } else if FindFail(s, s') {
      FindFailComesCloser(s, s');
    } else if DoStoreKey(s, s') || DoStoreTail(s, s') {
      StoreComesCloser(s, s');
    } else if InsertStep(s, s') {
      ObtainComesCloser(s, s');
    }
  }

  lemma OthersLeaveProd(s: State, s': State)
    requires Safe(s) && Next(s, s') && !ProdStep(s, s') && !Publish(s, s')
    ensures s'.prod == s.prod && s'.tail == s.tail && s'.ring.count == s.ring.count
  {
    if t :| ConsStep(s, s', t) {
      ConsLeavesProd(s, s', t);
    }
  }

  lemma ConsLeavesProd(s: State, s': State, t: Tid)
    requires ConsStep(s, s', t)
    ensures s'.prod == s.prod && s'.tail == s.tail && s'.ring.count == s.ring.count
  {
    if DoStoreNull(s, s', t) || DoFreeBlock(s, s', t) {
      ReleaseLeavesProd(s, s', t);
    } else if DoSetEmpty(s, s', t) || DoReadSlot(s, s', t) {
      ReadLeavesProd(s, s', t);
    }
  }

  lemma ReleaseLeavesProd(s: State, s': State, t: Tid)
    requires DoStoreNull(s, s', t) || DoFreeBlock(s, s', t)
    ensures s'.prod == s.prod && s'.tail == s.tail && s'.ring.count == s.ring.count
  {
  }

  lemma ReadLeavesProd(s: State, s': State, t: Tid)
    requires DoSetEmpty(s, s', t) || DoReadSlot(s, s', t)
    ensures s'.prod == s.prod && s'.tail == s.tail && s'.ring.count == s.ring.count
  {
  }

  ghost predicate RunningAt(run: seq<State>, j: nat)
    requires j < |run|
  {
    run[j].prod != Ready
  }

  ghost predicate ProdMoves(run: seq<State>, j: nat)
    requires j + 1 < |run|
  {
    ProdStep(run[j], run[j + 1]) || Publish(run[j], run[j + 1])
  }

  /** The steps of the running enqueue from i to j. */
  ghost function ProdTaken(run: seq<State>, i: nat, j: nat): nat
    requires i <= j < |run|
    decreases j
  {
    if i == j then 0
    else ProdTaken(run, i, j - 1) + if ProdMoves(run, j - 1) then 1 else 0
  }

  lemma ProdStepAt(run: seq<State>, j: nat)
    requires IsRun(run) && j + 1 < |run| && run[j].prod != Ready
    ensures if ProdMoves(run, j) then EnqueueLeft(run[j + 1]) < EnqueueLeft(run[j])
            else EnqueueLeft(run[j + 1]) == EnqueueLeft(run[j])
  {
    RunKeepsSafe(run, j);
    assert StepAt(run, j);
    if ProdMoves(run, j) {
      ProdComesCloser(run[j], run[j + 1]);
    } else {
      OthersLeaveProd(run[j], run[j + 1]);
    }
  }

  lemma TakenStep(run: seq<State>, i: nat, j: nat)
    requires IsRun(run) && i <= j && j + 1 < |run| && run[j].prod != Ready
    ensures ProdTaken(run, i, j + 1) + EnqueueLeft(run[j + 1]) <= ProdTaken(run, i, j) + EnqueueLeft(run[j])
  {
    ProdStepAt(run, j);
  }

  lemma {:induction false} EnqueueComesCloser(run: seq<State>, i: nat, j: nat)
    requires IsRun(run) && i <= j < |run|
    requires forall k: nat {:trigger RunningAt(run, k)} :: i <= k < j ==> RunningAt(run, k)
    ensures ProdTaken(run, i, j) + EnqueueLeft(run[j]) <= EnqueueLeft(run[i])
    decreases j
  {
    if i < j {
      EnqueueComesCloser(run, i, j - 1);
      assert RunningAt(run, j - 1);
      TakenStep(run, i, j - 1);
    }
  }

  lemma StartBound(s: State, s': State, vals: seq<Value>)
    requires Safe(s) && StartEnqueue(s, s', vals)
    ensures EnqueueLeft(s') <= 8 * ((|vals| + BLOCK_SIZE - 1) / BLOCK_SIZE) + |vals| + 6
  {
    assert Staged(s);
  }

  /** A call with n values, begun by step i, succeeds or fails after at most
      8 ceil(n / BLOCK_SIZE) + n + 6 steps of its own, whatever the consumers do. */
  lemma EnqueueStepsAreBounded(run: seq<State>, i: nat, j: nat, vals: seq<Value>)
    requires IsRun(run) && i < j < |run| && StartEnqueue(run[i], run[i + 1], vals)
    requires forall k: nat {:trigger RunningAt(run, k)} :: i < k < j ==> RunningAt(run, k)
    ensures ProdTaken(run, i + 1, j) <= 8 * ((|vals| + BLOCK_SIZE - 1) / BLOCK_SIZE) + |vals| + 6
  {
    RunKeepsSafe(run, i);
    StartBound(run[i], run[i + 1], vals);
    EnqueueComesCloser(run, i + 1, j);
  }

  // --------------------------------------------------------- enqueues can succeed

  /** From s to s' the enqueue goes on towards its success. */
  ghost predicate GoesWell(s: State, s': State) {
    && (ProdStep(s, s') || Publish(s, s'))
    && if s'.prod == Ready then HasValues(s.prod) && s'.tail == s.tail + |s.prod.vals|
       else HasValues(s.prod) && HasValues(s'.prod) && s'.prod.vals == s.prod.vals && s'.tail == s.tail
  }

  lemma FreshBlock(owned: set<Block>) returns (b: Block)
    ensures b !in owned
  {
    b := 0;
    var left := owned;
    while b in left
      invariant forall x :: x in owned && x !in left ==> x < b
      invariant left <= owned
      decreases left
    {
      left := left - {b};
      b := b + 1;
    }
  }

  lemma FindsWell(s: State) returns (s': State)
    requires Safe(s) && s.prod.FindSlot?
    ensures GoesWell(s, s')
  {
    RingIsUsable(s.ring);
    var entry := s.ring.entries[NextEntry(s.ring)];
    if entry.key.None? || entry.value.None? {
      s' := s.(prod := StoreKey(s.prod.vals, s.prod.chain, NextEntry(s.ring)));
      assert FindFree(s, s');
    } else {
      GrownFirstEntry(s.ring);
      s' := s.(ring := Grow(s.ring), prod := StoreKey(s.prod.vals, s.prod.chain, NextEntry(Grow(s.ring))));
      assert FindGrow(s, s');
    }
    assert InsertStep(s, s') && ProdStep(s, s');
  }

  lemma StoresWell(s: State) returns (s': State)
    requires Safe(s) && (s.prod.StoreKey? || s.prod.StoreTail?)
    ensures GoesWell(s, s')
  {
    RingIsUsable(s.ring);
    assert Staged(s) && HeaderOk(s.ring, Last(s.ring));
    var p := s.prod;
    if p.StoreKey? {
      s' := s.(ring := PutKey(s.ring, p.entry), prod := StoreTail(p.vals, p.chain, p.entry));
    } else {
      s' := s.(ring := SetTail(s.ring, Wrap(Current(s.ring).tail + 1, Current(s.ring).capacity)),
               prod := Requisition(p.vals, p.chain, p.entry));
    }
    assert DoStoreKey(s, s') || DoStoreTail(s, s');
    assert InsertStep(s, s') && ProdStep(s, s');
  }

  lemma ObtainsWell(s: State) returns (s': State)
    requires Safe(s) && (s.prod.Requisition? || s.prod.StoreValue?)
    ensures GoesWell(s, s')
  {
    RingIsUsable(s.ring);
    assert Staged(s) && HeaderOk(s.ring, Last(s.ring));
    var p := s.prod;
    if p.Requisition? {
      var block := FreshBlock(s.owned);
      s' := s.(owned := s.owned + {block}, emptied := s.emptied[block := 0],
               prod := StoreValue(p.vals, p.chain, p.entry, block));
      assert Obtain(s, s', block);
    } else {
      var s1 := s.(ring := PutBlock(s.ring, p.entry, p.block));
      s' := s1.(prod := GoOn(s1, p.vals, p.chain + [p.block]));
      assert DoStoreValue(s, s');
    }
    assert InsertStep(s, s') && ProdStep(s, s');
  }

  lemma WritesWell(s: State) returns (s': State)
    requires Safe(s) && s.prod.Write?
    ensures GoesWell(s, s')
  {
    assert Staged(s);
    var p, x := s.prod, s.tail + s.prod.i;
    WriteBlockIsLive(s, p.chain, x);
    s' := s.(slots := s.slots[(WriteBlock(s, p.chain, x), x % BLOCK_SIZE) := p.vals[p.i]],
             written := s.written + [p.vals[p.i]],
             prod := if p.i + 1 == |p.vals| then StoreTailIndex(p.vals, p.chain) else p.(i := p.i + 1));
    assert DoWrite(s, s');
    assert ProdStep(s, s');
  }

  lemma PublishesWell(s: State) returns (s': State)
    requires s.prod.StoreTailIndex?
    ensures GoesWell(s, s')
  {
    var p := s.prod;
    s' := s.(tail := s.tail + |p.vals|,
             tailBlock := if p.chain == [] then s.tailBlock else p.chain[|p.chain| - 1],
             ring := s.ring.(settled := s.ring.count),
             prod := Ready);
    assert Publish(s, s');
  }

  lemma StepsWell(s: State) returns (s': State)
    requires Safe(s) && HasValues(s.prod)
    ensures GoesWell(s, s')
  {
    if s.prod.FindSlot? {
      s' := FindsWell(s);
    } else if s.prod.StoreKey? || s.prod.StoreTail? {
      s' := StoresWell(s);
    } else if s.prod.Requisition? || s.prod.StoreValue? {
      s' := ObtainsWell(s);
    } else if s.prod.Write? {
      s' := WritesWell(s);
    } else {
      s' := PublishesWell(s);
    }
  }

  lemma OneMore(run: seq<State>, s': State)
    requires IsRun(run) && (ProdStep(run[|run| - 1], s') || Publish(run[|run| - 1], s'))
    ensures IsRun(run + [s'])
  {
    var next := run + [s'];
    assert Next(run[|run| - 1], s');
    forall k: nat | k + 1 < |next| ensures StepAt(next, k) {
      if k + 1 < |run| {
        assert StepAt(run, k);
      }
    }
  }

  /** The next run is one step nearer to the success. */
  predicate Nearer(s: State, s': State)
    requires HasValues(s.prod)
  {
    && EnqueueLeft(s') < EnqueueLeft(s)
    && if s'.prod == Ready then s'.tail == s.tail + |s.prod.vals|
       else HasValues(s'.prod) && s'.prod.vals == s.prod.vals && s'.tail == s.tail
  }

  lemma GoesOnWell(run: seq<State>) returns (s': State)
    requires IsRun(run) && HasValues(run[|run| - 1].prod)
    ensures IsRun(run + [s']) && Nearer(run[|run| - 1], s')
  {
    RunKeepsSafe(run, |run| - 1);
    s' := StepsWell(run[|run| - 1]);
    ProdComesCloser(run[|run| - 1], s');
    OneMore(run, s');
  }

  lemma {:induction false} EndsWell(run: seq<State>) returns (longer: seq<State>)
    requires IsRun(run) && HasValues(run[|run| - 1].prod)
    ensures IsRun(longer) && run <= longer && |longer| <= |run| + EnqueueLeft(run[|run| - 1])
    ensures longer[|longer| - 1].prod == Ready
    ensures longer[|longer| - 1].tail == run[|run| - 1].tail + |run[|run| - 1].prod.vals|
    decreases EnqueueLeft(run[|run| - 1])
  {
    var s' := GoesOnWell(run);
    longer := run + [s'];
    if s'.prod != Ready {
      longer := EndsWell(longer);
    }
  }

  /** Wherever an enqueue is before a failure, it can still publish its values, if index and
      blocks can be had: in at most as many steps as are left of it. */
  lemma EnqueueCanSucceed(run: seq<State>)
    requires IsRun(run) && HasValues(run[|run| - 1].prod)
    ensures exists longer: seq<State> ::
      && IsRun(longer) && run <= longer && longer[|longer| - 1].prod == Ready
      && longer[|longer| - 1].tail == run[|run| - 1].tail + |run[|run| - 1].prod.vals|
  {
    var longer := EndsWell(run);
  }

  // ---------------------------------------------------------- failures are undone

  lemma BackStep(s: State, s': State)
    requires Safe(s) && Failing(s.prod) && (ProdStep(s, s') || Publish(s, s'))
    ensures ProdStep(s, s') && s'.tail == s.tail && (Failing(s'.prod) || s'.prod == Ready)
  {
    if RevertStep(s, s') {
      RevertStepKeepsSafe(s, s');
    }
  }

  lemma GoesBack(s: State) returns (s': State)
    requires Safe(s) && Failing(s.prod)
    ensures ProdStep(s, s') && s'.tail == s.tail && (Failing(s'.prod) || s'.prod == Ready)
    ensures EnqueueLeft(s') < EnqueueLeft(s)
  {
    if s.prod.Undo? {
      CanUndo(s);
    } else {
      CanRevert(s);
    }
    s' :| ProdStep(s, s') || Publish(s, s');
    BackStep(s, s');
    ProdComesCloser(s, s');
  }

  lemma {:induction false} AllGoesBack(run: seq<State>) returns (longer: seq<State>)
    requires IsRun(run) && Failing(run[|run| - 1].prod)
    ensures IsRun(longer) && run <= longer
    ensures longer[|longer| - 1].prod == Ready && longer[|longer| - 1].tail == run[|run| - 1].tail
    decreases EnqueueLeft(run[|run| - 1])
  {
    RunKeepsSafe(run, |run| - 1);
    var s' := GoesBack(run[|run| - 1]);
    OneMore(run, s');
    longer := run + [s'];
    if s'.prod != Ready {
      longer := AllGoesBack(longer);
    }
  }

  /** When no block can be had, the enqueue can fail, take everything back and return. */
  lemma EnqueueCanFail(run: seq<State>)
    requires IsRun(run) && run[|run| - 1].prod.Requisition?
    ensures exists longer: seq<State> ::
      && IsRun(longer) && run <= longer
      && longer[|longer| - 1].prod == Ready && longer[|longer| - 1].tail == run[|run| - 1].tail
  {
    var s := run[|run| - 1];
    var s' := s.(prod := Rewind(s.prod.chain, s.prod.entry));
    assert ObtainFail(s, s');
    assert InsertStep(s, s') && ProdStep(s, s');
    OneMore(run, s');
    var longer := AllGoesBack(run + [s']);
  }
}
