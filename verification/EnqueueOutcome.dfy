/** What one whole call of enqueue or enqueue_bulk does, under any interleaving
    with the consumers: either it appends all its values and publishes them, or it
    leaves contents, index lookups, tail and tail block as they were and gives
    back every block it took. */
module EnqueueOutcome {
  import opened Ranges
  import opened BlockIndex
  import opened BlockStore
  import opened BlockStoreSafety
  import opened BlockStoreRuns

  /** The states run[first..last] span one call: it starts with first's step and
      returns in last. */
  ghost predicate IsCall(run: seq<State>, first: nat, last: nat, vals: seq<Value>) {
    && IsRun(run) && first < last < |run|
    && StartEnqueue(run[first], run[first + 1], vals)
    && run[last].prod == Ready
    && forall m: nat {:trigger Busy(run, m)} :: first < m < last ==> Busy(run, m)
  }

  ghost predicate Busy(run: seq<State>, m: nat)
    requires m < |run|
  {
    run[m].prod != Ready
  }

  /** A block present before the call is still present, unless all its elements
      have been dequeued meanwhile; no older block has appeared. */
  ghost predicate LookupKept(a: State, s: State, k: nat) {
    && (k in s.ring.live && k < a.ring.settled ==> k in a.ring.live && s.ring.live[k] == a.ring.live[k])
    && (k in a.ring.live && k < a.ring.settled ==> k in s.ring.live || Range(BLOCK_SIZE * k, BLOCK_SIZE) <= s.done)
  }

  /** A block that the running enqueue has taken. */
  ghost predicate TakenBy(s: State, b: Block) {
    b in ProdHand(s) || exists k :: k in s.ring.live && k >= s.ring.settled && s.ring.live[k].block == b
  }

  ghost predicate OwnedFrom(a: State, s: State, b: Block) {
    b in s.owned ==> b in a.owned || TakenBy(s, b)
  }

  /** How a state inside the call relates to the state a before it. */
  ghost predicate Compare(a: State, s: State) {
    && s.ring.settled == a.ring.settled && s.tail == a.tail && s.tailBlock == a.tailBlock
    && a.written <= s.written
    && (forall k: nat {:trigger LookupKept(a, s, k)} :: LookupKept(a, s, k))
    && (forall b: nat {:trigger OwnedFrom(a, s, b)} :: OwnedFrom(a, s, b))
  }

  /** The values the call still carries are its own. */
  predicate Carries(p: Prod, vals: seq<Value>) {
    HasValues(p) ==> p.vals == vals
  }

  // ----------------------------------------------------------- one step each

  lemma BlocksKeptCompare(a: State, s: State, s': State)
    requires Compare(a, s) && KeepsHistory(s, s') && KeepsBlocks(s, s')
    ensures Compare(a, s')
  {
    forall k: nat ensures LookupKept(a, s', k) {
      assert LookupKept(a, s, k);
    }
    forall b: nat ensures OwnedFrom(a, s', b) {
      assert OwnedFrom(a, s, b);
    }
  }

  lemma ObtainCompares(a: State, s: State, s': State, block: Block)
    requires Safe(s) && Compare(a, s) && Obtain(s, s', block)
    ensures Compare(a, s')
  {
    forall k: nat ensures LookupKept(a, s', k) {
      assert LookupKept(a, s, k);
    }
    forall b: nat ensures OwnedFrom(a, s', b) {
      assert OwnedFrom(a, s, b);
    }
  }

  lemma StoreValueCompares(a: State, s: State, s': State)
    requires Safe(s) && Compare(a, s) && DoStoreValue(s, s')
    ensures Compare(a, s')
  {
    forall k | k in s.ring.live ensures k < s.ring.count {
      assert LiveOk(s.ring, k);
    }
    forall k: nat ensures LookupKept(a, s', k) {
      assert LookupKept(a, s, k);
    }
    assert s'.ring.live[s.ring.count].block == s.prod.block;
    forall b: nat ensures OwnedFrom(a, s', b) {
      assert OwnedFrom(a, s, b);
      if b in s'.owned && b !in a.owned && b !in ProdHand(s) {
        var k :| k in s.ring.live && k >= s.ring.settled && s.ring.live[k].block == b;
        assert k in s'.ring.live && s'.ring.live[k].block == b;
      }
    }
  }

  lemma UndoCompares(a: State, s: State, s': State)
    requires Safe(s) && Compare(a, s) && DoUndo(s, s')
    ensures Compare(a, s')
  {
    UndoFindsEntry(s);
    UndoHand(s, s');
    forall k: nat ensures LookupKept(a, s', k) {
      assert LookupKept(a, s, k);
    }
    forall b: nat ensures OwnedFrom(a, s', b) {
      assert OwnedFrom(a, s, b);
      if b in s'.owned && b !in a.owned && b !in ProdHand(s') {
        var k :| k in s.ring.live && k >= s.ring.settled && s.ring.live[k].block == b;
        assert k in s'.ring.live && s'.ring.live[k].block == b;
      }
    }
  }

  lemma GiveBackCompares(a: State, s: State, s': State)
    requires Safe(s) && Compare(a, s) && DoGiveBack(s, s')
    ensures Compare(a, s')
  {
    forall k: nat ensures LookupKept(a, s', k) {
      assert LookupKept(a, s, k);
    }
    forall b: nat ensures OwnedFrom(a, s', b) {
      assert OwnedFrom(a, s, b);
      if b in ProdHand(s) && b in s'.owned {
        var i :| 0 <= i < |s.prod.chain| && s.prod.chain[i] == b;
        assert s'.prod.chain[i - 1] == b;
      }
    }
  }

  lemma WriteCompares(a: State, s: State, s': State)
    requires Safe(s) && Compare(a, s) && DoWrite(s, s')
    ensures Compare(a, s')
  {
    forall k: nat ensures LookupKept(a, s', k) {
      assert LookupKept(a, s, k);
    }
    forall b: nat ensures OwnedFrom(a, s', b) {
      assert OwnedFrom(a, s, b);
    }
  }

  lemma ConsStepCompares(a: State, s: State, s': State, t: Tid)
    requires Safe(s) && Compare(a, s) && ConsStep(s, s', t)
    ensures Compare(a, s')
  {
    if DoStoreNull(s, s', t) {
      NullFindsEntry(s, t);
      assert ConsAt(s, t);
    }
    forall k: nat ensures LookupKept(a, s', k) {
      assert LookupKept(a, s, k);
    }
    assert ProdHand(s') == ProdHand(s);
    forall b: nat ensures OwnedFrom(a, s', b) {
      assert OwnedFrom(a, s, b);
      if b in s'.owned && b !in a.owned && b !in ProdHand(s) {
        var k :| k in s.ring.live && k >= s.ring.settled && s.ring.live[k].block == b;
        assert k in s'.ring.live && s'.ring.live[k].block == b;
      }
    }
  }

  lemma EffectCompares(a: State, s: State, s': State, vals: seq<Value>)
    requires Safe(s) && Compare(a, s) && Carries(s.prod, vals) && ProdEffect(s, s')
    ensures Compare(a, s') && Carries(s'.prod, vals)
  {
    if KeepsBlocks(s, s') {
      BlocksKeptCompare(a, s, s');
    } else if block :| Obtain(s, s', block) {
      ObtainCompares(a, s, s', block);
    } else if DoStoreValue(s, s') {
      StoreValueCompares(a, s, s');
    } else if DoUndo(s, s') {
      UndoCompares(a, s, s');
    } else {
      GiveBackCompares(a, s, s');
    }
  }

  lemma ClaimCompares(a: State, s: State, s': State, t: Tid, count: nat)
    requires Compare(a, s) && Claim(s, s', t, count)
    ensures Compare(a, s')
  {
    forall k: nat ensures LookupKept(a, s', k) {
      assert LookupKept(a, s, k);
    }
    forall b: nat ensures OwnedFrom(a, s', b) {
      assert OwnedFrom(a, s, b);
    }
  }

  lemma NextCompares(a: State, s: State, s': State, vals: seq<Value>)
    requires Safe(s) && Compare(a, s) && Carries(s.prod, vals) && Next(s, s')
    requires s.prod != Ready && !Publish(s, s')
    ensures Compare(a, s') && Carries(s'.prod, vals)
  {
    if ProdStep(s, s') {
      if InsertStep(s, s') {
        InsertStepKeepsSafe(s, s');
        EffectCompares(a, s, s', vals);
      } else if RevertStep(s, s') {
        RevertStepKeepsSafe(s, s');
        EffectCompares(a, s, s', vals);
      } else {
        WriteCompares(a, s, s');
      }
    } else if t :| ConsStep(s, s', t) {
      ConsStepCompares(a, s, s', t);
      ConsStepKeepsSafe(s, s', t);
    } else {
      var t, count: nat :| Claim(s, s', t, count);
      ClaimCompares(a, s, s', t, count);
    }
  }

  lemma StartCompares(a: State, s: State, vals: seq<Value>)
    requires Safe(a) && StartEnqueue(a, s, vals)
    ensures Compare(a, s) && Carries(s.prod, vals)
  {
    forall k: nat ensures LookupKept(a, s, k) {
    }
    forall b: nat ensures OwnedFrom(a, s, b) {
    }
  }

  lemma CallBegins(run: seq<State>, first: nat, vals: seq<Value>)
    requires IsRun(run) && first + 1 < |run| && StartEnqueue(run[first], run[first + 1], vals)
    ensures Compare(run[first], run[first + 1]) && Carries(run[first + 1].prod, vals)
  {
    RunKeepsSafe(run, first);
    StartCompares(run[first], run[first + 1], vals);
  }

  /** Short of publishing, a step of a running call compares with its start. */
  lemma CallGoesOn(run: seq<State>, first: nat, vals: seq<Value>, m: nat)
    requires IsRun(run) && first < m && m + 1 < |run|
    requires Compare(run[first], run[m]) && Carries(run[m].prod, vals)
    requires Busy(run, m) && !Publish(run[m], run[m + 1])
    ensures Compare(run[first], run[m + 1]) && Carries(run[m + 1].prod, vals)
  {
    RunKeepsSafe(run, m);
    assert StepAt(run, m);
    NextCompares(run[first], run[m], run[m + 1], vals);
  }

  lemma PublishIsReady(s: State, s': State)
    requires Publish(s, s')
    ensures s'.prod == Ready
  {
  }

  lemma {:induction false} InsideCall(run: seq<State>, first: nat, last: nat, vals: seq<Value>, m: nat)
    requires IsCall(run, first, last, vals) && first < m < last
    ensures Compare(run[first], run[m]) && Carries(run[m].prod, vals)
    decreases m
  {
    if m == first + 1 {
      CallBegins(run, first, vals);
    } else {
      InsideCall(run, first, last, vals, m - 1);
      assert Busy(run, m - 1) && Busy(run, m);
      if Publish(run[m - 1], run[m]) {
        PublishIsReady(run[m - 1], run[m]);
      }
      CallGoesOn(run, first, vals, m - 1);
    }
  }

  // -------------------------------------------------------------- main result

  /** The call returned true: its values, all of them and in order, were appended
      and published in one go. */
  predicate Appended(a: State, z: State, vals: seq<Value>) {
    z.written == a.written + vals && z.tail == a.tail + |vals| == |z.written|
  }

  /** The call returned false: contents, tail, tail block and the block of every
      index are as before, and every block taken was given back. */
  ghost predicate Unchanged(a: State, z: State) {
    && z.written == a.written && z.tail == a.tail && z.tailBlock == a.tailBlock
    && z.ring.count == z.ring.settled == a.ring.settled == a.ring.count
    && (forall k {:trigger k in z.ring.live} ::
          k in z.ring.live ==> k in a.ring.live && z.ring.live[k] == a.ring.live[k])
    && (forall k {:trigger k in a.ring.live} :: k in a.ring.live ==>
          k in z.ring.live || Range(BLOCK_SIZE * k, BLOCK_SIZE) <= z.done)
    && z.owned <= a.owned
  }

  lemma FailedCall(a: State, z: State)
    requires Safe(a) && a.prod == Ready && Safe(z) && z.prod == Ready && Compare(a, z)
    ensures Unchanged(a, z)
  {
    ReadyIsSettled(a);
    ReadyIsSettled(z);
    forall k | k in z.ring.live ensures k in a.ring.live && z.ring.live[k] == a.ring.live[k] {
      assert LookupKept(a, z, k);
    }
    forall k | k in a.ring.live ensures k in z.ring.live || Range(BLOCK_SIZE * k, BLOCK_SIZE) <= z.done {
      assert LookupKept(a, z, k);
    }
    forall b | b in z.owned ensures b in a.owned {
      assert OwnedFrom(a, z, b);
    }
  }

  lemma PublishedCall(a: State, s: State, z: State, vals: seq<Value>)
    requires Safe(a) && a.prod == Ready && Safe(s) && Compare(a, s) && Carries(s.prod, vals)
    requires Publish(s, z)
    ensures Appended(a, z, vals)
  {
    ReadyIsSettled(a);
    assert s.written == s.written[..s.tail] + s.written[s.tail..];
  }

  lemma StartIsNotReady(s: State, s': State, vals: seq<Value>)
    requires StartEnqueue(s, s', vals)
    ensures s'.prod != Ready
  {
  }

  lemma EndsPublished(run: seq<State>, first: nat, m: nat, vals: seq<Value>)
    requires IsRun(run) && first < m && m + 1 < |run| && run[first].prod == Ready
    requires Compare(run[first], run[m]) && Carries(run[m].prod, vals)
    requires Publish(run[m], run[m + 1])
    ensures Appended(run[first], run[m + 1], vals)
  {
    RunKeepsSafe(run, first);
    RunKeepsSafe(run, m);
    PublishedCall(run[first], run[m], run[m + 1], vals);
  }

  lemma EndsFailed(run: seq<State>, first: nat, m: nat)
    requires IsRun(run) && first < m < |run| && run[first].prod == Ready
    requires Compare(run[first], run[m]) && run[m].prod == Ready
    ensures Unchanged(run[first], run[m])
  {
    RunKeepsSafe(run, first);
    RunKeepsSafe(run, m);
    FailedCall(run[first], run[m]);
  }

  /** The whole call: all or nothing. */
  lemma EnqueueIsAllOrNothing(run: seq<State>, first: nat, last: nat, vals: seq<Value>)
    requires IsCall(run, first, last, vals)
    ensures Appended(run[first], run[last], vals) || Unchanged(run[first], run[last])
  {
    StartIsNotReady(run[first], run[first + 1], vals);
    InsideCall(run, first, last, vals, last - 1);
    assert Busy(run, last - 1);
    if Publish(run[last - 1], run[last]) {
      EndsPublished(run, first, last - 1, vals);
    } else {
      CallGoesOn(run, first, vals, last - 1);
      EndsFailed(run, first, last);
    }
  }

  // -------------------------------------------------------- why a call may fail

  /** No memory for a larger index, or no block to be had. */
  ghost predicate AllocationFails(s: State, s': State) {
    FindFail(s, s') || ObtainFail(s, s')
  }

  lemma IndexStepsDoNotFail(s: State, s': State)
    requires FindFree(s, s') || DoStoreKey(s, s') || DoStoreTail(s, s')
    ensures !Failing(s'.prod)
  {
  }

  lemma GrowDoesNotFail(s: State, s': State)
    requires FindGrow(s, s') || DoStoreValue(s, s')
    ensures !Failing(s'.prod)
  {
  }

  lemma InsertFails(s: State, s': State)
    requires InsertStep(s, s') && Failing(s'.prod)
    ensures AllocationFails(s, s')
  {
    if FindFree(s, s') || DoStoreKey(s, s') || DoStoreTail(s, s') {
      IndexStepsDoNotFail(s, s');
    } else if FindGrow(s, s') || DoStoreValue(s, s') {
      GrowDoesNotFail(s, s');
    }
  }

  lemma RevertWasFailing(s: State, s': State)
    requires RevertStep(s, s')
    ensures Failing(s.prod)
  {
  }

  lemma ProdStartsFailing(s: State, s': State)
    requires ProdStep(s, s') && !Failing(s.prod) && Failing(s'.prod)
    ensures AllocationFails(s, s')
  {
    if InsertStep(s, s') {
      InsertFails(s, s');
    } else if RevertStep(s, s') {
      RevertWasFailing(s, s');
    }
  }

  lemma StepStartsFailing(run: seq<State>, m: nat)
    requires IsRun(run) && m + 1 < |run| && !Failing(run[m].prod) && Failing(run[m + 1].prod)
    ensures AllocationFails(run[m], run[m + 1])
  {
    var s, s' := run[m], run[m + 1];
    assert StepAt(run, m);
    if t :| ConsStep(s, s', t) {
      ConsKeepsProd(run, m, t);
    } else if ProdStep(s, s') {
      ProdStartsFailing(s, s');
    }
  }

  lemma ConsKeepsProd(run: seq<State>, m: nat, t: Tid)
    requires IsRun(run) && m + 1 < |run| && ConsStep(run[m], run[m + 1], t)
    ensures run[m + 1].prod == run[m].prod
  {
    RunKeepsSafe(run, m);
    ConsStepKeepsSafe(run[m], run[m + 1], t);
  }

  ghost predicate FailsAt(run: seq<State>, m: nat)
    requires m + 1 < |run|
  {
    AllocationFails(run[m], run[m + 1])
  }

  lemma {:induction false} NotFailingInside(run: seq<State>, first: nat, last: nat, vals: seq<Value>, m: nat)
    requires IsCall(run, first, last, vals) && first < m < last
    requires forall j: nat {:trigger FailsAt(run, j)} :: first <= j < last ==> !FailsAt(run, j)
    ensures !Failing(run[m].prod)
    decreases m
  {
    if m > first + 1 {
      NotFailingInside(run, first, last, vals, m - 1);
      assert !FailsAt(run, m - 1);
      if Failing(run[m].prod) {
        StepStartsFailing(run, m - 1);
      }
    }
  }

  lemma UnfailingReturn(run: seq<State>, m: nat)
    requires IsRun(run) && m + 1 < |run| && !Failing(run[m].prod) && run[m].prod != Ready && run[m + 1].prod == Ready
    ensures Publish(run[m], run[m + 1])
  {
    var s, s' := run[m], run[m + 1];
    assert StepAt(run, m);
    if t :| ConsStep(s, s', t) {
      ConsKeepsProd(run, m, t);
    } else if InsertStep(s, s') {
      RunKeepsSafe(run, m);
      InsertStepKeepsSafe(s, s');
    }
  }

  /** A call in which no allocation fails appends its values. */
  lemma FailsOnlyForMemory(run: seq<State>, first: nat, last: nat, vals: seq<Value>)
    requires IsCall(run, first, last, vals)
    requires forall j: nat {:trigger FailsAt(run, j)} :: first <= j < last ==> !FailsAt(run, j)
    ensures Appended(run[first], run[last], vals)
  {
    StartIsNotReady(run[first], run[first + 1], vals);
    InsideCall(run, first, last, vals, last - 1);
    NotFailingInside(run, first, last, vals, last - 1);
    assert Busy(run, last - 1);
    UnfailingReturn(run, last - 1);
    EndsPublished(run, first, last - 1, vals);
  }
}
