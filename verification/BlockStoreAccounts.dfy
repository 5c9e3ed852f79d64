/** Conservation: no claimed index and no block is lost, whatever the interleaving. */
module BlockStoreAccounts {
  import opened Ranges
  import opened BlockIndex
  import opened BlockStore
  import opened BlockStoreSafety
  import opened BlockStoreRuns

  /** t still has to fetch element x. */
  ghost predicate StillToFetch(s: State, t: Tid, x: nat) {
    t in s.cons && FreshFrom(s.cons[t]) <= x < JobOf(s.cons[t]).stop
  }

  /** t has fetched element x and still has to mark its slot empty. */
  ghost predicate StillToMark(s: State, t: Tid, x: nat) {
    t in s.cons && JobOf(s.cons[t]).index <= x < FreshFrom(s.cons[t])
  }

  ghost predicate StillToFree(s: State, t: Tid, b: Block) {
    t in s.cons && s.cons[t].FreeBlock? && s.cons[t].block == b
  }

  ghost predicate StillToNull(s: State, t: Tid, k: nat) {
    t in s.cons && s.cons[t].StoreNull? && s.cons[t].number == k
  }

  ghost predicate ClaimedKept(s: State, x: nat) {
    x < s.head ==> x in s.delivered || exists t :: StillToFetch(s, t, x)
  }

  ghost predicate FetchedKept(s: State, x: nat) {
    x in s.delivered ==> x in s.done || exists t :: StillToMark(s, t, x)
  }

  ghost predicate LiveBlock(r: Ring, b: Block) {
    exists k :: k in r.live && r.live[k].block == b
  }

  ghost predicate OwnedKept(s: State, b: Block) {
    b in s.owned ==> LiveBlock(s.ring, b) || b in ProdHand(s) || exists t :: StillToFree(s, t, b)
  }

  ghost predicate FullKept(s: State, k: nat) {
    k in s.ring.live && Range(BLOCK_SIZE * k, BLOCK_SIZE) <= s.done ==> exists t :: StillToNull(s, t, k)
  }

  ghost predicate Accounted(s: State) {
    && (forall x: nat {:trigger ClaimedKept(s, x)} :: ClaimedKept(s, x))
    && (forall x: nat {:trigger FetchedKept(s, x)} :: FetchedKept(s, x))
    && (forall b: nat {:trigger OwnedKept(s, b)} :: OwnedKept(s, b))
    && (forall k: nat {:trigger FullKept(s, k)} :: FullKept(s, k))
  }

  // ---------------------------------------------------------- producer steps

  /** A producer step touches no index; blocks and full blocks are to be checked. */
  lemma ProdAccounts(s: State, s': State)
    requires Accounted(s)
    requires s'.cons == s.cons && s'.head == s.head && s'.delivered == s.delivered && s'.done == s.done
    requires forall b: nat {:trigger OwnedKept(s', b)} :: OwnedKept(s', b)
    requires forall k: nat :: k in s'.ring.live && k !in s.ring.live ==> !(Range(BLOCK_SIZE * k, BLOCK_SIZE) <= s.done)
    ensures Accounted(s')
  {
    forall x: nat ensures ClaimedKept(s', x) {
      assert ClaimedKept(s, x);
      if t :| StillToFetch(s, t, x) { assert StillToFetch(s', t, x); }
    }
    forall x: nat ensures FetchedKept(s', x) {
      assert FetchedKept(s, x);
      if t :| StillToMark(s, t, x) { assert StillToMark(s', t, x); }
    }
    forall k: nat ensures FullKept(s', k) {
      assert FullKept(s, k);
      if t :| StillToNull(s, t, k) { assert StillToNull(s', t, k); }
    }
  }

  lemma FreeingStays(s: State, s': State, b: Block)
    requires s'.cons == s.cons
    ensures (exists t :: StillToFree(s, t, b)) ==> (exists t :: StillToFree(s', t, b))
  {
    if t :| StillToFree(s, t, b) { assert StillToFree(s', t, b); }
  }

  lemma BlocksKeptAccounts(s: State, s': State)
    requires Accounted(s) && KeepsHistory(s, s') && KeepsBlocks(s, s')
    ensures Accounted(s')
  {
    forall b: nat ensures OwnedKept(s', b) {
      assert OwnedKept(s, b);
      FreeingStays(s, s', b);
    }
    ProdAccounts(s, s');
  }

  lemma ObtainAccounts(s: State, s': State, block: Block)
    requires Safe(s) && Accounted(s) && Obtain(s, s', block)
    ensures Accounted(s')
  {
    forall b: nat ensures OwnedKept(s', b) {
      assert OwnedKept(s, b);
      FreeingStays(s, s', b);
    }
    ProdAccounts(s, s');
  }

  lemma StoreValueAccounts(s: State, s': State)
    requires Safe(s) && Accounted(s) && DoStoreValue(s, s')
    ensures Accounted(s')
  {
    var n := s.ring.count;
    forall k | k in s.ring.live ensures k < n {
      assert LiveOk(s.ring, k);
    }
    assert s'.ring.live[n].block == s.prod.block;
    forall b: nat ensures OwnedKept(s', b) {
      assert OwnedKept(s, b);
      FreeingStays(s, s', b);
      if k :| k in s.ring.live && s.ring.live[k].block == b {
        assert k in s'.ring.live && s'.ring.live[k].block == b;
      }
    }
    assert !(Range(BLOCK_SIZE * n, BLOCK_SIZE) <= s.done) by {
      var x := BLOCK_SIZE * n;
      assert x in Range(x, BLOCK_SIZE);
      assert x in s.done ==> DoneOk(s, x);
    }
    ProdAccounts(s, s');
  }

  lemma UndoAccounts(s: State, s': State)
    requires Safe(s) && Accounted(s) && DoUndo(s, s')
    ensures Accounted(s')
  {
    UndoFindsEntry(s);
    UndoHand(s, s');
    forall b: nat ensures OwnedKept(s', b) {
      assert OwnedKept(s, b);
      FreeingStays(s, s', b);
      if k :| k in s.ring.live && s.ring.live[k].block == b {
        assert k != s.prod.next ==> k in s'.ring.live && s'.ring.live[k].block == b;
      }
    }
    ProdAccounts(s, s');
  }

  lemma GiveBackAccounts(s: State, s': State)
    requires Safe(s) && Accounted(s) && DoGiveBack(s, s')
    ensures Accounted(s')
  {
    forall b: nat ensures OwnedKept(s', b) {
      assert OwnedKept(s, b);
      FreeingStays(s, s', b);
      if b in ProdHand(s) && b in s'.owned {
        var i :| 0 <= i < |s.prod.chain| && s.prod.chain[i] == b;
        assert s'.prod.chain[i - 1] == b;
      }
    }
    ProdAccounts(s, s');
  }

  lemma EffectAccounts(s: State, s': State)
    requires Safe(s) && Accounted(s) && ProdEffect(s, s')
    ensures Accounted(s')
  {
    if KeepsBlocks(s, s') {
      BlocksKeptAccounts(s, s');
    } else if block :| Obtain(s, s', block) {
      ObtainAccounts(s, s', block);
    } else if DoStoreValue(s, s') {
      StoreValueAccounts(s, s');
    } else if DoUndo(s, s') {
      UndoAccounts(s, s');
    } else {
      GiveBackAccounts(s, s');
    }
  }

  /** Writing and publishing move no block. */
  lemma WriteAccounts(s: State, s': State)
    requires Accounted(s) && (DoWrite(s, s') || Publish(s, s'))
    ensures Accounted(s')
  {
    forall b: nat ensures OwnedKept(s', b) {
      assert OwnedKept(s, b);
      FreeingStays(s, s', b);
    }
    ProdAccounts(s, s');
  }

  // ---------------------------------------------------------- consumer steps

  /** What t's step has to leave in order for indices: those it had to fetch or
      mark are fetched or marked now, or still to be. */
  lemma IndicesKept(s: State, s': State, t: Tid)
    requires Accounted(s) && t in s.cons && t in s'.cons && s'.cons == s.cons[t := s'.cons[t]]
    requires s.done <= s'.done && forall x :: x in s.delivered ==> x in s'.delivered
    requires forall x: nat :: s.head <= x < s'.head ==> StillToFetch(s', t, x)
    requires forall x: nat :: StillToFetch(s, t, x) ==> StillToFetch(s', t, x) || x in s'.delivered
    requires forall x: nat :: StillToMark(s, t, x) || (x in s'.delivered && x !in s.delivered) ==>
               StillToMark(s', t, x) || x in s'.done
    ensures forall x: nat {:trigger ClaimedKept(s', x)} :: ClaimedKept(s', x)
    ensures forall x: nat {:trigger FetchedKept(s', x)} :: FetchedKept(s', x)
  {
    forall x: nat ensures ClaimedKept(s', x) {
      assert ClaimedKept(s, x);
      assert s.head <= x < s'.head ==> StillToFetch(s', t, x);
      if u :| StillToFetch(s, u, x) {
        assert u != t ==> StillToFetch(s', u, x);
      }
    }
    forall x: nat ensures FetchedKept(s', x) {
      assert FetchedKept(s, x);
      if u :| StillToMark(s, u, x) {
        assert u != t ==> StillToMark(s', u, x);
      }
    }
  }

  ghost predicate BecomesFull(s: State, s': State, k: nat) {
    Range(BLOCK_SIZE * k, BLOCK_SIZE) <= s'.done && !(Range(BLOCK_SIZE * k, BLOCK_SIZE) <= s.done)
  }

  lemma BlocksKept(s: State, s': State, t: Tid)
    requires Accounted(s) && t in s.cons && t in s'.cons && s'.cons == s.cons[t := s'.cons[t]]
    requires s'.ring == s.ring && s'.owned <= s.owned && ProdHand(s') == ProdHand(s)
    requires s.cons[t].FreeBlock? ==> s.cons[t].block !in s'.owned
    requires !s.cons[t].StoreNull?
    requires forall k: nat :: k in s.ring.live && BecomesFull(s, s', k) ==> StillToNull(s', t, k)
    ensures forall b: nat {:trigger OwnedKept(s', b)} :: OwnedKept(s', b)
    ensures forall k: nat {:trigger FullKept(s', k)} :: FullKept(s', k)
  {
    forall b: nat ensures OwnedKept(s', b) {
      assert OwnedKept(s, b);
      if u :| StillToFree(s, u, b) {
        assert u != t ==> StillToFree(s', u, b);
      }
    }
    forall k: nat ensures FullKept(s', k) {
      assert FullKept(s, k) && (k in s.ring.live && BecomesFull(s, s', k) ==> StillToNull(s', t, k));
      if u :| StillToNull(s, u, k) {
        assert StillToNull(s', u, k);
      }
    }
  }

  lemma LookupAccounts(s: State, s': State, t: Tid, q: Cons)
    requires Accounted(s) && t in s.cons && s' == Goto(s, t, q)
    requires JobOf(q) == JobOf(s.cons[t]) && FreshFrom(q) == FreshFrom(s.cons[t])
    requires !s.cons[t].StoreNull? && !s.cons[t].FreeBlock?
    ensures Accounted(s')
  {
    IndicesKept(s, s', t);
    BlocksKept(s, s', t);
  }

  lemma ReadAccounts(s: State, s': State, t: Tid)
    requires Safe(s) && Accounted(s) && DoReadSlot(s, s', t)
    ensures Accounted(s')
  {
    assert ConsAt(s, t);
    IndicesKept(s, s', t);
    BlocksKept(s, s', t);
  }

  /** A block that becomes full by t's step is the one t marks, and t goes on to
      take it out. */
  lemma SetEmptyFull(s: State, s': State, t: Tid, k: nat)
    requires Safe(s) && DoSetEmpty(s, s', t) && k in s.ring.live
    requires BecomesFull(s, s', k)
    ensures StillToNull(s', t, k)
  {
    var p := s.cons[t];
    assert ConsAt(s, t);
    JobHasBlock(s, t, p.job.index);
    EmptyCounts(s, s', t, k);
    var block := Range(BLOCK_SIZE * k, BLOCK_SIZE);
    var x :| x in block && x !in s.done;
    assert x in Range(p.job.index, End(p.job) - p.job.index);
    assert k == p.job.index / BLOCK_SIZE;
    assert s'.done * block == block;
  }

  lemma SetEmptyAccounts(s: State, s': State, t: Tid)
    requires Safe(s) && Accounted(s) && DoSetEmpty(s, s', t)
    ensures Accounted(s')
  {
    assert ConsAt(s, t);
    forall k: nat | k in s.ring.live && BecomesFull(s, s', k) ensures StillToNull(s', t, k) {
      SetEmptyFull(s, s', t, k);
    }
    IndicesKept(s, s', t);
    BlocksKept(s, s', t);
  }

  lemma StoreNullAccounts(s: State, s': State, t: Tid)
    requires Safe(s) && Accounted(s) && DoStoreNull(s, s', t)
    ensures Accounted(s')
  {
    assert ConsAt(s, t);
    IndicesKept(s, s', t);
    forall b: nat ensures OwnedKept(s', b) {
      assert OwnedKept(s, b);
      assert StillToFree(s', t, s.cons[t].block);
      if u :| StillToFree(s, u, b) {
        assert StillToFree(s', u, b);
      }
      if k :| k in s.ring.live && s.ring.live[k].block == b {
        assert k != s.cons[t].number ==> k in s'.ring.live && s'.ring.live[k].block == b;
      }
    }
    forall k: nat ensures FullKept(s', k) {
      assert FullKept(s, k);
      if u :| StillToNull(s, u, k) {
        assert k != s.cons[t].number ==> StillToNull(s', u, k);
      }
    }
  }

  lemma FreeBlockAccounts(s: State, s': State, t: Tid)
    requires Safe(s) && Accounted(s) && DoFreeBlock(s, s', t)
    ensures Accounted(s')
  {
    assert ConsAt(s, t);
    IndicesKept(s, s', t);
    BlocksKept(s, s', t);
  }

  lemma ClaimAccounts(s: State, s': State, t: Tid, count: nat)
    requires Safe(s) && Accounted(s) && Claim(s, s', t, count)
    ensures Accounted(s')
  {
    IndicesKept(s, s', t);
    BlocksKept(s, s', t);
  }

  lemma ProdStepAccounts(s: State, s': State)
    requires Safe(s) && Accounted(s) && ProdStep(s, s')
    ensures Accounted(s')
  {
    if vals :| StartEnqueue(s, s', vals) {
      KeepsStartEnqueue(s, s', vals);
      BlocksKeptAccounts(s, s');
    } else if InsertStep(s, s') {
      InsertStepKeepsSafe(s, s');
      EffectAccounts(s, s');
    } else if RevertStep(s, s') {
      RevertStepKeepsSafe(s, s');
      EffectAccounts(s, s');
    } else {
      WriteAccounts(s, s');
    }
  }

  lemma ConsStepAccounts(s: State, s': State, t: Tid)
    requires Safe(s) && Accounted(s) && ConsStep(s, s', t)
    ensures Accounted(s')
  {
    if DoReadSlot(s, s', t) { ReadAccounts(s, s', t); }
    else if DoSetEmpty(s, s', t) { SetEmptyAccounts(s, s', t); }
    else if DoStoreNull(s, s', t) { StoreNullAccounts(s, s', t); }
    else if DoFreeBlock(s, s', t) { FreeBlockAccounts(s, s', t); }
    else { LookupAccounts(s, s', t, s'.cons[t]); }
  }

  lemma NextKeepsAccounted(s: State, s': State)
    requires Safe(s) && Accounted(s) && Next(s, s')
    ensures Accounted(s')
  {
    if ProdStep(s, s') {
      ProdStepAccounts(s, s');
    } else if Publish(s, s') {
      WriteAccounts(s, s');
    } else if t :| ConsStep(s, s', t) {
      ConsStepAccounts(s, s', t);
    } else {
      var t, count: nat :| Claim(s, s', t, count);
      ClaimAccounts(s, s', t, count);
    }
  }

  lemma {:induction false} RunKeepsAccounted(run: seq<State>, i: nat)
    requires IsRun(run) && i < |run|
    ensures Accounted(run[i])
  {
    if i > 0 {
      RunKeepsAccounted(run, i - 1);
      StepAtKeepsAccounted(run, i - 1);
    }
  }

  lemma StepAtKeepsAccounted(run: seq<State>, i: nat)
    requires IsRun(run) && i + 1 < |run| && Accounted(run[i])
    ensures Accounted(run[i + 1])
  {
    RunKeepsSafe(run, i);
    assert StepAt(run, i);
    NextKeepsAccounted(run[i], run[i + 1]);
  }

  // ------------------------------------------------------------ main results

  ghost predicate ConsumersIdle(s: State) {
    forall t {:trigger s.cons[t]} :: t in s.cons ==> s.cons[t] == Idle
  }

  ghost predicate AllIdle(s: State) {
    s.prod == Ready && ConsumersIdle(s)
  }

  lemma SafeIdleMeansAllDelivered(s: State, x: nat)
    requires Safe(s) && Accounted(s) && ConsumersIdle(s)
    ensures x < s.head <==> x in s.delivered
    ensures x < s.head <==> x in s.done
    ensures x < s.head ==> x < |s.written| && s.delivered[x] == s.written[x]
  {
    assert ClaimedKept(s, x) && FetchedKept(s, x);
    assert x in s.delivered ==> DeliveredOk(s, x);
    assert x in s.done ==> DoneOk(s, x);
    assert s.head <= x ==> Fresh(s, x);
  }

  /** Once every consumer has returned, exactly the claimed indices have been
      delivered and marked empty: none is lost, none is out twice. */
  lemma IdleMeansAllDelivered(run: seq<State>, i: nat, x: nat)
    requires IsRun(run) && i < |run| && ConsumersIdle(run[i])
    ensures x < run[i].head <==> x in run[i].delivered
    ensures x < run[i].head <==> x in run[i].done
    ensures x < run[i].head ==> x < |run[i].written| && run[i].delivered[x] == run[i].written[x]
  {
    RunKeepsSafe(run, i);
    RunKeepsAccounted(run, i);
    SafeIdleMeansAllDelivered(run[i], x);
  }

  /** Once every thread has returned, the blocks owned are those of the elements
      still in the queue: when the queue is empty, at most the tail block. */
  lemma IdleBlocksAreLive(run: seq<State>, i: nat, b: Block)
    requires IsRun(run) && i < |run| && AllIdle(run[i]) && b in run[i].owned
    ensures exists k :: k in run[i].ring.live && run[i].ring.live[k].block == b
                        && run[i].head / BLOCK_SIZE <= k && BLOCK_SIZE * k < run[i].tail
  {
    var s := run[i];
    RunKeepsSafe(run, i);
    RunKeepsAccounted(run, i);
    assert OwnedKept(s, b);
    ReadyIsSettled(s);
    var k :| k in s.ring.live && s.ring.live[k].block == b;
    assert FullKept(s, k);
    var x :| x in Range(BLOCK_SIZE * k, BLOCK_SIZE) && x !in s.done;
    IdleMeansAllDelivered(run, i, x);
  }

  lemma EmptyQueueOwnsOneBlock(run: seq<State>, i: nat)
    requires IsRun(run) && i < |run| && AllIdle(run[i]) && run[i].head == run[i].tail
    ensures run[i].owned <= {run[i].tailBlock}
    ensures run[i].tail % BLOCK_SIZE == 0 ==> run[i].owned == {}
  {
    var s := run[i];
    RunKeepsSafe(run, i);
    forall b | b in s.owned ensures b == s.tailBlock && s.tail % BLOCK_SIZE != 0 {
      IdleBlocksAreLive(run, i, b);
      var k :| k in s.ring.live && s.ring.live[k].block == b && s.head / BLOCK_SIZE <= k && BLOCK_SIZE * k < s.tail;
      assert k == s.tail / BLOCK_SIZE;
      assert k == s.ring.settled - 1;
    }
  }
}
