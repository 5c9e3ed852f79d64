/** Several producers with one pool: module BlockPool hands out and takes back the
    blocks, and each producer is a block store of its own. A producer obtains a block in
    the step in which the pool hands it out, and the pool takes a block back in the step
    in which a producer or one of its consumers gives it away. */
module SharedPool {
  import Pool = BlockPool
  import Store = BlockStore
  import Safety = BlockStoreSafety
  import Runs = BlockStoreRuns

  type Block = Pool.Block

  /** A producer has the name of the thread that enqueues with it. */
  type Producer = Pool.Tid

  datatype State = State(pool: Pool.State, stores: map<Producer, Store.State>)

  /** Only producer p's store, and perhaps the pool, moves. */
  ghost predicate Moves(s: State, s': State, p: Producer) {
    p in s.stores && p in s'.stores && s' == State(s'.pool, s.stores[p := s'.stores[p]])
  }

  ghost predicate PoolAlone(s: State, s': State) {
    s'.stores == s.stores && Pool.Next(s.pool, s'.pool) && s'.pool.held == s.pool.held
  }

  ghost predicate StoreAlone(s: State, s': State, p: Producer) {
    && Moves(s, s', p) && s'.pool == s.pool
    && Store.Next(s.stores[p], s'.stores[p]) && s'.stores[p].owned == s.stores[p].owned
  }

  ghost predicate Obtains(s: State, s': State, p: Producer, b: Block) {
    && Moves(s, s', p) && Pool.HandsOut(s.pool, s'.pool, p, b)
    && Store.Obtain(s.stores[p], s'.stores[p], b)
  }

  ghost predicate GivesAway(st: Store.State, st': Store.State, b: Block) {
    Store.Next(st, st') && b in st.owned && st'.owned == st.owned - {b}
  }

  ghost predicate Releases(s: State, s': State, p: Producer, b: Block) {
    && Moves(s, s', p) && Pool.Release(s.pool, s'.pool, b)
    && GivesAway(s.stores[p], s'.stores[p], b)
  }

  ghost predicate Init(s: State) {
    Pool.Init(s.pool) && forall p :: p in s.stores ==> Store.Init(s.stores[p])
  }

  ghost predicate Next(s: State, s': State) {
    || PoolAlone(s, s')
    || (exists p :: StoreAlone(s, s', p))
    || (exists p, b :: Obtains(s, s', p, b))
    || (exists p, b :: Releases(s, s', p, b))
  }

  ghost predicate StepAt(run: seq<State>, i: nat)
    requires i + 1 < |run|
  {
    Next(run[i], run[i + 1])
  }

  ghost predicate IsRun(run: seq<State>) {
    && run != [] && Init(run[0])
    && forall i: nat {:trigger StepAt(run, i)} :: i + 1 < |run| ==> StepAt(run, i)
  }

  // ----------------------------------------------------------------- invariant

  /** A store owns b exactly if the pool has b in that producer's hands. */
  ghost predicate Agree(s: State, p: Producer, b: Block) {
    p in s.stores ==> (b in s.stores[p].owned <==> b in s.pool.held && s.pool.held[b] == p)
  }

  ghost predicate HolderIsThere(s: State, b: Block) {
    b in s.pool.held ==> s.pool.held[b] in s.stores
  }

  ghost predicate Linked(s: State) {
    && (forall p: Producer, b: Block {:trigger Agree(s, p, b)} :: Agree(s, p, b))
    && (forall b: Block {:trigger HolderIsThere(s, b)} :: HolderIsThere(s, b))
  }

  lemma KeepsPoolAlone(s: State, s': State)
    requires Linked(s) && PoolAlone(s, s')
    ensures Linked(s')
  {
    forall p: Producer, b: Block ensures Agree(s', p, b) {
      assert Agree(s, p, b);
    }
    forall b: Block ensures HolderIsThere(s', b) {
      assert HolderIsThere(s, b);
    }
  }

  lemma KeepsStoreAlone(s: State, s': State, p: Producer)
    requires Linked(s) && StoreAlone(s, s', p)
    ensures Linked(s')
  {
    forall q: Producer, b: Block ensures Agree(s', q, b) {
      assert Agree(s, q, b);
    }
    forall b: Block ensures HolderIsThere(s', b) {
      assert HolderIsThere(s, b);
    }
  }

  lemma KeepsObtains(s: State, s': State, p: Producer, b: Block)
    requires Linked(s) && Pool.PlaceOk(s.pool, b) && Obtains(s, s', p, b)
    ensures Linked(s')
  {
    Pool.StepHandsOut(s.pool, s'.pool, p, b);
    forall q: Producer, x: Block ensures Agree(s', q, x) {
      assert Agree(s, q, x);
    }
    forall x: Block ensures HolderIsThere(s', x) {
      assert HolderIsThere(s, x);
    }
  }

  lemma KeepsReleases(s: State, s': State, p: Producer, b: Block)
    requires Linked(s) && Releases(s, s', p, b)
    ensures Linked(s')
  {
    assert Agree(s, p, b);
    forall q: Producer, x: Block ensures Agree(s', q, x) {
      assert Agree(s, q, x);
    }
    forall x: Block ensures HolderIsThere(s', x) {
      assert HolderIsThere(s, x);
    }
  }

  lemma NextMovesPool(s: State, s': State)
    requires Next(s, s')
    ensures s'.pool == s.pool || Pool.Next(s.pool, s'.pool)
  {
    if p, b :| Releases(s, s', p, b) {
      assert Pool.Release(s.pool, s'.pool, b);
    }
  }

  lemma NextKeepsLinked(s: State, s': State)
    requires Linked(s) && Pool.Inv(s.pool) && Next(s, s')
    ensures Linked(s')
  {
    if PoolAlone(s, s') {
      KeepsPoolAlone(s, s');
    } else if p :| StoreAlone(s, s', p) {
      KeepsStoreAlone(s, s', p);
    } else if p, b :| Obtains(s, s', p, b) {
      assert Pool.PlaceOk(s.pool, b);
      KeepsObtains(s, s', p, b);
    } else {
      var p, b :| Releases(s, s', p, b);
      KeepsReleases(s, s', p, b);
    }
  }

  ghost predicate Inv(s: State) {
    Linked(s) && Pool.Inv(s.pool)
  }

  lemma InitGivesInv(s: State)
    requires Init(s)
    ensures Inv(s)
  {
    forall b: Block ensures Pool.PlaceOk(s.pool, b) {
    }
  }

  lemma NextKeepsInv(s: State, s': State)
    requires Inv(s) && Next(s, s')
    ensures Inv(s')
  {
    NextKeepsLinked(s, s');
    NextMovesPool(s, s');
    if s'.pool != s.pool {
      Pool.NextKeepsInv(s.pool, s'.pool);
    }
  }

  lemma {:induction false} RunKeepsInv(run: seq<State>, i: nat)
    requires IsRun(run) && i < |run|
    ensures Inv(run[i])
  {
    if i == 0 {
      InitGivesInv(run[0]);
    } else {
      RunKeepsInv(run, i - 1);
      assert StepAt(run, i - 1);
      NextKeepsInv(run[i - 1], run[i]);
    }
  }

  // --------------------------------------------------------------- main results

  /** No block belongs to two producers. */
  lemma BlocksAreNotShared(run: seq<State>, i: nat, p: Producer, q: Producer)
    requires IsRun(run) && i < |run| && p in run[i].stores && q in run[i].stores && p != q
    ensures run[i].stores[p].owned !! run[i].stores[q].owned
  {
    RunKeepsInv(run, i);
    forall b ensures !(b in run[i].stores[p].owned && b in run[i].stores[q].owned) {
      assert Agree(run[i], p, b) && Agree(run[i], q, b);
    }
  }

  ghost predicate OwnedBySome(s: State, b: Block) {
    exists p :: p in s.stores && b in s.stores[p].owned
  }

  /** Every block of the initial pool is in exactly one of the pool, the free list and
      the blocks of one producer. */
  lemma PoolBlockHasOneOwner(run: seq<State>, i: nat, b: Block)
    requires IsRun(run) && i < |run| && b < run[i].pool.size
    ensures var s := run[i];
      Pool.OneIf(Pool.Unclaimed(s.pool, b)) + Pool.OneIf(b in s.pool.listed) + Pool.OneIf(OwnedBySome(s, b)) == 1
  {
    var s := run[i];
    RunKeepsInv(run, i);
    assert Pool.PlaceOk(s.pool, b) && HolderIsThere(s, b);
    if b in s.pool.held {
      assert Agree(s, s.pool.held[b], b);
    }
    forall p | p in s.stores && b in s.stores[p].owned ensures b in s.pool.held {
      assert Agree(s, p, b);
    }
  }

  // ------------------------------------ each producer runs as if it were alone

  ghost predicate RunsAlone(st: Store.State) {
    exists alone: seq<Store.State> :: AloneTo(alone, st)
  }

  ghost predicate AloneTo(alone: seq<Store.State>, st: Store.State) {
    Runs.IsRun(alone) && alone[|alone| - 1] == st
  }

  lemma AloneGoesOn(st: Store.State, st': Store.State)
    requires RunsAlone(st) && Store.Next(st, st')
    ensures RunsAlone(st')
  {
    var alone :| AloneTo(alone, st);
    var longer := alone + [st'];
    forall i: nat | i + 1 < |longer| ensures Runs.StepAt(longer, i) {
      if i + 1 < |alone| {
        assert Runs.StepAt(alone, i);
      }
    }
    assert AloneTo(longer, st');
  }

  lemma ObtainIsStep(st: Store.State, st': Store.State, b: Block)
    requires Store.Obtain(st, st', b)
    ensures Store.Next(st, st')
  {
  }

  lemma NextMovesStore(s: State, s': State, p: Producer)
    requires Next(s, s') && p in s.stores
    ensures p in s'.stores && (s'.stores[p] == s.stores[p] || Store.Next(s.stores[p], s'.stores[p]))
  {
    if q, b :| Obtains(s, s', q, b) {
      ObtainIsStep(s.stores[q], s'.stores[q], b);
    }
  }

  lemma NextKeepsProducers(s: State, s': State)
    requires Next(s, s')
    ensures s'.stores.Keys == s.stores.Keys
  {
  }

  /** Whatever the others do, each producer's store is in a state that it reaches in a
      run of its own; so every result of module BlockStoreRuns holds for it. */
  lemma {:induction false} ProducersRunAsAlone(run: seq<State>, i: nat, p: Producer)
    requires IsRun(run) && i < |run| && p in run[i].stores
    ensures RunsAlone(run[i].stores[p]) && Safety.Safe(run[i].stores[p])
  {
    if i == 0 {
      assert AloneTo([run[0].stores[p]], run[0].stores[p]);
    } else {
      assert StepAt(run, i - 1);
      NextKeepsProducers(run[i - 1], run[i]);
      ProducersRunAsAlone(run, i - 1, p);
      NextMovesStore(run[i - 1], run[i], p);
      if run[i].stores[p] != run[i - 1].stores[p] {
        AloneGoesOn(run[i - 1].stores[p], run[i].stores[p]);
      }
    }
    AloneIsSafe(run[i].stores[p]);
  }

  lemma AloneIsSafe(st: Store.State)
    requires RunsAlone(st)
    ensures Safety.Safe(st)
  {
    var alone :| AloneTo(alone, st);
    Runs.RunKeepsSafe(alone, |alone| - 1);
  }

  // ------------------------------------ the pool stands in no producer's way

  ghost predicate IsObtain(st: Store.State, st': Store.State) {
    exists b :: Store.Obtain(st, st', b)
  }

  ghost predicate IsGift(st: Store.State, st': Store.State) {
    exists b :: GivesAway(st, st', b)
  }

  lemma InsertOwned(st: Store.State, st': Store.State)
    requires Store.InsertStep(st, st')
    ensures st'.owned == st.owned || IsObtain(st, st')
  {
  }

  lemma RevertOwned(st: Store.State, st': Store.State)
    requires Store.RevertStep(st, st')
    ensures st'.owned == st.owned
         || (st.prod.GiveBack? && st.prod.chain != [] && st'.owned == st.owned - {st.prod.chain[0]})
  {
    if Store.DoGiveBack(st, st') {
      assert st.prod.chain == [] ==> st'.owned == st.owned;
    } else {
      assert st'.owned == st.owned;
    }
  }

  lemma ConsOwned(st: Store.State, st': Store.State, t: Store.Tid)
    requires Store.ConsStep(st, st', t)
    ensures st'.owned == st.owned
         || (t in st.cons && st.cons[t].FreeBlock? && st'.owned == st.owned - {st.cons[t].block})
  {
  }

  /** A store's own step leaves its blocks alone, obtains one, or gives one away that it
      owns. */
  lemma OwnedChanges(alone: seq<Store.State>, st: Store.State, st': Store.State)
    requires AloneTo(alone, st) && Store.Next(st, st')
    ensures st'.owned == st.owned || IsObtain(st, st') || IsGift(st, st')
  {
    if Store.InsertStep(st, st') {
      InsertOwned(st, st');
    } else if Store.RevertStep(st, st') {
      RevertOwned(st, st');
      if st'.owned != st.owned {
        Runs.UndoneBlocksGivenBackOnce(alone, |alone| - 1);
        assert GivesAway(st, st', st.prod.chain[0]);
      }
    } else if t :| Store.ConsStep(st, st', t) {
      ConsOwned(st, st', t);
      if st'.owned != st.owned {
        Runs.GivenBackOnce(alone, |alone| - 1, t);
        assert GivesAway(st, st', st.cons[t].block);
      }
    }
  }

  /** Next, with producer p's store going to st'. */
  ghost predicate CanGoTo(s: State, p: Producer, st': Store.State) {
    exists s' :: Next(s, s') && Moves(s, s', p) && s'.stores[p] == st'
  }

  /** Every step that a producer or one of its consumers could take alone, other than
      obtaining a block, it can take here. */
  lemma StoreStepsFit(run: seq<State>, i: nat, p: Producer, st': Store.State)
    requires IsRun(run) && i < |run| && p in run[i].stores && Store.Next(run[i].stores[p], st')
    requires !IsObtain(run[i].stores[p], st')
    ensures CanGoTo(run[i], p, st')
  {
    var s, st := run[i], run[i].stores[p];
    ProducersRunAsAlone(run, i, p);
    var alone :| AloneTo(alone, st);
    OwnedChanges(alone, st, st');
    if st'.owned == st.owned {
      assert StoreAlone(s, s.(stores := s.stores[p := st']), p);
    } else {
      var b :| GivesAway(st, st', b);
      RunKeepsInv(run, i);
      GiftFits(s, p, st', b);
    }
  }

  lemma GiftFits(s: State, p: Producer, st': Store.State, b: Block)
    requires Linked(s) && p in s.stores && GivesAway(s.stores[p], st', b)
    ensures CanGoTo(s, p, st')
  {
    assert Agree(s, p, b);
    var pool := s.pool;
    var pool' := if !pool.recycles && b >= pool.size
                 then pool.(held := pool.held - {b}, destroyed := pool.destroyed + {b})
                 else pool.(held := pool.held - {b}, listed := pool.listed + {b});
    var s' := State(pool', s.stores[p := st']);
    assert Releases(s, s', p, b);
  }

  /** And a producer that asks for a block can take whichever the pool hands it. */
  lemma ObtainFits(run: seq<State>, i: nat, p: Producer, pool': Pool.State, b: Block)
    requires IsRun(run) && i < |run| && p in run[i].stores && run[i].stores[p].prod.Requisition?
    requires Pool.HandsOut(run[i].pool, pool', p, b)
    ensures exists s' :: Obtains(run[i], s', p, b) && s'.pool == pool'
  {
    var s := run[i];
    RunKeepsInv(run, i);
    assert Pool.PlaceOk(s.pool, b) && Agree(s, p, b);
    Pool.StepHandsOut(s.pool, pool', p, b);
    var st := s.stores[p];
    var st' := st.(owned := st.owned + {b}, emptied := st.emptied[b := 0],
                   prod := Store.StoreValue(st.prod.vals, st.prod.chain, st.prod.entry, b));
    assert Obtains(s, State(pool', s.stores[p := st']), p, b);
  }

  // ------------------------------------------------------- every request can be met

  lemma OneMore(run: seq<State>, s': State)
    requires IsRun(run) && Next(run[|run| - 1], s')
    ensures IsRun(run + [s'])
  {
    var next := run + [s'];
    forall k: nat | k + 1 < |next| ensures StepAt(next, k) {
      if k + 1 < |run| {
        assert StepAt(run, k);
      }
    }
  }

  /** A step of the pool alone. */
  lemma PoolGoesOn(run: seq<State>, pool': Pool.State)
    requires IsRun(run) && Pool.Next(run[|run| - 1].pool, pool') && pool'.held == run[|run| - 1].pool.held
    ensures IsRun(run + [State(pool', run[|run| - 1].stores)])
  {
    var s' := State(pool', run[|run| - 1].stores);
    assert PoolAlone(run[|run| - 1], s');
    OneMore(run, s');
  }

  /** Producer p is about to ask for a block, or asks for one. */
  ghost predicate Asks(run: seq<State>, p: Producer) {
    && run != [] && p in run[|run| - 1].stores && run[|run| - 1].stores[p].prod.Requisition?
    && p in run[|run| - 1].pool.pc
  }

  /** It has one, and nothing else has changed in the stores. */
  ghost predicate Served(a: State, s': State, p: Producer) {
    && p in a.stores && p in s'.stores && s'.stores == a.stores[p := s'.stores[p]] && s'.stores[p].prod.StoreValue?
  }

  lemma ObtainServes(run: seq<State>, p: Producer, pool': Pool.State, b: Pool.Block) returns (s': State)
    requires IsRun(run) && Asks(run, p) && Pool.HandsOut(run[|run| - 1].pool, pool', p, b)
    ensures IsRun(run + [s']) && Served(run[|run| - 1], s', p)
  {
    ObtainFits(run, |run| - 1, p, pool', b);
    s' :| Obtains(run[|run| - 1], s', p, b) && s'.pool == pool';
    OneMore(run, s');
  }

  lemma {:induction false} GetsServed(run: seq<State>, p: Producer) returns (longer: seq<State>)
    requires IsRun(run) && Asks(run, p) && !run[|run| - 1].pool.pc[p].Got?
    ensures IsRun(longer) && run <= longer && Served(run[|run| - 1], longer[|longer| - 1], p)
    decreases Pool.Left(run[|run| - 1].pool.pc[p])
  {
    var s := run[|run| - 1];
    var pool' := Pool.Ahead(s.pool, p);
    Pool.AheadIsStep(s.pool, p);
    if pool'.pc[p].Got? {
      var s' := ObtainServes(run, p, pool', pool'.pc[p].block.value);
      longer := run + [s'];
    } else {
      PoolGoesOn(run, pool');
      longer := GetsServed(run + [State(pool', s.stores)], p);
    }
  }

  /** So whenever a producer asks for a block, it can get one, if memory can be had. */
  lemma RequestsCanBeMet(run: seq<State>, p: Producer)
    requires IsRun(run) && Asks(run, p)
    ensures exists longer: seq<State> ::
      IsRun(longer) && run <= longer && Served(run[|run| - 1], longer[|longer| - 1], p)
  {
    var s := run[|run| - 1];
    var longer;
    if s.pool.pc[p].Got? {
      var pool' := Pool.Goto(s.pool, p, Pool.Idle);
      assert Pool.ThreadStep(s.pool, pool', p);
      PoolGoesOn(run, pool');
      longer := GetsServed(run + [State(pool', s.stores)], p);
    } else {
      longer := GetsServed(run, p);
    }
  }
}
