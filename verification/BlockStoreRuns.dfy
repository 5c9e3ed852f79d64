/** Runs of the block store: what holds in every reachable state. */
module BlockStoreRuns {
  import opened Options
  import opened Modular
  import opened Ranges
  import opened BlockIndex
  import opened BlockStore
  import opened BlockStoreSafety

  ghost predicate StepAt(run: seq<State>, i: nat)
    requires i + 1 < |run|
  {
    Next(run[i], run[i + 1])
  }

  ghost predicate IsRun(run: seq<State>) {
    && run != [] && Init(run[0])
    && forall i: nat {:trigger StepAt(run, i)} :: i + 1 < |run| ==> StepAt(run, i)
  }

  lemma InitGivesSafe(s: State)
    requires Init(s)
    ensures Safe(s)
  {
    FirstRingInv();
    assert HeaderOk(s.ring, Last(s.ring));
  }

  ghost predicate TakesBlock(s: State, s': State) {
    exists block :: Obtain(s, s', block)
  }

  /** A producer step that inserts or reverts, seen from outside. */
  ghost predicate ProdEffect(s: State, s': State) {
    && KeepsHistory(s, s') && MovesOn(s.prod, s'.prod)
    && (KeepsBlocks(s, s') || TakesBlock(s, s') || DoStoreValue(s, s') || DoUndo(s, s') || DoGiveBack(s, s'))
  }

  lemma InsertStepKeepsSafe(s: State, s': State)
    requires Safe(s) && InsertStep(s, s')
    ensures Safe(s') && ProdEffect(s, s')
  {
    if block :| Obtain(s, s', block) { KeepsObtain(s, s', block); }
    else if FindFree(s, s') { KeepsFindFree(s, s'); }
    else if FindGrow(s, s') { KeepsFindGrow(s, s'); }
    else if FindFail(s, s') { KeepsFindFail(s, s'); }
    else if DoStoreKey(s, s') { KeepsStoreKey(s, s'); }
    else if DoStoreTail(s, s') { KeepsStoreTail(s, s'); }
    else if ObtainFail(s, s') { KeepsObtainFail(s, s'); }
    else { KeepsStoreValue(s, s'); }
  }

  lemma RevertStepKeepsSafe(s: State, s': State)
    requires Safe(s) && RevertStep(s, s')
    ensures Safe(s') && ProdEffect(s, s')
  {
    if DoRewind(s, s') { KeepsRewind(s, s'); }
    else if DoResetValue(s, s') { KeepsResetValue(s, s'); }
    else if DoUndo(s, s') { KeepsUndo(s, s'); }
    else if DoUndoRewind(s, s') { KeepsUndoRewind(s, s'); }
    else if UndoDone(s, s') { KeepsUndoDone(s, s'); }
    else { KeepsGiveBack(s, s'); }
  }

  lemma ProdStepKeepsSafe(s: State, s': State)
    requires Safe(s) && ProdStep(s, s')
    ensures Safe(s') && ProdVisible(s, s')
  {
    if vals :| StartEnqueue(s, s', vals) {
      KeepsStartEnqueue(s, s', vals);
    } else if InsertStep(s, s') {
      InsertStepKeepsSafe(s, s');
    } else if RevertStep(s, s') {
      RevertStepKeepsSafe(s, s');
    } else {
      KeepsWrite(s, s');
    }
  }

  lemma ConsStepKeepsSafe(s: State, s': State, t: Tid)
    requires Safe(s) && ConsStep(s, s', t)
    ensures Safe(s') && ConsEffect(s, s', t)
  {
    if DoLoadHeader(s, s', t) { KeepsLoadHeader(s, s', t); }
    else if DoLoadTail(s, s', t) { KeepsLoadTail(s, s', t); }
    else if DoLoadKey(s, s', t) { KeepsLoadKey(s, s', t); }
    else if DoLoadValue(s, s', t) { KeepsLoadValue(s, s', t); }
    else if DoReadSlot(s, s', t) { KeepsReadSlot(s, s', t); }
    else if DoSetEmpty(s, s', t) { KeepsSetEmpty(s, s', t); }
    else if DoStoreNull(s, s', t) { KeepsStoreNull(s, s', t); }
    else { KeepsFreeBlock(s, s', t); }
  }

  lemma NextKeepsSafe(s: State, s': State)
    requires Safe(s) && Next(s, s')
    ensures Safe(s')
  {
    if ProdStep(s, s') {
      ProdStepKeepsSafe(s, s');
    } else if Publish(s, s') {
      KeepsPublish(s, s');
    } else if t :| ConsStep(s, s', t) {
      ConsStepKeepsSafe(s, s', t);
    } else {
      var t, count: nat :| Claim(s, s', t, count);
      KeepsClaim(s, s', t, count);
    }
  }

  lemma {:induction false} RunKeepsSafe(run: seq<State>, i: nat)
    requires IsRun(run) && i < |run|
    ensures Safe(run[i])
  {
    if i == 0 {
      InitGivesSafe(run[0]);
    } else {
      RunKeepsSafe(run, i - 1);
      assert StepAt(run, i - 1);
      NextKeepsSafe(run[i - 1], run[i]);
    }
  }

  // ------------------------------------------ lookups in every reachable state

  /** The tail entry that the lookup reads carries a key (first assertion of
      get_block_index_index_for_index). */
  ghost predicate KeyThere(s: State, p: Cons)
    requires p.LoadKey?
  {
    && p.h < |s.ring.headers| && p.tail < |s.ring.headers[p.h].index|
    && s.ring.headers[p.h].index[p.tail] < |s.ring.entries|
    && s.ring.entries[s.ring.headers[p.h].index[p.tail]].key.Some?
  }

  /** The entry found holds the block of the claimed index under that block's
      base (second assertion of get_block_index_index_for_index). */
  ghost predicate BlockThere(s: State, p: Cons)
    requires p.LoadValue?
  {
    var k := p.job.index / BLOCK_SIZE;
    && k in s.ring.live
    && p.h < |s.ring.headers| && p.pos < |s.ring.headers[p.h].index|
    && s.ring.headers[p.h].index[p.pos] < |s.ring.entries|
    && s.ring.entries[s.ring.headers[p.h].index[p.pos]]
       == Entry(Some(BLOCK_SIZE * k), Some(s.ring.live[k].block), k)
  }

  /** The slot about to be read holds the value enqueued at that index. */
  ghost predicate ValueThere(s: State, p: Cons)
    requires p.ReadSlot?
  {
    && p.i / BLOCK_SIZE in s.ring.live && s.ring.live[p.i / BLOCK_SIZE].block == p.block
    && (p.block, p.i % BLOCK_SIZE) in s.slots && p.i < |s.written|
    && s.slots[(p.block, p.i % BLOCK_SIZE)] == s.written[p.i]
  }

  lemma SafeLookups(s: State, t: Tid)
    requires Safe(s) && t in s.cons
    ensures s.cons[t].LoadKey? ==> KeyThere(s, s.cons[t])
    ensures s.cons[t].LoadValue? ==> BlockThere(s, s.cons[t])
    ensures s.cons[t].ReadSlot? ==> ValueThere(s, s.cons[t])
  {
    var p := s.cons[t];
    assert ConsAt(s, t);
    if p.LoadKey? {
      assert HeaderOk(s.ring, p.h);
    } else if p.LoadValue? {
      PositionHoldsBlock(s, t);
    } else if p.ReadSlot? {
      SlotHoldsValue(s, t);
      JobHasBlock(s, t, p.i);
      assert p.i / BLOCK_SIZE == p.job.index / BLOCK_SIZE;
    }
  }

  /** A consumer that read the tail of any header, at any time, finds a key there,
      arrives at its own block, and reads the value enqueued at its index. */
  lemma LookupsAreRight(run: seq<State>, i: nat, t: Tid)
    requires IsRun(run) && i < |run| && t in run[i].cons
    ensures run[i].cons[t].LoadKey? ==> KeyThere(run[i], run[i].cons[t])
    ensures run[i].cons[t].LoadValue? ==> BlockThere(run[i], run[i].cons[t])
    ensures run[i].cons[t].ReadSlot? ==> ValueThere(run[i], run[i].cons[t])
  {
    RunKeepsSafe(run, i);
    SafeLookups(run[i], t);
  }

  ghost predicate CanStep(s: State, t: Tid) {
    exists s' :: ConsStep(s, s', t)
  }

  lemma CanLoadHeaderOrTail(s: State, t: Tid)
    requires Safe(s) && t in s.cons && (s.cons[t].LoadHeader? || s.cons[t].LoadTail?)
    ensures CanStep(s, t)
  {
    var p := s.cons[t];
    assert ConsAt(s, t);
    var s' := Goto(s, t, if p.LoadHeader? then LoadTail(p.job, Last(s.ring))
                         else LoadKey(p.job, p.h, s.ring.headers[p.h].tail));
    assert ConsStep(s, s', t);
  }

  lemma CanLoadKey(s: State, t: Tid)
    requires Safe(s) && t in s.cons && s.cons[t].LoadKey?
    ensures CanStep(s, t)
  {
    var p := s.cons[t];
    SafeLookups(s, t);
    assert ConsAt(s, t) && HeaderOk(s.ring, p.h);
    var header := s.ring.headers[p.h];
    var s' := Goto(s, t, LoadValue(p.job, p.h,
      LookupPosition(header, p.tail, s.ring.entries[header.index[p.tail]].key.value, p.job.index)));
    assert DoLoadKey(s, s', t);
    assert ConsStep(s, s', t);
  }

  lemma CanLoadValue(s: State, t: Tid)
    requires Safe(s) && t in s.cons && s.cons[t].LoadValue?
    ensures CanStep(s, t)
  {
    var p := s.cons[t];
    SafeLookups(s, t);
    var s' := Goto(s, t, ReadSlot(p.job, p.h, p.pos,
      s.ring.entries[s.ring.headers[p.h].index[p.pos]].value.value, p.job.index));
    assert DoLoadValue(s, s', t);
    assert ConsStep(s, s', t);
  }

  lemma CanReadSlot(s: State, t: Tid)
    requires Safe(s) && t in s.cons && s.cons[t].ReadSlot?
    ensures CanStep(s, t)
  {
    var p := s.cons[t];
    SafeLookups(s, t);
    var q := if p.i + 1 < End(p.job) then p.(i := p.i + 1) else SetEmpty(p.job, p.h, p.pos, p.block);
    var s' := Goto(s, t, q).(delivered := s.delivered[p.i := s.slots[(p.block, p.i % BLOCK_SIZE)]]);
    assert DoReadSlot(s, s', t);
    assert ConsStep(s, s', t);
  }

  lemma CanSetEmpty(s: State, t: Tid)
    requires Safe(s) && t in s.cons && s.cons[t].SetEmpty?
    ensures CanStep(s, t)
  {
    var p := s.cons[t];
    assert ConsAt(s, t) && HeaderOk(s.ring, p.h);
    JobHasBlock(s, t, p.job.index);
    assert BlockOk(s, p.job.index / BLOCK_SIZE);
    var n := End(p.job) - p.job.index;
    var job := p.job.(index := End(p.job));
    var q := if s.emptied[p.block] + n == BLOCK_SIZE
             then StoreNull(job, p.h, p.pos, p.block, p.job.index / BLOCK_SIZE)
             else NextBlock(s, job, p.h, p.pos);
    var s' := Goto(s, t, q).(emptied := s.emptied[p.block := s.emptied[p.block] + n],
                             done := s.done + Range(p.job.index, n));
    assert DoSetEmpty(s, s', t);
    assert ConsStep(s, s', t);
  }

  lemma CanStoreNull(s: State, t: Tid)
    requires Safe(s) && t in s.cons && s.cons[t].StoreNull?
    ensures CanStep(s, t)
  {
    var p := s.cons[t];
    NullFindsEntry(s, t);
    var e := s.ring.headers[p.h].index[p.pos];
    var s' := Goto(s, t, FreeBlock(p.job, p.h, p.pos, p.block)).(
      ring := SetEntry(s.ring, e, s.ring.entries[e].(value := None)).(live := s.ring.live - {p.number}));
    assert DoStoreNull(s, s', t);
    assert ConsStep(s, s', t);
  }

  lemma CanFreeBlock(s: State, t: Tid)
    requires Safe(s) && t in s.cons && s.cons[t].FreeBlock?
    ensures CanStep(s, t)
  {
    var p := s.cons[t];
    assert ConsAt(s, t) && HeaderOk(s.ring, p.h);
    var s' := Goto(s, t, NextBlock(s, p.job, p.h, p.pos)).(owned := s.owned - {p.block});
    assert DoFreeBlock(s, s', t);
    assert ConsStep(s, s', t);
  }

  lemma ConsumerCanStep(s: State, t: Tid)
    requires Safe(s) && t in s.cons && !s.cons[t].Idle?
    ensures CanStep(s, t)
  {
    match s.cons[t]
    case LoadHeader(_) => CanLoadHeaderOrTail(s, t);
    case LoadTail(_, _) => CanLoadHeaderOrTail(s, t);
    case LoadKey(_, _, _) => CanLoadKey(s, t);
    case LoadValue(_, _, _) => CanLoadValue(s, t);
    case ReadSlot(_, _, _, _, _) => CanReadSlot(s, t);
    case SetEmpty(_, _, _, _) => CanSetEmpty(s, t);
    case StoreNull(_, _, _, _, _) => CanStoreNull(s, t);
    case FreeBlock(_, _, _, _) => CanFreeBlock(s, t);
  }

  /** A consumer that holds a claim is never stuck: whatever it needs next is there. */
  lemma ConsumersNeverStuck(run: seq<State>, i: nat, t: Tid)
    requires IsRun(run) && i < |run| && t in run[i].cons && !run[i].cons[t].Idle?
    ensures CanStep(run[i], t)
  {
    RunKeepsSafe(run, i);
    ConsumerCanStep(run[i], t);
  }

  ghost predicate ProdCanStep(s: State) {
    exists s' :: ProdStep(s, s') || Publish(s, s')
  }

  lemma RingIsUsable(r: Ring)
    requires Shaped(r)
    ensures RingUsable(r)
  {
    assert HeaderOk(r, Last(r));
  }

  lemma CanFind(s: State)
    requires Safe(s) && s.prod.FindSlot?
    ensures ProdCanStep(s)
  {
    RingIsUsable(s.ring);
    var entry := s.ring.entries[NextEntry(s.ring)];
    if entry.key.None? || entry.value.None? {
      var s' := s.(prod := StoreKey(s.prod.vals, s.prod.chain, NextEntry(s.ring)));
      assert FindFree(s, s');
      assert InsertStep(s, s') && ProdStep(s, s');
    } else {
      var s' := s.(prod := Undo(s.prod.chain, s.ring.settled));
      assert FindFail(s, s');
      assert InsertStep(s, s') && ProdStep(s, s');
    }
  }

  lemma CanStoreIndex(s: State)
    requires Safe(s) && (s.prod.StoreKey? || s.prod.StoreTail? || s.prod.Requisition? || s.prod.StoreValue?)
    ensures ProdCanStep(s)
  {
    RingIsUsable(s.ring);
    assert HeaderOk(s.ring, Last(s.ring));
    var p, s1 := s.prod, s;
    if p.StoreKey? {
      s1 := s.(ring := PutKey(s.ring, p.entry), prod := StoreTail(p.vals, p.chain, p.entry));
    } else if p.StoreTail? {
      s1 := s.(ring := SetTail(s.ring, Wrap(Current(s.ring).tail + 1, Current(s.ring).capacity)),
               prod := Requisition(p.vals, p.chain, p.entry));
    } else if p.Requisition? {
      s1 := s.(prod := Rewind(p.chain, p.entry));
    } else {
      s1 := s.(ring := PutBlock(s.ring, p.entry, p.block));
      s1 := s1.(prod := GoOn(s1, p.vals, p.chain + [p.block]));
    }
    assert InsertStep(s, s1);
    assert ProdStep(s, s1);
  }

  lemma CanRevert(s: State)
    requires Safe(s) && (s.prod.Rewind? || s.prod.ResetValue? || s.prod.UndoRewind? || s.prod.GiveBack?)
    ensures ProdCanStep(s)
  {
    RingIsUsable(s.ring);
    assert HeaderOk(s.ring, Last(s.ring));
    var p, s1 := s.prod, s;
    if p.Rewind? {
      s1 := s.(ring := Rewound(s.ring), prod := ResetValue(p.chain, p.entry));
    } else if p.ResetValue? {
      s1 := s.(ring := SetEntry(s.ring, p.entry, s.ring.entries[p.entry].(value := None)),
               prod := Undo(p.chain, s.ring.settled));
    } else if p.UndoRewind? {
      s1 := s.(ring := Rewound(s.ring), prod := Undo(p.chain, p.next + 1));
    } else if p.chain == [] {
      s1 := s.(prod := Ready);
    } else {
      s1 := s.(owned := s.owned - {p.chain[0]}, prod := GiveBack(p.chain[1..]));
    }
    assert RevertStep(s, s1);
    assert ProdStep(s, s1);
  }

  lemma CanUndo(s: State)
    requires Safe(s) && s.prod.Undo?
    ensures ProdCanStep(s)
  {
    RingIsUsable(s.ring);
    if s.prod.next < s.ring.count {
      UndoFindsEntry(s);
      var e := LookupEntry(s.ring, s.prod.next);
      var s1 := s.(ring := SetEntry(s.ring, e, s.ring.entries[e].(value := None)).(live := s.ring.live - {s.prod.next}),
                   prod := UndoRewind(s.prod.chain, s.prod.next));
      assert DoUndo(s, s1);
      assert RevertStep(s, s1) && ProdStep(s, s1);
    } else {
      var s1 := s.(ring := s.ring.(count := s.ring.settled), prod := GiveBack(s.prod.chain));
      assert UndoDone(s, s1);
      assert RevertStep(s, s1) && ProdStep(s, s1);
    }
  }

  lemma CanWrite(s: State)
    requires Safe(s) && s.prod.Write?
    ensures ProdCanStep(s)
  {
    var p, x := s.prod, s.tail + s.prod.i;
    WriteBlockIsLive(s, p.chain, x);
    var s1 := s.(slots := s.slots[(WriteBlock(s, p.chain, x), x % BLOCK_SIZE) := p.vals[p.i]],
                 written := s.written + [p.vals[p.i]],
                 prod := if p.i + 1 == |p.vals| then StoreTailIndex(p.vals, p.chain) else p.(i := p.i + 1));
    assert DoWrite(s, s1);
    assert ProdStep(s, s1);
  }

  lemma CanPublish(s: State)
    requires s.prod.StoreTailIndex?
    ensures ProdCanStep(s)
  {
    var p := s.prod;
    var s1 := s.(tail := s.tail + |p.vals|,
                 tailBlock := if p.chain == [] then s.tailBlock else p.chain[|p.chain| - 1],
                 ring := s.ring.(settled := s.ring.count),
                 prod := Ready);
    assert Publish(s, s1);
  }

  /** A running enqueue is never stuck either: the entry it looks up to undo an
      insertion is there, and so is the block of every index it writes. */
  lemma ProducerNeverStuck(run: seq<State>, i: nat)
    requires IsRun(run) && i < |run| && run[i].prod != Ready
    ensures ProdCanStep(run[i])
  {
    var s := run[i];
    RunKeepsSafe(run, i);
    match s.prod
    case FindSlot(_, _) => CanFind(s);
    case StoreKey(_, _, _) => CanStoreIndex(s);
    case StoreTail(_, _, _) => CanStoreIndex(s);
    case Requisition(_, _, _) => CanStoreIndex(s);
    case StoreValue(_, _, _, _) => CanStoreIndex(s);
    case Rewind(_, _) => CanRevert(s);
    case ResetValue(_, _) => CanRevert(s);
    case Undo(_, _) => CanUndo(s);
    case UndoRewind(_, _) => CanRevert(s);
    case GiveBack(_) => CanRevert(s);
    case Write(_, _, _) => CanWrite(s);
    case StoreTailIndex(_, _) => CanPublish(s);
  }

  /** After growing the entry taken is free: the index never grows in vain. */
  lemma GrowingHelps(run: seq<State>, i: nat)
    requires IsRun(run) && i < |run| && run[i].prod.FindSlot?
    ensures RingUsable(run[i].ring) && RingUsable(Grow(run[i].ring))
    ensures var r := run[i].ring; var entry := r.entries[NextEntry(r)];
      entry.key.Some? && entry.value.Some? ==>
        Grow(r).entries[NextEntry(Grow(r))].key.None? && Grow(r).entries[NextEntry(Grow(r))].value.None?
  {
    var r := run[i].ring;
    RunKeepsSafe(run, i);
    RingIsUsable(r);
    GrownFirstEntry(r);
  }

  lemma GrownFirstEntry(r: Ring)
    requires RingUsable(r)
    ensures RingUsable(Grow(r)) && Grow(r).entries[NextEntry(Grow(r))] == Entry(None, None, r.count)
  {
    var c := Current(r).capacity;
    WrapIsRemainder(c, 2 * c);
    ModSmall(c, 2 * c);
    forall p | 0 <= p < c ensures GrownEntry(Current(r), |r.entries|, p) < |r.entries| {
      WrapIsRemainder(Current(r).tail + 1 + p, c);
    }
  }

  // ------------------------------------------------------ values, over runs

  /** Whatever was delivered for an index is the value enqueued as that number,
      and was published first. */
  lemma DeliveredIsEnqueued(run: seq<State>, i: nat, x: nat)
    requires IsRun(run) && i < |run| && x in run[i].delivered
    ensures x < run[i].head <= run[i].tail <= |run[i].written|
    ensures run[i].delivered[x] == run[i].written[x]
  {
    var s := run[i];
    RunKeepsSafe(run, i);
    assert DeliveredOk(s, x);
    assert s.head <= x ==> Fresh(s, x);
  }

  /** Each index is fetched at most once. */
  lemma FetchedOnce(run: seq<State>, i: nat, t: Tid)
    requires IsRun(run) && i + 1 < |run| && DoReadSlot(run[i], run[i + 1], t)
    ensures run[i].cons[t].i !in run[i].delivered && run[i].cons[t].i in run[i + 1].delivered
  {
    RunKeepsSafe(run, i);
    SlotHoldsValue(run[i], t);
  }

  ghost predicate Extends(s: State, s': State) {
    && s.written <= s'.written && s.tail <= s'.tail && s.head <= s'.head && s.done <= s'.done
    && forall x :: x in s.delivered ==> x in s'.delivered && s'.delivered[x] == s.delivered[x]
  }

  lemma ConsStepExtends(s: State, s': State, t: Tid)
    requires Safe(s) && ConsStep(s, s', t)
    ensures Extends(s, s')
  {
    ConsStepKeepsSafe(s, s', t);
    if s.cons[t].ReadSlot? {
      SlotHoldsValue(s, t);
    }
  }

  lemma StepExtends(s: State, s': State)
    requires Safe(s) && Next(s, s')
    ensures Extends(s, s')
  {
    if ProdStep(s, s') {
      ProdStepKeepsSafe(s, s');
    } else if t :| ConsStep(s, s', t) {
      ConsStepExtends(s, s', t);
    }
  }

  lemma ExtendsChains(a: State, b: State, c: State)
    requires Extends(a, b) && Extends(b, c)
    ensures Extends(a, c)
  {
  }

  lemma StepAtExtends(run: seq<State>, i: nat)
    requires IsRun(run) && i + 1 < |run|
    ensures Extends(run[i], run[i + 1])
  {
    RunKeepsSafe(run, i);
    assert StepAt(run, i);
    StepExtends(run[i], run[i + 1]);
  }

  /** Nothing written, delivered or done is ever taken back or changed. */
  lemma {:induction false} HistoryOnlyGrows(run: seq<State>, i: nat, j: nat)
    requires IsRun(run) && i <= j < |run|
    ensures Extends(run[i], run[j])
    decreases j
  {
    if i < j {
      HistoryOnlyGrows(run, i, j - 1);
      StepAtExtends(run, j - 1);
      ExtendsChains(run[i], run[j - 1], run[j]);
    }
  }

  /** Outside a call everything is settled. */
  lemma ReadyIsSettled(s: State)
    requires Safe(s) && s.prod == Ready
    ensures s.ring.count == s.ring.settled && |s.written| == s.tail && ProdHand(s) == {}
    ensures forall k :: k in s.ring.live ==> k < s.ring.settled
  {
    forall k | k in s.ring.live ensures k < s.ring.settled {
      assert LiveOk(s.ring, k);
    }
  }

  // ------------------------------------------------------- blocks, over runs

  /** A consumer takes a block out of the index only after each of its slots was
      enqueued, delivered and marked empty. */
  lemma ReleasedBlocksAreDone(run: seq<State>, i: nat, t: Tid, x: nat)
    requires IsRun(run) && i < |run| && t in run[i].cons && run[i].cons[t].StoreNull?
    requires x / BLOCK_SIZE == run[i].cons[t].number
    ensures run[i].cons[t].number in run[i].ring.live
    ensures run[i].ring.live[run[i].cons[t].number].block == run[i].cons[t].block
    ensures x in run[i].done && x in run[i].delivered && x < run[i].tail
  {
    var s := run[i];
    RunKeepsSafe(run, i);
    assert ConsAt(s, t);
    assert x in Range(BLOCK_SIZE * s.cons[t].number, BLOCK_SIZE);
    assert DoneOk(s, x) && Got(s, x) && DeliveredOk(s, x);
  }

  /** The counter of a block never runs over: the stretch of slots that a consumer
      marks still fits (assertions of set_empty and set_many_empty). */
  lemma EmptyCounterFits(run: seq<State>, i: nat, t: Tid)
    requires IsRun(run) && i < |run| && t in run[i].cons && run[i].cons[t].SetEmpty?
    ensures var p := run[i].cons[t];
      p.block in run[i].emptied && run[i].emptied[p.block] + (End(p.job) - p.job.index) <= BLOCK_SIZE
  {
    var s := run[i];
    RunKeepsSafe(run, i);
    var p := s.cons[t];
    assert ConsAt(s, t);
    JobHasBlock(s, t, p.job.index);
    var k := p.job.index / BLOCK_SIZE;
    assert BlockOk(s, k);
    var mine, block := Range(p.job.index, End(p.job) - p.job.index), Range(BLOCK_SIZE * k, BLOCK_SIZE);
    forall x | x in mine ensures x !in s.done && x in block {
      assert Waits(s, x);
    }
    SubsetSize(s.done * block + mine, block);
    assert |s.done * block + mine| == |s.done * block| + |mine|;
  }

  /** Whoever gives a block back is its only holder: it is owned, it is not in the
      index, and no other thread is about to give it back. */
  lemma GivenBackOnce(run: seq<State>, i: nat, t: Tid)
    requires IsRun(run) && i < |run| && t in run[i].cons && run[i].cons[t].FreeBlock?
    ensures var b := run[i].cons[t].block;
      && b in run[i].owned && NotLive(run[i].ring, b) && b !in ProdHand(run[i])
      && forall u :: u in run[i].cons && u != t && run[i].cons[u].FreeBlock? ==> run[i].cons[u].block != b
  {
    var s := run[i];
    RunKeepsSafe(run, i);
    assert ConsAt(s, t);
    forall u | u in s.cons && u != t && s.cons[u].FreeBlock? ensures s.cons[u].block != s.cons[t].block {
      assert ApartAt(s, t, u);
    }
  }

  /** The same for the producer undoing a failed enqueue. */
  lemma UndoneBlocksGivenBackOnce(run: seq<State>, i: nat)
    requires IsRun(run) && i < |run| && run[i].prod.GiveBack?
    ensures var chain := run[i].prod.chain;
      && Distinct(chain)
      && (forall j :: 0 <= j < |chain| ==> chain[j] in run[i].owned && NotLive(run[i].ring, chain[j]))
  {
    var s := run[i];
    RunKeepsSafe(run, i);
    forall j | 0 <= j < |s.prod.chain| ensures s.prod.chain[j] in s.owned && NotLive(s.ring, s.prod.chain[j]) {
      assert s.prod.chain[j] in ProdHand(s);
    }
  }
}
