/** One implicit producer at work: a single enqueuing thread that fills blocks and
    keeps the block index, and any number of consumers that have claimed indices
    and fetch their elements. Every shared access is one step.

    Claims come from module Claims; here a claim is any stretch of indices from
    the head on that stays below the published tail. Blocks come from a pool that
    hands out any block not owned at the moment, or fails. Values are only moved,
    so integers stand for them. */
module BlockStore {
  import opened Options
  import opened Modular
  import opened Ranges
  import opened BlockIndex

  type Tid = nat
  type Value = int

  /** What is left of a claim: from the first index of the block in hand on. */
  datatype Job = Job(index: nat, stop: nat)

  /** The producer's program point, with its locals. `chain` lists the blocks
      inserted by the running enqueue. */
  datatype Prod =
    | Ready
    | FindSlot(vals: seq<Value>, chain: seq<Block>)
    | StoreKey(vals: seq<Value>, chain: seq<Block>, entry: EntryId)
    | StoreTail(vals: seq<Value>, chain: seq<Block>, entry: EntryId)
    | Requisition(vals: seq<Value>, chain: seq<Block>, entry: EntryId)
    | StoreValue(vals: seq<Value>, chain: seq<Block>, entry: EntryId, block: Block)
    | Rewind(chain: seq<Block>, entry: EntryId)
    | ResetValue(chain: seq<Block>, entry: EntryId)
    | Undo(chain: seq<Block>, next: nat)
    | UndoRewind(chain: seq<Block>, next: nat)
    | GiveBack(chain: seq<Block>)
    | Write(vals: seq<Value>, chain: seq<Block>, i: nat)
    | StoreTailIndex(vals: seq<Value>, chain: seq<Block>)

  datatype Cons =
    | Idle
    | LoadHeader(job: Job)
    | LoadTail(job: Job, h: nat)
    | LoadKey(job: Job, h: nat, tail: nat)
    | LoadValue(job: Job, h: nat, pos: nat)
    | ReadSlot(job: Job, h: nat, pos: nat, block: Block, i: nat)
    | SetEmpty(job: Job, h: nat, pos: nat, block: Block)
    | StoreNull(job: Job, h: nat, pos: nat, block: Block, number: nat)
    | FreeBlock(job: Job, h: nat, pos: nat, block: Block)

  /** Shared: block index, published tail, head, element slots, counters of
      elements completely dequeued. History: all values ever written, the value
      delivered for each index, the indices marked empty, the blocks owned. */
  datatype State = State(
    ring: Ring,
    tail: nat,
    head: nat,
    tailBlock: Block,
    slots: map<(Block, nat), Value>,
    emptied: map<Block, nat>,
    prod: Prod,
    cons: map<Tid, Cons>,
    written: seq<Value>,
    delivered: map<nat, Value>,
    done: set<nat>,
    owned: set<Block>)

  // ------------------------------------------------------- producer steps

  predicate RingUsable(r: Ring) {
    && r.headers != [] && Current(r).capacity > 0 && |Current(r).index| == Current(r).capacity
    && Current(r).tail < Current(r).capacity
    && forall p :: 0 <= p < Current(r).capacity ==> Current(r).index[p] < |r.entries|
  }

  /** The entry one past the newest tail. */
  function NextEntry(r: Ring): EntryId
    requires RingUsable(r)
  {
    Current(r).index[Wrap(Current(r).tail + 1, Current(r).capacity)]
  }

  predicate NeedsBlock(s: State, n: nat) {
    BLOCK_SIZE * s.ring.count < s.tail + n
  }

  function GoOn(s: State, vals: seq<Value>, chain: seq<Block>): Prod {
    if NeedsBlock(s, |vals|) then FindSlot(vals, chain) else Write(vals, chain, 0)
  }

  ghost predicate StartEnqueue(s: State, s': State, vals: seq<Value>) {
    s.prod == Ready && vals != [] && s' == s.(prod := GoOn(s, vals, []))
  }

  /** insert_block_index_entry: reuse the next entry if it is free. */
  ghost predicate FindFree(s: State, s': State) {
    && s.prod.FindSlot? && RingUsable(s.ring)
    && (var entry := s.ring.entries[NextEntry(s.ring)]; entry.key.None? || entry.value.None?)
    && s' == s.(prod := StoreKey(s.prod.vals, s.prod.chain, NextEntry(s.ring)))
  }

  /** No room: allocate a bigger index and publish it. */
  ghost predicate FindGrow(s: State, s': State) {
    && s.prod.FindSlot? && RingUsable(s.ring)
    && (var entry := s.ring.entries[NextEntry(s.ring)]; entry.key.Some? && entry.value.Some?)
    && RingUsable(Grow(s.ring))
    && s' == s.(ring := Grow(s.ring),
                prod := StoreKey(s.prod.vals, s.prod.chain, NextEntry(Grow(s.ring))))
  }

  /** No room and no memory. */
  ghost predicate FindFail(s: State, s': State) {
    && s.prod.FindSlot? && RingUsable(s.ring)
    && (var entry := s.ring.entries[NextEntry(s.ring)]; entry.key.Some? && entry.value.Some?)
    && s' == s.(prod := Undo(s.prod.chain, s.ring.settled))
  }

  ghost predicate DoStoreKey(s: State, s': State) {
    && s.prod.StoreKey? && s.prod.entry < |s.ring.entries|
    && s' == s.(ring := PutKey(s.ring, s.prod.entry),
                prod := StoreTail(s.prod.vals, s.prod.chain, s.prod.entry))
  }

  ghost predicate DoStoreTail(s: State, s': State) {
    && s.prod.StoreTail? && RingUsable(s.ring)
    && s' == s.(ring := SetTail(s.ring, Wrap(Current(s.ring).tail + 1, Current(s.ring).capacity)),
                prod := Requisition(s.prod.vals, s.prod.chain, s.prod.entry))
  }

  /** A block is obtained; it is private, so resetting its counter belongs here. */
  ghost predicate Obtain(s: State, s': State, block: Block) {
    && s.prod.Requisition? && block !in s.owned
    && s' == s.(owned := s.owned + {block}, emptied := s.emptied[block := 0],
                prod := StoreValue(s.prod.vals, s.prod.chain, s.prod.entry, block))
  }

  ghost predicate ObtainFail(s: State, s': State) {
    && s.prod.Requisition?
    && s' == s.(prod := Rewind(s.prod.chain, s.prod.entry))
  }

  ghost predicate DoStoreValue(s: State, s': State) {
    && s.prod.StoreValue? && s.prod.entry < |s.ring.entries| && s.ring.headers != []
    && (var s1 := s.(ring := PutBlock(s.ring, s.prod.entry, s.prod.block));
        s' == s1.(prod := GoOn(s1, s.prod.vals, s.prod.chain + [s.prod.block])))
  }

  /** rewind_block_index_tail */
  function Rewound(r: Ring): Ring
    requires RingUsable(r)
  {
    SetTail(r, Wrap(Current(r).tail - 1, Current(r).capacity))
  }

  ghost predicate DoRewind(s: State, s': State) {
    && s.prod.Rewind? && RingUsable(s.ring)
    && s' == s.(ring := Rewound(s.ring), prod := ResetValue(s.prod.chain, s.prod.entry))
  }

  ghost predicate DoResetValue(s: State, s': State) {
    && s.prod.ResetValue? && s.prod.entry < |s.ring.entries|
    && s' == s.(ring := SetEntry(s.ring, s.prod.entry, s.ring.entries[s.prod.entry].(value := None)),
                prod := Undo(s.prod.chain, s.ring.settled))
  }

  /** The entry that get_block_index_entry_for_index finds for block k in the newest header. */
  function LookupEntry(r: Ring, k: nat): EntryId
    requires RingUsable(r) && r.entries[Current(r).index[Current(r).tail]].key.Some?
  {
    Current(r).index[LookupPosition(Current(r), Current(r).tail,
                                    r.entries[Current(r).index[Current(r).tail]].key.value, BLOCK_SIZE * k)]
  }

  /** Revert the insertion of the next block of the chain: null its entry. */
  ghost predicate DoUndo(s: State, s': State) {
    && s.prod.Undo? && s.prod.next < s.ring.count && RingUsable(s.ring)
    && s.ring.entries[Current(s.ring).index[Current(s.ring).tail]].key.Some?
    && (var e := LookupEntry(s.ring, s.prod.next);
        s' == s.(ring := SetEntry(s.ring, e, s.ring.entries[e].(value := None))
                           .(live := s.ring.live - {s.prod.next}),
                 prod := UndoRewind(s.prod.chain, s.prod.next)))
  }

  ghost predicate DoUndoRewind(s: State, s': State) {
    && s.prod.UndoRewind? && RingUsable(s.ring)
    && s' == s.(ring := Rewound(s.ring), prod := Undo(s.prod.chain, s.prod.next + 1))
  }

  ghost predicate UndoDone(s: State, s': State) {
    && s.prod.Undo? && s.prod.next >= s.ring.count
    && s' == s.(ring := s.ring.(count := s.ring.settled), prod := GiveBack(s.prod.chain))
  }

  /** add_blocks_to_free_list, one block at a time; at the end enqueue returns false. */
  ghost predicate DoGiveBack(s: State, s': State) {
    && s.prod.GiveBack?
    && s' == if s.prod.chain == [] then s.(prod := Ready)
             else s.(owned := s.owned - {s.prod.chain[0]}, prod := GiveBack(s.prod.chain[1..]))
  }

  /** The block that the running enqueue uses for index x. */
  function WriteBlock(s: State, chain: seq<Block>, x: nat): Block
    requires s.ring.settled <= x / BLOCK_SIZE ==> x / BLOCK_SIZE - s.ring.settled < |chain|
  {
    if x / BLOCK_SIZE < s.ring.settled then s.tailBlock else chain[x / BLOCK_SIZE - s.ring.settled]
  }

  ghost predicate DoWrite(s: State, s': State) {
    && s.prod.Write? && s.prod.i < |s.prod.vals|
    && (var x, i := s.tail + s.prod.i, s.prod.i;
        && (s.ring.settled <= x / BLOCK_SIZE ==> x / BLOCK_SIZE - s.ring.settled < |s.prod.chain|)
        && s' == s.(slots := s.slots[(WriteBlock(s, s.prod.chain, x), x % BLOCK_SIZE) := s.prod.vals[i]],
                    written := s.written + [s.prod.vals[i]],
                    prod := if i + 1 == |s.prod.vals| then StoreTailIndex(s.prod.vals, s.prod.chain)
                            else s.prod.(i := i + 1)))
  }

  ghost predicate Publish(s: State, s': State) {
    && s.prod.StoreTailIndex?
    && s' == s.(tail := s.tail + |s.prod.vals|,
                tailBlock := if s.prod.chain == [] then s.tailBlock else s.prod.chain[|s.prod.chain| - 1],
                ring := s.ring.(settled := s.ring.count),
                prod := Ready)
  }

  // ------------------------------------------------------- consumer steps

  function Goto(s: State, t: Tid, p: Cons): State {
    s.(cons := s.cons[t := p])
  }

  ghost predicate Claim(s: State, s': State, t: Tid, count: nat) {
    && t in s.cons && s.cons[t] == Idle && 0 < count && s.head + count <= s.tail
    && s' == Goto(s, t, LoadHeader(Job(s.head, s.head + count))).(head := s.head + count)
  }

  ghost predicate DoLoadHeader(s: State, s': State, t: Tid) {
    && t in s.cons && s.cons[t].LoadHeader? && s.ring.headers != []
    && s' == Goto(s, t, LoadTail(s.cons[t].job, Last(s.ring)))
  }

  ghost predicate DoLoadTail(s: State, s': State, t: Tid) {
    && t in s.cons && s.cons[t].LoadTail? && s.cons[t].h < |s.ring.headers|
    && s' == Goto(s, t, LoadKey(s.cons[t].job, s.cons[t].h, s.ring.headers[s.cons[t].h].tail))
  }

  /** The key of the tail entry is read last; then the position is computed. */
  ghost predicate DoLoadKey(s: State, s': State, t: Tid) {
    && t in s.cons && s.cons[t].LoadKey? && s.cons[t].h < |s.ring.headers|
    && (var p := s.cons[t]; var header := s.ring.headers[p.h];
        && p.tail < |header.index| && header.capacity > 0
        && header.index[p.tail] < |s.ring.entries|
        && s.ring.entries[header.index[p.tail]].key.Some?
        && s' == Goto(s, t, LoadValue(p.job, p.h,
             LookupPosition(header, p.tail, s.ring.entries[header.index[p.tail]].key.value, p.job.index))))
  }

  /** Where the part of the job that lies in the block in hand ends. */
  function End(job: Job): nat {
    Min(job.stop, (job.index / BLOCK_SIZE + 1) * BLOCK_SIZE)
  }

  ghost predicate DoLoadValue(s: State, s': State, t: Tid) {
    && t in s.cons && s.cons[t].LoadValue? && s.cons[t].h < |s.ring.headers|
    && (var p := s.cons[t]; var header := s.ring.headers[p.h];
        && p.pos < |header.index| && header.index[p.pos] < |s.ring.entries|
        && s.ring.entries[header.index[p.pos]].value.Some?
        && s' == Goto(s, t, ReadSlot(p.job, p.h, p.pos,
                                     s.ring.entries[header.index[p.pos]].value.value, p.job.index)))
  }

  ghost predicate DoReadSlot(s: State, s': State, t: Tid) {
    && t in s.cons && s.cons[t].ReadSlot?
    && (var p := s.cons[t];
        && (p.block, p.i % BLOCK_SIZE) in s.slots
        && s' == Goto(s, t, if p.i + 1 < End(p.job) then p.(i := p.i + 1)
                            else SetEmpty(p.job, p.h, p.pos, p.block)).(
             delivered := s.delivered[p.i := s.slots[(p.block, p.i % BLOCK_SIZE)]]))
  }

  /** Go on to the next block of the job, at the next position of the same header. */
  function NextBlock(s: State, job: Job, h: nat, pos: nat): Cons
    requires h < |s.ring.headers| && s.ring.headers[h].capacity > 0
  {
    if job.index >= job.stop then Idle else LoadValue(job, h, Wrap(pos + 1, s.ring.headers[h].capacity))
  }

  ghost predicate DoSetEmpty(s: State, s': State, t: Tid) {
    && t in s.cons && s.cons[t].SetEmpty?
    && (var p := s.cons[t];
        && p.h < |s.ring.headers| && s.ring.headers[p.h].capacity > 0
        && p.block in s.emptied && p.job.index <= End(p.job)
        && (var n := End(p.job) - p.job.index;
            var job := p.job.(index := End(p.job));
            s' == Goto(s, t, if s.emptied[p.block] + n == BLOCK_SIZE
                             then StoreNull(job, p.h, p.pos, p.block, p.job.index / BLOCK_SIZE)
                             else NextBlock(s, job, p.h, p.pos)).(
                    emptied := s.emptied[p.block := s.emptied[p.block] + n],
                    done := s.done + Range(p.job.index, n))))
  }

  /** The consumer that emptied the block takes it out of the index ... */
  ghost predicate DoStoreNull(s: State, s': State, t: Tid) {
    && t in s.cons && s.cons[t].StoreNull?
    && (var p := s.cons[t];
        && p.h < |s.ring.headers| && p.pos < |s.ring.headers[p.h].index|
        && s.ring.headers[p.h].index[p.pos] < |s.ring.entries|
        && (var e := s.ring.headers[p.h].index[p.pos];
            s' == Goto(s, t, FreeBlock(p.job, p.h, p.pos, p.block)).(
                    ring := SetEntry(s.ring, e, s.ring.entries[e].(value := None))
                              .(live := s.ring.live - {p.number}))))
  }

  /** ... and releases it. */
  ghost predicate DoFreeBlock(s: State, s': State, t: Tid) {
    && t in s.cons && s.cons[t].FreeBlock?
    && (var p := s.cons[t];
        && p.h < |s.ring.headers| && s.ring.headers[p.h].capacity > 0
        && s' == Goto(s, t, NextBlock(s, p.job, p.h, p.pos)).(owned := s.owned - {p.block}))
  }

  /** Inserting one more block into the index. */
  ghost predicate InsertStep(s: State, s': State) {
    || FindFree(s, s') || FindGrow(s, s') || FindFail(s, s')
    || DoStoreKey(s, s') || DoStoreTail(s, s')
    || (exists block :: Obtain(s, s', block)) || ObtainFail(s, s')
    || DoStoreValue(s, s')
  }

  /** Taking back what a failed enqueue has inserted. */
  ghost predicate RevertStep(s: State, s': State) {
    || DoRewind(s, s') || DoResetValue(s, s')
    || DoUndo(s, s') || DoUndoRewind(s, s') || UndoDone(s, s') || DoGiveBack(s, s')
  }

  ghost predicate ProdStep(s: State, s': State) {
    || (exists vals :: StartEnqueue(s, s', vals))
    || InsertStep(s, s') || RevertStep(s, s') || DoWrite(s, s')
  }

  /** A consumer step other than claiming. */
  ghost predicate ConsStep(s: State, s': State, t: Tid) {
    || DoLoadHeader(s, s', t) || DoLoadTail(s, s', t) || DoLoadKey(s, s', t)
    || DoLoadValue(s, s', t) || DoReadSlot(s, s', t) || DoSetEmpty(s, s', t)
    || DoStoreNull(s, s', t) || DoFreeBlock(s, s', t)
  }

  ghost predicate Init(s: State) {
    && s.ring == FirstRing()
    && s.tail == s.head == 0 && s.prod == Ready
    && s.written == [] && s.delivered == map[] && s.done == {} && s.owned == {}
    && s.emptied == map[] && s.slots == map[]
    && forall t :: t in s.cons ==> s.cons[t] == Idle
  }

  ghost predicate Next(s: State, s': State) {
    || ProdStep(s, s') || Publish(s, s')
    || (exists t :: ConsStep(s, s', t))
    || (exists t, count: nat :: Claim(s, s', t, count))
  }
}
