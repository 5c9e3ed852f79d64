/** Safety of the block store: in every reachable state a consumer's lookup,
    however stale the header and tail it read, arrives at its block, and the
    element it fetches is the one enqueued at its index. */
module BlockStoreSafety {
  import opened Options
  import opened Modular
  import opened Ranges
  import opened BlockIndex
  import opened BlockStore

  // ----------------------------------------------------- the producer's part

  ghost predicate ChainAt(r: Ring, chain: seq<Block>, i: nat)
    requires i < |chain|
  {
    r.settled + i in r.live && r.live[r.settled + i].block == chain[i]
  }

  /** From block `from` on, the chain of the running enqueue is in the index. */
  ghost predicate ChainFrom(r: Ring, chain: seq<Block>, from: nat) {
    && |chain| == r.count - r.settled
    && (forall i: nat {:trigger ChainAt(r, chain, i)} :: i < |chain| && from <= r.settled + i ==> ChainAt(r, chain, i))
    && (forall k: nat {:trigger k in r.live} :: r.settled <= k < from ==> k !in r.live)
  }

  /** The block that the newest tail stands for at each program point. */
  function TailBlock(r: Ring, p: Prod): int {
    if p.Requisition? || p.StoreValue? || p.Rewind? then r.count
    else if p.Undo? || p.UndoRewind? then r.count - 1 - (p.next - r.settled)
    else r.count - 1
  }

  /** The entry taken for the next block is its slot, and is free. */
  ghost predicate EntryTaken(r: Ring, e: EntryId)
    requires Shaped(r)
  {
    assert HeaderOk(r, Last(r));
    e == EntryAt(r, Last(r), r.count) && r.entries[e].value.None?
  }

  ghost predicate KeyStored(r: Ring)
    requires Shaped(r)
  {
    Exact(r, r.count) && r.count < r.tried
  }

  /** The chain of the enqueue in progress, and from which block on it is in the
      index; nothing outside an enqueue. */
  ghost predicate ChainPresent(r: Ring, p: Prod) {
    if p.Ready? || p.GiveBack? then r.count == r.settled
    else if p.Undo? then r.settled <= p.next <= r.count && ChainFrom(r, p.chain, p.next)
    else if p.UndoRewind? then r.settled <= p.next < r.count && ChainFrom(r, p.chain, p.next + 1)
    else ChainFrom(r, p.chain, 0)
  }

  /** An entry is being prepared for the next block. */
  predicate Preparing(p: Prod) {
    p.StoreKey? || p.StoreTail? || p.Requisition? || p.StoreValue? || p.Rewind? || p.ResetValue?
  }

  predicate Keyed(p: Prod) {
    p.StoreTail? || p.Requisition? || p.StoreValue? || p.Rewind?
  }

  /** More blocks are needed. */
  predicate Inserting(p: Prod) {
    p.FindSlot? || p.StoreKey? || p.StoreTail? || p.Requisition? || p.StoreValue?
  }

  /** The values written so far: the published ones, then those of the enqueue. */
  predicate WrittenSoFar(r: Ring, p: Prod, tail: nat, written: seq<Value>) {
    if p.Write? then
      && p.i < |p.vals| && |written| == tail + p.i && written[tail..] == p.vals[..p.i]
      && tail + |p.vals| <= BLOCK_SIZE * r.count < tail + |p.vals| + BLOCK_SIZE
    else if p.StoreTailIndex? then
      && p.vals != [] && |written| == tail + |p.vals| && written[tail..] == p.vals
      && tail + |p.vals| <= BLOCK_SIZE * r.count < tail + |p.vals| + BLOCK_SIZE
    else |written| == tail
  }

  ghost predicate StagedAt(r: Ring, p: Prod, tail: nat, written: seq<Value>)
    requires Shaped(r)
  {
    && TailAt(r, TailBlock(r, p))
    && r.settled <= r.count
    && tail <= BLOCK_SIZE * r.settled < tail + BLOCK_SIZE
    && ChainPresent(r, p)
    && (Preparing(p) ==> EntryTaken(r, p.entry))
    && (Keyed(p) ==> KeyStored(r))
    && (Inserting(p) ==> BLOCK_SIZE * r.count < tail + |p.vals|)
    && WrittenSoFar(r, p, tail, written)
  }

  ghost predicate Staged(s: State)
    requires Shaped(s.ring)
  {
    StagedAt(s.ring, s.prod, s.tail, s.written)
  }

  /** A block just obtained starts with a zero counter. */
  predicate FreshCounter(p: Prod, emptied: map<Block, nat>) {
    p.StoreValue? ==> p.block in emptied && emptied[p.block] == 0
  }

  /** Blocks that the producer has obtained and not in the index (any more). */
  function HandOf(p: Prod, settled: nat): set<Block> {
    match p
    case StoreValue(_, _, _, block) => {block}
    case Undo(chain, next) => set i | 0 <= i < |chain| && i < next - settled :: chain[i]
    case UndoRewind(chain, next) => set i | 0 <= i < |chain| && i <= next - settled :: chain[i]
    case GiveBack(chain) => set i | 0 <= i < |chain| :: chain[i]
    case _ => {}
  }

  function ProdHand(s: State): set<Block> {
    HandOf(s.prod, s.ring.settled)
  }

  function ChainOf(p: Prod): seq<Block> {
    match p
    case Undo(chain, _) => chain
    case UndoRewind(chain, _) => chain
    case GiveBack(chain) => chain
    case _ => []
  }

  ghost predicate Distinct(chain: seq<Block>) {
    forall i, j :: 0 <= i < j < |chain| ==> chain[i] != chain[j]
  }

  // ------------------------------------------------------- blocks and values

  ghost predicate NotLive(r: Ring, block: Block) {
    forall k {:trigger k in r.live} :: k in r.live ==> r.live[k].block != block
  }

  /** A live block is owned, and its counter says how many of its slots are done. */
  ghost predicate BlockOk(s: State, k: nat)
    requires k in s.ring.live
  {
    var b := s.ring.live[k].block;
    b in s.owned && b in s.emptied && s.emptied[b] == |s.done * Range(BLOCK_SIZE * k, BLOCK_SIZE)|
  }

  ghost predicate BlocksApart(r: Ring, j: nat, k: nat)
    requires j in r.live && k in r.live
  {
    j != k ==> r.live[j].block != r.live[k].block
  }

  /** A written value is in its slot for as long as its block is live. */
  ghost predicate SlotOk(s: State, i: nat)
    requires i < |s.written|
  {
    i / BLOCK_SIZE in s.ring.live ==>
      var slot := (s.ring.live[i / BLOCK_SIZE].block, i % BLOCK_SIZE);
      slot in s.slots && s.slots[slot] == s.written[i]
  }

  /** A published element that is not done yet still has its block. */
  ghost predicate Covered(s: State, i: nat) {
    i < s.tail && i !in s.done ==> i / BLOCK_SIZE in s.ring.live
  }

  ghost predicate DeliveredOk(s: State, i: nat)
    requires i in s.delivered
  {
    i < s.tail && i < |s.written| && s.delivered[i] == s.written[i]
  }

  ghost predicate BlocksOk(s: State) {
    && (forall k: nat {:trigger BlockOk(s, k)} :: k in s.ring.live ==> BlockOk(s, k))
    && (forall j: nat, k: nat {:trigger BlocksApart(s.ring, j, k)} ::
          j in s.ring.live && k in s.ring.live ==> BlocksApart(s.ring, j, k))
    && (forall i: nat {:trigger Covered(s, i)} :: Covered(s, i))
    && (s.tail % BLOCK_SIZE != 0 ==>
          s.ring.settled > 0 && s.ring.settled - 1 in s.ring.live
          && s.ring.live[s.ring.settled - 1].block == s.tailBlock)
  }

  ghost predicate ValuesOk(s: State) {
    && |s.written| >= s.tail
    && (forall i: nat {:trigger SlotOk(s, i)} :: i < |s.written| ==> SlotOk(s, i))
    && (forall i: nat {:trigger DeliveredOk(s, i)} :: i in s.delivered ==> DeliveredOk(s, i))
  }

  ghost predicate Fresh(s: State, x: nat) {
    x !in s.delivered
  }

  ghost predicate Got(s: State, x: nat) {
    x in s.delivered
  }

  ghost predicate DoneOk(s: State, i: nat)
    requires i in s.done
  {
    i < s.head && Got(s, i)
  }

  ghost predicate HeadOk(s: State) {
    && s.head <= s.tail
    && (forall i: nat {:trigger DoneOk(s, i)} :: i in s.done ==> DoneOk(s, i))
    && (forall i: nat {:trigger Fresh(s, i)} :: s.head <= i ==> Fresh(s, i))
  }

  ghost predicate HandOk(s: State) {
    && ProdHand(s) <= s.owned
    && (forall b {:trigger b in ProdHand(s)} :: b in ProdHand(s) ==> NotLive(s.ring, b))
    && Distinct(ChainOf(s.prod))
    && FreshCounter(s.prod, s.emptied)
  }

  // ---------------------------------------------------- the consumers' part

  ghost predicate Waits(s: State, x: nat) {
    x !in s.done
  }

  ghost predicate BornBy(r: Ring, h: nat, x: nat) {
    x / BLOCK_SIZE in r.live ==> r.live[x / BLOCK_SIZE].born <= h
  }

  ghost predicate JobWaits(s: State, job: Job) {
    && job.index <= job.stop <= s.head
    && forall x: nat {:trigger Waits(s, x)} :: job.index <= x < job.stop ==> Waits(s, x)
  }

  ghost predicate JobFresh(s: State, from: nat, stop: nat) {
    forall x: nat {:trigger Fresh(s, x)} :: from <= x < stop ==> Fresh(s, x)
  }

  ghost predicate JobGot(s: State, from: nat, to: nat) {
    forall x: nat {:trigger Got(s, x)} :: from <= x < to ==> Got(s, x)
  }

  ghost predicate JobBorn(r: Ring, h: nat, job: Job)
    requires Shaped(r)
  {
    && h < |r.headers| && HeaderOk(r, h)
    && forall x: nat {:trigger BornBy(r, h, x)} :: job.index <= x < job.stop ==> BornBy(r, h, x)
  }

  /** pos is the slot of block k in header h. */
  ghost predicate Located(r: Ring, h: nat, pos: nat, k: nat)
    requires Shaped(r) && h < |r.headers|
  {
    HeaderOk(r, h) && pos == Slot(r.headers[h], k)
  }

  ghost predicate InHand(r: Ring, index: nat, block: Block) {
    index / BLOCK_SIZE in r.live ==> r.live[index / BLOCK_SIZE].block == block
  }

  ghost predicate TailReadKeyed(r: Ring, h: nat, tail: nat)
    requires Shaped(r) && h < |r.headers|
  {
    && HeaderOk(r, h) && tail < r.headers[h].capacity
    && r.entries[r.headers[h].index[tail]].key.Some?
  }

  function JobOf(p: Cons): Job {
    if p.Idle? then Job(0, 0) else p.job
  }

  /** From where on the job's elements have not been fetched. */
  function FreshFrom(p: Cons): nat {
    match p
    case ReadSlot(_, _, _, _, i) => i
    case SetEmpty(job, _, _, _) => End(job)
    case _ => JobOf(p).index
  }

  /** The next block of the job follows the one in hand. */
  predicate Follows(job: Job, number: nat) {
    job.index < job.stop ==> job.index == BLOCK_SIZE * (number + 1)
  }

  /** The indices left are undone and unread, those in hand are read. */
  ghost predicate ConsJob(s: State, p: Cons) {
    && JobWaits(s, JobOf(p))
    && JobFresh(s, FreshFrom(p), JobOf(p).stop)
    && JobGot(s, JobOf(p).index, FreshFrom(p))
    && (!p.Idle? && !p.StoreNull? && !p.FreeBlock? ==> p.job.index < p.job.stop)
    && (p.ReadSlot? ==> p.job.index <= p.i < End(p.job))
  }

  ghost predicate Emptied(s: State, p: Cons)
    requires Shaped(s.ring) && p.StoreNull? && p.h < |s.ring.headers|
  {
    && Located(s.ring, p.h, p.pos, p.number) && Follows(p.job, p.number)
    && p.number in s.ring.live && s.ring.live[p.number].block == p.block && s.ring.live[p.number].born <= p.h
    && Range(BLOCK_SIZE * p.number, BLOCK_SIZE) <= s.done
  }

  /** A block in nobody else's hands, on its way back to the pool. */
  ghost predicate Released(s: State, block: Block) {
    block in s.owned && NotLive(s.ring, block) && block !in ProdHand(s)
  }

  ghost predicate AfterBlock(r: Ring, p: Cons)
    requires Shaped(r) && p.FreeBlock? && p.h < |r.headers|
  {
    p.job.index < p.job.stop ==>
      p.job.index >= BLOCK_SIZE && p.job.index % BLOCK_SIZE == 0
      && Located(r, p.h, p.pos, p.job.index / BLOCK_SIZE - 1)
  }

  /** What the lookup has found so far is right. */
  ghost predicate ConsPhase(s: State, p: Cons)
    requires Shaped(s.ring)
  {
    && (!p.Idle? && !p.LoadHeader? ==> JobBorn(s.ring, p.h, p.job))
    && (p.LoadKey? ==> TailReadKeyed(s.ring, p.h, p.tail))
    && (p.LoadValue? || p.ReadSlot? || p.SetEmpty? ==> Located(s.ring, p.h, p.pos, p.job.index / BLOCK_SIZE))
    && (p.ReadSlot? || p.SetEmpty? ==> InHand(s.ring, p.job.index, p.block))
    && (p.StoreNull? ==> Emptied(s, p))
    && (p.FreeBlock? ==> Released(s, p.block) && AfterBlock(s.ring, p))
  }

  ghost predicate ConsOk(s: State, p: Cons)
    requires Shaped(s.ring)
  {
    ConsJob(s, p) && ConsPhase(s, p)
  }

  ghost predicate ConsAt(s: State, t: Tid)
    requires Shaped(s.ring) && t in s.cons
  {
    ConsOk(s, s.cons[t])
  }

  /** Two consumers work on different indices and release different blocks. */
  ghost predicate Apart(p: Cons, q: Cons) {
    && (var a, b := JobOf(p), JobOf(q);
        a.index >= a.stop || b.index >= b.stop || a.stop <= b.index || b.stop <= a.index)
    && (p.StoreNull? && q.StoreNull? ==> p.number != q.number)
    && (p.FreeBlock? && q.FreeBlock? ==> p.block != q.block)
  }

  ghost predicate ApartAt(s: State, t: Tid, u: Tid)
    requires t in s.cons && u in s.cons
  {
    t != u ==> Apart(s.cons[t], s.cons[u])
  }

  ghost predicate ConsumersOk(s: State)
    requires Shaped(s.ring)
  {
    && (forall t {:trigger ConsAt(s, t)} :: t in s.cons ==> ConsAt(s, t))
    && (forall t, u {:trigger ApartAt(s, t, u)} :: t in s.cons && u in s.cons ==> ApartAt(s, t, u))
  }

  ghost predicate Safe(s: State) {
    && Inv(s.ring)
    && Staged(s) && BlocksOk(s) && ValuesOk(s) && HeadOk(s) && HandOk(s)
    && ConsumersOk(s)
  }

  // ------------------------------------------------------------ frame lemmas

  ghost predicate SameHeader(r: Ring, r': Ring, h: nat)
    requires h < |r.headers|
  {
    h < |r'.headers| && r'.headers[h].(tail := 0) == r.headers[h].(tail := 0)
  }

  ghost predicate KeyStays(r: Ring, r': Ring, e: EntryId)
    requires e < |r.entries|
  {
    e < |r'.entries| && (r.entries[e].key.Some? ==> r'.entries[e].key.Some?)
  }

  /** Headers and set keys are never taken back. */
  ghost predicate RingKeeps(r: Ring, r': Ring) {
    && (forall h: nat {:trigger SameHeader(r, r', h)} :: h < |r.headers| ==> SameHeader(r, r', h))
    && (forall e: nat {:trigger KeyStays(r, r', e)} :: e < |r.entries| ==> KeyStays(r, r', e))
  }

  /** A live block was live before, unless it lies beyond the published tail. */
  ghost predicate LiveSame(s: State, s': State, k: nat) {
    k in s'.ring.live && BLOCK_SIZE * k < s.tail ==> k in s.ring.live && s'.ring.live[k] == s.ring.live[k]
  }

  /** What other threads' steps leave to a consumer at p. */
  ghost predicate Leaves(s: State, s': State, p: Cons) {
    && RingKeeps(s.ring, s'.ring)
    && s.head <= s'.head && s.head <= s.tail && s.done <= s'.done
    && (forall k: nat {:trigger LiveSame(s, s', k)} :: LiveSame(s, s', k))
    && (forall x: nat {:trigger Waits(s', x)} :: JobOf(p).index <= x < JobOf(p).stop && Waits(s, x) ==> Waits(s', x))
    && (forall x: nat {:trigger Fresh(s', x)} :: FreshFrom(p) <= x < JobOf(p).stop && Fresh(s, x) ==> Fresh(s', x))
    && (forall x: nat {:trigger Got(s', x)} :: Got(s, x) ==> Got(s', x))
    && (p.StoreNull? && p.number in s.ring.live ==>
          p.number in s'.ring.live && s'.ring.live[p.number] == s.ring.live[p.number])
    && (p.FreeBlock? && Released(s, p.block) ==> Released(s', p.block))
  }

  lemma LeavesJob(s: State, s': State, p: Cons)
    requires ConsJob(s, p) && Leaves(s, s', p)
    ensures ConsJob(s', p)
  {
    var job := JobOf(p);
    forall x: nat | job.index <= x < job.stop ensures Waits(s', x) {
      assert Waits(s, x);
    }
    forall x: nat | FreshFrom(p) <= x < job.stop ensures Fresh(s', x) {
      assert Fresh(s, x);
    }
    forall x: nat | job.index <= x < FreshFrom(p) ensures Got(s', x) {
      assert Got(s, x);
    }
  }

  lemma LeavesBorn(s: State, s': State, p: Cons)
    requires Shaped(s.ring) && Shaped(s'.ring) && Leaves(s, s', p)
    requires JobWaits(s, JobOf(p)) && !p.Idle? && !p.LoadHeader? && JobBorn(s.ring, p.h, p.job)
    ensures JobBorn(s'.ring, p.h, p.job)
  {
    assert SameHeader(s.ring, s'.ring, p.h) && HeaderOk(s'.ring, p.h);
    forall x: nat | p.job.index <= x < p.job.stop ensures BornBy(s'.ring, p.h, x) {
      assert BornBy(s.ring, p.h, x) && LiveSame(s, s', x / BLOCK_SIZE);
    }
  }

  lemma LeavesKeyed(r: Ring, r': Ring, h: nat, tail: nat)
    requires Shaped(r) && Shaped(r') && RingKeeps(r, r') && h < |r.headers| && TailReadKeyed(r, h, tail)
    ensures h < |r'.headers| && TailReadKeyed(r', h, tail)
  {
    assert SameHeader(r, r', h) && HeaderOk(r', h);
    assert KeyStays(r, r', r.headers[h].index[tail]);
  }

  lemma LeavesLocated(r: Ring, r': Ring, h: nat, pos: nat, k: nat)
    requires Shaped(r) && Shaped(r') && RingKeeps(r, r') && h < |r.headers| && Located(r, h, pos, k)
    ensures h < |r'.headers| && Located(r', h, pos, k)
  {
    assert SameHeader(r, r', h) && HeaderOk(r', h);
  }

  lemma LeavesInHand(s: State, s': State, p: Cons)
    requires Leaves(s, s', p) && (p.ReadSlot? || p.SetEmpty?) && p.job.index < s.head
    requires InHand(s.ring, p.job.index, p.block)
    ensures InHand(s'.ring, p.job.index, p.block)
  {
    assert LiveSame(s, s', p.job.index / BLOCK_SIZE);
  }

  lemma LeavesPhase(s: State, s': State, p: Cons)
    requires Shaped(s.ring) && Shaped(s'.ring) && ConsOk(s, p) && Leaves(s, s', p)
    ensures ConsPhase(s', p)
  {
    if !p.Idle? && !p.LoadHeader? {
      LeavesBorn(s, s', p);
      match p {
        case LoadTail(_, _) =>
        case LoadKey(_, h, tail) => LeavesKeyed(s.ring, s'.ring, h, tail);
        case LoadValue(job, h, pos) => LeavesLocated(s.ring, s'.ring, h, pos, job.index / BLOCK_SIZE);
        case ReadSlot(job, h, pos, _, _) =>
          LeavesLocated(s.ring, s'.ring, h, pos, job.index / BLOCK_SIZE);
          LeavesInHand(s, s', p);
        case SetEmpty(job, h, pos, _) =>
          LeavesLocated(s.ring, s'.ring, h, pos, job.index / BLOCK_SIZE);
          LeavesInHand(s, s', p);
        case StoreNull(_, h, pos, _, k) => LeavesLocated(s.ring, s'.ring, h, pos, k);
        case FreeBlock(job, h, pos, _) =>
          if job.index < job.stop {
            LeavesLocated(s.ring, s'.ring, h, pos, job.index / BLOCK_SIZE - 1);
          }
      }
    }
  }

  lemma LeavesConsOk(s: State, s': State, p: Cons)
    requires Shaped(s.ring) && Shaped(s'.ring) && ConsOk(s, p) && Leaves(s, s', p)
    ensures ConsOk(s', p)
  {
    LeavesJob(s, s', p);
    LeavesPhase(s, s', p);
  }

  lemma LeavesAll(s: State, s': State)
    requires Shaped(s.ring) && Shaped(s'.ring) && ConsumersOk(s) && s'.cons == s.cons
    requires forall t :: t in s.cons ==> Leaves(s, s', s.cons[t])
    ensures ConsumersOk(s')
  {
    forall t | t in s'.cons ensures ConsAt(s', t) {
      assert ConsAt(s, t);
      LeavesConsOk(s, s', s.cons[t]);
    }
    forall t, u | t in s'.cons && u in s'.cons ensures ApartAt(s', t, u) {
      assert ApartAt(s, t, u);
    }
  }

  /** Consumer t moves to p, which is fine by itself and apart from all others. */
  lemma LeavesOthers(s: State, s': State, t: Tid, p: Cons)
    requires Shaped(s.ring) && Shaped(s'.ring) && ConsumersOk(s) && t in s.cons
    requires s'.cons == s.cons[t := p]
    requires ConsOk(s', p)
    requires forall u :: u in s.cons && u != t ==>
      Leaves(s, s', s.cons[u]) && Apart(p, s.cons[u]) && Apart(s.cons[u], p)
    ensures ConsumersOk(s')
  {
    forall u | u in s'.cons ensures ConsAt(s', u) {
      if u != t {
        assert ConsAt(s, u);
        LeavesConsOk(s, s', s.cons[u]);
      }
    }
    forall u, v | u in s'.cons && v in s'.cons ensures ApartAt(s', u, v) {
      assert u != t && v != t ==> ApartAt(s, u, v);
    }
  }

  // ---------------------------------------------------------- producer steps

  ghost predicate LiveStays(s: State, s': State, k: nat) {
    k in s.ring.live && k < s.ring.settled ==> k in s'.ring.live && s'.ring.live[k] == s.ring.live[k]
  }

  ghost predicate ReleasedStays(s: State, s': State, block: Block) {
    Released(s, block) ==> Released(s', block)
  }

  /** A producer step, seen from the consumers. */
  ghost predicate ProdFrame(s: State, s': State) {
    && s'.cons == s.cons && s'.head == s.head && s'.done == s.done && s'.delivered == s.delivered
    && RingKeeps(s.ring, s'.ring)
    && (forall k: nat {:trigger LiveSame(s, s', k)} :: LiveSame(s, s', k))
    && (forall k: nat {:trigger LiveStays(s, s', k)} :: LiveStays(s, s', k))
    && (forall b: nat {:trigger ReleasedStays(s, s', b)} :: ReleasedStays(s, s', b))
  }

  /** A block that a consumer is about to take out is settled. */
  lemma EmptiedIsSettled(s: State, p: Cons)
    requires Shaped(s.ring) && p.StoreNull? && p.h < |s.ring.headers| && Emptied(s, p)
    requires HeadOk(s) && s.tail <= BLOCK_SIZE * s.ring.settled
    ensures BLOCK_SIZE * p.number + BLOCK_SIZE <= s.head && p.number < s.ring.settled
  {
    var last := BLOCK_SIZE * p.number + BLOCK_SIZE - 1;
    assert last in Range(BLOCK_SIZE * p.number, BLOCK_SIZE);
    assert DoneOk(s, last);
  }

  lemma ProdLeaves(s: State, s': State)
    requires Shaped(s.ring) && Shaped(s'.ring) && ConsumersOk(s) && HeadOk(s)
    requires s.tail <= BLOCK_SIZE * s.ring.settled
    requires ProdFrame(s, s')
    ensures ConsumersOk(s')
  {
    forall t | t in s.cons ensures Leaves(s, s', s.cons[t]) {
      var p := s.cons[t];
      assert ConsAt(s, t);
      if p.StoreNull? {
        EmptiedIsSettled(s, p);
        assert LiveStays(s, s', p.number);
      }
      if p.FreeBlock? {
        assert ReleasedStays(s, s', p.block);
      }
      forall x: nat | Got(s, x) ensures Got(s', x) {
      }
      forall x: nat | Waits(s, x) ensures Waits(s', x) {
      }
      forall x: nat | Fresh(s, x) ensures Fresh(s', x) {
      }
    }
    LeavesAll(s, s');
  }

  /** Steps that move no data: blocks, values and the head stay right. */
  lemma SameData(s: State, s': State)
    requires BlocksOk(s) && ValuesOk(s) && HeadOk(s)
    requires s'.ring.live == s.ring.live && s'.ring.settled == s.ring.settled
    requires s' == s.(ring := s'.ring, prod := s'.prod, owned := s'.owned, emptied := s'.emptied, cons := s'.cons)
    requires s.owned <= s'.owned
    requires forall b {:trigger b in s.emptied} :: b in s.emptied && b in s.owned ==>
      b in s'.emptied && s'.emptied[b] == s.emptied[b]
    ensures BlocksOk(s') && ValuesOk(s') && HeadOk(s')
  {
    forall k: nat | k in s'.ring.live ensures BlockOk(s', k) {
      assert BlockOk(s, k);
    }
    forall j: nat, k: nat | j in s'.ring.live && k in s'.ring.live ensures BlocksApart(s'.ring, j, k) {
      assert BlocksApart(s.ring, j, k);
    }
    forall i: nat ensures Covered(s', i) {
      assert Covered(s, i);
    }
    forall i: nat | i < |s'.written| ensures SlotOk(s', i) {
      assert SlotOk(s, i);
    }
    forall i: nat | i in s'.delivered ensures DeliveredOk(s', i) {
      assert DeliveredOk(s, i);
    }
    forall i: nat | i in s'.done ensures DoneOk(s', i) {
      assert DoneOk(s, i) && Got(s, i);
    }
    forall i: nat | s'.head <= i ensures Fresh(s', i) {
      assert Fresh(s, i);
    }
  }

  lemma KeepsRing(r: Ring)
    ensures RingKeeps(r, r)
  {
  }

  /** What a step leaves alone that moves no data. */
  ghost predicate KeepsHistory(s: State, s': State) {
    && s'.written == s.written && s'.delivered == s.delivered && s'.done == s.done
    && s'.tail == s.tail && s'.head == s.head && s'.tailBlock == s.tailBlock
    && s'.cons == s.cons && s'.ring.settled == s.ring.settled
  }

  /** The program points that carry the values still to be written. */
  predicate HasValues(p: Prod) {
    Inserting(p) || p.Write? || p.StoreTailIndex?
  }

  /** The program points of an enqueue that takes back what it has done. */
  predicate Failing(p: Prod) {
    p.Rewind? || p.ResetValue? || p.Undo? || p.UndoRewind? || p.GiveBack?
  }

  /** A call keeps its values, and gives up only after all blocks are returned. */
  predicate MovesOn(p: Prod, p': Prod) {
    && (HasValues(p') ==> HasValues(p) && p'.vals == p.vals)
    && (p'.Ready? ==> p.GiveBack? && p.chain == [])
  }

  /** What consumers and readers of the queue see of a producer step short of publishing. */
  ghost predicate ProdVisible(s: State, s': State) {
    && s.written <= s'.written && s'.delivered == s.delivered && s'.done == s.done
    && s'.tail == s.tail && s'.head == s.head && s'.cons == s.cons
  }

  /** No block changes hands. */
  ghost predicate KeepsBlocks(s: State, s': State) {
    s'.owned == s.owned && s'.ring.live == s.ring.live && ProdHand(s') == ProdHand(s)
  }

  /** Steps of the producer that change nothing shared. */
  lemma ControlStep(s: State, s': State)
    requires Safe(s) && s' == s.(prod := s'.prod) && Staged(s')
    requires ProdHand(s') == ProdHand(s) && Distinct(ChainOf(s'.prod)) && FreshCounter(s'.prod, s'.emptied)
    ensures Safe(s')
  {
    SameData(s, s');
    KeepsRing(s.ring);
    forall b: nat ensures ReleasedStays(s, s', b) {
    }
    forall b | b in ProdHand(s') ensures NotLive(s'.ring, b) {
      assert b in ProdHand(s);
    }
    ProdLeaves(s, s');
  }

  lemma KeepsStartEnqueue(s: State, s': State, vals: seq<Value>)
    requires Safe(s) && StartEnqueue(s, s', vals)
    ensures Safe(s') && KeepsHistory(s, s') && KeepsBlocks(s, s')
  {
    assert s.written[s.tail..] == [] == vals[..0];
    ControlStep(s, s');
  }

  /** The entry one past the tail is the slot of the next block. */
  lemma NextEntryIsSlot(r: Ring)
    requires Shaped(r) && RingUsable(r) && TailAt(r, r.count - 1)
    ensures HeaderOk(r, Last(r)) && NextEntry(r) == EntryAt(r, Last(r), r.count)
  {
    assert HeaderOk(r, Last(r));
    SlotNext(Current(r), r.count - 1);
  }

  lemma KeepsFindFree(s: State, s': State)
    requires Safe(s) && FindFree(s, s')
    ensures Safe(s') && KeepsHistory(s, s') && MovesOn(s.prod, s'.prod) && KeepsBlocks(s, s')
  {
    NextEntryIsSlot(s.ring);
    assert KeyOk(s.ring, NextEntry(s.ring));
    ControlStep(s, s');
  }

  lemma KeepsFindFail(s: State, s': State)
    requires Safe(s) && FindFail(s, s')
    ensures Safe(s') && KeepsHistory(s, s') && MovesOn(s.prod, s'.prod) && KeepsBlocks(s, s')
  {
    var r, chain := s.ring, s.prod.chain;
    forall i: nat | i < |chain| && r.settled <= r.settled + i ensures ChainAt(r, chain, i) {
    }
    ChainDistinct(s, chain, 0);
    ControlStep(s, s');
  }

  /** A chain of blocks that are in the index has no repetition. */
  lemma ChainDistinct(s: State, chain: seq<Block>, from: nat)
    requires BlocksOk(s) && ChainFrom(s.ring, chain, from) && from <= s.ring.settled
    ensures Distinct(chain)
  {
    forall i, j | 0 <= i < j < |chain| ensures chain[i] != chain[j] {
      assert ChainAt(s.ring, chain, i) && ChainAt(s.ring, chain, j);
      assert BlocksApart(s.ring, s.ring.settled + i, s.ring.settled + j);
    }
  }

  /** Steps that change keys, tails or headers of the index, but no block in it. */
  lemma RingStep(s: State, s': State)
    requires Safe(s) && s' == s.(ring := s'.ring, prod := s'.prod)
    requires Inv(s'.ring) && Staged(s') && RingKeeps(s.ring, s'.ring)
    requires s'.ring.live == s.ring.live && s'.ring.settled == s.ring.settled
    requires ProdHand(s') == ProdHand(s) && Distinct(ChainOf(s'.prod)) && FreshCounter(s'.prod, s'.emptied)
    ensures Safe(s')
  {
    SameData(s, s');
    forall b: nat ensures ReleasedStays(s, s', b) {
      assert NotLive(s.ring, b) ==> NotLive(s'.ring, b);
    }
    forall b | b in ProdHand(s') ensures NotLive(s'.ring, b) {
      assert b in ProdHand(s) && NotLive(s.ring, b);
    }
    ProdLeaves(s, s');
  }

  lemma OneEntryKeeps(r: Ring, r': Ring, e: EntryId)
    requires e < |r.entries| && OneEntry(r, r', e)
    requires r.entries[e].key.Some? ==> r'.entries[e].key.Some?
    ensures RingKeeps(r, r')
  {
  }

  lemma SetTailKeeps(r: Ring, tail: nat)
    requires r.headers != []
    ensures RingKeeps(r, SetTail(r, tail))
  {
  }

  /** The chain is about live blocks only. */
  lemma SameChain(r: Ring, r': Ring, chain: seq<Block>, from: nat)
    requires ChainFrom(r, chain, from)
    requires r'.live == r.live && r'.settled == r.settled && r'.count == r.count
    ensures ChainFrom(r', chain, from)
  {
    forall i: nat | i < |chain| && from <= r'.settled + i ensures ChainAt(r', chain, i) {
      assert ChainAt(r, chain, i);
    }
  }

  lemma ChainUnbroken(r: Ring, chain: seq<Block>)
    requires ChainFrom(r, chain, 0)
    ensures Unbroken(r)
  {
    forall k: nat | r.settled <= k < r.count ensures k in r.live {
      assert ChainAt(r, chain, k - r.settled);
    }
  }

  lemma KeepsStoreKey(s: State, s': State)
    requires Safe(s) && DoStoreKey(s, s')
    ensures Safe(s') && KeepsHistory(s, s') && MovesOn(s.prod, s'.prod) && KeepsBlocks(s, s')
  {
    var r, e := s.ring, s.prod.entry;
    assert HeaderOk(r, Last(r));
    ChainUnbroken(r, s.prod.chain);
    PutKeyKeepsInv(r, e);
    OneEntryKeeps(r, s'.ring, e);
    SameChain(r, s'.ring, s.prod.chain, 0);
    assert HeaderOk(s'.ring, Last(s'.ring));
    RingStep(s, s');
  }

  lemma KeepsFindGrow(s: State, s': State)
    requires Safe(s) && FindGrow(s, s')
    ensures Safe(s') && KeepsHistory(s, s') && MovesOn(s.prod, s'.prod) && KeepsBlocks(s, s')
  {
    var r := s.ring;
    NextEntryIsSlot(r);
    GrowKeepsInv(r);
    NextEntryIsSlot(Grow(r));
    GrowKeepsRing(r);
    SameChain(r, s'.ring, s.prod.chain, 0);
    RingStep(s, s');
  }

  lemma GrowKeepsRing(r: Ring)
    requires RingUsable(r)
    ensures RingKeeps(r, Grow(r))
  {
  }

  lemma KeepsStoreTail(s: State, s': State)
    requires Safe(s) && DoStoreTail(s, s')
    ensures Safe(s') && KeepsHistory(s, s') && MovesOn(s.prod, s'.prod) && KeepsBlocks(s, s')
  {
    var r := s.ring;
    var tail := Wrap(Current(r).tail + 1, Current(r).capacity);
    SlotNext(Current(r), r.count - 1);
    SetTailKeepsInv(r, tail);
    SetTailKeeps(r, tail);
    SameChain(r, s'.ring, s.prod.chain, 0);
    assert HeaderOk(r, Last(r)) && HeaderOk(s'.ring, Last(s'.ring));
    RingStep(s, s');
  }

  lemma KeepsObtain(s: State, s': State, block: Block)
    requires Safe(s) && Obtain(s, s', block)
    ensures Safe(s') && KeepsHistory(s, s') && MovesOn(s.prod, s'.prod)
  {
    SameData(s, s');
    KeepsRing(s.ring);
    assert NotLive(s.ring, block) by {
      forall k | k in s.ring.live ensures s.ring.live[k].block != block {
        assert BlockOk(s, k);
      }
    }
    forall b: nat ensures ReleasedStays(s, s', b) {
    }
    ProdLeaves(s, s');
  }

  lemma KeepsObtainFail(s: State, s': State)
    requires Safe(s) && ObtainFail(s, s')
    ensures Safe(s') && KeepsHistory(s, s') && MovesOn(s.prod, s'.prod) && KeepsBlocks(s, s')
  {
    ControlStep(s, s');
  }

  lemma KeepsRewind(s: State, s': State)
    requires Safe(s) && DoRewind(s, s')
    ensures Safe(s') && KeepsHistory(s, s') && MovesOn(s.prod, s'.prod) && KeepsBlocks(s, s')
  {
    var r := s.ring;
    RewoundTail(r, r.count);
    SameChain(r, s'.ring, s.prod.chain, 0);
    assert HeaderOk(r, Last(r)) && HeaderOk(s'.ring, Last(s'.ring));
    RingStep(s, s');
  }

  lemma RewoundTail(r: Ring, k: int)
    requires Inv(r) && RingUsable(r) && TailAt(r, k)
    ensures Inv(Rewound(r)) && TailAt(Rewound(r), k - 1) && RingKeeps(r, Rewound(r))
  {
    var tail := Wrap(Current(r).tail - 1, Current(r).capacity);
    SlotPrev(Current(r), k);
    SetTailKeepsInv(r, tail);
    SetTailKeeps(r, tail);
  }

  lemma KeepsResetValue(s: State, s': State)
    requires Safe(s) && DoResetValue(s, s')
    ensures Safe(s') && KeepsHistory(s, s') && MovesOn(s.prod, s'.prod) && KeepsBlocks(s, s')
  {
    var r, chain := s.ring, s.prod.chain;
    assert r.entries[s.prod.entry].(value := None) == r.entries[s.prod.entry];
    assert r.entries[s.prod.entry := r.entries[s.prod.entry]] == r.entries;
    assert s'.ring == r;
    forall i: nat | i < |chain| && r.settled <= r.settled + i ensures ChainAt(r, chain, i) {
    }
    ChainDistinct(s, chain, 0);
    ControlStep(s, s');
  }

  lemma StoreValueChain(r: Ring, chain: seq<Block>, e: EntryId, block: Block)
    requires ChainFrom(r, chain, 0) && e < |r.entries| && r.headers != [] && r.settled <= r.count
    ensures ChainFrom(PutBlock(r, e, block), chain + [block], 0)
  {
    var r', chain' := PutBlock(r, e, block), chain + [block];
    forall i: nat | i < |chain'| && 0 <= r'.settled + i ensures ChainAt(r', chain', i) {
      if i < |chain| {
        assert ChainAt(r, chain, i);
      }
    }
  }

  lemma StoreValueData(s: State, s': State)
    requires Safe(s) && DoStoreValue(s, s')
    ensures BlocksOk(s') && ValuesOk(s') && HeadOk(s')
  {
    var r, b := s.ring, s.prod.block;
    assert b in ProdHand(s);
    forall k: nat | k in s'.ring.live ensures BlockOk(s', k) {
      if k == r.count {
        forall x | x in s.done ensures x !in Range(BLOCK_SIZE * k, BLOCK_SIZE) {
          assert DoneOk(s, x);
        }
        assert s'.done * Range(BLOCK_SIZE * k, BLOCK_SIZE) == {};
      } else {
        assert BlockOk(s, k);
      }
    }
    forall j: nat, k: nat | j in s'.ring.live && k in s'.ring.live ensures BlocksApart(s'.ring, j, k) {
      if j in r.live && k in r.live {
        assert j != r.count && k != r.count ==> BlocksApart(r, j, k);
      }
    }
    forall i: nat ensures Covered(s', i) {
      assert Covered(s, i);
    }
    forall i: nat | i < |s'.written| ensures SlotOk(s', i) {
      assert SlotOk(s, i);
    }
    forall i: nat | i in s'.delivered ensures DeliveredOk(s', i) {
      assert DeliveredOk(s, i);
    }
    forall i: nat | i in s'.done ensures DoneOk(s', i) {
      assert DoneOk(s, i) && Got(s, i);
    }
    forall i: nat | s'.head <= i ensures Fresh(s', i) {
      assert Fresh(s, i);
    }
  }

  lemma StoreValueStaged(s: State, s': State)
    requires Safe(s) && DoStoreValue(s, s') && Shaped(s'.ring)
    ensures Staged(s')
  {
    StoreValueChain(s.ring, s.prod.chain, s.prod.entry, s.prod.block);
    assert s.written[s.tail..] == [];
    assert s.prod.vals[..0] == [];
    assert HeaderOk(s.ring, Last(s.ring));
  }

  lemma KeepsStoreValue(s: State, s': State)
    requires Safe(s) && DoStoreValue(s, s')
    ensures Safe(s') && KeepsHistory(s, s') && MovesOn(s.prod, s'.prod)
  {
    var r, e, b := s.ring, s.prod.entry, s.prod.block;
    ChainUnbroken(r, s.prod.chain);
    assert HeaderOk(r, Last(r));
    PutBlockKeepsInv(r, e, b);
    OneEntryKeeps(r, s'.ring, e);
    StoreValueStaged(s, s');
    StoreValueData(s, s');
    forall c: nat ensures ReleasedStays(s, s', c) {
      assert NotLive(r, c) && c != b ==> NotLive(s'.ring, c);
    }
    ProdLeaves(s, s');
  }

  /** The entry that the undo loop finds is the live entry of its block. */
  lemma UndoFindsEntry(s: State)
    requires Safe(s) && s.prod.Undo? && s.prod.next < s.ring.count && RingUsable(s.ring)
    ensures s.prod.next in s.ring.live
    ensures s.ring.entries[Current(s.ring).index[Current(s.ring).tail]].key.Some?
    ensures LookupEntry(s.ring, s.prod.next) == s.ring.live[s.prod.next].entry
    ensures s.ring.live[s.prod.next].entry < |s.ring.entries|
  {
    var r, k := s.ring, s.prod.next;
    assert ChainAt(r, s.prod.chain, k - r.settled);
    assert HeaderOk(r, Last(r));
    assert Exact(r, TailBlock(s.ring, s.prod));
    LookupIsSlot(r, Last(r), Current(r).tail, BLOCK_SIZE * k);
    assert LiveOk(r, k);
    SlotHoldsBlock(r, Last(r), k);
  }

  lemma UndoData(s: State, s': State)
    requires BlocksOk(s) && ValuesOk(s) && HeadOk(s) && |s.written| == s.tail
    requires s' == s.(ring := s'.ring, prod := s'.prod)
    requires s.prod.Undo? && s.prod.next >= s.ring.settled && s.tail <= BLOCK_SIZE * s.ring.settled
    requires s'.ring.settled == s.ring.settled && s'.ring.live == s.ring.live - {s.prod.next}
    ensures BlocksOk(s') && ValuesOk(s') && HeadOk(s')
  {
    forall k: nat | k in s'.ring.live ensures BlockOk(s', k) {
      assert BlockOk(s, k);
    }
    forall j: nat, k: nat | j in s'.ring.live && k in s'.ring.live ensures BlocksApart(s'.ring, j, k) {
      assert BlocksApart(s.ring, j, k);
    }
    forall i: nat ensures Covered(s', i) {
      assert Covered(s, i);
    }
    forall i: nat | i < |s'.written| ensures SlotOk(s', i) {
      assert SlotOk(s, i);
    }
    forall i: nat | i in s'.delivered ensures DeliveredOk(s', i) {
      assert DeliveredOk(s, i);
    }
    forall i: nat | i in s'.done ensures DoneOk(s', i) {
      assert DoneOk(s, i) && Got(s, i);
    }
    forall i: nat | s'.head <= i ensures Fresh(s', i) {
      assert Fresh(s, i);
    }
  }

  lemma UndoChain(r: Ring, r': Ring, chain: seq<Block>, next: nat)
    requires ChainFrom(r, chain, next) && r.settled <= next
    requires r'.live == r.live - {next} && r'.settled == r.settled && r'.count == r.count
    ensures ChainFrom(r', chain, next + 1)
  {
    forall i: nat | i < |chain| && next + 1 <= r'.settled + i ensures ChainAt(r', chain, i) {
      assert ChainAt(r, chain, i);
    }
  }

  /** The undone block leaves the index and joins the producer's hand. */
  lemma UndoHand(s: State, s': State)
    requires Safe(s) && s.prod.Undo? && s.prod.next < s.ring.count
    requires s' == s.(ring := s'.ring, prod := UndoRewind(s.prod.chain, s.prod.next))
    requires s'.ring.settled == s.ring.settled && s'.ring.live == s.ring.live - {s.prod.next}
    requires s.prod.next in s.ring.live
    ensures HandOk(s')
    ensures ProdHand(s') == ProdHand(s) + {s.ring.live[s.prod.next].block}
  {
    var r, k, chain := s.ring, s.prod.next, s.prod.chain;
    assert ChainAt(r, chain, k - r.settled) && BlockOk(s, k);
    assert chain[k - r.settled] == r.live[k].block;
    forall b | b in ProdHand(s') ensures NotLive(s'.ring, b) {
      if b in ProdHand(s) {
        assert NotLive(r, b);
      } else {
        forall m | m in s'.ring.live ensures s'.ring.live[m].block != b {
          assert BlocksApart(r, k, m);
        }
      }
    }
  }

  lemma KeepsUndo(s: State, s': State)
    requires Safe(s) && DoUndo(s, s')
    ensures Safe(s') && KeepsHistory(s, s') && MovesOn(s.prod, s'.prod)
  {
    var r, k := s.ring, s.prod.next;
    UndoFindsEntry(s);
    assert s'.ring == Clear(r, k);
    ClearKeepsInv(r, k);
    OneEntryKeeps(r, s'.ring, r.live[k].entry);
    UndoData(s, s');
    UndoChain(r, s'.ring, s.prod.chain, k);
    UndoHand(s, s');
    UndoStaged(s, s');
    UndoReleased(s, s');
    ProdLeaves(s, s');
  }

  lemma UndoStaged(s: State, s': State)
    requires Shaped(s.ring) && Staged(s) && DoUndo(s, s') && s.prod.next in s.ring.live
    requires s.ring.live[s.prod.next].entry < |s.ring.entries|
    requires s'.ring == Clear(s.ring, s.prod.next) && Shaped(s'.ring)
    requires TailAt(s'.ring, TailBlock(s.ring, s.prod))
    requires ChainFrom(s'.ring, s.prod.chain, s.prod.next + 1)
    ensures Staged(s')
  {
  }

  lemma UndoReleased(s: State, s': State)
    requires s'.owned == s.owned && s.prod.Undo? && s.prod.next in s.ring.live
    requires s'.ring.live == s.ring.live - {s.prod.next}
    requires ProdHand(s') == ProdHand(s) + {s.ring.live[s.prod.next].block}
    ensures forall b: nat {:trigger ReleasedStays(s, s', b)} :: ReleasedStays(s, s', b)
  {
    forall b: nat ensures ReleasedStays(s, s', b) {
      if Released(s, b) {
        assert NotLive(s'.ring, b);
      }
    }
  }

  lemma KeepsUndoRewind(s: State, s': State)
    requires Safe(s) && DoUndoRewind(s, s')
    ensures Safe(s') && KeepsHistory(s, s') && MovesOn(s.prod, s'.prod) && KeepsBlocks(s, s')
  {
    var r := s.ring;
    RewoundTail(r, TailBlock(s.ring, s.prod));
    SameChain(r, s'.ring, s.prod.chain, s.prod.next + 1);
    RingStep(s, s');
  }

  lemma KeepsUndoDone(s: State, s': State)
    requires Safe(s) && UndoDone(s, s')
    ensures Safe(s') && KeepsHistory(s, s') && MovesOn(s.prod, s'.prod) && KeepsBlocks(s, s')
  {
    var r := s.ring;
    forall k | k in r.live ensures k < r.settled {
      assert LiveOk(r, k);
    }
    AbandonKeepsInv(r);
    RingStep(s, s');
  }

  lemma GiveBackHand(s: State, s': State)
    requires HandOk(s) && DoGiveBack(s, s') && s.prod.chain != []
    ensures HandOk(s') && ProdHand(s') <= ProdHand(s)
    ensures s.prod.chain[0] in ProdHand(s) && s.prod.chain[0] !in ProdHand(s')
    ensures NotLive(s.ring, s.prod.chain[0])
  {
    var b := s.prod.chain[0];
    assert b in ProdHand(s);
    forall c | c in ProdHand(s') ensures c in ProdHand(s) && c != b {
      var i :| 0 <= i < |s'.prod.chain| && s'.prod.chain[i] == c;
      assert s.prod.chain[i + 1] == c;
    }
    forall c | c in ProdHand(s') ensures NotLive(s'.ring, c) {
      assert c in ProdHand(s) && NotLive(s.ring, c);
    }
  }

  lemma KeepsGiveBack(s: State, s': State)
    requires Safe(s) && DoGiveBack(s, s')
    ensures Safe(s') && KeepsHistory(s, s') && MovesOn(s.prod, s'.prod)
  {
    if s.prod.chain == [] {
      ControlStep(s, s');
    } else {
      KeepsGiveBackOne(s, s');
    }
  }

  lemma KeepsGiveBackOne(s: State, s': State)
    requires Safe(s) && DoGiveBack(s, s') && s.prod.chain != []
    ensures Safe(s') && KeepsHistory(s, s') && MovesOn(s.prod, s'.prod)
  {
    GiveBackHand(s, s');
    GiveBackData(s, s');
    GiveBackFrame(s, s');
    GiveBackStaged(s, s');
    ProdLeaves(s, s');
  }

  lemma GiveBackStaged(s: State, s': State)
    requires Shaped(s.ring) && Staged(s) && DoGiveBack(s, s')
    ensures Staged(s')
  {
  }

  lemma GiveBackFrame(s: State, s': State)
    requires HandOk(s) && DoGiveBack(s, s') && s.prod.chain != []
    ensures ProdFrame(s, s')
  {
    GiveBackHand(s, s');
    KeepsRing(s.ring);
    forall c: nat ensures ReleasedStays(s, s', c) {
    }
  }

  lemma GiveBackData(s: State, s': State)
    requires BlocksOk(s) && ValuesOk(s) && HeadOk(s)
    requires s' == s.(owned := s'.owned, prod := s'.prod, cons := s'.cons)
    requires forall b {:trigger b in s.owned} :: b in s.owned && !NotLive(s.ring, b) ==> b in s'.owned
    ensures BlocksOk(s') && ValuesOk(s') && HeadOk(s')
  {
    forall k: nat | k in s'.ring.live ensures BlockOk(s', k) {
      assert BlockOk(s, k);
    }
    SameDataButBlocks(s, s');
  }

  /** Everything but the blocks' owners and counters is untouched. */
  lemma SameDataButBlocks(s: State, s': State)
    requires BlocksOk(s) && ValuesOk(s) && HeadOk(s)
    requires s' == s.(owned := s'.owned, prod := s'.prod, cons := s'.cons)
    requires forall k: nat {:trigger BlockOk(s', k)} :: k in s'.ring.live ==> BlockOk(s', k)
    ensures BlocksOk(s') && ValuesOk(s') && HeadOk(s')
  {
    forall i: nat ensures Covered(s', i) {
      assert Covered(s, i);
    }
    forall i: nat | i < |s'.written| ensures SlotOk(s', i) {
      assert SlotOk(s, i);
    }
    forall i: nat | i in s'.delivered ensures DeliveredOk(s', i) {
      assert DeliveredOk(s, i);
    }
    forall i: nat | i in s'.done ensures DoneOk(s', i) {
      assert DoneOk(s, i) && Got(s, i);
    }
    forall i: nat | s'.head <= i ensures Fresh(s', i) {
      assert Fresh(s, i);
    }
  }

  /** The block that the running enqueue writes index x into is x's own. */
  lemma WriteBlockIsLive(s: State, chain: seq<Block>, x: nat)
    requires Shaped(s.ring) && BlocksOk(s) && ChainFrom(s.ring, chain, 0)
    requires s.tail <= BLOCK_SIZE * s.ring.settled < s.tail + BLOCK_SIZE
    requires s.tail <= x < BLOCK_SIZE * s.ring.count
    ensures x / BLOCK_SIZE in s.ring.live
    ensures s.ring.settled <= x / BLOCK_SIZE ==> x / BLOCK_SIZE - s.ring.settled < |chain|
    ensures WriteBlock(s, chain, x) == s.ring.live[x / BLOCK_SIZE].block
  {
    var k := x / BLOCK_SIZE;
    if s.ring.settled <= k {
      assert ChainAt(s.ring, chain, k - s.ring.settled);
    } else {
      assert k == s.ring.settled - 1 && s.tail % BLOCK_SIZE != 0;
    }
  }

  lemma WriteValues(s: State, s': State)
    requires Safe(s) && DoWrite(s, s')
    ensures ValuesOk(s')
  {
    var x := s.tail + s.prod.i;
    WriteBlockIsLive(s, s.prod.chain, x);
    forall i: nat | i < |s'.written| ensures SlotOk(s', i) {
      if i < |s.written| {
        assert SlotOk(s, i);
        if i / BLOCK_SIZE in s.ring.live {
          assert BlocksApart(s.ring, i / BLOCK_SIZE, x / BLOCK_SIZE);
        }
      }
    }
    forall i: nat | i in s'.delivered ensures DeliveredOk(s', i) {
      assert DeliveredOk(s, i);
    }
  }

  lemma WriteBlocks(s: State, s': State)
    requires Safe(s) && DoWrite(s, s')
    ensures BlocksOk(s') && HeadOk(s')
  {
    forall k: nat | k in s'.ring.live ensures BlockOk(s', k) {
      assert BlockOk(s, k);
    }
    forall i: nat ensures Covered(s', i) {
      assert Covered(s, i);
    }
    forall i: nat | i in s'.done ensures DoneOk(s', i) {
      assert DoneOk(s, i) && Got(s, i);
    }
    forall i: nat | s'.head <= i ensures Fresh(s', i) {
      assert Fresh(s, i);
    }
  }

  lemma WriteStaged(s: State, s': State)
    requires Shaped(s.ring) && Staged(s) && DoWrite(s, s')
    ensures Staged(s')
  {
    var vals, i := s.prod.vals, s.prod.i;
    assert s'.written[s.tail..] == vals[..i] + [vals[i]] == vals[..i + 1];
    if i + 1 == |vals| {
      assert vals[..i + 1] == vals;
    }
  }

  lemma KeepsWrite(s: State, s': State)
    requires Safe(s) && DoWrite(s, s')
    ensures Safe(s') && ProdVisible(s, s')
  {
    WriteValues(s, s');
    WriteBlocks(s, s');
    WriteStaged(s, s');
    KeepsRing(s.ring);
    forall b: nat ensures ReleasedStays(s, s', b) {
    }
    ProdLeaves(s, s');
  }

  lemma PublishCovers(s: State, s': State, i: nat)
    requires Shaped(s.ring) && BlocksOk(s) && Publish(s, s') && ChainFrom(s.ring, s.prod.chain, 0)
    requires s.tail <= BLOCK_SIZE * s.ring.settled < s.tail + BLOCK_SIZE
    requires s.ring.settled <= s.ring.count
    requires s'.tail <= BLOCK_SIZE * s.ring.count < s'.tail + BLOCK_SIZE && s.prod.vals != []
    ensures Covered(s', i)
  {
    assert Covered(s, i);
    if s.tail <= i < s'.tail {
      WriteBlockIsLive(s, s.prod.chain, i);
    }
  }

  lemma PublishTailBlock(s: State, s': State)
    requires Shaped(s.ring) && BlocksOk(s) && Publish(s, s') && ChainFrom(s.ring, s.prod.chain, 0)
    requires s.tail <= BLOCK_SIZE * s.ring.settled < s.tail + BLOCK_SIZE
    requires s.ring.settled <= s.ring.count
    requires s'.tail <= BLOCK_SIZE * s.ring.count < s'.tail + BLOCK_SIZE && s.prod.vals != []
    requires s'.tail % BLOCK_SIZE != 0
    ensures s.ring.count > 0 && s.ring.count - 1 in s.ring.live
    ensures s.ring.live[s.ring.count - 1].block == s'.tailBlock
  {
    var last := s'.tail - 1;
    assert last / BLOCK_SIZE == s.ring.count - 1;
    WriteBlockIsLive(s, s.prod.chain, last);
  }

  lemma PublishBlocks(s: State, s': State)
    requires Shaped(s.ring) && BlocksOk(s) && Publish(s, s') && ChainFrom(s.ring, s.prod.chain, 0)
    requires s.tail <= BLOCK_SIZE * s.ring.settled < s.tail + BLOCK_SIZE
    requires s.ring.settled <= s.ring.count
    requires s'.tail <= BLOCK_SIZE * s.ring.count < s'.tail + BLOCK_SIZE && s.prod.vals != []
    ensures BlocksOk(s')
  {
    forall k: nat | k in s'.ring.live ensures BlockOk(s', k) {
      assert BlockOk(s, k);
    }
    forall j: nat, k: nat | j in s'.ring.live && k in s'.ring.live ensures BlocksApart(s'.ring, j, k) {
      assert BlocksApart(s.ring, j, k);
    }
    forall i: nat ensures Covered(s', i) {
      PublishCovers(s, s', i);
    }
    if s'.tail % BLOCK_SIZE != 0 {
      PublishTailBlock(s, s');
    }
  }

  lemma PublishValues(s: State, s': State)
    requires Safe(s) && Publish(s, s')
    ensures ValuesOk(s') && HeadOk(s')
  {
    forall i: nat | i < |s'.written| ensures SlotOk(s', i) {
      assert SlotOk(s, i);
    }
    forall i: nat | i in s'.delivered ensures DeliveredOk(s', i) {
      assert DeliveredOk(s, i);
    }
    forall i: nat | i in s'.done ensures DoneOk(s', i) {
      assert DoneOk(s, i) && Got(s, i);
    }
    forall i: nat | s'.head <= i ensures Fresh(s', i) {
      assert Fresh(s, i);
    }
  }

  lemma KeepsPublish(s: State, s': State)
    requires Safe(s) && Publish(s, s')
    ensures Safe(s')
  {
    SettleKeepsInv(s.ring);
    PublishBlocks(s, s');
    PublishValues(s, s');
    forall b: nat ensures ReleasedStays(s, s', b) {
      assert NotLive(s.ring, b) ==> NotLive(s'.ring, b);
    }
    ProdLeaves(s, s');
  }

  // ---------------------------------------------------------- consumer steps

  /** How a consumer's step moves it along its job: what it still has to fetch
      stays, except that reading a slot takes one element off. */
  ghost predicate MovesJob(p: Cons, q: Cons) {
    && JobOf(q).stop <= JobOf(p).stop
    && (JobOf(q).index < JobOf(q).stop ==> JobOf(p).index <= JobOf(q).index)
    && (p.ReadSlot? || (FreshFrom(q) == FreshFrom(p) && JobOf(q).stop == JobOf(p).stop)
        || (FreshFrom(q) == JobOf(q).stop == 0 && FreshFrom(p) == JobOf(p).stop))
  }

  /** A consumer step, seen from outside. */
  ghost predicate ConsEffect(s: State, s': State, t: Tid) {
    && t in s.cons && s.cons[t] != Idle && t in s'.cons && s'.cons == s.cons[t := s'.cons[t]]
    && s'.written == s.written && s'.tail == s.tail && s'.head == s.head && s'.prod == s.prod
    && s.done <= s'.done
    && (s.cons[t].ReadSlot? || s'.delivered == s.delivered)
    && MovesJob(s.cons[t], s'.cons[t])
  }

  /** A consumer step that reads only: nothing but its own program point changes. */
  lemma ReadStep(s: State, s': State, t: Tid, p: Cons)
    requires Safe(s) && t in s.cons && s' == Goto(s, t, p)
    requires ConsOk(s', p)
    requires JobOf(p).index >= JobOf(p).stop || JobOf(p) == JobOf(s.cons[t])
    requires !p.StoreNull? && !p.FreeBlock?
    ensures Safe(s')
  {
    SameData(s, s');
    forall u | u in s.cons && u != t
      ensures Leaves(s, s', s.cons[u]) && Apart(p, s.cons[u]) && Apart(s.cons[u], p)
    {
      ReadStepApart(s, s', t, p, u);
    }
    LeavesOthers(s, s', t, p);
  }

  lemma ReadStepApart(s: State, s': State, t: Tid, p: Cons, u: Tid)
    requires Shaped(s.ring) && ConsumersOk(s) && s.head <= s.tail && t in s.cons && s' == Goto(s, t, p)
    requires JobOf(p).index >= JobOf(p).stop || JobOf(p) == JobOf(s.cons[t])
    requires !p.StoreNull? && !p.FreeBlock? && u in s.cons && u != t
    ensures Leaves(s, s', s.cons[u]) && Apart(p, s.cons[u]) && Apart(s.cons[u], p)
  {
    assert ApartAt(s, t, u) && ApartAt(s, u, t);
    Unaffected(s, s', s.cons[u]);
  }

  /** A step that leaves index, data and hands alone affects no other consumer. */
  lemma Unaffected(s: State, s': State, p: Cons)
    requires s' == s.(cons := s'.cons) && s.head <= s.tail
    ensures Leaves(s, s', p)
  {
    KeepsRing(s.ring);
  }

  lemma KeepsLoadHeader(s: State, s': State, t: Tid)
    requires Safe(s) && DoLoadHeader(s, s', t)
    ensures Safe(s') && ConsEffect(s, s', t)
  {
    var r, job, p := s.ring, s.cons[t].job, s'.cons[t];
    assert ConsAt(s, t) && HeaderOk(r, Last(r));
    assert ConsJob(s', p) by {
      CopyJob(s, s', s.cons[t], p);
    }
    forall x: nat | job.index <= x < job.stop ensures BornBy(r, Last(r), x) {
      if x / BLOCK_SIZE in r.live {
        assert LiveOk(r, x / BLOCK_SIZE);
      }
    }
    ReadStep(s, s', t, p);
  }

  /** Moving on inside the same job keeps what is known of it. */
  lemma CopyJob(s: State, s': State, p: Cons, q: Cons)
    requires ConsJob(s, p) && JobOf(q) == JobOf(p) && FreshFrom(q) == FreshFrom(p)
    requires s'.head == s.head && s'.done == s.done && s'.delivered == s.delivered
    requires !p.Idle? && !p.StoreNull? && !p.FreeBlock? && !q.Idle?
    requires q.ReadSlot? ==> q.job.index <= q.i < End(q.job)
    ensures ConsJob(s', q)
  {
    forall x: nat | JobOf(q).index <= x < JobOf(q).stop ensures Waits(s', x) {
      assert Waits(s, x);
    }
    forall x: nat | FreshFrom(q) <= x < JobOf(q).stop ensures Fresh(s', x) {
      assert Fresh(s, x);
    }
    forall x: nat | JobOf(q).index <= x < FreshFrom(q) ensures Got(s', x) {
      assert Got(s, x);
    }
  }

  /** The first index of a job, still waited for, has its block in the index. */
  lemma JobHasBlock(s: State, t: Tid, x: nat)
    requires Safe(s) && t in s.cons && JobOf(s.cons[t]).index <= x < JobOf(s.cons[t]).stop
    ensures x / BLOCK_SIZE in s.ring.live && x < s.head <= s.tail
    ensures x / BLOCK_SIZE < s.ring.settled
  {
    assert ConsAt(s, t) && Waits(s, x) && Covered(s, x);
  }

  /** The tail read in any header, at any moment, carries a key. */
  lemma TailIsKeyed(s: State, t: Tid)
    requires Safe(s) && t in s.cons && s.cons[t].LoadTail?
    ensures s.cons[t].h < |s.ring.headers|
    ensures TailReadKeyed(s.ring, s.cons[t].h, s.ring.headers[s.cons[t].h].tail)
  {
    var r, p := s.ring, s.cons[t];
    assert ConsAt(s, t) && HeaderOk(r, p.h);
    var k := p.job.index / BLOCK_SIZE;
    JobHasBlock(s, t, p.job.index);
    assert LiveOk(r, k);
    TailReadIsKeyed(r, p.h, k, TailBlock(s.ring, s.prod));
  }

  lemma KeepsLoadTail(s: State, s': State, t: Tid)
    requires Safe(s) && DoLoadTail(s, s', t)
    ensures Safe(s') && ConsEffect(s, s', t)
  {
    TailIsKeyed(s, t);
    assert ConsAt(s, t);
    CopyJob(s, s', s.cons[t], s'.cons[t]);
    CopyBorn(s, s', s.cons[t], s'.cons[t]);
    ReadStep(s, s', t, s'.cons[t]);
  }

  lemma CopyBorn(s: State, s': State, p: Cons, q: Cons)
    requires Shaped(s.ring) && s'.ring == s.ring
    requires !p.Idle? && !p.LoadHeader? && !q.Idle? && !q.LoadHeader? && q.h == p.h && q.job == p.job
    requires JobBorn(s.ring, p.h, p.job)
    ensures JobBorn(s'.ring, q.h, q.job)
  {
  }

  lemma KeepsLoadKey(s: State, s': State, t: Tid)
    requires Safe(s) && DoLoadKey(s, s', t)
    ensures Safe(s') && ConsEffect(s, s', t)
  {
    var p := s.cons[t];
    assert ConsAt(s, t);
    LookupIsSlot(s.ring, p.h, p.tail, p.job.index);
    CopyJob(s, s', p, s'.cons[t]);
    ReadStep(s, s', t, s'.cons[t]);
  }

  /** The entry at the computed position is the block's own. */
  lemma PositionHoldsBlock(s: State, t: Tid)
    requires Safe(s) && t in s.cons && s.cons[t].LoadValue?
    ensures var p := s.cons[t]; var k := p.job.index / BLOCK_SIZE;
      && k in s.ring.live && p.h < |s.ring.headers| && p.pos < |s.ring.headers[p.h].index|
      && s.ring.headers[p.h].index[p.pos] == s.ring.live[k].entry < |s.ring.entries|
      && s.ring.entries[s.ring.live[k].entry] == Entry(Some(BLOCK_SIZE * k), Some(s.ring.live[k].block), k)
  {
    var p := s.cons[t];
    assert ConsAt(s, t) && HeaderOk(s.ring, p.h);
    JobHasBlock(s, t, p.job.index);
    assert BornBy(s.ring, p.h, p.job.index);
    SlotHoldsBlock(s.ring, p.h, p.job.index / BLOCK_SIZE);
  }

  lemma KeepsLoadValue(s: State, s': State, t: Tid)
    requires Safe(s) && DoLoadValue(s, s', t)
    ensures Safe(s') && ConsEffect(s, s', t)
  {
    var p := s.cons[t];
    assert ConsAt(s, t);
    PositionHoldsBlock(s, t);
    CopyJob(s, s', p, s'.cons[t]);
    ReadStep(s, s', t, s'.cons[t]);
  }

  /** Where a consumer stands inside its job. */
  lemma FreshFromInside(s: State, t: Tid)
    requires Shaped(s.ring) && ConsumersOk(s) && t in s.cons
    ensures JobOf(s.cons[t]).index <= FreshFrom(s.cons[t])
  {
    assert ConsAt(s, t);
  }

  /** The element read is the value enqueued at that index. */
  lemma SlotHoldsValue(s: State, t: Tid)
    requires Safe(s) && t in s.cons && s.cons[t].ReadSlot?
    ensures var p := s.cons[t];
      && p.i < s.head <= s.tail <= |s.written| && p.i !in s.delivered
      && (p.block, p.i % BLOCK_SIZE) in s.slots
      && s.slots[(p.block, p.i % BLOCK_SIZE)] == s.written[p.i]
  {
    var p := s.cons[t];
    assert ConsAt(s, t);
    JobHasBlock(s, t, p.i);
    assert p.i / BLOCK_SIZE == p.job.index / BLOCK_SIZE;
    assert SlotOk(s, p.i) && Fresh(s, p.i);
  }

  lemma ReadData(s: State, s': State, t: Tid)
    requires Safe(s) && DoReadSlot(s, s', t)
    ensures BlocksOk(s') && ValuesOk(s') && HeadOk(s')
  {
    SlotHoldsValue(s, t);
    forall k: nat | k in s'.ring.live ensures BlockOk(s', k) {
      assert BlockOk(s, k);
    }
    forall i: nat ensures Covered(s', i) {
      assert Covered(s, i);
    }
    forall i: nat | i < |s'.written| ensures SlotOk(s', i) {
      assert SlotOk(s, i);
    }
    forall i: nat | i in s'.delivered ensures DeliveredOk(s', i) {
      assert i in s.delivered ==> DeliveredOk(s, i);
    }
    forall i: nat | i in s'.done ensures DoneOk(s', i) {
      assert DoneOk(s, i) && Got(s, i);
    }
    forall i: nat | s'.head <= i ensures Fresh(s', i) {
      assert Fresh(s, i);
    }
  }

  lemma ReadJob(s: State, s': State, t: Tid)
    requires Safe(s) && DoReadSlot(s, s', t)
    ensures ConsOk(s', s'.cons[t])
  {
    var p, q := s.cons[t], s'.cons[t];
    assert ConsAt(s, t);
    forall x: nat | q.job.index <= x < q.job.stop ensures Waits(s', x) {
      assert Waits(s, x);
    }
    forall x: nat | FreshFrom(q) <= x < q.job.stop ensures Fresh(s', x) {
      assert Fresh(s, x);
    }
    forall x: nat | q.job.index <= x < FreshFrom(q) ensures Got(s', x) {
      assert x < p.i ==> Got(s, x);
    }
  }

  lemma KeepsReadSlot(s: State, s': State, t: Tid)
    requires Safe(s) && DoReadSlot(s, s', t)
    ensures Safe(s') && ConsEffect(s, s', t)
  {
    ReadData(s, s', t);
    ReadJob(s, s', t);
    forall u | u in s.cons && u != t
      ensures Leaves(s, s', s.cons[u]) && Apart(s'.cons[t], s.cons[u]) && Apart(s.cons[u], s'.cons[t])
    {
      ReadApart(s, s', t, u);
    }
    LeavesOthers(s, s', t, s'.cons[t]);
  }

  lemma ReadApart(s: State, s': State, t: Tid, u: Tid)
    requires Shaped(s.ring) && ConsumersOk(s) && s.head <= s.tail && DoReadSlot(s, s', t)
    requires u in s.cons && u != t
    ensures Leaves(s, s', s.cons[u]) && Apart(s'.cons[t], s.cons[u]) && Apart(s.cons[u], s'.cons[t])
  {
    assert ConsAt(s, t) && ApartAt(s, t, u) && ApartAt(s, u, t);
    FreshFromInside(s, u);
    OthersKeepFresh(s, s', s.cons[u], s.cons[t].i);
  }

  lemma OthersKeepFresh(s: State, s': State, p: Cons, i: nat)
    requires s' == s.(cons := s'.cons, delivered := s'.delivered) && s.head <= s.tail
    requires i in s'.delivered && s'.delivered == s.delivered[i := s'.delivered[i]]
    requires JobOf(p).index <= FreshFrom(p)
    requires i < JobOf(p).index || JobOf(p).stop <= i || JobOf(p).index >= JobOf(p).stop
    ensures Leaves(s, s', p)
  {
    KeepsRing(s.ring);
    forall x: nat | FreshFrom(p) <= x < JobOf(p).stop && Fresh(s, x) ensures Fresh(s', x) {
    }
  }

  // --- marking a stretch of slots empty

  lemma EmptyCounts(s: State, s': State, t: Tid, k: nat)
    requires BlocksOk(s) && DoSetEmpty(s, s', t) && k in s.ring.live
    requires JobWaits(s, s.cons[t].job) && s.cons[t].job.index < s.cons[t].job.stop
    requires s.cons[t].job.index / BLOCK_SIZE in s.ring.live
    requires InHand(s.ring, s.cons[t].job.index, s.cons[t].block)
    ensures BlockOk(s', k)
    ensures k == s.cons[t].job.index / BLOCK_SIZE ==>
      s.ring.live[k].block == s.cons[t].block
      && s'.emptied[s.cons[t].block] == |s'.done * Range(BLOCK_SIZE * k, BLOCK_SIZE)|
  {
    var p := s.cons[t];
    var j, n := p.job.index / BLOCK_SIZE, End(p.job) - p.job.index;
    assert BlockOk(s, k) && BlockOk(s, j) && BlocksApart(s.ring, j, k);
    var mine, block := Range(p.job.index, n), Range(BLOCK_SIZE * k, BLOCK_SIZE);
    if k == j {
      forall x | x in mine ensures x !in s.done {
        assert Waits(s, x);
      }
      assert s'.done * block == s.done * block + mine;
    } else {
      assert s'.done * block == s.done * block;
    }
  }

  lemma EmptyBlocks(s: State, s': State, t: Tid)
    requires BlocksOk(s) && DoSetEmpty(s, s', t)
    requires JobWaits(s, s.cons[t].job) && s.cons[t].job.index < s.cons[t].job.stop
    requires s.cons[t].job.index / BLOCK_SIZE in s.ring.live
    requires InHand(s.ring, s.cons[t].job.index, s.cons[t].block)
    ensures BlocksOk(s')
  {
    forall k: nat | k in s'.ring.live ensures BlockOk(s', k) {
      EmptyCounts(s, s', t, k);
    }
    forall i: nat ensures Covered(s', i) {
      assert Covered(s, i);
    }
  }

  lemma EmptyValues(s: State, s': State, t: Tid)
    requires ValuesOk(s) && HeadOk(s) && DoSetEmpty(s, s', t) && ConsJob(s, s.cons[t])
    ensures ValuesOk(s') && HeadOk(s')
  {
    var p := s.cons[t];
    forall i: nat | i < |s'.written| ensures SlotOk(s', i) {
      assert SlotOk(s, i);
    }
    forall i: nat | i in s'.delivered ensures DeliveredOk(s', i) {
      assert DeliveredOk(s, i);
    }
    forall i: nat | i in s'.done ensures DoneOk(s', i) {
      if i in s.done {
        assert DoneOk(s, i) && Got(s, i);
      } else {
        assert Got(s, i);
      }
    }
    forall i: nat | s'.head <= i ensures Fresh(s', i) {
      assert Fresh(s, i);
    }
  }

  lemma EmptyJob(s: State, s': State, t: Tid)
    requires Shaped(s.ring) && ConsumersOk(s) && DoSetEmpty(s, s', t)
    ensures ConsJob(s', s'.cons[t])
  {
    var p, q := s.cons[t], s'.cons[t];
    assert ConsAt(s, t);
    if !q.Idle? {
      forall x: nat | q.job.index <= x < q.job.stop ensures Waits(s', x) {
        assert Waits(s, x);
      }
      forall x: nat | FreshFrom(q) <= x < q.job.stop ensures Fresh(s', x) {
        assert Fresh(s, x);
      }
    }
  }

  /** When the counter is full, the whole block is done. */
  lemma FullMeansDone(s: State, s': State, t: Tid)
    requires BlocksOk(s) && DoSetEmpty(s, s', t) && s'.cons[t].StoreNull?
    requires JobWaits(s, s.cons[t].job) && s.cons[t].job.index < s.cons[t].job.stop
    requires s.cons[t].job.index / BLOCK_SIZE in s.ring.live
    requires InHand(s.ring, s.cons[t].job.index, s.cons[t].block)
    ensures Range(BLOCK_SIZE * (s.cons[t].job.index / BLOCK_SIZE), BLOCK_SIZE) <= s'.done
  {
    var k := s.cons[t].job.index / BLOCK_SIZE;
    EmptyCounts(s, s', t, k);
    SubsetFull(s'.done * Range(BLOCK_SIZE * k, BLOCK_SIZE), Range(BLOCK_SIZE * k, BLOCK_SIZE));
  }

  lemma EmptyPhase(s: State, s': State, t: Tid)
    requires Shaped(s.ring) && ConsumersOk(s) && BlocksOk(s) && DoSetEmpty(s, s', t)
    requires s.cons[t].job.index / BLOCK_SIZE in s.ring.live
    ensures ConsPhase(s', s'.cons[t])
  {
    var p, q := s.cons[t], s'.cons[t];
    var k := p.job.index / BLOCK_SIZE;
    assert ConsAt(s, t);
    assert BornBy(s.ring, p.h, p.job.index);
    SlotNext(s.ring.headers[p.h], k);
    if q.StoreNull? {
      FullMeansDone(s, s', t);
    }
    if !q.Idle? {
      forall x: nat | q.job.index <= x < q.job.stop ensures BornBy(s'.ring, q.h, x) {
        assert BornBy(s.ring, p.h, x);
      }
    }
  }

  lemma OthersKeepWaiting(s: State, s': State, p: Cons, from: nat, count: nat)
    requires s' == s.(cons := s'.cons, done := s.done + Range(from, count), emptied := s'.emptied) && s.head <= s.tail
    requires JobOf(p).index >= JobOf(p).stop || JobOf(p).stop <= from || from + count <= JobOf(p).index
    ensures Leaves(s, s', p)
  {
    KeepsRing(s.ring);
    forall x: nat | JobOf(p).index <= x < JobOf(p).stop && Waits(s, x) ensures Waits(s', x) {
    }
  }

  lemma EmptyApart(s: State, s': State, t: Tid, u: Tid)
    requires Shaped(s.ring) && ConsumersOk(s) && s.head <= s.tail && DoSetEmpty(s, s', t)
    requires u in s.cons && u != t
    ensures Apart(s'.cons[t], s.cons[u]) && Apart(s.cons[u], s'.cons[t])
    ensures Leaves(s, s', s.cons[u])
  {
    var p, q := s.cons[t], s.cons[u];
    assert ConsAt(s, t) && ConsAt(s, u) && ApartAt(s, t, u) && ApartAt(s, u, t);
    OthersKeepWaiting(s, s', q, p.job.index, End(p.job) - p.job.index);
    if q.StoreNull? {
      assert Waits(s, p.job.index);
      assert p.job.index !in Range(BLOCK_SIZE * q.number, BLOCK_SIZE);
    }
  }

  lemma KeepsSetEmpty(s: State, s': State, t: Tid)
    requires Safe(s) && DoSetEmpty(s, s', t)
    ensures Safe(s') && ConsEffect(s, s', t)
  {
    assert ConsAt(s, t);
    JobHasBlock(s, t, s.cons[t].job.index);
    EmptyBlocks(s, s', t);
    EmptyValues(s, s', t);
    EmptyJob(s, s', t);
    EmptyPhase(s, s', t);
    forall u | u in s.cons && u != t
      ensures Leaves(s, s', s.cons[u]) && Apart(s'.cons[t], s.cons[u]) && Apart(s.cons[u], s'.cons[t])
    {
      EmptyApart(s, s', t, u);
    }
    EmptyHand(s, s', t);
    LeavesOthers(s, s', t, s'.cons[t]);
  }

  /** The block the producer has just obtained is not one that consumers empty. */
  lemma EmptyHand(s: State, s': State, t: Tid)
    requires HandOk(s) && DoSetEmpty(s, s', t)
    requires s.cons[t].job.index / BLOCK_SIZE in s.ring.live
    requires InHand(s.ring, s.cons[t].job.index, s.cons[t].block)
    ensures HandOk(s')
  {
    if s.prod.StoreValue? {
      assert s.prod.block in ProdHand(s) && NotLive(s.ring, s.prod.block);
    }
    forall b | b in ProdHand(s') ensures NotLive(s'.ring, b) {
      assert b in ProdHand(s);
    }
  }

  // --- releasing a block

  /** The entry that is nulled is the emptied block's own. */
  lemma NullFindsEntry(s: State, t: Tid)
    requires Safe(s) && t in s.cons && s.cons[t].StoreNull?
    ensures var p := s.cons[t];
      && p.h < |s.ring.headers| && p.pos < |s.ring.headers[p.h].index|
      && p.number in s.ring.live && p.number < s.ring.settled
      && BLOCK_SIZE * p.number + BLOCK_SIZE <= s.head
      && s.ring.headers[p.h].index[p.pos] == s.ring.live[p.number].entry < |s.ring.entries|
  {
    var p := s.cons[t];
    assert ConsAt(s, t) && HeaderOk(s.ring, p.h);
    EmptiedIsSettled(s, p);
    SlotHoldsBlock(s.ring, p.h, p.number);
  }

  lemma NullBlocks(s: State, s': State, k: nat)
    requires BlocksOk(s) && k in s.ring.live && Range(BLOCK_SIZE * k, BLOCK_SIZE) <= s.done
    requires BLOCK_SIZE * k + BLOCK_SIZE <= s.tail <= BLOCK_SIZE * s.ring.settled < s.tail + BLOCK_SIZE
    requires s' == s.(ring := s'.ring, cons := s'.cons)
    requires s'.ring.live == s.ring.live - {k} && s'.ring.settled == s.ring.settled
    ensures BlocksOk(s')
  {
    forall m: nat | m in s'.ring.live ensures BlockOk(s', m) {
      NullBlockOk(s, s', k, m);
    }
    forall j: nat, m: nat | j in s'.ring.live && m in s'.ring.live ensures BlocksApart(s'.ring, j, m) {
      assert BlocksApart(s.ring, j, m);
    }
    forall i: nat ensures Covered(s', i) {
      assert Covered(s, i);
      NullCovered(s, s', k, i);
    }
  }

  lemma NullBlockOk(s: State, s': State, k: nat, m: nat)
    requires m in s.ring.live && BlockOk(s, m)
    requires s' == s.(ring := s'.ring, cons := s'.cons)
    requires s'.ring.live == s.ring.live - {k} && m != k
    ensures BlockOk(s', m)
  {
  }

  lemma NullCovered(s: State, s': State, k: nat, i: nat)
    requires Covered(s, i) && Range(BLOCK_SIZE * k, BLOCK_SIZE) <= s.done
    requires s'.tail == s.tail && s'.done == s.done && s'.ring.live == s.ring.live - {k}
    ensures Covered(s', i)
  {
    if i / BLOCK_SIZE == k {
      assert i in Range(BLOCK_SIZE * k, BLOCK_SIZE);
    }
  }

  lemma NullNotLive(s: State, s': State, k: nat)
    requires BlocksOk(s) && k in s.ring.live && s'.ring.live == s.ring.live - {k}
    ensures NotLive(s'.ring, s.ring.live[k].block)
  {
    forall m | m in s'.ring.live ensures s'.ring.live[m].block != s.ring.live[k].block {
      assert BlocksApart(s.ring, m, k);
    }
  }

  lemma NullValues(s: State, s': State)
    requires ValuesOk(s) && HeadOk(s)
    requires s' == s.(ring := s'.ring, cons := s'.cons)
    requires forall m :: m in s'.ring.live ==> m in s.ring.live && s'.ring.live[m] == s.ring.live[m]
    ensures ValuesOk(s') && HeadOk(s')
  {
    forall i: nat | i < |s'.written| ensures SlotOk(s', i) {
      assert SlotOk(s, i);
    }
    forall i: nat | i in s'.delivered ensures DeliveredOk(s', i) {
      assert DeliveredOk(s, i);
    }
    forall i: nat | i in s'.done ensures DoneOk(s', i) {
      assert DoneOk(s, i) && Got(s, i);
    }
    forall i: nat | s'.head <= i ensures Fresh(s', i) {
      assert Fresh(s, i);
    }
  }

  lemma NullChain(r: Ring, r': Ring, chain: seq<Block>, from: nat, k: nat)
    requires ChainFrom(r, chain, from) && k < r.settled
    requires r'.live == r.live - {k} && r'.settled == r.settled && r'.count == r.count
    ensures ChainFrom(r', chain, from)
  {
    forall i: nat | i < |chain| && from <= r'.settled + i ensures ChainAt(r', chain, i) {
      assert ChainAt(r, chain, i);
    }
  }

  lemma NullStaged(s: State, s': State, k: nat)
    requires Shaped(s.ring) && Shaped(s'.ring) && Staged(s) && k in s.ring.live && k < s.ring.settled
    requires s.ring.live[k].entry < |s.ring.entries|
    requires s'.ring == Clear(s.ring, k) && s' == s.(ring := s'.ring, cons := s'.cons)
    requires forall j: int :: Exact(s.ring, j) ==> Exact(s'.ring, j)
    ensures Staged(s')
  {
    var r, r' := s.ring, s'.ring;
    assert HeaderOk(r, Last(r)) && HeaderOk(r', Last(r'));
    if !s.prod.Ready? && !s.prod.GiveBack? {
      var next := if s.prod.Undo? then s.prod.next else if s.prod.UndoRewind? then s.prod.next + 1 else 0;
      NullChain(r, r', s.prod.chain, next, k);
    }
  }

  lemma NullOthers(s: State, s': State, t: Tid, u: Tid)
    requires Shaped(s.ring) && ConsumersOk(s) && s.head <= s.tail && t in s.cons && s.cons[t].StoreNull?
    requires s' == s.(ring := s'.ring, cons := s'.cons) && RingKeeps(s.ring, s'.ring)
    requires s'.ring.live == s.ring.live - {s.cons[t].number} && s'.ring.settled == s.ring.settled
    requires s.cons[t].number in s.ring.live && s.ring.live[s.cons[t].number].block == s.cons[t].block
    requires u in s.cons && u != t
    requires ProdHand(s') == ProdHand(s)
    requires var p := s.cons[t]; s'.cons == s.cons[t := FreeBlock(p.job, p.h, p.pos, p.block)]
    ensures Leaves(s, s', s.cons[u]) && Apart(s'.cons[t], s.cons[u]) && Apart(s.cons[u], s'.cons[t])
  {
    var q := s.cons[u];
    assert ConsAt(s, u) && ApartAt(s, t, u) && ApartAt(s, u, t);
    if q.FreeBlock? && Released(s, q.block) {
      assert NotLive(s'.ring, q.block);
    }
    forall k: nat ensures LiveSame(s, s', k) {
    }
    forall x: nat | Got(s, x) ensures Got(s', x) {
    }
    forall x: nat | Waits(s, x) ensures Waits(s', x) {
    }
    forall x: nat | Fresh(s, x) ensures Fresh(s', x) {
    }
  }

  lemma NullSelf(s: State, s': State, t: Tid)
    requires Shaped(s.ring) && Shaped(s'.ring) && BlocksOk(s) && HandOk(s) && ConsumersOk(s)
    requires t in s.cons && s.cons[t].StoreNull?
    requires s' == s.(ring := s'.ring, cons := s'.cons) && RingKeeps(s.ring, s'.ring)
    requires s'.ring.live == s.ring.live - {s.cons[t].number} && s'.ring.settled == s.ring.settled
    requires ProdHand(s') == ProdHand(s) && NotLive(s'.ring, s.cons[t].block)
    ensures var p := s.cons[t]; ConsOk(s', FreeBlock(p.job, p.h, p.pos, p.block))
  {
    var p := s.cons[t];
    assert ConsAt(s, t) && BlockOk(s, p.number);
    assert p.block !in ProdHand(s) by {
      assert p.block in ProdHand(s) ==> NotLive(s.ring, p.block);
    }
    LeavesLocated(s.ring, s'.ring, p.h, p.pos, p.number);
    assert SameHeader(s.ring, s'.ring, p.h) && HeaderOk(s'.ring, p.h);
    forall x: nat | p.job.index <= x < p.job.stop ensures BornBy(s'.ring, p.h, x) {
      assert BornBy(s.ring, p.h, x);
    }
    forall x: nat | p.job.index <= x < p.job.stop ensures Waits(s', x) && Fresh(s', x) {
      assert Waits(s, x) && Fresh(s, x);
    }
  }

  lemma KeepsStoreNull(s: State, s': State, t: Tid)
    requires Safe(s) && DoStoreNull(s, s', t)
    ensures Safe(s') && ConsEffect(s, s', t)
  {
    var p := s.cons[t];
    NullFindsEntry(s, t);
    assert ConsAt(s, t);
    assert s'.ring == Clear(s.ring, p.number);
    ClearKeepsInv(s.ring, p.number);
    OneEntryKeeps(s.ring, s'.ring, s.ring.live[p.number].entry);
    NullBlocks(s, s', p.number);
    NullNotLive(s, s', p.number);
    NullValues(s, s');
    NullStaged(s, s', p.number);
    NullSelf(s, s', t);
    forall u | u in s.cons && u != t
      ensures Leaves(s, s', s.cons[u]) && Apart(s'.cons[t], s.cons[u]) && Apart(s.cons[u], s'.cons[t])
    {
      NullOthers(s, s', t, u);
    }
    LeavesOthers(s, s', t, s'.cons[t]);
    forall b | b in ProdHand(s') ensures NotLive(s'.ring, b) {
      assert b in ProdHand(s) && NotLive(s.ring, b);
    }
  }

  lemma FreeOthers(s: State, s': State, t: Tid, u: Tid)
    requires Shaped(s.ring) && ConsumersOk(s) && s.head <= s.tail && DoFreeBlock(s, s', t)
    requires u in s.cons && u != t
    ensures Leaves(s, s', s.cons[u]) && Apart(s'.cons[t], s.cons[u]) && Apart(s.cons[u], s'.cons[t])
  {
    assert ConsAt(s, t) && ConsAt(s, u) && ApartAt(s, t, u) && ApartAt(s, u, t);
    KeepsRing(s.ring);
    forall x: nat | Got(s, x) ensures Got(s', x) {
    }
    forall x: nat | Waits(s, x) ensures Waits(s', x) {
    }
    forall x: nat | Fresh(s, x) ensures Fresh(s', x) {
    }
  }

  lemma FreeSelf(s: State, s': State, t: Tid)
    requires Shaped(s.ring) && ConsumersOk(s) && DoFreeBlock(s, s', t)
    ensures ConsOk(s', s'.cons[t])
  {
    var p, q := s.cons[t], s'.cons[t];
    assert ConsAt(s, t);
    if !q.Idle? {
      SlotNext(s.ring.headers[p.h], p.job.index / BLOCK_SIZE - 1);
      forall x: nat | p.job.index <= x < p.job.stop ensures Waits(s', x) && Fresh(s', x) && BornBy(s'.ring, p.h, x) {
        assert Waits(s, x) && Fresh(s, x) && BornBy(s.ring, p.h, x);
      }
    }
  }

  lemma KeepsFreeBlock(s: State, s': State, t: Tid)
    requires Safe(s) && DoFreeBlock(s, s', t)
    ensures Safe(s') && ConsEffect(s, s', t)
  {
    assert ConsAt(s, t);
    FreeSelf(s, s', t);
    GiveBackData(s, s');
    forall u | u in s.cons && u != t
      ensures Leaves(s, s', s.cons[u]) && Apart(s'.cons[t], s.cons[u]) && Apart(s.cons[u], s'.cons[t])
    {
      FreeOthers(s, s', t, u);
    }
    LeavesOthers(s, s', t, s'.cons[t]);
    forall b | b in ProdHand(s') ensures NotLive(s'.ring, b) {
      assert b in ProdHand(s);
    }
  }

  // --- claiming

  lemma ClaimSelf(s: State, s': State, t: Tid, count: nat)
    requires HeadOk(s) && Claim(s, s', t, count)
    ensures ConsJob(s', s'.cons[t])
  {
    forall x: nat | s.head <= x < s.head + count ensures Waits(s', x) && Fresh(s', x) {
      assert x in s.done ==> DoneOk(s, x);
      assert Fresh(s, x);
    }
  }

  lemma ClaimOthers(s: State, s': State, t: Tid, count: nat, u: Tid)
    requires Shaped(s.ring) && ConsumersOk(s) && Claim(s, s', t, count)
    requires u in s.cons && u != t
    ensures Leaves(s, s', s.cons[u]) && Apart(s'.cons[t], s.cons[u]) && Apart(s.cons[u], s'.cons[t])
  {
    assert ConsAt(s, u);
    KeepsRing(s.ring);
    forall x: nat | Got(s, x) ensures Got(s', x) {
    }
    forall x: nat | Waits(s, x) ensures Waits(s', x) {
    }
    forall x: nat | Fresh(s, x) ensures Fresh(s', x) {
    }
  }

  lemma ClaimData(s: State, s': State, t: Tid, count: nat)
    requires BlocksOk(s) && ValuesOk(s) && HeadOk(s) && Claim(s, s', t, count)
    ensures BlocksOk(s') && ValuesOk(s') && HeadOk(s')
  {
    forall k: nat | k in s'.ring.live ensures BlockOk(s', k) {
      assert BlockOk(s, k);
    }
    forall i: nat ensures Covered(s', i) {
      assert Covered(s, i);
    }
    forall i: nat | i < |s'.written| ensures SlotOk(s', i) {
      assert SlotOk(s, i);
    }
    forall i: nat | i in s'.delivered ensures DeliveredOk(s', i) {
      assert DeliveredOk(s, i);
    }
    forall i: nat | i in s'.done ensures DoneOk(s', i) {
      assert DoneOk(s, i) && Got(s, i);
    }
    forall i: nat | s'.head <= i ensures Fresh(s', i) {
      assert Fresh(s, i);
    }
  }

  lemma KeepsClaim(s: State, s': State, t: Tid, count: nat)
    requires Safe(s) && Claim(s, s', t, count)
    ensures Safe(s')
  {
    ClaimSelf(s, s', t, count);
    ClaimData(s, s', t, count);
    forall u | u in s.cons && u != t
      ensures Leaves(s, s', s.cons[u]) && Apart(s'.cons[t], s.cons[u]) && Apart(s.cons[u], s'.cons[t])
    {
      ClaimOthers(s, s', t, count, u);
    }
    LeavesOthers(s, s', t, s'.cons[t]);
  }
}
