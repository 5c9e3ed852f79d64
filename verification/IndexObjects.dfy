/** The producer's side of the block index as the objects of the code: headers that
    share their entries, a copy loop that unrolls the old ring into a larger one, and
    the tail moved forward and back. Each method is tied to the operation of module
    BlockIndex that it stands for: `ring` is the value that the objects represent. Only
    the producer runs these; what consumers may see of them meanwhile is the subject of
    module BlockStore. */
module IndexObjects {
  import opened Options
  import opened Modular
  import opened BlockIndex
  import BS = BlockStore

  class IndexEntry {
    var key: Option<nat>
    var value: Option<Block>

    constructor ()
      ensures key == None && value == None
    {
      key, value := None, None;
    }
  }

  class IndexHeader {
    const capacity: nat
    const index: array<IndexEntry>
    const prev: IndexHeader?
    var tail: nat

    ghost predicate Valid()
      reads this
    {
      0 < capacity == index.Length && tail < capacity
    }

    constructor (capacity: nat, index: array<IndexEntry>, prev: IndexHeader?, tail: nat)
      requires 0 < capacity == index.Length && tail < capacity
      ensures Valid() && this.capacity == capacity && this.index == index && this.prev == prev && this.tail == tail
    {
      this.capacity, this.index, this.prev, this.tail := capacity, index, prev, tail;
    }
  }

  /** The entry that stands at position i after growing: the old ring from just after
      its tail on. */
  function OldEntry(h: IndexHeader, i: nat): IndexEntry
    requires h.Valid()
    reads h, h.index
  {
    WrapIsRemainder(h.tail + 1 + i, h.capacity);
    h.index[Wrap(h.tail + 1 + i, h.capacity)]
  }

  /** Header object h is header hd, with objects[e] for entry e. */
  ghost predicate SameHeader(h: IndexHeader, hd: Header, objects: seq<IndexEntry>)
    reads h, h.index
  {
    && h.Valid() && h.capacity == hd.capacity == |hd.index| && h.tail == hd.tail
    && forall p: nat {:trigger h.index[p]} {:trigger hd.index[p]} ::
         p < hd.capacity ==> hd.index[p] < |objects| && h.index[p] == objects[hd.index[p]]
  }

  ghost predicate SameEntries(objects: seq<IndexEntry>, entries: seq<Entry>)
    reads objects
  {
    && |objects| == |entries|
    && forall e: nat {:trigger objects[e]} {:trigger entries[e]} ::
         e < |entries| ==> objects[e].key == entries[e].key && objects[e].value == entries[e].value
  }

  predicate AllDistinct(objects: seq<IndexEntry>) {
    forall d: nat, e: nat {:trigger objects[d], objects[e]} :: d < e < |objects| ==> objects[d] != objects[e]
  }

  /** insert_block_index_entry with a free next entry: its key is stored and the tail
      moved to it. */
  function Inserted(r: Ring, base: nat): (r': Ring)
    requires BS.RingUsable(r)
    ensures base == BLOCK_SIZE * r.count ==>
      r' == SetTail(PutKey(r, BS.NextEntry(r)), Wrap(Current(r).tail + 1, Current(r).capacity))
    ensures BS.RingUsable(r') && r'.count == r.count && r'.live == r.live
  {
    var e := BS.NextEntry(r);
    var put := SetEntry(r, e, r.entries[e].(key := Some(base), number := r.count));
    SetTail(put.(tried := Max(r.tried, r.count + 1)), Wrap(Current(r).tail + 1, Current(r).capacity))
  }

  predicate NextIsFree(r: Ring)
    requires BS.RingUsable(r)
  {
    r.entries[BS.NextEntry(r)].key == None || r.entries[BS.NextEntry(r)].value == None
  }

  lemma GrownIsUsable(r: Ring)
    requires BS.RingUsable(r)
    ensures BS.RingUsable(Grow(r)) && BS.NextEntry(Grow(r)) == |r.entries|
    ensures Grow(r).entries[|r.entries|].key == None && Grow(r).entries[|r.entries|].value == None
  {
    var c := Current(r).capacity;
    WrapSmall(c, 2 * c);
    forall p | 0 <= p < c ensures Current(Grow(r)).index[p] < |r.entries| {
      assert Current(Grow(r)).index[p] == Current(r).index[Wrap(Current(r).tail + 1 + p, c)];
    }
  }

  /** A ring whose next entry is free, grown if need be. */
  function WithRoom(r: Ring): (r': Ring)
    requires BS.RingUsable(r)
    ensures BS.RingUsable(r') && NextIsFree(r') && r'.count == r.count && r'.live == r.live
  {
    GrownIsUsable(r);
    if NextIsFree(r) then r else Grow(r)
  }

  class ProducerIndex {
    var blockIndex: IndexHeader
    ghost var objects: seq<IndexEntry>
    ghost var ring: Ring

    ghost predicate Valid()
      reads this, blockIndex, blockIndex.index, objects
    {
      && BS.RingUsable(ring)
      && SameHeader(blockIndex, Current(ring), objects) && SameEntries(objects, ring.entries) && AllDistinct(objects)
    }

    /** The entry one past the tail. */
    function NextEntry(): IndexEntry
      requires Valid()
      reads this, blockIndex, blockIndex.index, objects
      ensures objects[BS.NextEntry(ring)] == NextEntry()
    {
      OldEntry(blockIndex, 0)
    }

    /** The entry that the tail stands at. */
    function TailEntry(): IndexEntry
      requires blockIndex.Valid()
      reads this, blockIndex, blockIndex.index
    {
      blockIndex.index[blockIndex.tail]
    }

    /** Without an older header. */
    constructor ()
      ensures Valid() && fresh(blockIndex) && blockIndex.prev == null
      ensures blockIndex.capacity == IMPLICIT_INITIAL_INDEX_SIZE && blockIndex.tail == blockIndex.capacity - 1
      ensures forall i :: 0 <= i < blockIndex.index.Length ==> blockIndex.index[i].key == None
      ensures ring == FirstRing()
    {
      var dummy := new IndexEntry();
      var index := new IndexEntry[IMPLICIT_INITIAL_INDEX_SIZE](_ => dummy);
      FillFresh(index, 0);
      blockIndex := new IndexHeader(IMPLICIT_INITIAL_INDEX_SIZE, index, null, IMPLICIT_INITIAL_INDEX_SIZE - 1);
      objects := index[..];
      ring := FirstRing();
    }

    /** The second loop of new_block_index: fresh entries from position `first` on. */
    static method FillFresh(index: array<IndexEntry>, first: nat)
      requires first <= index.Length
      modifies index
      ensures index[..first] == old(index[..first])
      ensures forall i :: first <= i < index.Length ==>
        fresh(index[i]) && index[i].key == None && index[i].value == None
      ensures forall i, j :: first <= i < j < index.Length ==> index[i] != index[j]
    {
      var i := first;
      while i < index.Length
        invariant first <= i <= index.Length && index[..first] == old(index[..first])
        invariant forall k :: first <= k < i ==> fresh(index[k]) && index[k].key == None && index[k].value == None
        invariant forall j, k :: first <= j < k < i ==> index[j] != index[k]
      {
        var entry := new IndexEntry();
        index[i] := entry;
        i := i + 1;
      }
    }

    /** The first loop of new_block_index: it goes once round the old ring, starting
        behind the tail, and has then copied every entry. */
    static method CopyRing(prev: IndexHeader, index: array<IndexEntry>)
      requires prev.Valid() && index.Length == 2 * prev.capacity && index != prev.index
      modifies index
      ensures forall i :: 0 <= i < prev.capacity ==> index[i] == OldEntry(prev, i)
    {
      var prevTail := prev.tail;
      var prevPos := prevTail;
      var i := 0;
      var started := false;
      WrapSmall(prevTail, prev.capacity);
      while !started || prevPos != prevTail
        invariant started <==> i > 0
        invariant i <= prev.capacity && prevPos == Wrap(prevTail + i, prev.capacity) < prev.capacity
        invariant forall k :: 0 <= k < i ==> index[k] == OldEntry(prev, k)
        invariant prev.tail == prevTail && unchanged(prev.index)
        decreases prev.capacity - i, !started
      {
        OnceRound(prevTail, i, prev.capacity);
        WrapAdd(prevTail + i, 1, prev.capacity);
        prevPos := Wrap(prevPos + 1, prev.capacity);
        WrapIsRemainder(prevTail + i + 1, prev.capacity);
        index[i] := prev.index[prevPos];
        i := i + 1;
        started := true;
      }
      OnceRound(prevTail, i, prev.capacity);
      assert i == prev.capacity;
    }

    /** new_block_index: a header of twice the capacity that shares the old entries. */
    method NewBlockIndex()
      requires Valid()
      modifies this
      ensures Valid() && fresh(blockIndex) && fresh(blockIndex.index) && blockIndex.prev == old(blockIndex)
      ensures unchanged(old(blockIndex))
      ensures blockIndex.capacity == 2 * old(blockIndex).capacity && blockIndex.tail == old(blockIndex).capacity - 1
      ensures forall i :: 0 <= i < old(blockIndex).capacity ==> blockIndex.index[i] == old(OldEntry(blockIndex, i))
      ensures forall i :: old(blockIndex).capacity <= i < blockIndex.capacity ==>
        fresh(blockIndex.index[i]) && blockIndex.index[i].key == None && blockIndex.index[i].value == None
      ensures fresh(NextEntry()) && NextEntry().key == None && NextEntry().value == None
      ensures ring == Grow(old(ring)) && old(objects) <= objects
    {
      var prev := blockIndex;
      var index := UnrolledRing(prev);
      ghost var added := index[prev.capacity..];
      blockIndex := new IndexHeader(2 * prev.capacity, index, prev, prev.capacity - 1);
      GrownObjects(prev, blockIndex, objects, ring, added);
      GrownEntries(objects, ring, added);
      JoinedDistinct(objects, added);
      objects := objects + added;
      ring := Grow(ring);
      WrapSmall(prev.capacity, 2 * prev.capacity);
    }

    /** The two loops of new_block_index. */
    static method UnrolledRing(prev: IndexHeader) returns (index: array<IndexEntry>)
      requires prev.Valid()
      ensures fresh(index) && index.Length == 2 * prev.capacity
      ensures forall i :: 0 <= i < prev.capacity ==> index[i] == OldEntry(prev, i)
      ensures forall i :: prev.capacity <= i < index.Length ==>
        fresh(index[i]) && index[i].key == None && index[i].value == None
      ensures AllDistinct(index[prev.capacity..])
    {
      var dummy := new IndexEntry();
      index := new IndexEntry[2 * prev.capacity](_ => dummy);
      CopyRing(prev, index);
      ghost var copied := index[..prev.capacity];
      FillFresh(index, prev.capacity);
      assert forall i :: 0 <= i < prev.capacity ==> index[i] == index[..prev.capacity][i] == copied[i];
    }

    /** insert_block_index_entry; `canAllocate` says whether growing would succeed. */
    method InsertEntry(base: nat, canAllocate: bool) returns (entry: IndexEntry?)
      requires Valid()
      modifies this, blockIndex, NextEntry()
      ensures Valid()
      ensures var free := old(NextEntry().key == None || NextEntry().value == None);
        && (entry == null <==> !free && !canAllocate)
        && (entry == null ==> blockIndex == old(blockIndex) && unchanged(blockIndex) && unchanged(old(NextEntry())))
        && (free ==> entry == old(NextEntry()) && blockIndex == old(blockIndex)
                     && entry.value == old(NextEntry().value)
                     && blockIndex.tail == Wrap(old(blockIndex.tail) + 1, blockIndex.capacity))
        && (entry != null && !free ==> fresh(entry) && fresh(blockIndex) && blockIndex.prev == old(blockIndex)
                                       && entry.value == None && blockIndex.tail == old(blockIndex).capacity
                                       && blockIndex.capacity == 2 * old(blockIndex).capacity
                                       && blockIndex.index[blockIndex.tail - 1] == old(TailEntry())
                                       && unchanged(old(NextEntry())))
      ensures entry != null ==> entry.key == Some(base) && blockIndex.index[blockIndex.tail] == entry
      ensures entry == null ==> ring == old(ring)
      ensures entry != null ==> ring == Inserted(WithRoom(old(ring)), base)
      ensures entry != null ==> objects[BS.NextEntry(WithRoom(old(ring)))] == entry
    {
      var newTail := Wrap(blockIndex.tail + 1, blockIndex.capacity);
      WrapIsRemainder(blockIndex.tail + 1, blockIndex.capacity);
      entry := blockIndex.index[newTail];
      if entry.key == None || entry.value == None {
        PutNext(entry, base);
        return;
      }
      if !canAllocate {
        return null;
      }
      entry := InsertGrown(base);
    }

    /** With no free entry: the index grows and a fresh entry is taken. */
    method InsertGrown(base: nat) returns (entry: IndexEntry)
      requires Valid() && !NextIsFree(ring)
      modifies this
      ensures Valid() && fresh(entry) && fresh(blockIndex) && blockIndex.prev == old(blockIndex)
      ensures unchanged(old(blockIndex))
      ensures entry.key == Some(base) && entry.value == None && TailEntry() == entry
      ensures blockIndex.tail == old(blockIndex).capacity && blockIndex.capacity == 2 * old(blockIndex).capacity
      ensures blockIndex.index[blockIndex.tail - 1] == old(TailEntry())
      ensures ring == Inserted(WithRoom(old(ring)), base) && objects[BS.NextEntry(WithRoom(old(ring)))] == entry
    {
      LastOldEntry(blockIndex);
      NewBlockIndex();
      WrapSmall(blockIndex.tail + 1, blockIndex.capacity);
      entry := NextEntry();
      PutNext(entry, base);
    }

    /** The key first, the tail after it. */
    method PutNext(entry: IndexEntry, base: nat)
      requires Valid() && entry == NextEntry()
      modifies this`ring, blockIndex, entry
      ensures Valid() && entry.key == Some(base) && entry.value == old(entry.value)
      ensures blockIndex.tail == Wrap(old(blockIndex.tail) + 1, blockIndex.capacity)
      ensures blockIndex.index[blockIndex.tail] == entry
      ensures ring == Inserted(old(ring), base)
    {
      entry.key := Some(base);
      blockIndex.tail := Wrap(blockIndex.tail + 1, blockIndex.capacity);
      ring := Inserted(ring, base);
    }

    /** rewind_block_index_tail: the tail is where it was before the last insertion into
        this header. */
    method Rewind()
      requires Valid()
      modifies this`ring, blockIndex
      ensures Valid() && ring == BS.Rewound(old(ring))
      ensures blockIndex.tail == Wrap(old(blockIndex.tail) - 1, blockIndex.capacity)
      ensures forall t: nat {:trigger Wrap(t + 1, blockIndex.capacity)} ::
        t < blockIndex.capacity && old(blockIndex.tail) == Wrap(t + 1, blockIndex.capacity) ==> blockIndex.tail == t
    {
      WrapIsRemainder(blockIndex.tail - 1, blockIndex.capacity);
      ghost var after := blockIndex.tail;
      blockIndex.tail := Wrap(blockIndex.tail - 1, blockIndex.capacity);
      ring := SetTail(ring, blockIndex.tail);
      forall t: nat {:trigger Wrap(t + 1, blockIndex.capacity)}
        | t < blockIndex.capacity && after == Wrap(t + 1, blockIndex.capacity)
        ensures blockIndex.tail == t
      {
        RewindUndoesAdvance(t, blockIndex.capacity);
      }
    }

    /** The tail goes back first, then the entry is emptied. */
    method TakeBack(entry: IndexEntry, ghost e: EntryId, ghost was: nat)
      requires Valid() && e < |objects| && entry == objects[e]
      requires was < blockIndex.capacity && blockIndex.tail == Wrap(was + 1, blockIndex.capacity)
      modifies this`ring, blockIndex, entry
      ensures Valid() && blockIndex.tail == was
      ensures entry.value == None && ring.count == old(ring).count && ring.live == old(ring).live
    {
      Rewind();
      entry.value := None;
      ring := SetEntry(ring, e, ring.entries[e].(value := None));
    }

    method Fill(entry: IndexEntry, ghost e: EntryId, block: Block)
      requires Valid() && e < |objects| && entry == objects[e]
      modifies this`ring, entry
      ensures Valid() && ring == PutBlock(old(ring), e, block)
    {
      entry.value := Some(block);
      ring := PutBlock(ring, e, block);
    }

    /** An insertion, and then no block is to be had. The tail stays at the entry where
        it stood, also when the index has grown in between. */
    method InsertInVain(base: nat, canAllocate: bool)
      requires Valid()
      modifies this, blockIndex, NextEntry()
      ensures Valid() && ring.count == old(ring).count && ring.live == old(ring).live
      ensures TailEntry() == old(TailEntry())
      ensures blockIndex == old(blockIndex) ==> blockIndex.tail == old(blockIndex.tail)
      ensures NextIsFree(old(ring)) ==> old(NextEntry()).value == None
      ensures !NextIsFree(old(ring)) ==> unchanged(old(NextEntry()))
    {
      ghost var e := BS.NextEntry(WithRoom(ring));
      var entry, was := InsertAfter(base, canAllocate);
      if entry != null {
        TakeBack(entry, e, was);
      }
    }

    /** An insertion with the position that the tail came from. */
    method InsertAfter(base: nat, canAllocate: bool) returns (entry: IndexEntry?, ghost was: nat)
      requires Valid()
      modifies this, blockIndex, NextEntry()
      ensures Valid() && ring.count == old(ring).count && ring.live == old(ring).live
      ensures entry == null ==> TailEntry() == old(TailEntry()) && blockIndex.tail == old(blockIndex.tail)
      ensures entry != null ==>
        && was < blockIndex.capacity && blockIndex.tail == Wrap(was + 1, blockIndex.capacity)
        && blockIndex.index[was] == old(TailEntry())
        && BS.NextEntry(WithRoom(old(ring))) < |objects| && entry == objects[BS.NextEntry(WithRoom(old(ring)))]
        && (fresh(blockIndex) || (blockIndex == old(blockIndex) && was == old(blockIndex.tail)))
      ensures if NextIsFree(old(ring)) then entry == old(NextEntry())
              else unchanged(old(NextEntry())) && (entry != null ==> fresh(entry))
    {
      entry := InsertEntry(base, canAllocate);
      WrapSmall(blockIndex.tail, blockIndex.capacity);
      was := if blockIndex == old(blockIndex) then old(blockIndex.tail) else blockIndex.tail - 1;
    }

    /** An insertion, and the block for it. */
    method InsertAndFill(base: nat, canAllocate: bool, block: Block) returns (ok: bool)
      requires Valid()
      modifies this, blockIndex, NextEntry()
      ensures Valid() && ok == (NextIsFree(old(ring)) || canAllocate)
      ensures ok ==>
        var r := WithRoom(old(ring));
        ring == PutBlock(Inserted(r, base), BS.NextEntry(r), block)
      ensures !ok ==> ring == old(ring) && blockIndex == old(blockIndex) && blockIndex.tail == old(blockIndex.tail)
      ensures !ok ==> unchanged(old(NextEntry())) && TailEntry() == old(TailEntry())
    {
      ghost var e := BS.NextEntry(WithRoom(ring));
      var entry := InsertEntry(base, canAllocate);
      if entry == null {
        return false;
      }
      Fill(entry, e, block);
      return true;
    }

    /** What enqueue does when it starts a block; `newBlock` is what requisition_block
        returns. A failure leaves the tail at the entry where it stood and no block in
        the entry behind it. */
    method StartBlock(base: nat, canAllocate: bool, newBlock: Option<Block>) returns (ok: bool)
      requires Valid()
      modifies this, blockIndex, NextEntry()
      ensures Valid()
      ensures ok <==> newBlock.Some? && (NextIsFree(old(ring)) || canAllocate)
      ensures ok ==>
        var r := WithRoom(old(ring));
        ring == PutBlock(Inserted(r, base), BS.NextEntry(r), newBlock.value)
      ensures !ok ==> TailEntry() == old(TailEntry()) && ring.count == old(ring).count && ring.live == old(ring).live
      ensures !ok && blockIndex == old(blockIndex) ==> blockIndex.tail == old(blockIndex.tail)
      ensures !ok && NextIsFree(old(ring)) ==> old(NextEntry()).value == None
      ensures !ok && !NextIsFree(old(ring)) ==> unchanged(old(NextEntry()))
    {
      match newBlock
      case None =>
        InsertInVain(base, canAllocate);
        ok := false;
      case Some(block) =>
        ok := InsertAndFill(base, canAllocate, block);
    }

    /** get_block_index_index_for_index, on the current header: as many positions from
        the tail as the block is blocks away from the tail's block. If the ring is as
        module BlockIndex keeps it, the block wanted is there. */
    method IndexFor(index: nat) returns (idx: nat)
      requires Valid() && blockIndex.index[blockIndex.tail].key.Some?
      requires blockIndex.index[blockIndex.tail].key.value % BLOCK_SIZE == 0
      ensures idx < blockIndex.capacity
      ensures var tailBlock := blockIndex.index[blockIndex.tail].key.value / BLOCK_SIZE;
        idx == Wrap(blockIndex.tail + (index / BLOCK_SIZE - tailBlock), blockIndex.capacity)
      ensures var k := index / BLOCK_SIZE;
        Inv(ring) && k in ring.live ==>
          blockIndex.index[idx].key == Some(BLOCK_SIZE * k) && blockIndex.index[idx].value == Some(ring.live[k].block)
    {
      LookupFindsBlock(ring, index);
      var rounded := index / BLOCK_SIZE * BLOCK_SIZE;
      var tailBase := blockIndex.index[blockIndex.tail].key.value;
      var offset := (rounded - tailBase) / BLOCK_SIZE;
      WrapIsRemainder(blockIndex.tail + offset, blockIndex.capacity);
      idx := Wrap(blockIndex.tail + offset, blockIndex.capacity);
    }
  }

  lemma LookupFindsBlock(r: Ring, index: nat)
    requires BS.RingUsable(r) && r.entries[Current(r).index[Current(r).tail]].key.Some?
    ensures var k, hd := index / BLOCK_SIZE, Current(r);
      Inv(r) && k in r.live ==>
        var e := hd.index[LookupPosition(hd, hd.tail, r.entries[hd.index[hd.tail]].key.value, index)];
        r.entries[e] == Entry(Some(BLOCK_SIZE * k), Some(r.live[k].block), k)
  {
    var k := index / BLOCK_SIZE;
    if Inv(r) && k in r.live {
      assert HeaderOk(r, Last(r)) && LiveOk(r, k);
      LookupIsSlot(r, Last(r), Current(r).tail, index);
      SlotHoldsBlock(r, Last(r), k);
    }
  }

  /** The copy of the old ring ends with the entry at its tail. */
  lemma LastOldEntry(h: IndexHeader)
    requires h.Valid()
    ensures OldEntry(h, h.capacity - 1) == h.index[h.tail]
  {
    WrapPeriod(h.tail, h.capacity);
    WrapSmall(h.tail, h.capacity);
  }

  lemma GrownEntries(objects: seq<IndexEntry>, r: Ring, added: seq<IndexEntry>)
    requires BS.RingUsable(r) && SameEntries(objects, r.entries) && |added| == Current(r).capacity
    requires forall i :: 0 <= i < |added| ==> added[i].key == None && added[i].value == None
    ensures SameEntries(objects + added, Grow(r).entries)
  {
  }

  lemma JoinedDistinct(a: seq<IndexEntry>, b: seq<IndexEntry>)
    requires AllDistinct(a) && AllDistinct(b) && forall e :: e in a ==> e !in b
    ensures AllDistinct(a + b)
  {
    var all := a + b;
    forall d: nat, e: nat | d < e < |all| ensures all[d] != all[e] {
      assert d < |a| ==> all[d] in a;
      assert e >= |a| ==> all[e] in b;
    }
  }

  /** The new header's objects are the old ones in the grown header's order, and the
      fresh ones behind them. */
  lemma GrownObjects(prev: IndexHeader, h: IndexHeader, objects: seq<IndexEntry>, r: Ring, added: seq<IndexEntry>)
    requires BS.RingUsable(r) && SameHeader(prev, Current(r), objects) && |objects| == |r.entries|
    requires h.Valid() && h.capacity == 2 * prev.capacity && h.tail == prev.capacity - 1
    requires h.index[prev.capacity..] == added
    requires forall i :: 0 <= i < prev.capacity ==> h.index[i] == OldEntry(prev, i)
    ensures BS.RingUsable(Grow(r)) && SameHeader(h, Current(Grow(r)), objects + added)
  {
    GrownIsUsable(r);
    var hd, c := Current(Grow(r)), prev.capacity;
    forall p: nat | p < hd.capacity
      ensures hd.index[p] < |objects + added| && h.index[p] == (objects + added)[hd.index[p]]
    {
      if p < c {
        var q := Wrap(prev.tail + 1 + p, c);
        assert hd.index[p] == Current(r).index[q];
        assert h.index[p] == OldEntry(prev, p) == prev.index[q];
      } else {
        assert h.index[p] == added[p - c];
      }
    }
  }

  lemma WrapSmall(x: nat, m: nat)
    requires x < m
    ensures Wrap(x, m) == x
  {
    WrapIsRemainder(x, m);
    ModSmall(x, m);
  }

  /** Going round a ring one reaches the start again exactly after a full turn. */
  lemma OnceRound(start: nat, i: nat, m: nat)
    requires start < m && i <= m
    ensures 0 < i < m ==> Wrap(start + i, m) != start
    ensures i == m ==> Wrap(start + i, m) == start
  {
    WrapSmall(start, m);
    if 0 < i < m && Wrap(start + i, m) == start {
      WrapUnique(start + i, start, m);
    }
    if i == m {
      WrapPeriod(start, m);
    }
  }

  /** Rewinding after advancing leads back. */
  lemma RewindUndoesAdvance(tail: nat, m: nat)
    requires tail < m
    ensures Wrap(Wrap(tail + 1, m) - 1, m) == tail
  {
    WrapAdd(tail + 1, -1, m);
    WrapSmall(tail, m);
  }
}
