/** The block index of an implicit producer: a growing ring of entries that maps
    the base index of each block to the block.

    Growing allocates a header with twice the capacity; old headers stay readable
    and share the entries. Blocks are named by number: block k covers the indices
    from BLOCK_SIZE * k on, and its base is BLOCK_SIZE * k. */
module BlockIndex {
  import opened Options
  import opened Modular

  type Block = nat
  type EntryId = nat

  const BLOCK_SIZE: nat := 32
  const IMPLICIT_INITIAL_INDEX_SIZE: nat := 32

  /** An entry's key is the base it stands for, None while INVALID_BLOCK_BASE.
      `number` is a history variable: the block of the key, or for a fresh entry
      the block that will be the first to use it. */
  datatype Entry = Entry(key: Option<nat>, value: Option<Block>, number: int)

  /** `phase` is a history variable: block k belongs at position (phase + k) mod capacity. */
  datatype Header = Header(capacity: nat, tail: nat, index: seq<EntryId>, phase: int)

  /** A block that is in the index: where it is and with which header it came. */
  datatype Live = Live(block: Block, entry: EntryId, born: nat)

  /** The headers, oldest first, and the entries they share. History variables:
      `count` blocks have been inserted, `tried` is one more than the highest
      block whose key was ever stored, blocks below `settled` belong to finished
      enqueues, and `live` describes the blocks present. */
  datatype Ring = Ring(
    headers: seq<Header>,
    entries: seq<Entry>,
    count: nat,
    tried: nat,
    settled: nat,
    live: map<nat, Live>)

  // ------------------------------------------------------------ positions

  function Slot(h: Header, k: int): nat
    requires h.capacity > 0
  {
    Wrap(h.phase + k, h.capacity)
  }

  function Last(r: Ring): nat
    requires r.headers != []
  {
    |r.headers| - 1
  }

  function Current(r: Ring): Header
    requires r.headers != []
  {
    r.headers[|r.headers| - 1]
  }

  ghost predicate HeaderOk(r: Ring, h: nat)
    requires h < |r.headers|
  {
    var hd := r.headers[h];
    && hd.capacity > 0 && hd.tail < hd.capacity && |hd.index| == hd.capacity
    && forall p :: 0 <= p < hd.capacity ==> hd.index[p] < |r.entries|
  }

  ghost predicate Doubles(r: Ring, h: nat)
    requires h + 1 < |r.headers|
  {
    r.headers[h + 1].capacity == 2 * r.headers[h].capacity
  }

  ghost predicate Shaped(r: Ring) {
    && r.headers != []
    && (forall h: nat {:trigger HeaderOk(r, h)} :: h < |r.headers| ==> HeaderOk(r, h))
    && (forall h: nat {:trigger Doubles(r, h)} :: h + 1 < |r.headers| ==> Doubles(r, h))
  }

  /** The entry at position p of header h stands for a block that belongs there. */
  ghost predicate PlacedAt(r: Ring, h: nat, p: nat)
    requires h < |r.headers| && HeaderOk(r, h) && p < r.headers[h].capacity
  {
    Slot(r.headers[h], r.entries[r.headers[h].index[p]].number) == p
  }

  ghost predicate Placed(r: Ring)
    requires Shaped(r)
  {
    forall h: nat, p: nat {:trigger PlacedAt(r, h, p)} ::
      h < |r.headers| && HeaderOk(r, h) && p < r.headers[h].capacity ==> PlacedAt(r, h, p)
  }

  ghost predicate KeyOk(r: Ring, e: EntryId)
    requires e < |r.entries|
  {
    && (r.entries[e].key.Some? ==> r.entries[e].key.value == BLOCK_SIZE * r.entries[e].number)
    && (r.entries[e].key.None? ==> r.entries[e].value.None?)
  }

  ghost predicate KeysOk(r: Ring) {
    forall e: nat {:trigger KeyOk(r, e)} :: e < |r.entries| ==> KeyOk(r, e)
  }

  /** The entry for block k in header h: where get_block_index_entry_for_index
      has to arrive. */
  function EntryAt(r: Ring, h: nat, k: int): EntryId
    requires h < |r.headers| && r.headers[h].capacity > 0 && |r.headers[h].index| == r.headers[h].capacity
  {
    r.headers[h].index[Slot(r.headers[h], k)]
  }

  /** The newest header's entry for block j carries j's own key. */
  ghost predicate Exact(r: Ring, j: int)
    requires Shaped(r)
  {
    assert HeaderOk(r, Last(r));
    var e := EntryAt(r, Last(r), j);
    r.entries[e].number == j && r.entries[e].key.Some?
  }

  /** A live block sits at its position in every header since its own, under its
      own key. */
  ghost predicate LiveAt(r: Ring, k: nat, h: nat)
    requires Shaped(r) && k in r.live && h < |r.headers|
  {
    assert HeaderOk(r, h);
    r.live[k].born <= h ==> EntryAt(r, h, k) == r.live[k].entry
  }

  ghost predicate LiveOk(r: Ring, k: nat)
    requires Shaped(r) && k in r.live
  {
    var l := r.live[k];
    && l.entry < |r.entries| && l.born < |r.headers|
    && r.entries[l.entry] == Entry(Some(BLOCK_SIZE * k), Some(l.block), k)
    && k < r.count && r.tried - Current(r).capacity <= k
  }

  /** Only live blocks are stored in entries. */
  ghost predicate StoredIsLive(r: Ring, e: EntryId)
    requires e < |r.entries|
  {
    r.entries[e].value.Some? ==>
      r.entries[e].number >= 0 && r.entries[e].number in r.live && r.live[r.entries[e].number].entry == e
  }

  ghost predicate Lives(r: Ring)
    requires Shaped(r)
  {
    && (forall k {:trigger LiveOk(r, k)} :: k in r.live ==> LiveOk(r, k))
    && (forall k, h: nat {:trigger LiveAt(r, k, h)} :: k in r.live && h < |r.headers| ==> LiveAt(r, k, h))
    && (forall e: nat {:trigger StoredIsLive(r, e)} :: e < |r.entries| ==> StoredIsLive(r, e))
  }

  ghost predicate SolidAbove(r: Ring, k: int)
    requires Shaped(r)
  {
    forall j: int {:trigger Exact(r, j)} :: k <= j < r.count ==> Exact(r, j)
  }

  /** Keys are exact from every live block up to the newest, and from the first
      unsettled block up to the newest ever tried. */
  ghost predicate Solid(r: Ring)
    requires Shaped(r)
  {
    && (forall k: nat {:trigger SolidAbove(r, k)} :: k in r.live ==> SolidAbove(r, k))
    && (forall j: int {:trigger Exact(r, j)} :: r.settled <= j < r.tried ==> Exact(r, j))
  }

  ghost predicate TailKeyed(r: Ring, h: nat)
    requires Shaped(r) && h < |r.headers|
  {
    assert HeaderOk(r, h);
    r.entries[r.headers[h].index[r.headers[h].tail]].key.Some?
  }

  ghost predicate OldTails(r: Ring)
    requires Shaped(r)
  {
    forall h: nat {:trigger TailKeyed(r, h)} :: h + 1 < |r.headers| ==> TailKeyed(r, h)
  }

  ghost predicate Counts(r: Ring)
    requires Shaped(r)
  {
    r.settled <= r.count <= r.tried <= r.settled + Current(r).capacity
  }

  ghost predicate Inv(r: Ring) {
    && Shaped(r) && Placed(r) && KeysOk(r) && Lives(r) && Solid(r) && OldTails(r) && Counts(r)
  }

  /** All blocks of the running enqueue are live. */
  ghost predicate Unbroken(r: Ring) {
    forall k: nat {:trigger k in r.live} :: r.settled <= k < r.count ==> k in r.live
  }

  // ----------------------------------------------------------- operations

  /** The tail of the newest header points at the slot of block k. */
  ghost predicate TailAt(r: Ring, k: int)
    requires Shaped(r)
  {
    assert HeaderOk(r, Last(r));
    Current(r).tail == Slot(Current(r), k)
  }

  function SetTail(r: Ring, tail: nat): Ring
    requires r.headers != []
  {
    r.(headers := r.headers[|r.headers| - 1 := Current(r).(tail := tail)])
  }

  function SetEntry(r: Ring, e: EntryId, entry: Entry): Ring
    requires e < |r.entries|
  {
    r.(entries := r.entries[e := entry])
  }

  function Max(a: nat, b: nat): nat {
    if a < b then b else a
  }

  /** Store the base of block `count` as the key of entry e. */
  function PutKey(r: Ring, e: EntryId): Ring
    requires e < |r.entries|
  {
    SetEntry(r, e, r.entries[e].(key := Some(BLOCK_SIZE * r.count), number := r.count))
      .(tried := Max(r.tried, r.count + 1))
  }

  /** Store the block that block `count` is to use. */
  function PutBlock(r: Ring, e: EntryId, block: Block): Ring
    requires e < |r.entries| && r.headers != []
  {
    SetEntry(r, e, r.entries[e].(value := Some(block)))
      .(count := r.count + 1, live := r.live[r.count := Live(block, e, Last(r))])
  }

  /** Store null over live block k. */
  function Clear(r: Ring, k: nat): Ring
    requires k in r.live && r.live[k].entry < |r.entries|
  {
    SetEntry(r, r.live[k].entry, r.entries[r.live[k].entry].(value := None)).(live := r.live - {k})
  }

  /** What goes to position i of a grown header: the old ring from just after its
      tail on, then the fresh entries. */
  function GrownEntry(prev: Header, count: nat, i: nat): EntryId
    requires prev.capacity > 0 && |prev.index| == prev.capacity
  {
    if i < prev.capacity then prev.index[Wrap(prev.tail + 1 + i, prev.capacity)]
    else count + i - prev.capacity
  }

  /** new_block_index with an older header: a header of twice the capacity whose
      first half is the old ring from just after its tail on. */
  function GrownHeader(r: Ring): Header
    requires r.headers != [] && Current(r).capacity > 0 && |Current(r).index| == Current(r).capacity
  {
    var prev := Current(r);
    var c := prev.capacity;
    Header(2 * c, c - 1,
      seq(2 * c, (i: nat) requires i < 2 * c => GrownEntry(prev, |r.entries|, i)),
      c - r.count)
  }

  function Grow(r: Ring): Ring
    requires r.headers != [] && Current(r).capacity > 0 && |Current(r).index| == Current(r).capacity
  {
    var c := Current(r).capacity;
    r.(headers := r.headers + [GrownHeader(r)],
       entries := r.entries + seq(c, i => Entry(None, None, r.count + i)))
  }

  /** new_block_index without an older header. */
  function FirstRing(): Ring {
    Ring([Header(IMPLICIT_INITIAL_INDEX_SIZE, IMPLICIT_INITIAL_INDEX_SIZE - 1,
                 seq(IMPLICIT_INITIAL_INDEX_SIZE, i => i), 0)],
         seq(IMPLICIT_INITIAL_INDEX_SIZE, i => Entry(None, None, i)),
         0, 0, 0, map[])
  }

  /** Position arithmetic of get_block_index_index_for_index, from a tail position
      and the key found there. The base offset is divided exactly, with its sign. */
  function LookupPosition(h: Header, tail: nat, tailBase: nat, index: nat): nat
    requires h.capacity > 0
  {
    Wrap(tail + (index / BLOCK_SIZE * BLOCK_SIZE - tailBase) / BLOCK_SIZE, h.capacity)
  }

  // -------------------------------------------------------- slot arithmetic

  lemma SlotMove(h: Header, k: int, d: int)
    requires h.capacity > 0
    ensures Wrap(Slot(h, k) + d, h.capacity) == Slot(h, k + d)
  {
    WrapAdd(h.phase + k, d, h.capacity);
  }

  lemma SlotNext(h: Header, k: int)
    requires h.capacity > 0
    ensures Wrap(Slot(h, k) + 1, h.capacity) == Slot(h, k + 1)
  {
    SlotMove(h, k, 1);
  }

  lemma SlotPrev(h: Header, k: int)
    requires h.capacity > 0
    ensures Wrap(Slot(h, k) - 1, h.capacity) == Slot(h, k - 1)
  {
    SlotMove(h, k, -1);
  }

  lemma SlotUnique(h: Header, j: int, k: int)
    requires h.capacity > 0 && Slot(h, j) == Slot(h, k)
    requires j - k < h.capacity && k - j < h.capacity
    ensures j == k
  {
    WrapUnique(h.phase + j, h.phase + k, h.capacity);
  }

  lemma SlotPeriod(h: Header, k: int)
    requires h.capacity > 0
    ensures Slot(h, k - h.capacity) == Slot(h, k) == Slot(h, k + h.capacity)
  {
    WrapPeriod(h.phase + k, h.capacity);
  }

  /** Sharing a slot in a header means sharing one in every older header. */
  lemma {:induction false} SlotChain(r: Ring, h: nat, g: nat, j: int, k: int)
    requires Shaped(r) && h <= g < |r.headers|
    requires r.headers[g].capacity > 0 && Slot(r.headers[g], j) == Slot(r.headers[g], k)
    ensures r.headers[h].capacity > 0 && Slot(r.headers[h], j) == Slot(r.headers[h], k)
    decreases g
  {
    if h < g {
      assert HeaderOk(r, g - 1) && Doubles(r, g - 1);
      var newer, older := r.headers[g], r.headers[g - 1];
      WrapHalve(j, k, newer.phase, older.phase, older.capacity);
      SlotChain(r, h, g - 1, j, k);
    }
  }

  // ------------------------------------------------------- frame lemmas

  /** r' is r with one entry changed, headers untouched. */
  ghost predicate OneEntry(r: Ring, r': Ring, e: EntryId)
    requires e < |r.entries|
  {
    && r'.headers == r.headers
    && |r'.entries| == |r.entries|
    && (forall d: nat :: d < |r.entries| && d != e ==> r'.entries[d] == r.entries[d])
  }

  lemma OneEntryShaped(r: Ring, r': Ring, e: EntryId)
    requires Shaped(r) && e < |r.entries| && OneEntry(r, r', e)
    ensures Shaped(r')
  {
    forall h: nat | h < |r'.headers| ensures HeaderOk(r', h) {
      assert HeaderOk(r, h);
    }
    forall h: nat | h + 1 < |r'.headers| ensures Doubles(r', h) {
      assert Doubles(r, h);
    }
  }

  lemma OneEntryPlaced(r: Ring, r': Ring, e: EntryId)
    requires Shaped(r) && Placed(r) && e < |r.entries| && OneEntry(r, r', e) && Shaped(r')
    requires r'.entries[e].number == r.entries[e].number
    ensures Placed(r')
  {
    forall h: nat, p: nat | h < |r'.headers| && HeaderOk(r', h) && p < r'.headers[h].capacity
      ensures PlacedAt(r', h, p)
    {
      assert HeaderOk(r, h) && PlacedAt(r, h, p);
    }
  }

  /** An entry may be renumbered to a block that shares its slot in the newest header. */
  lemma RenumberedPlaced(r: Ring, r': Ring, e: EntryId, k: nat)
    requires Shaped(r) && Placed(r) && e < |r.entries| && OneEntry(r, r', e) && Shaped(r')
    requires r'.entries[e].number == k
    requires HeaderOk(r, Last(r)) && e == EntryAt(r, Last(r), k)
    ensures Placed(r')
  {
    assert PlacedAt(r, Last(r), Slot(Current(r), k));
    forall h: nat, p: nat | h < |r'.headers| && HeaderOk(r', h) && p < r'.headers[h].capacity
      ensures PlacedAt(r', h, p)
    {
      assert HeaderOk(r, h) && PlacedAt(r, h, p);
      SlotChain(r, h, Last(r), k, r.entries[e].number);
    }
  }

  lemma OneEntryTails(r: Ring, r': Ring, e: EntryId)
    requires Shaped(r) && OldTails(r) && e < |r.entries| && OneEntry(r, r', e) && Shaped(r')
    requires r.entries[e].key.Some? ==> r'.entries[e].key.Some?
    ensures OldTails(r')
    ensures forall h: nat :: h < |r.headers| && TailKeyed(r, h) ==> TailKeyed(r', h)
  {
    forall h: nat | h < |r'.headers| && TailKeyed(r, h) ensures TailKeyed(r', h) {
      assert HeaderOk(r, h);
    }
  }

  /** A slot of the newest header that is free to take the next block is not the
      slot of any live block, nor of any block whose key must stay. */
  lemma FreeSlot(r: Ring, e: EntryId, j: int)
    requires Inv(r) && Unbroken(r) && HeaderOk(r, Last(r)) && e == EntryAt(r, Last(r), r.count)
    requires r.entries[e].value.None?
    requires (r.settled <= j < r.tried && j != r.count) || (j < r.count && exists k: nat :: k in r.live && k <= j)
    ensures EntryAt(r, Last(r), j) != e
  {
    var h := Current(r);
    assert PlacedAt(r, Last(r), Slot(h, j)) && PlacedAt(r, Last(r), Slot(h, r.count));
    if Slot(h, j) == Slot(h, r.count) {
      if j < r.count {
        var k: nat :| k in r.live && k <= j;
        assert LiveOk(r, k);
        if r.count - j < h.capacity {
          SlotUnique(h, j, r.count);
        } else {
          SlotPeriod(h, r.count);
          assert LiveAt(r, k, Last(r));
        }
      } else {
        SlotUnique(h, j, r.count);
      }
    }
  }

  // ----------------------------------------------- operations keep Inv

  lemma LiveIsNotFree(r: Ring, k: nat, e: EntryId)
    requires Shaped(r) && Lives(r) && k in r.live && e < |r.entries| && r.entries[e].value.None?
    ensures r.live[k].entry != e
  {
    assert LiveOk(r, k);
  }

  lemma PutKeyWindow(r: Ring, e: EntryId, k: nat)
    requires Inv(r) && Unbroken(r) && HeaderOk(r, Last(r)) && e == EntryAt(r, Last(r), r.count)
    requires r.entries[e].value.None? && k in r.live
    ensures r.count + 1 - Current(r).capacity <= k
  {
    assert LiveOk(r, k);
    if k == r.count - Current(r).capacity {
      SlotPeriod(Current(r), r.count);
      assert LiveAt(r, k, Last(r));
      LiveIsNotFree(r, k, e);
    }
  }

  lemma PutKeyKeepsLives(r: Ring, e: EntryId)
    requires Inv(r) && Unbroken(r) && HeaderOk(r, Last(r)) && e == EntryAt(r, Last(r), r.count)
    requires r.entries[e].value.None?
    requires Shaped(PutKey(r, e))
    ensures Lives(PutKey(r, e))
  {
    var r' := PutKey(r, e);
    forall k | k in r'.live ensures LiveOk(r', k) {
      assert LiveOk(r, k);
      LiveIsNotFree(r, k, e);
      PutKeyWindow(r, e, k);
    }
    forall k, h: nat | k in r'.live && h < |r'.headers| ensures LiveAt(r', k, h) {
      assert LiveAt(r, k, h) && HeaderOk(r, h);
    }
    forall d: nat | d < |r'.entries| ensures StoredIsLive(r', d) {
      assert StoredIsLive(r, d);
    }
  }

  lemma PutKeyKeepsSolid(r: Ring, e: EntryId)
    requires Inv(r) && Unbroken(r) && HeaderOk(r, Last(r)) && e == EntryAt(r, Last(r), r.count)
    requires r.entries[e].value.None?
    requires Shaped(PutKey(r, e))
    ensures Solid(PutKey(r, e))
    ensures Exact(PutKey(r, e), r.count)
  {
    var r' := PutKey(r, e);
    forall k: nat | k in r'.live ensures SolidAbove(r', k) {
      assert SolidAbove(r, k);
      forall j: int | k <= j < r'.count ensures Exact(r', j) {
        assert Exact(r, j);
        FreeSlot(r, e, j);
      }
    }
    forall j: int | r'.settled <= j < r'.tried ensures Exact(r', j) {
      if j != r.count {
        assert Exact(r, j);
        FreeSlot(r, e, j);
      }
    }
  }

  /** insert_block_index_entry's key store, into a free slot. */
  lemma PutKeyKeepsInv(r: Ring, e: EntryId)
    requires Inv(r) && Unbroken(r) && HeaderOk(r, Last(r)) && e == EntryAt(r, Last(r), r.count)
    requires r.entries[e].value.None?
    ensures Inv(PutKey(r, e)) && Unbroken(PutKey(r, e))
    ensures Exact(PutKey(r, e), r.count)
  {
    var r' := PutKey(r, e);
    OneEntryShaped(r, r', e);
    RenumberedPlaced(r, r', e, r.count);
    OneEntryTails(r, r', e);
    PutKeyKeepsLives(r, e);
    PutKeyKeepsSolid(r, e);
    forall d: nat | d < |r'.entries| ensures KeyOk(r', d) {
      assert KeyOk(r, d);
    }
    if r.settled < r.count {
      PutKeyWindow(r, e, r.settled);
    }
  }

  lemma PutBlockKeepsLives(r: Ring, e: EntryId, block: Block)
    requires Inv(r) && HeaderOk(r, Last(r)) && e == EntryAt(r, Last(r), r.count)
    requires Exact(r, r.count) && r.entries[e].value.None? && r.count < r.tried
    requires Shaped(PutBlock(r, e, block))
    ensures Lives(PutBlock(r, e, block))
  {
    var r' := PutBlock(r, e, block);
    assert KeyOk(r, e);
    forall k | k in r'.live ensures LiveOk(r', k) {
      if k != r.count {
        assert LiveOk(r, k);
        LiveIsNotFree(r, k, e);
      }
    }
    forall k, h: nat | k in r'.live && h < |r'.headers| ensures LiveAt(r', k, h) {
      assert HeaderOk(r, h);
      if k != r.count {
        assert LiveAt(r, k, h);
      }
    }
    forall d: nat | d < |r'.entries| ensures StoredIsLive(r', d) {
      assert StoredIsLive(r, d);
      if d != e && r.entries[d].value.Some? {
        assert LiveOk(r, r.entries[d].number);
      }
    }
  }

  lemma PutBlockKeepsSolid(r: Ring, e: EntryId, block: Block)
    requires Inv(r) && HeaderOk(r, Last(r)) && e == EntryAt(r, Last(r), r.count)
    requires Exact(r, r.count) && r.count < r.tried
    requires Shaped(PutBlock(r, e, block))
    ensures Solid(PutBlock(r, e, block))
  {
    var r' := PutBlock(r, e, block);
    forall j: int | Exact(r, j) ensures Exact(r', j) {
      assert HeaderOk(r', Last(r'));
    }
    forall k: nat | k in r'.live ensures SolidAbove(r', k) {
      if k in r.live {
        assert SolidAbove(r, k);
      }
      forall j: int | k <= j < r'.count ensures Exact(r', j) {
        assert Exact(r, j);
      }
    }
    forall j: int | r'.settled <= j < r'.tried ensures Exact(r', j) {
      assert Exact(r, j);
    }
  }

  lemma PutBlockKeepsInv(r: Ring, e: EntryId, block: Block)
    requires Inv(r) && Unbroken(r) && HeaderOk(r, Last(r)) && e == EntryAt(r, Last(r), r.count)
    requires Exact(r, r.count) && r.entries[e].value.None? && r.count < r.tried
    ensures Inv(PutBlock(r, e, block)) && Unbroken(PutBlock(r, e, block))
  {
    var r' := PutBlock(r, e, block);
    OneEntryShaped(r, r', e);
    OneEntryPlaced(r, r', e);
    OneEntryTails(r, r', e);
    PutBlockKeepsLives(r, e, block);
    PutBlockKeepsSolid(r, e, block);
    forall d: nat | d < |r'.entries| ensures KeyOk(r', d) {
      assert KeyOk(r, d);
    }
  }

  lemma ClearKeepsInv(r: Ring, k: nat)
    requires Inv(r) && k in r.live && r.live[k].entry < |r.entries|
    ensures Inv(Clear(r, k))
    ensures forall j: int :: Exact(r, j) && Shaped(Clear(r, k)) ==> Exact(Clear(r, k), j)
  {
    var r' := Clear(r, k);
    var e := r.live[k].entry;
    OneEntryShaped(r, r', e);
    OneEntryPlaced(r, r', e);
    OneEntryTails(r, r', e);
    assert LiveOk(r, k);
    forall j: int | Exact(r, j) ensures Exact(r', j) {
      assert HeaderOk(r, Last(r));
    }
    forall m: nat | m in r'.live ensures SolidAbove(r', m) {
      assert SolidAbove(r, m);
      forall j: int | m <= j < r'.count ensures Exact(r', j) {
        assert Exact(r, j);
      }
    }
    forall j: int | r'.settled <= j < r'.tried ensures Exact(r', j) {
      assert Exact(r, j);
    }
    ClearKeepsLives(r, k);
    forall d: nat | d < |r'.entries| ensures KeyOk(r', d) {
      assert KeyOk(r, d);
    }
  }

  lemma ClearKeepsLives(r: Ring, k: nat)
    requires Inv(r) && k in r.live && r.live[k].entry < |r.entries|
    requires Shaped(Clear(r, k))
    ensures Lives(Clear(r, k))
  {
    var r' := Clear(r, k);
    assert LiveOk(r, k);
    forall m | m in r'.live ensures LiveOk(r', m) {
      assert LiveOk(r, m);
    }
    forall m, h: nat | m in r'.live && h < |r'.headers| ensures LiveAt(r', m, h) {
      assert LiveAt(r, m, h) && HeaderOk(r, h);
    }
    forall d: nat | d < |r'.entries| ensures StoredIsLive(r', d) {
      assert StoredIsLive(r, d);
    }
  }

  /** Moving the newest tail keeps everything but the tail. */
  lemma SetTailKeepsInv(r: Ring, tail: nat)
    requires Inv(r) && tail < Current(r).capacity
    ensures Inv(SetTail(r, tail))
    ensures forall j: int :: Exact(r, j) && Shaped(SetTail(r, tail)) ==> Exact(SetTail(r, tail), j)
  {
    var r' := SetTail(r, tail);
    SetTailShaped(r, tail);
    forall h: nat, p: nat | h < |r'.headers| && HeaderOk(r', h) && p < r'.headers[h].capacity
      ensures PlacedAt(r', h, p)
    {
      assert HeaderOk(r, h) && PlacedAt(r, h, p);
    }
    forall d: nat | d < |r'.entries| ensures KeyOk(r', d) && StoredIsLive(r', d) {
      assert KeyOk(r, d) && StoredIsLive(r, d);
    }
    forall m | m in r'.live ensures LiveOk(r', m) {
      assert LiveOk(r, m);
    }
    forall m, h: nat | m in r'.live && h < |r'.headers| ensures LiveAt(r', m, h) {
      assert LiveAt(r, m, h) && HeaderOk(r, h);
    }
    forall h: nat | h + 1 < |r'.headers| ensures TailKeyed(r', h) {
      assert TailKeyed(r, h) && HeaderOk(r, h);
    }
    SetTailKeepsSolid(r, tail);
  }

  lemma SetTailShaped(r: Ring, tail: nat)
    requires Inv(r) && tail < Current(r).capacity
    ensures Shaped(SetTail(r, tail))
  {
    var r' := SetTail(r, tail);
    forall h: nat | h < |r'.headers| ensures HeaderOk(r', h) {
      assert HeaderOk(r, h);
    }
    forall h: nat | h + 1 < |r'.headers| ensures Doubles(r', h) {
      assert Doubles(r, h);
    }
  }

  lemma SetTailKeepsSolid(r: Ring, tail: nat)
    requires Inv(r) && tail < Current(r).capacity
    requires Shaped(SetTail(r, tail))
    ensures Solid(SetTail(r, tail))
    ensures forall j: int :: Exact(r, j) ==> Exact(SetTail(r, tail), j)
  {
    var r' := SetTail(r, tail);
    forall j: int | Exact(r, j) ensures Exact(r', j) {
      assert HeaderOk(r, Last(r));
    }
    forall m: nat | m in r'.live ensures SolidAbove(r', m) {
      assert SolidAbove(r, m);
      forall j: int | m <= j < r'.count ensures Exact(r', j) {
        assert Exact(r, j);
      }
    }
    forall j: int | r'.settled <= j < r'.tried ensures Exact(r', j) {
      assert Exact(r, j);
    }
  }

  /** An enqueue that ends makes its blocks settled. */
  lemma SettleKeepsInv(r: Ring)
    requires Inv(r)
    ensures Inv(r.(settled := r.count))
  {
    forall k | k in r.live ensures k < r.count {
      assert LiveOk(r, k);
    }
    CarryOver(r, r.(settled := r.count));
  }

  /** An enqueue that gives up forgets the blocks it had inserted. */
  lemma AbandonKeepsInv(r: Ring)
    requires Inv(r) && forall k :: k in r.live ==> k < r.settled
    ensures Inv(r.(count := r.settled))
  {
    CarryOver(r, r.(count := r.settled));
  }

  lemma CarryOver(r: Ring, r': Ring)
    requires Inv(r) && r' == r.(count := r'.count, settled := r'.settled)
    requires r.settled <= r'.settled <= r'.count <= r.count
    requires forall k :: k in r.live ==> k < r'.count
    ensures Inv(r')
  {
    forall h: nat | h < |r'.headers| ensures HeaderOk(r', h) {
      assert HeaderOk(r, h);
    }
    forall h: nat | h + 1 < |r'.headers| ensures Doubles(r', h) {
      assert Doubles(r, h);
    }
    forall h: nat | h + 1 < |r'.headers| ensures TailKeyed(r', h) {
      assert TailKeyed(r, h);
    }
    forall h: nat, p: nat | h < |r'.headers| && HeaderOk(r', h) && p < r'.headers[h].capacity
      ensures PlacedAt(r', h, p)
    {
      assert HeaderOk(r, h) && PlacedAt(r, h, p);
    }
    forall d: nat | d < |r'.entries| ensures KeyOk(r', d) && StoredIsLive(r', d) {
      assert KeyOk(r, d) && StoredIsLive(r, d);
    }
    forall m | m in r'.live ensures LiveOk(r', m) {
      assert LiveOk(r, m);
    }
    forall m, h: nat | m in r'.live && h < |r'.headers| ensures LiveAt(r', m, h) {
      assert LiveAt(r, m, h);
    }
    forall m: nat | m in r'.live ensures SolidAbove(r', m) {
      assert SolidAbove(r, m);
      forall j: int | m <= j < r'.count ensures Exact(r', j) {
        assert Exact(r, j);
      }
    }
    forall j: int | r'.settled <= j < r'.tried ensures Exact(r', j) {
      assert Exact(r, j);
    }
  }

  // ----------------------------------------------------------------- growth

  /** The ring is only grown when it is full: the slot that block `count` needs
      holds the live block one whole capacity before it, and nothing further than
      `count` was ever tried. */
  lemma GrowthMeansFull(r: Ring)
    requires Inv(r) && HeaderOk(r, Last(r))
    requires r.entries[EntryAt(r, Last(r), r.count)].value.Some?
    ensures r.count >= Current(r).capacity && r.count - Current(r).capacity in r.live
    ensures r.tried == r.count
    ensures forall j: int :: r.count - Current(r).capacity <= j < r.count ==> Exact(r, j)
  {
    var h := Current(r);
    var e := EntryAt(r, Last(r), r.count);
    assert StoredIsLive(r, e) && PlacedAt(r, Last(r), Slot(h, r.count));
    var k := r.entries[e].number;
    assert LiveOk(r, k) && SolidAbove(r, k);
    if r.count - k < h.capacity {
      SlotUnique(h, k, r.count);
    }
  }

  /** Where block j of the old ring lands in the grown header. */
  lemma GrownSlot(r: Ring, j: int)
    requires Shaped(r) && HeaderOk(r, Last(r)) && TailAt(r, r.count - 1)
    requires r.count - Current(r).capacity <= j < r.count + Current(r).capacity
    ensures Slot(GrownHeader(r), j) == j - (r.count - Current(r).capacity)
    ensures j < r.count ==>
      GrownHeader(r).index[Slot(GrownHeader(r), j)] == EntryAt(r, Last(r), j)
  {
    var prev := Current(r);
    var c := prev.capacity;
    var i := j - (r.count - c);
    if j < r.count {
      SlotMove(prev, r.count - 1, 1 + i);
      SlotPeriod(prev, j);
    }
  }

  lemma GrownNumber(r: Ring, p: nat)
    requires Inv(r) && HeaderOk(r, Last(r)) && TailAt(r, r.count - 1)
    requires r.entries[EntryAt(r, Last(r), r.count)].value.Some?
    requires p < 2 * Current(r).capacity
    ensures GrownHeader(r).index[p] < |Grow(r).entries|
    ensures Grow(r).entries[GrownHeader(r).index[p]].number == r.count - Current(r).capacity + p
    ensures Slot(GrownHeader(r), r.count - Current(r).capacity + p) == p
  {
    GrowthMeansFull(r);
    var c := Current(r).capacity;
    var j := r.count - c + p;
    GrownSlot(r, j);
    if p < c {
      assert Exact(r, j);
      assert 0 <= Slot(Current(r), j) < c;
    }
  }

  lemma GrowShaped(r: Ring)
    requires Shaped(r) && HeaderOk(r, Last(r))
    ensures Shaped(Grow(r))
    ensures HeaderOk(Grow(r), Last(Grow(r)))
  {
    var r' := Grow(r);
    forall h: nat | h < |r'.headers| ensures HeaderOk(r', h) {
      if h < |r.headers| {
        assert HeaderOk(r, h);
      } else {
        var prev := Current(r);
        forall p | 0 <= p < 2 * prev.capacity ensures GrownHeader(r).index[p] < |r'.entries| {
          if p < prev.capacity {
            assert prev.index[Wrap(prev.tail + 1 + p, prev.capacity)] < |r.entries|;
          }
        }
      }
    }
    forall h: nat | h + 1 < |r'.headers| ensures Doubles(r', h) {
      if h + 1 < |r.headers| {
        assert Doubles(r, h);
      }
    }
  }

  lemma GrowPlaced(r: Ring)
    requires Inv(r) && HeaderOk(r, Last(r)) && TailAt(r, r.count - 1)
    requires r.entries[EntryAt(r, Last(r), r.count)].value.Some?
    requires Shaped(Grow(r))
    ensures Placed(Grow(r))
  {
    var r' := Grow(r);
    forall h: nat, p: nat | h < |r'.headers| && HeaderOk(r', h) && p < r'.headers[h].capacity
      ensures PlacedAt(r', h, p)
    {
      if h < |r.headers| {
        assert HeaderOk(r, h) && PlacedAt(r, h, p);
      } else {
        GrownNumber(r, p);
      }
    }
  }

  /** Exact keys of the old ring stay exact in the grown one. */
  lemma GrowExact(r: Ring, j: int)
    requires Inv(r) && HeaderOk(r, Last(r)) && TailAt(r, r.count - 1)
    requires r.entries[EntryAt(r, Last(r), r.count)].value.Some?
    requires Shaped(Grow(r))
    requires r.count - Current(r).capacity <= j < r.count
    ensures Exact(Grow(r), j)
  {
    GrowthMeansFull(r);
    GrownSlot(r, j);
    assert Exact(r, j);
    assert HeaderOk(Grow(r), Last(Grow(r)));
  }

  lemma GrowLives(r: Ring)
    requires Inv(r) && HeaderOk(r, Last(r)) && TailAt(r, r.count - 1)
    requires r.entries[EntryAt(r, Last(r), r.count)].value.Some?
    requires Shaped(Grow(r))
    ensures Lives(Grow(r))
  {
    var r' := Grow(r);
    GrowthMeansFull(r);
    forall k | k in r'.live ensures LiveOk(r', k) {
      assert LiveOk(r, k);
    }
    forall k, h: nat | k in r'.live && h < |r'.headers| ensures LiveAt(r', k, h) {
      assert LiveOk(r, k);
      if h < |r.headers| {
        assert LiveAt(r, k, h) && HeaderOk(r, h);
      } else {
        GrownSlot(r, k);
        assert LiveAt(r, k, Last(r));
      }
    }
    forall d: nat | d < |r'.entries| ensures StoredIsLive(r', d) {
      if d < |r.entries| {
        assert StoredIsLive(r, d);
      }
    }
  }

  lemma GrowSolid(r: Ring)
    requires Inv(r) && HeaderOk(r, Last(r)) && TailAt(r, r.count - 1)
    requires r.entries[EntryAt(r, Last(r), r.count)].value.Some?
    requires Shaped(Grow(r))
    ensures Solid(Grow(r))
  {
    var r' := Grow(r);
    GrowthMeansFull(r);
    forall k: nat | k in r'.live ensures SolidAbove(r', k) {
      assert LiveOk(r, k);
      forall j: int | k <= j < r'.count ensures Exact(r', j) {
        GrowExact(r, j);
      }
    }
    forall j: int | r'.settled <= j < r'.tried ensures Exact(r', j) {
      GrowExact(r, j);
    }
  }

  /** Growing keeps the invariant, the tail block, and the room it was made for:
      the slot of block `count` is a fresh entry. */
  lemma GrowKeepsInv(r: Ring)
    requires Inv(r) && HeaderOk(r, Last(r)) && TailAt(r, r.count - 1)
    requires r.entries[EntryAt(r, Last(r), r.count)].value.Some?
    ensures Inv(Grow(r)) && TailAt(Grow(r), r.count - 1)
    ensures HeaderOk(Grow(r), Last(Grow(r)))
    ensures var e := EntryAt(Grow(r), Last(Grow(r)), r.count);
      Grow(r).entries[e].key.None? && Grow(r).entries[e].value.None?
  {
    var r' := Grow(r);
    GrowthMeansFull(r);
    GrowShaped(r);
    GrowPlaced(r);
    GrowLives(r);
    GrowSolid(r);
    GrownSlot(r, r.count - 1);
    GrownSlot(r, r.count);
    forall d: nat | d < |r'.entries| ensures KeyOk(r', d) {
      if d < |r.entries| {
        assert KeyOk(r, d);
      }
    }
    forall h: nat | h + 1 < |r'.headers| ensures TailKeyed(r', h) {
      assert HeaderOk(r, h);
      if h + 1 < |r.headers| {
        assert TailKeyed(r, h);
      } else {
        assert Exact(r, r.count - 1);
      }
    }
  }

  lemma FirstRingInv()
    ensures Inv(FirstRing()) && TailAt(FirstRing(), -1)
  {
    var r := FirstRing();
    assert HeaderOk(r, 0);
    forall h: nat, p: nat | h < |r.headers| && HeaderOk(r, h) && p < r.headers[h].capacity
      ensures PlacedAt(r, h, p)
    {
    }
  }

  // ---------------------------------------------------------------- lookups

  /** Any header, any keyed tail position, whatever the tail and its key have
      become since: the computed position is the slot of the block. */
  lemma LookupIsSlot(r: Ring, h: nat, tail: nat, index: nat)
    requires Inv(r) && h < |r.headers| && HeaderOk(r, h) && tail < r.headers[h].capacity
    requires r.entries[r.headers[h].index[tail]].key.Some?
    ensures LookupPosition(r.headers[h], tail, r.entries[r.headers[h].index[tail]].key.value, index)
         == Slot(r.headers[h], index / BLOCK_SIZE)
  {
    var e := r.headers[h].index[tail];
    assert KeyOk(r, e) && PlacedAt(r, h, tail);
    var n := r.entries[e].number;
    SlotMove(r.headers[h], n, index / BLOCK_SIZE - n);
  }

  /** A consumer of a live block, through any header since the block's own,
      finds the entry whose key is the block's base and whose value is the block. */
  lemma SlotHoldsBlock(r: Ring, h: nat, k: nat)
    requires Inv(r) && k in r.live && h < |r.headers| && HeaderOk(r, h) && r.live[k].born <= h
    ensures EntryAt(r, h, k) == r.live[k].entry < |r.entries|
    ensures r.entries[EntryAt(r, h, k)] == Entry(Some(BLOCK_SIZE * k), Some(r.live[k].block), k)
  {
    assert LiveOk(r, k) && LiveAt(r, k, h);
  }

  /** The tail a consumer reads is keyed: in an outgrown header it stays so for
      good, in the newest one because its block or a later one is there. */
  lemma TailReadIsKeyed(r: Ring, h: nat, k: nat, j: int)
    requires Inv(r) && h < |r.headers| && HeaderOk(r, h) && k in r.live
    requires TailAt(r, j) && k <= j < r.tried && (j < r.count || r.settled <= j)
    ensures r.entries[r.headers[h].index[r.headers[h].tail]].key.Some?
  {
    if h + 1 < |r.headers| {
      assert TailKeyed(r, h);
    } else {
      assert SolidAbove(r, k);
      assert Exact(r, j);
    }
  }
}
