/** The block index of an implicit producer, as its owner changes it and its consumers read it. */
module BlockIndexes {
  import opened Congruence
  import opened BlockRings
  import opened Options

  /** What the owner meets when it asks for one more block: its queue is full, no block is to be had,
      or a block. */
  datatype Attempt = Full | NoBlock | Block(block: nat)

  /** The map after blocks for the numbers behind hi have been added in order. */
  function Started(live: map<int, nat>, hi: int, blocks: seq<nat>): map<int, nat>
  {
    if blocks == [] then live
    else Started(live, hi, blocks[..|blocks| - 1])[hi + |blocks| := blocks[|blocks| - 1]]
  }

  /** What a consumer can see of the index. */
  datatype View = View(keys: seq<int>, values: seq<Option<nat>>, headers: seq<Header>)

  /** Entries in use keep key and block, unless their number is in `gone`; keys stay valid, and old headers
      keep their positions: a consumer is not misled. */
  ghost predicate Undisturbed(v: View, w: View, gone: set<int>)
  {
    && |v.keys| == |v.values| && |w.keys| == |w.values| && |v.keys| <= |w.keys|
    && (forall e: nat :: Kept(v, w, gone, e))
    && SamePositions(v.headers, w.headers)
  }

  predicate Kept(v: View, w: View, gone: set<int>, e: nat)
    requires |v.keys| == |v.values| <= |w.keys| == |w.values|
  {
    e < |v.keys| && v.keys[e] != INVALID ==>
      && w.keys[e] != INVALID
      && (v.values[e] != None && v.keys[e] / BLOCK_SIZE !in gone ==> w.keys[e] == v.keys[e] && w.values[e] == v.values[e])
  }

  lemma UndisturbedToo(v: View, w: View, gone: set<int>)
    requires Undisturbed(v, w, {})
    ensures Undisturbed(v, w, gone)
  {
    forall e: nat
      ensures Kept(v, w, gone, e)
    {
      assert Kept(v, w, {}, e);
    }
  }

  /** What several steps have taken out together is what a consumer has to reckon with. */
  lemma DisturbancesAddUp(u: View, v: View, w: View, gone: set<int>, gone': set<int>)
    requires Undisturbed(u, v, gone) && Undisturbed(v, w, gone')
    ensures Undisturbed(u, w, gone + gone')
  {
    forall e: nat
      ensures Kept(u, w, gone + gone', e)
    {
      assert Kept(u, v, gone, e) && Kept(v, w, gone', e);
    }
    forall j: nat
      ensures SamePosition(u.headers, w.headers, j)
    {
      assert SamePosition(u.headers, v.headers, j) && SamePosition(v.headers, w.headers, j);
    }
  }

  lemma UndisturbedOn(u: View, v: View, w: View, gone: set<int>)
    requires Undisturbed(u, v, {}) && Undisturbed(v, w, gone)
    ensures Undisturbed(u, w, gone)
  {
    DisturbancesAddUp(u, v, w, {}, gone);
    assert {} + gone == gone;
  }

  lemma GrowthDisturbsNothing(v: View, keys: seq<int>, values: seq<Option<nat>>, h: Header)
    requires |v.keys| == |v.values| && |keys| == |values|
    ensures Undisturbed(v, View(v.keys + keys, v.values + values, v.headers + [h]), {})
  {
  }

  lemma WriteDisturbsNothing(v: View, e: nat, key: int, h: Header)
    requires |v.keys| == |v.values| && e < |v.keys| && (v.keys[e] == INVALID || v.values[e] == None) && key != INVALID
    requires v.headers != [] && h.index == v.headers[|v.headers| - 1].index
    ensures Undisturbed(v, View(v.keys[e := key], v.values, v.headers[|v.headers| - 1 := h]), {})
  {
  }

  predicate SamePosition(headers: seq<Header>, headers': seq<Header>, j: nat)
  {
    j < |headers| ==> j < |headers'| && headers'[j].index == headers[j].index
  }

  ghost predicate SamePositions(headers: seq<Header>, headers': seq<Header>)
  {
    |headers| <= |headers'| && forall j: nat :: SamePosition(headers, headers', j)
  }

  predicate AllBlocks(attempts: seq<Attempt>)
  {
    forall i :: 0 <= i < |attempts| ==> attempts[i].Block?
  }

  function BlocksOf(attempts: seq<Attempt>): seq<nat>
    requires AllBlocks(attempts)
  {
    seq(|attempts|, i requires 0 <= i < |attempts| => attempts[i].block)
  }

  /** The block numbers behind hi. */
  function Numbers(hi: int, count: nat): (r: set<int>)
    ensures forall q :: q in r <==> hi < q <= hi + count
  {
    if count == 0 then {} else Numbers(hi, count - 1) + {hi + count}
  }

  /** Starting blocks adds the numbers behind hi and nothing else. */
  lemma {:induction false} StartedAdds(live: map<int, nat>, hi: int, blocks: seq<nat>)
    requires forall q :: q in live ==> q <= hi
    ensures forall q :: hi < q <= hi + |blocks| ==> q in Started(live, hi, blocks) && Started(live, hi, blocks)[q] == blocks[q - hi - 1]
    ensures Started(live, hi, blocks) - Numbers(hi, |blocks|) == live
  {
    if blocks != [] {
      StartedAdds(live, hi, blocks[..|blocks| - 1]);
      assert Numbers(hi, |blocks|) == Numbers(hi, |blocks| - 1) + {hi + |blocks|};
    }
  }

  lemma RevertedIsSettled(live: map<int, nat>, start: int, count: nat)
    requires forall q :: q in live ==> q <= start + count
    ensures forall q :: q in live - Numbers(start, count) ==> q <= start
  {
  }

  /** What a revert takes out next is still there. */
  lemma NextIsLive(live: map<int, nat>, start: int, count: nat, j: nat)
    requires j < count && forall q :: start < q <= start + count ==> q in live
    ensures start + j + 1 in live - Numbers(start, j)
    ensures live - Numbers(start, j + 1) == live - Numbers(start, j) - {start + j + 1}
  {
  }

  lemma StartedOneMore(live: map<int, nat>, hi: int, attempts: seq<Attempt>, i: nat)
    requires i < |attempts| && AllBlocks(attempts[..i]) && attempts[i].Block?
    ensures AllBlocks(attempts[..i + 1])
    ensures Started(live, hi, BlocksOf(attempts[..i + 1])) ==
              Started(live, hi, BlocksOf(attempts[..i]))[hi + i + 1 := attempts[i].block]
  {
    assert attempts[..i + 1] == attempts[..i] + [attempts[i]];
    assert BlocksOf(attempts[..i + 1])[..i] == BlocksOf(attempts[..i]);
  }

  class BlockIndex {
    var keys: seq<int>
    var values: seq<Option<nat>>
    var headers: seq<Header>            // the current header last, before it those it has replaced

    /** The plain map from block number to block that the index stands for, and the number of the last block. */
    ghost var live: map<int, nat>
    ghost var hi: int
    ghost var lo: int
    ghost var top: int
    ghost var shifts: seq<int>

    function Current(): Header
      requires headers != []
      reads this
    {
      headers[|headers| - 1]
    }

    lemma NothingDisturbed(gone: set<int>)
      requires Linked()
      ensures Undisturbed(View(keys, values, headers), View(keys, values, headers), gone)
    {
    }

    /** The headers before the current one still lead to the right positions. */
    ghost predicate PastIsOk()
      reads this
    {
      && headers != [] && |shifts| == |headers| - 1
      && forall j :: 0 <= j < |shifts| ==> PastOk(headers[j], keys, shifts[j], Current().capacity)
    }

    /** And the current one is a ring. */
    ghost predicate Linked()
      reads this
    {
      PastIsOk() && Ring(Current(), keys, values, hi, lo, top, live)
    }

    ghost predicate Valid()
      reads this
    {
      Linked() && hi >= -1 && forall q :: q in live ==> q <= hi
    }

    constructor ()
      ensures Valid() && live == map[] && hi == -1
    {
      var m := INITIAL_CAPACITY;
      keys := seq(m, _ => INVALID);
      values := seq(m, _ => None);
      headers := [Header(m, m - 1, seq(m, i requires 0 <= i => i))];
      live, hi, lo, top, shifts := map[], -1, 0, 0, [];
    }

    /** Doubles the ring when there is memory for it. The values of new entries are whatever was there. */
    method NewBlockIndex(memory: bool) returns (ok: bool)
      requires Valid()
      requires lo == hi + 1 - Current().capacity && top == hi + 1
      modifies this`keys, this`values, this`headers, this`shifts
      ensures ok == memory && Valid()
      ensures !ok ==> headers == old(headers) && keys == old(keys) && values == old(values)
      ensures ok ==> |headers| == |old(headers)| + 1 && headers[..|old(headers)|] == old(headers)
      ensures ok ==> Current().capacity == 2 * old(Current()).capacity
      ensures ok ==> keys[Current().index[Slot(Current().tail + 1, Current().capacity)]] == INVALID
      ensures Undisturbed(old(View(keys, values, headers)), View(keys, values, headers), {})
      ensures |values| >= |old(values)| && values[..|old(values)|] == old(values)
    {
      ok := memory;
      if !ok {
        return;
      }
      var prev := Current();
      var m := prev.capacity;
      var index := RotateToFront(prev, |keys|);
      var h := Header(2 * m, m - 1, index[..]);
      var blank := seq(m, _ => INVALID);
      ghost var some: seq<Option<nat>> := seq(m, _ => None);
      assert |some| == m;
      var garbage: seq<Option<nat>> :| |garbage| == m;
      DoubleKeepsRing(prev, h, keys, blank, values, values + garbage, hi, lo, top, live);
      DoubleKeepsAllPast(blank);
      GrowthDisturbsNothing(View(keys, values, headers), blank, garbage, h);
      keys, values, headers := keys + blank, values + garbage, headers + [h];
      shifts := shifts + [hi - prev.tail];
    }

    /** The header that is replaced joins the old ones. */
    lemma DoubleKeepsAllPast(blank: seq<int>)
      requires Valid() && lo == hi + 1 - Current().capacity && top == hi + 1
      ensures forall j :: 0 <= j < |shifts| ==> PastOk(headers[j], keys + blank, shifts[j], 2 * Current().capacity)
      ensures PastOk(Current(), keys + blank, hi - Current().tail, 2 * Current().capacity)
    {
      FullBecomesPast(Current(), keys, blank, hi, lo, top);
      forall j | 0 <= j < |shifts|
        ensures PastOk(headers[j], keys + blank, shifts[j], 2 * Current().capacity)
      {
        DoubleKeepsPast(headers[j], shifts[j], keys, blank, Current().capacity);
      }
    }

    /** The entries of the old ring from the oldest to the newest, then as many new ones. */
    static method RotateToFront(prev: Header, entries: nat) returns (index: array<nat>)
      requires HeaderOk(prev, entries) && entries == prev.capacity > 1
      ensures fresh(index) && IsDoubled(prev, Header(2 * prev.capacity, prev.capacity - 1, index[..]), entries)
    {
      var m := prev.capacity;
      index := new nat[2 * m];
      var prevPos := Slot(prev.tail + 1, m);
      index[0] := prev.index[prevPos];
      var i := 1;
      while prevPos != prev.tail
        invariant 1 <= i <= m && prevPos == Slot(prev.tail + i, m)
        invariant forall k :: 0 <= k < i ==> index[k] == prev.index[Slot(prev.tail + 1 + k, m)]
        decreases m - i
      {
        NotYetAround(prev.tail, i, m);
        SlotOfSlot(prev.tail + i, 1, m);
        prevPos := Slot(prevPos + 1, m);
        index[i] := prev.index[prevPos];
        i := i + 1;
      }
      OnceAround(prev.tail, i, m);
      for k := 0 to m
        invariant forall j :: 0 <= j < m ==> index[j] == prev.index[Slot(prev.tail + 1 + j, m)]
        invariant forall j :: m <= j < m + k ==> index[j] == entries + j - m
      {
        index[m + k] := entries + k;
      }
    }

    /** A key has been written and the tail moved on to it, but nothing is stored in its entry yet. */
    ghost predicate Pending(e: nat)
      reads this
    {
      PastIsOk() && PendingRing(Current(), keys, values, hi, lo, top, live, e)
    }

    /** The entry behind the tail is free. */
    ghost predicate HasRoom()
      requires Valid()
      reads this
    {
      var e := Current().index[Slot(Current().tail + 1, Current().capacity)];
      keys[e] == INVALID || values[e] == None
    }

    /** Writes the key of the next block behind the tail, in the doubled ring if that entry is in use. */
    method InsertEntry(blockStart: nat, mayGrow: bool) returns (ok: bool, e: nat)
      requires Valid() && blockStart == BLOCK_SIZE * (hi + 1)
      modifies this`keys, this`values, this`headers, this`shifts, this`lo, this`top
      ensures ok <==> mayGrow || old(HasRoom())
      ensures ok && !old(HasRoom()) <==> |headers| > |old(headers)|
      ensures if ok then Pending(e) else Valid()
      ensures Undisturbed(old(View(keys, values, headers)), View(keys, values, headers), {})
    {
      var newTail := Slot(Current().tail + 1, Current().capacity);
      e := Current().index[newTail];
      if keys[e] == INVALID || values[e] == None {
        WriteKey(e, blockStart, newTail);
        return true, e;
      }
      BlockedIsFull(Current(), keys, values, hi, lo, top, live);
      ok := NewBlockIndex(mayGrow);
      if !ok {
        return;
      }
      ghost var doubled := View(keys, values, headers);
      newTail := Slot(Current().tail + 1, Current().capacity);
      e := Current().index[newTail];
      WriteKey(e, blockStart, newTail);
      UndisturbedOn(old(View(keys, values, headers)), doubled, View(keys, values, headers), {});
    }

    /** The key of the next block stands behind the tail, and nothing of use is stored in its entry. */
    ghost predicate Between(e: nat)
      reads this
    {
      PastIsOk() && BetweenRing(Current(), keys, values, hi, lo, top, live, e)
    }

    method WriteKey(e: nat, blockStart: nat, newTail: nat)
      requires Valid() && blockStart == BLOCK_SIZE * (hi + 1)
      requires newTail == Slot(Current().tail + 1, Current().capacity) && e == Current().index[newTail]
      requires keys[e] == INVALID || values[e] == None
      modifies this`keys, this`headers, this`lo, this`top
      ensures Pending(e) && Undisturbed(old(View(keys, values, headers)), View(keys, values, headers), {})
      ensures |headers| == |old(headers)|
    {
      WriteDisturbsNothing(View(keys, values, headers), e, blockStart, Current().(tail := newTail));
      StoreKey(e, blockStart);
      MoveTail(e, newTail);
    }

    method StoreKey(e: nat, blockStart: nat)
      requires Valid() && blockStart == BLOCK_SIZE * (hi + 1)
      requires e == Current().index[Slot(Current().tail + 1, Current().capacity)]
      requires keys[e] == INVALID || values[e] == None
      modifies this`keys, this`lo, this`top
      ensures Between(e) && keys == old(keys)[e := blockStart]
    {
      WriteMakesBetween(Current(), keys, values, hi, lo, top, live);
      WriteKeepsAllPast(keys[e := blockStart]);
      keys := keys[e := blockStart];
      lo, top := NewLo(hi, lo, top, Current().capacity), NewTop(hi, top);
    }

    method MoveTail(e: nat, newTail: nat)
      requires Between(e) && newTail == Slot(Current().tail + 1, Current().capacity)
      modifies this`headers
      ensures Pending(e) && headers == old(headers)[|old(headers)| - 1 := old(Current()).(tail := newTail)]
    {
      MoveMakesPending(Current(), keys, values, hi, lo, top, live, e);
      headers := headers[|headers| - 1 := Current().(tail := newTail)];
    }

    lemma WriteKeepsAllPast(keys': seq<int>)
      requires Valid() && keys' == keys[Current().index[Slot(Current().tail + 1, Current().capacity)] := BLOCK_SIZE * (hi + 1)]
      ensures forall j :: 0 <= j < |shifts| ==> PastOk(headers[j], keys', shifts[j], Current().capacity)
    {
      forall j | 0 <= j < |shifts|
        ensures PastOk(headers[j], keys', shifts[j], Current().capacity)
      {
        WriteKeepsPast(headers[j], shifts[j], Current(), keys, hi);
      }
    }

    method RewindTail()
      requires PastIsOk() && Current().capacity > 0
      modifies this`headers
      ensures PastIsOk() && Current() == Rewound(old(Current())) && SamePositions(old(headers), headers)
    {
      var h := Current();
      headers := headers[|headers| - 1 := h.(tail := Slot(h.tail - 1, h.capacity))];
    }

    /** The entry for an element of a live block. */
    method EntryFor(index: nat) returns (e: nat, ghost p: nat)
      requires Linked() && lo <= hi && index / BLOCK_SIZE in live
      ensures e < |keys| && keys[e] == BLOCK_SIZE * (index / BLOCK_SIZE) && values[e] == Some(live[index / BLOCK_SIZE])
      ensures p < Current().capacity && e == Current().index[p]
    {
      LookupFinds(Current(), keys, values, hi, lo, top, live, index / BLOCK_SIZE);
      var start := index - index % BLOCK_SIZE;
      var tailBase := keys[Current().index[Current().tail]];
      var offset := (start - tailBase) / BLOCK_SIZE;
      p := Slot(Current().tail + offset, Current().capacity);
      e := Current().index[Slot(Current().tail + offset, Current().capacity)];
    }

    /** Whatever header and tail a consumer has loaded, it computes the position of its block in that header. */
    lemma AnyHeaderFinds(j: nat, t: nat, p: nat, q: int)
      requires Valid() && j < |headers| && t < headers[j].capacity && p < headers[j].capacity
      requires forall r :: 0 <= r < headers[j].capacity ==> headers[j].index[r] < |keys|
      requires keys[headers[j].index[t]] != INVALID && keys[headers[j].index[p]] == BLOCK_SIZE * q != INVALID
      ensures PositionOf(headers[j].(tail := t), keys, q) == p
    {
      StaleLookupFinds(headers[j], keys, if j < |shifts| then shifts[j] else hi - Current().tail, t, p, q);
    }

    // -------------------------------------------------------------- a consumer beside the owner

    /** Header j has block q at position p. */
    ghost predicate HasAt(j: nat, p: nat, q: int)
      reads this
    {
      && j < |headers| && p < headers[j].capacity && HeaderOk(headers[j], |keys|) && |keys| == |values|
      && q in live && keys[headers[j].index[p]] == BLOCK_SIZE * q && values[headers[j].index[p]] == Some(live[q])
    }

    /** The keys stand in header j according to their classes. */
    ghost predicate AlignedAt(j: nat)
      reads this
    {
      j < |headers| && HeaderOk(headers[j], |keys|) && exists shift :: Aligned(headers[j], keys, shift)
    }

    predicate KeyAt(j: nat, t: nat)
      reads this
    {
      && j < |headers| && t < headers[j].capacity && HeaderOk(headers[j], |keys|)
      && keys[headers[j].index[t]] != INVALID
    }

    ghost predicate HasSomewhere(j: nat, q: int)
      reads this
    {
      exists p: nat :: HasAt(j, p, q)
    }

    /** What holds of the index, for a consumer of block q, at every moment of its owner's work. */
    ghost predicate Readable(q: int)
      reads this
    {
      && PastIsOk() && AlignedAt(|headers| - 1) && KeyAt(|headers| - 1, Current().tail)
      && HasSomewhere(|headers| - 1, q)
    }

    /** Between two methods of the owner, and within its revert, as long as block q is not behind the tail. */
    lemma LinkedIsReadable(q: int)
      requires Linked() && q in live && q <= hi
      ensures Readable(q)
    {
      var h := Current();
      OwnSlot(h.tail, h.capacity);
      assert keys[h.index[Slot(h.tail + q - hi, h.capacity)]] == BLOCK_SIZE * q;
      assert keys[h.index[Slot(h.tail + hi - hi, h.capacity)]] == BLOCK_SIZE * hi;
      assert HasAt(|headers| - 1, Slot(h.tail + q - hi, h.capacity), q);
      assert Aligned(h, keys, hi - h.tail);
    }

    /** Between the owner's store of a key and that of the block. */
    lemma PendingIsReadable(e: nat, q: int)
      requires Pending(e) && q in live
      ensures Readable(q)
    {
      var h, b := Current(), Rewound(Current());
      assert keys[h.index[Slot(b.tail + q - hi, h.capacity)]] == BLOCK_SIZE * q;
      assert HasAt(|headers| - 1, Slot(b.tail + q - hi, h.capacity), q);
      assert Aligned(h, keys, hi - b.tail);
    }

    /** With the key stored and the tail still in front of it, and again once the tail has gone back and the
        entry is still to be cleared. */
    lemma BetweenIsReadable(e: nat, q: int)
      requires Between(e) && q in live
      ensures Readable(q)
    {
      var h := Current();
      OwnSlot(h.tail, h.capacity);
      assert keys[h.index[Slot(h.tail + q - hi, h.capacity)]] == BLOCK_SIZE * q;
      assert keys[h.index[Slot(h.tail + hi - hi, h.capacity)]] == BLOCK_SIZE * hi;
      assert HasAt(|headers| - 1, Slot(h.tail + q - hi, h.capacity), q);
      assert Aligned(h, keys, hi - h.tail);
    }

    /** Any number of the owner's steps, and of other consumers', none of which takes block q out. */
    ghost method OthersInterfere(q: int) returns (gone: set<int>)
      requires Readable(q)
      modifies this
      ensures Readable(q) && live[q] == old(live[q])
      ensures q !in gone && Undisturbed(old(View(keys, values, headers)), View(keys, values, headers), gone)
    {
      gone := {};
      assert Undisturbed(View(keys, values, headers), View(keys, values, headers), {});
    }

    /** Whatever happens meanwhile, the header a consumer has loaded still has its block, and the keys in it
        are still valid. */
    ghost method Pause(j: nat, p: nat, q: int)
      requires Readable(q) && HasAt(j, p, q)
      modifies this
      ensures Readable(q) && HasAt(j, p, q) && live[q] == old(live[q]) && headers[j].index == old(headers[j].index)
      ensures forall t: nat :: old(KeyAt(j, t)) ==> KeyAt(j, t)
    {
      var before := View(keys, values, headers);
      var gone := OthersInterfere(q);
      Persists(before, gone, j, p, q);
    }

    lemma Persists(before: View, gone: set<int>, j: nat, p: nat, q: int)
      requires Readable(q) && q !in gone && Undisturbed(before, View(keys, values, headers), gone)
      requires j < |before.headers| && HeaderOk(before.headers[j], |before.keys|) && p < before.headers[j].capacity
      requires var e := before.headers[j].index[p];
        before.keys[e] == BLOCK_SIZE * q && before.values[e] == Some(live[q])
      ensures HasAt(j, p, q) && headers[j].index == before.headers[j].index
      ensures forall t: nat :: t < before.headers[j].capacity && before.keys[before.headers[j].index[t]] != INVALID ==> KeyAt(j, t)
    {
      assert SamePosition(before.headers, headers, j);
      EveryHeaderIsOk(j, q);
      assert Kept(before, View(keys, values, headers), gone, before.headers[j].index[p]);
      forall t: nat | t < before.headers[j].capacity && before.keys[before.headers[j].index[t]] != INVALID
        ensures KeyAt(j, t)
      {
        assert Kept(before, View(keys, values, headers), gone, before.headers[j].index[t]);
      }
    }

    lemma EveryHeaderIsOk(j: nat, q: int)
      requires Readable(q) && j < |headers|
      ensures AlignedAt(j) && headers[j].capacity > 0 && KeyAt(j, headers[j].tail)
    {
      if j < |shifts| {
        assert PastOk(headers[j], keys, shifts[j], Current().capacity);
      }
    }

    /** A consumer looks up the block of an element it has claimed: it loads the header, its tail and the key
        there one after the other, while the owner adds, reverts and doubles. */
    method FindBlock(index: nat) returns (e: nat)
      requires Readable(index / BLOCK_SIZE)
      modifies this
      ensures Readable(index / BLOCK_SIZE) && live[index / BLOCK_SIZE] == old(live[index / BLOCK_SIZE])
      ensures e < |keys| == |values| && keys[e] == BLOCK_SIZE * (index / BLOCK_SIZE)
      ensures values[e] == Some(live[index / BLOCK_SIZE])
    {
      ghost var q := index / BLOCK_SIZE;
      var start := index - index % BLOCK_SIZE;
      var j := |headers| - 1;
      ghost var p: nat :| HasAt(j, p, q);
      Pause(j, p, q);
      EveryHeaderIsOk(j, q);
      var t := headers[j].tail;
      Pause(j, p, q);
      var tailBase := keys[headers[j].index[t]];
      PositionIs(j, t, p, q);
      var offset := (start - tailBase) / BLOCK_SIZE;
      e := headers[j].index[Slot(t + offset, headers[j].capacity)];
    }

    lemma PositionIs(j: nat, t: nat, p: nat, q: int)
      requires Readable(q) && HasAt(j, p, q) && KeyAt(j, t)
      ensures Slot(t + (BLOCK_SIZE * q - keys[headers[j].index[t]]) / BLOCK_SIZE, headers[j].capacity) == p
    {
      EveryHeaderIsOk(j, q);
      var shift :| Aligned(headers[j], keys, shift);
      StaleLookupFinds(headers[j], keys, shift, t, p, q);
    }

    /** A consumer that has emptied a block takes it out of the index. */
    method Release(index: nat)
      requires Valid() && index / BLOCK_SIZE in live
      modifies this`values, this`live
      ensures Valid() && live == old(live) - {index / BLOCK_SIZE}
      ensures Undisturbed(old(View(keys, values, headers)), View(keys, values, headers), {index / BLOCK_SIZE})
    {
      var e, p := EntryFor(index);
      StoreKeepsRing(Current(), keys, values, hi, lo, top, live, p, index / BLOCK_SIZE, None);
      values := values[e := None];
      live := live - {index / BLOCK_SIZE};
    }

    /** No block was to be had: the tail goes back and the entry is free. */
    method TakeBack(e: nat)
      requires Pending(e)
      modifies this`headers, this`values
      ensures Valid() && Undisturbed(old(View(keys, values, headers)), View(keys, values, headers), {hi + 1})
    {
      RewindMakesBetween(Current(), keys, values, hi, lo, top, live, e);
      RewindTail();
      assert Between(e);
      values := values[e := None];
    }

    method Publish(e: nat, block: nat)
      requires Pending(e)
      modifies this`values, this`live, this`hi
      ensures Valid() && live == old(live)[old(hi) + 1 := block] && hi == old(hi) + 1
      ensures Undisturbed(old(View(keys, values, headers)), View(keys, values, headers), {hi})
    {
      PublishKeepsRing(Current(), keys, values, hi, lo, top, live, e, block);
      values := values[e := Some(block)];
      live := live[hi + 1 := block];
      hi := hi + 1;
    }

    /** Starts one more block: its number is added to the map, or the map stays as it was. */
    method StartBlock(blockStart: nat, attempt: Attempt, mayGrow: bool) returns (ok: bool)
      requires Valid() && blockStart == BLOCK_SIZE * (hi + 1)
      modifies this
      ensures Valid()
      ensures ok ==> attempt.Block? && live == old(live)[old(hi) + 1 := attempt.block] && hi == old(hi) + 1
      ensures !ok ==> live == old(live) && hi == old(hi)
      ensures ok <==> attempt.Block? && (mayGrow || old(HasRoom()))
      ensures Undisturbed(old(View(keys, values, headers)), View(keys, values, headers), {old(hi) + 1})
    {
      if attempt.Full? {
        NothingDisturbed({hi + 1});
        return false;
      }
      ok := AddEntry(blockStart, attempt, mayGrow);
    }

    method AddEntry(blockStart: nat, attempt: Attempt, mayGrow: bool) returns (ok: bool)
      requires Valid() && blockStart == BLOCK_SIZE * (hi + 1) && !attempt.Full?
      modifies this
      ensures Valid()
      ensures ok ==> attempt.Block? && live == old(live)[old(hi) + 1 := attempt.block] && hi == old(hi) + 1
      ensures !ok ==> live == old(live) && hi == old(hi)
      ensures ok <==> attempt.Block? && (mayGrow || old(HasRoom()))
      ensures Undisturbed(old(View(keys, values, headers)), View(keys, values, headers), {old(hi) + 1})
    {
      var e;
      ghost var before := View(keys, values, headers);
      ok, e := InsertEntry(blockStart, mayGrow);
      if ok {
        ok := FillEntry(e, attempt, before);
      } else {
        UndisturbedToo(before, View(keys, values, headers), {hi + 1});
      }
    }

    /** Stores the block in the new entry, or takes the entry back. */
    method FillEntry(e: nat, attempt: Attempt, ghost before: View) returns (ok: bool)
      requires Pending(e) && !attempt.Full?
      requires Undisturbed(before, View(keys, values, headers), {})
      modifies this`headers, this`values, this`live, this`hi
      ensures Valid() && ok == attempt.Block?
      ensures ok ==> live == old(live)[old(hi) + 1 := attempt.block] && hi == old(hi) + 1
      ensures !ok ==> live == old(live) && hi == old(hi)
      ensures Undisturbed(before, View(keys, values, headers), {old(hi) + 1})
    {
      ghost var inserted := View(keys, values, headers);
      ok := attempt.Block?;
      if attempt.NoBlock? {
        TakeBack(e);
      } else {
        Publish(e, attempt.block);
      }
      UndisturbedOn(before, inserted, View(keys, values, headers), {old(hi) + 1});
    }

    /** Starts as many blocks as there are attempts, or, when one of them fails, none. */
    method StartBlocks(lastStart: int, attempts: seq<Attempt>, mayGrow: seq<bool>) returns (ok: bool)
      requires Valid() && lastStart == BLOCK_SIZE * hi && |mayGrow| == |attempts|
      modifies this
      ensures Valid()
      ensures !ok ==> live == old(live) && hi == old(hi)
      ensures ok ==> AllBlocks(attempts) && live == Started(old(live), old(hi), BlocksOf(attempts)) && hi == old(hi) + |attempts|
      ensures AllBlocks(attempts) && (forall i :: 0 <= i < |mayGrow| ==> mayGrow[i]) ==> ok
    {
      var currentTailIndex := lastStart;
      for i := 0 to |attempts|
        invariant Valid() && hi == old(hi) + i && currentTailIndex == BLOCK_SIZE * hi
        invariant AllBlocks(attempts[..i]) && live == Started(old(live), old(hi), BlocksOf(attempts[..i]))
      {
        currentTailIndex := currentTailIndex + BLOCK_SIZE;
        ok := StartBlock(currentTailIndex, attempts[i], mayGrow[i]);
        if !ok {
          StartedAdds(old(live), old(hi), BlocksOf(attempts[..i]));
          Revert(lastStart, i);
          return;
        }
        StartedOneMore(old(live), old(hi), attempts, i);
      }
      assert attempts[..|attempts|] == attempts;
      ok := true;
    }

    /** Of the map `was` with `count` numbers behind start, the first j have been taken out. */
    ghost predicate Reverting(was: map<int, nat>, start: int, count: nat, j: nat)
      reads this
    {
      && Linked() && j <= count && hi == start + count - j && (count > 0 ==> lo <= start + 1)
      && (forall q :: start < q <= start + count ==> q in was)
      && live == was - Numbers(start, j)
    }

    /** Takes the blocks behind lastStart out again, the first one first, while the tail goes back from the last. */
    method Revert(lastStart: int, count: nat)
      requires Linked() && lastStart == BLOCK_SIZE * (hi - count) && hi - count >= -1
      requires forall q :: hi - count < q <= hi ==> q in live
      requires forall q :: q in live ==> q <= hi
      modifies this`values, this`live, this`headers, this`hi
      ensures Valid() && hi == old(hi) - count && live == old(live) - Numbers(hi, count)
    {
      ghost var start := hi - count;
      assert count > 0 ==> start + 1 in live;
      var currentTailIndex := lastStart;
      for j := 0 to count
        invariant Reverting(old(live), start, count, j) && currentTailIndex == BLOCK_SIZE * (start + j)
      {
        currentTailIndex := currentTailIndex + BLOCK_SIZE;
        RevertNext(currentTailIndex, old(live), start, count, j);
      }
      RevertEnds(old(live), start, count);
    }

    method RevertNext(index: nat, ghost was: map<int, nat>, ghost start: int, ghost count: nat, ghost j: nat)
      requires Reverting(was, start, count, j) && j < count && index == BLOCK_SIZE * (start + j + 1)
      modifies this`values, this`live, this`headers, this`hi
      ensures Reverting(was, start, count, j + 1)
    {
      NextIsLive(was, start, count, j);
      assert index / BLOCK_SIZE == start + j + 1;
      TakeOut(index);
    }

    lemma RevertEnds(was: map<int, nat>, start: int, count: nat)
      requires Reverting(was, start, count, count) && start >= -1 && forall q :: q in was ==> q <= start + count
      ensures Valid() && hi == start && live == was - Numbers(start, count)
    {
      RevertedIsSettled(was, start, count);
    }

    method TakeOut(index: nat)
      requires Linked() && lo <= hi && index / BLOCK_SIZE in live
      modifies this`values, this`live, this`headers, this`hi
      ensures Linked() && hi == old(hi) - 1 && live == old(live) - {index / BLOCK_SIZE} && lo == old(lo)
      ensures Undisturbed(old(View(keys, values, headers)), View(keys, values, headers), {index / BLOCK_SIZE})
    {
      var e, p := EntryFor(index);
      TakeOutKeepsRing(Current(), keys, values, hi, lo, top, live, p, index / BLOCK_SIZE);
      values := values[e := None];
      live := live - {index / BLOCK_SIZE};
      RewindTail();
      hi := hi - 1;
    }
  }

  lemma NotYetAround(tail: nat, i: nat, m: nat)
    requires tail < m && 1 <= i <= m && Slot(tail + i, m) != tail
    ensures i < m
  {
    CongBy(tail + m, tail, m, 1);
    SameSlot(tail + m, tail, m);
    OwnSlot(tail, m);
  }

  lemma OnceAround(tail: nat, i: nat, m: nat)
    requires tail < m && 1 <= i <= m && Slot(tail + i, m) == tail
    ensures i == m
  {
    OwnSlot(tail, m);
    SameSlot(tail + i, tail, m);
    if i < m { CongNear(tail + i, tail, m); }
  }
}
