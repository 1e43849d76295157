/** The ring behind a block index: entries keyed by block base, which the producer extends, rewinds and
    doubles, and through which consumers find the block of an element. */
module BlockRings {
  import opened Congruence
  import opened Options

  const BLOCK_SIZE := 32
  const INVALID := 1            // no block base, as it is no multiple of BLOCK_SIZE
  const INITIAL_CAPACITY := 32

  /** index[p] names the entry at ring position p; entries are shared by all headers that name them. */
  datatype Header = Header(capacity: nat, tail: nat, index: seq<nat>)

  predicate HeaderOk(h: Header, entries: nat)
  {
    && |h.index| == h.capacity > h.tail
    && forall p :: 0 <= p < h.capacity ==> h.index[p] < entries
  }

  predicate Injective(index: seq<nat>)
  {
    forall p, r :: 0 <= p < r < |index| ==> index[p] != index[r]
  }

  /** Every key stands at a position of its own congruence class. */
  ghost predicate Aligned(h: Header, keys: seq<int>, shift: int)
    requires HeaderOk(h, |keys|)
  {
    forall p :: 0 <= p < h.capacity && keys[h.index[p]] != INVALID ==>
      keys[h.index[p]] % BLOCK_SIZE == 0 && Cong(keys[h.index[p]] / BLOCK_SIZE, p + shift, h.capacity)
  }

  /** The keys from block number lo to block number top, exclusive, are where the tail says. */
  ghost predicate Exact(h: Header, keys: seq<int>, hi: int, lo: int, top: int)
    requires HeaderOk(h, |keys|)
  {
    forall q :: lo <= q < top ==> keys[h.index[Slot(h.tail + q - hi, h.capacity)]] == BLOCK_SIZE * q
  }

  /** An entry in use holds a block exactly if its key is live. */
  ghost predicate Holding(h: Header, keys: seq<int>, values: seq<Option<nat>>, live: map<int, nat>)
    requires |keys| == |values| && HeaderOk(h, |keys|)
  {
    forall p :: 0 <= p < h.capacity && keys[h.index[p]] != INVALID ==>
      values[h.index[p]] == Held(keys[h.index[p]] / BLOCK_SIZE, live)
  }

  function Held(q: int, live: map<int, nat>): Option<nat>
  {
    if q in live then Some(live[q]) else None
  }

  /** hi is the block number at the tail; numbers lo .. top have exact keys, and all live ones are there. */
  ghost predicate Ring(h: Header, keys: seq<int>, values: seq<Option<nat>>, hi: int, lo: int, top: int, live: map<int, nat>)
  {
    && HeaderOk(h, |keys|) && |keys| == |values| == h.capacity > 1 && Injective(h.index)
    && 0 <= lo <= hi + 1 <= top <= lo + h.capacity
    && Exact(h, keys, hi, lo, top)
    && Aligned(h, keys, hi - h.tail)
    && Holding(h, keys, values, live)
    && forall q :: q in live ==> lo <= q < top
  }

  // ---------------------------------------------------------------- lookup

  /** The position computed for block number q from the key at the tail. */
  function PositionOf(h: Header, keys: seq<int>, q: int): (p: nat)
    requires HeaderOk(h, |keys|) && h.capacity > 0
    ensures p < h.capacity
  {
    Slot(h.tail + (BLOCK_SIZE * q - keys[h.index[h.tail]]) / BLOCK_SIZE, h.capacity)
  }

  /** A live block is found in the entry keyed by its base. */
  lemma LookupFinds(h: Header, keys: seq<int>, values: seq<Option<nat>>, hi: int, lo: int, top: int, live: map<int,
                    nat>, q: int)
    requires Ring(h, keys, values, hi, lo, top, live) && q in live && lo <= hi
    ensures var e := h.index[PositionOf(h, keys, q)];
      keys[e] == BLOCK_SIZE * q && values[e] == Some(live[q])
  {
    OwnSlot(h.tail, h.capacity);
    assert keys[h.index[Slot(h.tail + hi - hi, h.capacity)]] == BLOCK_SIZE * hi;
    assert keys[h.index[Slot(h.tail + q - hi, h.capacity)]] == BLOCK_SIZE * q;
  }

  /** Consumers may hold any header, an old one included, any tail of it, and a key stored there later: they
      still compute the position at which that header has the block. */
  lemma StaleLookupFinds(h: Header, keys: seq<int>, shift: int, t: nat, p: nat, q: int)
    requires HeaderOk(h, |keys|) && Aligned(h, keys, shift)
    requires t < h.capacity && keys[h.index[t]] != INVALID
    requires p < h.capacity && keys[h.index[p]] == BLOCK_SIZE * q != INVALID
    ensures PositionOf(h.(tail := t), keys, q) == p
  {
    var m, r := h.capacity, keys[h.index[t]] / BLOCK_SIZE;
    assert Cong(r, t + shift, m) && Cong(q, p + shift, m);
    CongSum(q, p + shift, r, t + shift, m);
    CongShift(q - r, p - t, t, m);
    SameSlot(t + q - r, p, m);
    OwnSlot(p, m);
    assert (BLOCK_SIZE * q - keys[h.index[t]]) / BLOCK_SIZE == q - r;
  }

  // ---------------------------------------------------------------- the tail moves

  lemma RewindKeepsRing(h: Header, keys: seq<int>, values: seq<Option<nat>>, hi: int, lo: int, top: int,
                        live: map<int, nat>)
    requires Ring(h, keys, values, hi, lo, top, live) && lo <= hi
    ensures Ring(h.(tail := Slot(h.tail - 1, h.capacity)), keys, values, hi - 1, lo, top, live)
  {
    var h' := h.(tail := Slot(h.tail - 1, h.capacity));
    MoveKeepsExact(h, h', keys, hi, lo, top, -1);
    MoveKeepsAligned(h, h', keys, hi, -1);
  }

  lemma SlotMoves(tail: int, d: int, q: int, hi: int, m: nat)
    requires m > 0
    ensures Slot(Slot(tail + d, m) + q - (hi + d), m) == Slot(tail + q - hi, m)
  {
    SlotOfSlot(tail + d, q - (hi + d), m);
    assert Slot(tail + d, m) + (q - (hi + d)) == Slot(tail + d, m) + q - (hi + d);
    assert tail + d + (q - (hi + d)) == tail + q - hi;
  }

  lemma MoveKeepsExact(h: Header, h': Header, keys: seq<int>, hi: int, lo: int, top: int, d: int)
    requires HeaderOk(h, |keys|) && h.capacity > 0 && h' == h.(tail := Slot(h.tail + d, h.capacity))
    requires Exact(h, keys, hi, lo, top)
    ensures Exact(h', keys, hi + d, lo, top)
  {
    forall q | lo <= q < top
      ensures keys[h.index[Slot(h'.tail + q - (hi + d), h.capacity)]] == BLOCK_SIZE * q
    {
      SlotMoves(h.tail, d, q, hi, h.capacity);
    }
  }

  lemma MoveKeepsAligned(h: Header, h': Header, keys: seq<int>, hi: int, d: int)
    requires HeaderOk(h, |keys|) && h.capacity > 0 && h' == h.(tail := Slot(h.tail + d, h.capacity))
    requires Aligned(h, keys, hi - h.tail)
    ensures Aligned(h', keys, hi + d - h'.tail)
  {
    var m := h.capacity;
    forall p | 0 <= p < m && keys[h.index[p]] != INVALID
      ensures Cong(keys[h.index[p]] / BLOCK_SIZE, p + (hi + d - h'.tail), m)
    {
      SlotCong(h.tail + d, m);
      CongSym(h'.tail, h.tail + d, m);
      CongBy(p + hi + d, p + hi + d, m, 0);
      CongSum(p + hi + d, p + hi + d, h.tail + d, h'.tail, m);
      CongTrans(keys[h.index[p]] / BLOCK_SIZE, p + (hi - h.tail), p + (hi + d - h'.tail), m);
    }
  }

  // ---------------------------------------------------------------- a key is written

  /** The window of exact keys after the key behind the tail has been written. */
  function NewTop(hi: int, top: int): int { if top < hi + 2 then hi + 2 else top }

  function NewLo(hi: int, lo: int, top: int, capacity: nat): int
  {
    if lo < NewTop(hi, top) - capacity then NewTop(hi, top) - capacity else lo
  }

  /** Writing the next key into a free entry loses at most the oldest key, which is not live. */
  lemma WriteKeepsRing(h: Header, keys: seq<int>, values: seq<Option<nat>>, hi: int, lo: int, top: int,
                       live: map<int, nat>, v: Option<nat>)
    requires Ring(h, keys, values, hi, lo, top, live) && forall q :: q in live ==> q <= hi
    requires var e := h.index[Slot(h.tail + 1, h.capacity)]; keys[e] == INVALID || values[e] == None
    ensures var e := h.index[Slot(h.tail + 1, h.capacity)];
      var live' := if v == None then live else live[hi + 1 := v.value];
      Ring(h, keys[e := BLOCK_SIZE * (hi + 1)], values[e := v], hi, NewLo(hi, lo, top, h.capacity), NewTop(hi, top), live')
  {
    var m := h.capacity;
    var s := Slot(h.tail + 1, m);
    var e := h.index[s];
    var keys' := keys[e := BLOCK_SIZE * (hi + 1)];
    var lo', top' := NewLo(hi, lo, top, m), NewTop(hi, top);
    forall q | lo' <= q < top'
      ensures keys'[h.index[Slot(h.tail + q - hi, m)]] == BLOCK_SIZE * q
    {
      SameSlot(h.tail + q - hi, h.tail + 1, m);
      if Cong(h.tail + q - hi, h.tail + 1, m) {
        CongNear(h.tail + q - hi, h.tail + 1, m);
      } else {
        assert keys[h.index[Slot(h.tail + q - hi, m)]] == BLOCK_SIZE * q;
      }
    }
    WriteKeepsAligned(h, keys, hi);
    WriteKeepsHolding(h, keys, values, hi, live, v);
    forall q | q in live
      ensures q >= lo'
    {
      DroppedIsNotLive(h, keys, values, hi, lo, top, live, q);
    }
  }

  lemma WriteKeepsAligned(h: Header, keys: seq<int>, hi: int)
    requires HeaderOk(h, |keys|) && h.capacity > 0 && Injective(h.index) && Aligned(h, keys, hi - h.tail)
    ensures Aligned(h, keys[h.index[Slot(h.tail + 1, h.capacity)] := BLOCK_SIZE * (hi + 1)], hi - h.tail)
  {
    var s := Slot(h.tail + 1, h.capacity);
    SlotCong(h.tail + 1, h.capacity);
    CongSym(s, h.tail + 1, h.capacity);
    CongShift(h.tail + 1, s, hi - h.tail, h.capacity);
  }

  lemma WriteKeepsHolding(h: Header, keys: seq<int>, values: seq<Option<nat>>, hi: int, live: map<int, nat>,
                          v: Option<nat>)
    requires HeaderOk(h, |keys|) && h.capacity > 0 && |keys| == |values| && Injective(h.index)
    requires Aligned(h, keys, hi - h.tail) && Holding(h, keys, values, live) && hi + 1 !in live
    ensures var e := h.index[Slot(h.tail + 1, h.capacity)];
      Holding(h, keys[e := BLOCK_SIZE * (hi + 1)], values[e := v], if v == None then live else live[hi + 1 := v.value])
  {
    var m, s := h.capacity, Slot(h.tail + 1, h.capacity);
    forall p | 0 <= p < m && p != s && keys[h.index[p]] != INVALID
      ensures h.index[p] != h.index[s] && keys[h.index[p]] / BLOCK_SIZE != hi + 1
    {
      if Cong(hi + 1, p + (hi - h.tail), m) {
        CongShift(hi + 1, p + (hi - h.tail), h.tail - hi, m);
        SameSlot(h.tail + 1, p, m);
        OwnSlot(p, m);
      }
    }
  }

  lemma DroppedIsNotLive(h: Header, keys: seq<int>, values: seq<Option<nat>>, hi: int, lo: int, top: int,
                         live: map<int, nat>, q: int)
    requires Ring(h, keys, values, hi, lo, top, live) && q in live && q <= hi
    requires var e := h.index[Slot(h.tail + 1, h.capacity)]; keys[e] == INVALID || values[e] == None
    ensures q >= NewLo(hi, lo, top, h.capacity)
  {
    OldestKey(h, keys, hi, lo, top);
  }

  /** The position behind the tail is that of the oldest key the ring has room for. */
  lemma OldestKey(h: Header, keys: seq<int>, hi: int, lo: int, top: int)
    requires HeaderOk(h, |keys|) && h.capacity > 0 && Exact(h, keys, hi, lo, top)
    ensures lo <= hi + 1 - h.capacity < top ==>
              keys[h.index[Slot(h.tail + 1, h.capacity)]] == BLOCK_SIZE * (hi + 1 - h.capacity)
  {
    var m, q := h.capacity, hi + 1 - h.capacity;
    CongBy(h.tail + q - hi, h.tail + 1, m, -1);
    SameSlot(h.tail + q - hi, h.tail + 1, m);
    assert lo <= q < top ==> keys[h.index[Slot(h.tail + q - hi, m)]] == BLOCK_SIZE * q;
  }

  // ---------------------------------------------------------------- the ring doubles

  /** Finding the next entry in use means that the ring is full, with every key exact. */
  lemma BlockedIsFull(h: Header, keys: seq<int>, values: seq<Option<nat>>, hi: int, lo: int, top: int, live: map<int,
                      nat>)
    requires Ring(h, keys, values, hi, lo, top, live) && forall q :: q in live ==> q <= hi
    requires var e := h.index[Slot(h.tail + 1, h.capacity)]; keys[e] != INVALID && values[e] != None
    ensures lo == hi + 1 - h.capacity && top == hi + 1
  {
    var m, s := h.capacity, Slot(h.tail + 1, h.capacity);
    var q := keys[h.index[s]] / BLOCK_SIZE;
    assert q in live && Cong(q, s + (hi - h.tail), m);
    SlotCong(h.tail + 1, m);
    CongShift(s, h.tail + 1, hi - h.tail, m);
    CongTrans(q, s + (hi - h.tail), hi + 1, m);
    CongBy(m, 0, m, 1);
    CongSum(q, hi + 1, m, 0, m);
    CongNear(q + m, hi + 1, m);
  }

  /** The doubled ring: the old entries from the oldest to the newest, then the new ones. */
  ghost predicate IsDoubled(h: Header, h': Header, entries: nat)
  {
    && h'.capacity == 2 * h.capacity == |h'.index| && h.capacity > 0 && |h.index| == h.capacity
    && h'.tail == h.capacity - 1
    && (forall i :: 0 <= i < h.capacity ==> h'.index[i] == h.index[Slot(h.tail + 1 + i, h.capacity)])
    && forall i :: h.capacity <= i < 2 * h.capacity ==> h'.index[i] == entries + i - h.capacity
  }

  lemma DoubledKeyIsExact(h: Header, h': Header, keys: seq<int>, hi: int, lo: int, top: int, i: nat)
    requires HeaderOk(h, |keys|) && IsDoubled(h, h', |keys|) && Exact(h, keys, hi, lo, top)
    requires lo == hi + 1 - h.capacity && top == hi + 1 && i < h.capacity
    ensures h'.index[i] < |keys| && keys[h'.index[i]] == BLOCK_SIZE * (lo + i)
  {
    CongBy(h.tail + 1 + i, h.tail + (lo + i) - hi, h.capacity, 1);
    SameSlot(h.tail + 1 + i, h.tail + (lo + i) - hi, h.capacity);
    assert keys[h.index[Slot(h.tail + (lo + i) - hi, h.capacity)]] == BLOCK_SIZE * (lo + i);
  }

  lemma DoubledIsInjective(h: Header, h': Header, entries: nat)
    requires HeaderOk(h, entries) && IsDoubled(h, h', entries) && Injective(h.index)
    ensures HeaderOk(h', entries + h.capacity) && Injective(h'.index)
  {
    forall i, j | 0 <= i < j < h'.capacity
      ensures h'.index[i] != h'.index[j]
    {
      if j < h.capacity {
        SameSlot(h.tail + 1 + i, h.tail + 1 + j, h.capacity);
        if Cong(h.tail + 1 + i, h.tail + 1 + j, h.capacity) {
          CongNear(h.tail + 1 + i, h.tail + 1 + j, h.capacity);
        }
      }
    }
  }

  /** Doubling a full ring keeps it a ring, with room behind the tail. */
  lemma DoubleKeepsRing(h: Header, h': Header, keys: seq<int>, blank: seq<int>, values: seq<Option<nat>>,
                        values': seq<Option<nat>>,
                        hi: int, lo: int, top: int, live: map<int, nat>)
    requires Ring(h, keys, values, hi, lo, top, live) && IsDoubled(h, h', |keys|)
    requires lo == hi + 1 - h.capacity && top == hi + 1
    requires |blank| == h.capacity && forall i :: 0 <= i < |blank| ==> blank[i] == INVALID
    requires |values'| == 2 * h.capacity && values'[..h.capacity] == values
    ensures Ring(h', keys + blank, values', hi, lo, top, live)
    ensures (keys + blank)[h'.index[Slot(h'.tail + 1, h'.capacity)]] == INVALID
  {
    DoubledIsInjective(h, h', |keys|);
    forall i: nat | i < h.capacity
      ensures h'.index[i] < |keys| && keys[h'.index[i]] == BLOCK_SIZE * (lo + i)
    {
      DoubledKeyIsExact(h, h', keys, hi, lo, top, i);
    }
    DoubledIsExact(h', keys + blank, h.capacity, hi, lo, top);
    DoubledIsAligned(h', keys + blank, h.capacity, hi, lo);
    DoubleKeepsHolding(h, h', keys, blank, values, values', live);
    OwnSlot(h'.tail + 1, h'.capacity);
  }

  lemma DoubledIsExact(h': Header, keys: seq<int>, m: nat, hi: int, lo: int, top: int)
    requires HeaderOk(h', |keys|) && h'.capacity == 2 * m && h'.tail == m - 1 >= 0
    requires forall i :: 0 <= i < m ==> keys[h'.index[i]] == BLOCK_SIZE * (lo + i)
    requires lo == hi + 1 - m && top == hi + 1
    ensures Exact(h', keys, hi, lo, top)
  {
    forall q | lo <= q < top
      ensures keys[h'.index[Slot(h'.tail + q - hi, h'.capacity)]] == BLOCK_SIZE * q
    {
      OwnSlot(q - lo, h'.capacity);
      assert h'.tail + q - hi == q - lo;
    }
  }

  lemma DoubledIsAligned(h': Header, keys: seq<int>, m: nat, hi: int, lo: int)
    requires HeaderOk(h', |keys|) && h'.capacity == 2 * m && h'.tail == m - 1 >= 0 && lo == hi + 1 - m
    requires forall i :: 0 <= i < m ==> keys[h'.index[i]] == BLOCK_SIZE * (lo + i)
    requires forall i :: m <= i < 2 * m ==> keys[h'.index[i]] == INVALID
    ensures Aligned(h', keys, hi - h'.tail)
  {
    forall p | 0 <= p < h'.capacity && keys[h'.index[p]] != INVALID
      ensures Cong(keys[h'.index[p]] / BLOCK_SIZE, p + (hi - h'.tail), h'.capacity)
    {
      CongBy(lo + p, p + (hi - h'.tail), h'.capacity, 0);
    }
  }

  lemma DoubleKeepsHolding(h: Header, h': Header, keys: seq<int>, blank: seq<int>, values: seq<Option<nat>>,
                           values': seq<Option<nat>>, live: map<int, nat>)
    requires HeaderOk(h, |keys|) && |keys| == |values| == h.capacity && IsDoubled(h, h', |keys|)
    requires HeaderOk(h', 2 * h.capacity) && Holding(h, keys, values, live)
    requires |blank| == h.capacity && forall i :: 0 <= i < |blank| ==> blank[i] == INVALID
    requires |values'| == 2 * h.capacity && values'[..h.capacity] == values
    ensures Holding(h', keys + blank, values', live)
  {
    forall p | 0 <= p < h'.capacity && (keys + blank)[h'.index[p]] != INVALID
      ensures values'[h'.index[p]] == Held((keys + blank)[h'.index[p]] / BLOCK_SIZE, live)
    {
      var e := h'.index[p];
      if p < h.capacity {
        assert e == h.index[Slot(h.tail + 1 + p, h.capacity)];
        assert values'[e] == values'[..h.capacity][e];
      }
    }
  }

  // ---------------------------------------------------------------- the tail goes on, blocks come and go

  lemma AdvanceKeepsRing(h: Header, keys: seq<int>, values: seq<Option<nat>>, hi: int, lo: int, top: int,
                         live: map<int, nat>)
    requires Ring(h, keys, values, hi, lo, top, live) && hi + 1 < top
    ensures Ring(h.(tail := Slot(h.tail + 1, h.capacity)), keys, values, hi + 1, lo, top, live)
  {
    var h' := h.(tail := Slot(h.tail + 1, h.capacity));
    MoveKeepsExact(h, h', keys, hi, lo, top, 1);
    MoveKeepsAligned(h, h', keys, hi, 1);
  }

  /** Two positions never hold the same key. */
  lemma KeysDiffer(h: Header, keys: seq<int>, shift: int, p: nat, r: nat)
    requires HeaderOk(h, |keys|) && Aligned(h, keys, shift) && p < h.capacity && r < h.capacity && p != r
    requires keys[h.index[p]] != INVALID && keys[h.index[r]] != INVALID
    ensures keys[h.index[p]] / BLOCK_SIZE != keys[h.index[r]] / BLOCK_SIZE
  {
    var m, q := h.capacity, keys[h.index[p]] / BLOCK_SIZE;
    if Cong(q, r + shift, m) {
      CongSym(q, p + shift, m);
      CongTrans(p + shift, q, r + shift, m);
      CongShift(p + shift, r + shift, -shift, m);
      if Cong(p, r, m) && p != r { CongNear(p, r, m); }
    }
  }

  /** A block stored into, or taken out of, the entry keyed by its base. */
  lemma StoreKeepsRing(h: Header, keys: seq<int>, values: seq<Option<nat>>, hi: int, lo: int, top: int,
                       live: map<int, nat>,
                       p: nat, q: int, v: Option<nat>)
    requires Ring(h, keys, values, hi, lo, top, live)
    requires p < h.capacity && keys[h.index[p]] == BLOCK_SIZE * q != INVALID && lo <= q < top
    ensures Ring(h, keys, values[h.index[p] := v], hi, lo, top, if v == None then live - {q} else live[q := v.value])
  {
    forall r | 0 <= r < h.capacity && r != p && keys[h.index[r]] != INVALID
      ensures keys[h.index[r]] / BLOCK_SIZE != q && h.index[r] != h.index[p]
    {
      KeysDiffer(h, keys, hi - h.tail, p, r);
    }
  }

  // ---------------------------------------------------------------- headers of the past

  ghost predicate Divides(m: nat, n: nat)
  {
    exists k: nat :: n == Times(k, m)
  }

  /** A header that has been replaced: all its keys stay in use and in their classes. */
  ghost predicate PastOk(h: Header, keys: seq<int>, shift: int, capacity: nat)
  {
    && HeaderOk(h, |keys|) && Divides(h.capacity, capacity)
    && Aligned(h, keys, shift)
    && forall p :: 0 <= p < h.capacity ==> keys[h.index[p]] != INVALID
  }

  /** The key written behind the tail is in the class of the key it replaces. */
  lemma NewKeyFits(h: Header, q: int, hi: int, m: nat, c: int)
    requires h.capacity > 0 && Divides(m, h.capacity) && Cong(q, c, m)
    requires Cong(q, Slot(h.tail + 1, h.capacity) + (hi - h.tail), h.capacity)
    ensures Cong(hi + 1, c, m)
  {
    var s := Slot(h.tail + 1, h.capacity);
    var k: nat :| h.capacity == Times(k, m);
    SlotCong(h.tail + 1, h.capacity);
    CongShift(s, h.tail + 1, hi - h.tail, h.capacity);
    CongTrans(q, s + (hi - h.tail), hi + 1, h.capacity);
    CongSym(q, hi + 1, h.capacity);
    CongDivides(hi + 1, q, m, k);
    CongTrans(hi + 1, q, c, m);
  }

  /** A key written into the current ring is in the right class of every older header too. */
  lemma WriteKeepsPast(past: Header, shift: int, h: Header, keys: seq<int>, hi: int)
    requires HeaderOk(h, |keys|) && h.capacity > 0 && Aligned(h, keys, hi - h.tail)
    requires PastOk(past, keys, shift, h.capacity)
    ensures PastOk(past, keys[h.index[Slot(h.tail + 1, h.capacity)] := BLOCK_SIZE * (hi + 1)], shift, h.capacity)
  {
    var s := Slot(h.tail + 1, h.capacity);
    var e := h.index[s];
    assert keys[e] != INVALID ==> Cong(keys[e] / BLOCK_SIZE, s + (hi - h.tail), h.capacity);
    var keys' := keys[e := BLOCK_SIZE * (hi + 1)];
    forall p | 0 <= p < past.capacity
      ensures keys'[past.index[p]] != INVALID && keys'[past.index[p]] % BLOCK_SIZE == 0
      ensures Cong(keys'[past.index[p]] / BLOCK_SIZE, p + shift, past.capacity)
    {
      assert keys[past.index[p]] != INVALID;
      if past.index[p] == e {
        NewKeyFits(h, keys[e] / BLOCK_SIZE, hi, past.capacity, p + shift);
        assert keys'[past.index[p]] / BLOCK_SIZE == hi + 1;
      }
    }
  }

  lemma DoubleKeepsPast(past: Header, shift: int, keys: seq<int>, blank: seq<int>, capacity: nat)
    requires PastOk(past, keys, shift, capacity)
    ensures PastOk(past, keys + blank, shift, 2 * capacity)
  {
    var k: nat :| capacity == Times(k, past.capacity);
    assert 2 * capacity == Times(2 * k, past.capacity);
  }

  lemma FullBecomesPast(h: Header, keys: seq<int>, blank: seq<int>, hi: int, lo: int, top: int)
    requires HeaderOk(h, |keys|) && h.capacity > 0 && Aligned(h, keys, hi - h.tail) && Exact(h, keys, hi, lo, top)
    requires lo == hi + 1 - h.capacity && top == hi + 1
    ensures PastOk(h, keys + blank, hi - h.tail, 2 * h.capacity)
  {
    assert 2 * h.capacity == Times(2, h.capacity);
    forall p | 0 <= p < h.capacity
      ensures keys[h.index[p]] != INVALID
    {
      var q := if p <= h.tail then hi - h.tail + p else hi - h.tail + p - h.capacity;
      CongBy(p, h.tail + q - hi, h.capacity, if p <= h.tail then 0 else 1);
      SameSlot(p, h.tail + q - hi, h.capacity);
      OwnSlot(p, h.capacity);
      assert keys[h.index[Slot(h.tail + q - hi, h.capacity)]] == BLOCK_SIZE * q;
    }
  }

  // ---------------------------------------------------------------- a key written, a block to come

  function Rewound(h: Header): Header
    requires h.capacity > 0
  {
    h.(tail := Slot(h.tail - 1, h.capacity))
  }

  /** The key at the tail is in place, and nothing of use in its entry. */
  ghost predicate PendingRing(h: Header, keys: seq<int>, values: seq<Option<nat>>, hi: int, lo: int, top: int, live: map<int, nat>, e: nat)
  {
    && HeaderOk(h, |keys|) && h.capacity > 1 && |keys| == |values| && e == h.index[h.tail]
    && keys[e] == BLOCK_SIZE * (hi + 1) && -1 <= hi && hi + 1 < top
    && Ring(Rewound(h), keys, values[e := None], hi, lo, top, live)
    && forall q :: q in live ==> q <= hi
  }

  /** The key behind the tail is in place, the tail not there, and nothing of use in the key's entry. */
  ghost predicate BetweenRing(h: Header, keys: seq<int>, values: seq<Option<nat>>, hi: int, lo: int, top: int, live: map<int, nat>, e: nat)
  {
    && HeaderOk(h, |keys|) && h.capacity > 1 && |keys| == |values| && e == h.index[Slot(h.tail + 1, h.capacity)]
    && keys[e] == BLOCK_SIZE * (hi + 1) && -1 <= hi && hi + 1 < top
    && Ring(h, keys, values[e := None], hi, lo, top, live)
    && forall q :: q in live ==> q <= hi
  }

  lemma WriteMakesBetween(h: Header, keys: seq<int>, values: seq<Option<nat>>, hi: int, lo: int, top: int,
                          live: map<int, nat>)
    requires Ring(h, keys, values, hi, lo, top, live) && -1 <= hi && forall q :: q in live ==> q <= hi
    requires var e := h.index[Slot(h.tail + 1, h.capacity)]; keys[e] == INVALID || values[e] == None
    ensures var e := h.index[Slot(h.tail + 1, h.capacity)];
      BetweenRing(h, keys[e := BLOCK_SIZE * (hi + 1)], values, hi,
                  NewLo(hi, lo, top, h.capacity), NewTop(hi, top), live, e)
  {
    WriteKeepsRing(h, keys, values, hi, lo, top, live, None);
  }

  lemma MoveMakesPending(h: Header, keys: seq<int>, values: seq<Option<nat>>, hi: int, lo: int, top: int,
                         live: map<int, nat>, e: nat)
    requires BetweenRing(h, keys, values, hi, lo, top, live, e)
    ensures PendingRing(h.(tail := Slot(h.tail + 1, h.capacity)), keys, values, hi, lo, top, live, e)
  {
    BackAgain(h.tail, h.capacity);
    assert Rewound(h.(tail := Slot(h.tail + 1, h.capacity))) == h;
  }

  lemma RewindMakesBetween(h: Header, keys: seq<int>, values: seq<Option<nat>>, hi: int, lo: int, top: int,
                           live: map<int, nat>, e: nat)
    requires PendingRing(h, keys, values, hi, lo, top, live, e)
    ensures BetweenRing(Rewound(h), keys, values, hi, lo, top, live, e)
  {
    ForthAgain(h.tail, h.capacity);
  }

  lemma PublishKeepsRing(h: Header, keys: seq<int>, values: seq<Option<nat>>, hi: int, lo: int, top: int,
                         live: map<int, nat>, e: nat, block: nat)
    requires PendingRing(h, keys, values, hi, lo, top, live, e)
    ensures Ring(h, keys, values[e := Some(block)], hi + 1, lo, top, live[hi + 1 := block])
  {
    var back := Rewound(h);
    ForthAgain(h.tail, h.capacity);
    StoreKeepsRing(back, keys, values[e := None], hi, lo, top, live, h.tail, hi + 1, Some(block));
    assert values[e := None][e := Some(block)] == values[e := Some(block)];
    AdvanceKeepsRing(back, keys, values[e := Some(block)], hi, lo, top, live[hi + 1 := block]);
    assert back.(tail := Slot(back.tail + 1, h.capacity)) == h;
  }

  lemma BackAgain(tail: nat, m: nat)
    requires tail < m
    ensures Slot(Slot(tail + 1, m) - 1, m) == tail
  {
    SlotOfSlot(tail + 1, -1, m);
    OwnSlot(tail, m);
  }

  lemma ForthAgain(tail: nat, m: nat)
    requires tail < m
    ensures Slot(Slot(tail - 1, m) + 1, m) == tail
  {
    SlotOfSlot(tail - 1, 1, m);
    OwnSlot(tail, m);
  }

  /** A block is taken out of its entry and the tail goes back, wherever the entry is. */
  lemma TakeOutKeepsRing(h: Header, keys: seq<int>, values: seq<Option<nat>>, hi: int, lo: int, top: int,
                         live: map<int, nat>, p: nat, q: int)
    requires Ring(h, keys, values, hi, lo, top, live) && lo <= hi
    requires p < h.capacity && keys[h.index[p]] == BLOCK_SIZE * q != INVALID && lo <= q < top
    ensures Ring(Rewound(h), keys, values[h.index[p] := None], hi - 1, lo, top, live - {q})
  {
    StoreKeepsRing(h, keys, values, hi, lo, top, live, p, q, None);
    RewindKeepsRing(h, keys, values[h.index[p] := None], hi, lo, top, live - {q});
  }
}
