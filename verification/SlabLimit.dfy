/** How dry the slab allocator can run: every thread but one stands between its put and its splice, and the
    last one finds nothing although every slot is free. */
module SlabLimit {
  import opened SlabLayout
  import opened Sums
  import opened TaskAllocators

  /** The most slots a thread can keep from the others, and keeps in this run. */
  const HOARD := 2 * BATCH + 1

  predicate Empty(h: Holding)
  {
    h == Holding([], [])
  }

  /** With nothing on the shared chain or with any thread, everything is live. */
  lemma NothingFreeMeansAllLive(l: Layout)
    requires Inv(l) && l.shared == [] && forall u :: 0 <= u < |l.threads| ==> Empty(l.threads[u])
    ensures |l.live| == |l.places|
  {
    SumOfZeros(l.threads, Size);
  }

  /** With everything live, there is nothing anywhere else, and no slot is missing. */
  lemma AllLiveMeansNothingFree(l: Layout)
    requires Inv(l) && |l.live| == |l.places|
    ensures l.shared == [] && forall u :: 0 <= u < |l.threads| ==> Empty(l.threads[u])
    ensures forall x: nat :: x in l.live <==> x < |l.places|
  {
    forall u | 0 <= u < |l.threads|
      ensures Empty(l.threads[u])
    {
      WeightWithinSum(l.threads, u, Size);
    }
    forall x: nat
      ensures x in l.live <==> x < |l.places|
    {
      if x < |l.places| { assert In(l, x, l.places[x]); }
      assert x in l.live <==> In(l, x, Live);
    }
  }

  /** A refill by thread t touches no live slot and no other thread. */
  lemma RefillTouchesOnly(l: Layout, t: nat)
    requires t < |l.threads| && l.threads[t].hand == []
    ensures var r := Refilled(l, t);
      && r.live == l.live && |r.threads| == |l.threads| && |r.places| == |l.places|
      && (forall u :: 0 <= u < |l.threads| && u != t ==> r.threads[u] == l.threads[u])
      && (l.shared == [] && l.threads[t].cache == [] ==> r.threads[t].cache == [])
  {
  }

  // ---------------------------------------------------------------- thread 1 takes everything

  /** The slots from first on are live, no other; the threads from u on and thread 0 have nothing. */
  ghost predicate Hoarded(l: Layout, u: nat, first: nat)
  {
    && l.shared == [] && |l.threads| > 0 && Empty(l.threads[0])
    && (forall x: nat :: x in l.live <==> first <= x < |l.places|)
    && forall v :: u <= v < |l.threads| ==> Empty(l.threads[v])
  }

  /** Thread 1 has taken i slots, and nobody else anything. */
  predicate Filling(l: Layout, i: nat)
  {
    && |l.threads| >= 2 && |l.live| == i && l.threads[1].hand == []
    && forall u :: 0 <= u < |l.threads| && u != 1 ==> Empty(l.threads[u])
  }

  lemma FillStep(l: Layout, seen: Layout, l': Layout, i: nat, slot: int)
    requires Inv(l) && Filling(l, i) && i < |l.places|
    requires seen == Refilled(l, 1) && Inv(seen) && Allocated(seen, l', 1, slot)
    ensures slot != NIL && Filling(l', i + 1)
  {
    RefillTouchesOnly(l, 1);
    if slot == NIL {
      NothingFreeMeansAllLive(seen);
    } else {
      AllocatedWasFree(seen, l', 1, slot);
    }
  }

  method TakeAll(a: TaskAllocator)
    requires a.Valid() && Filling(a.layout, 0)
    modifies a, a.next, a.heads, a.counts
    ensures a.Valid() && Hoarded(a.layout, 1, 0)
  {
    for i := 0 to a.next.Length
      invariant a.Valid() && Filling(a.layout, i)
    {
      ghost var was := a.layout;
      var slot, seen := a.Alloc(1, {}, true);
      FillStep(was, seen, a.layout, i, slot);
    }
    AllLiveMeansNothingFree(a.layout);
  }

  // ---------------------------------------------------------------- the others free it and keep it

  /** Thread u has freed k slots into its cache. */
  ghost predicate Hoarding(l: Layout, u: nat, first: nat, k: nat)
  {
    && 0 < u < |l.threads| && Hoarded(l, u + 1, first + k)
    && l.threads[u].hand == [] && |l.threads[u].cache| == k
  }

  lemma NextIsLive(l: Layout, u: nat, first: nat, k: nat)
    requires Hoarding(l, u, first, k) && first + k < |l.places|
    ensures u < |l.threads| && l.threads[u].hand == [] && first + k in l.live
  {
  }

  lemma HoardStep(l: Layout, l': Layout, u: nat, first: nat, k: nat)
    requires Hoarding(l, u, first, k) && k < 2 * BATCH && first + k < |l.places|
    requires l' == Freed(l, u, first + k)
    ensures Hoarding(l', u, first, k + 1)
  {
    var put := PutPeeled(l, u, first + k);
    assert put.threads[u].hand == [] && |put.places| == |l.places|;
  }

  lemma HoardEnds(l: Layout, u: nat, first: nat)
    requires Hoarding(l, u, first, 2 * BATCH) && first + 2 * BATCH < |l.places|
    ensures first + 2 * BATCH in l.live
    ensures Hoarded(PutPeeled(l, u, first + 2 * BATCH), u + 1, first + HOARD)
  {
    assert |Put(l, u, first + 2 * BATCH).threads[u].cache| == 2 * BATCH + 1;
  }

  /** Thread u frees one slot into its cache. */
  method HoardOne(a: TaskAllocator, u: nat, first: nat, k: nat)
    requires a.Valid() && Hoarding(a.layout, u, first, k) && k < 2 * BATCH && first + k < a.next.Length
    modifies a, a.next, a.heads, a.counts
    ensures a.Valid() && Hoarding(a.layout, u, first, k + 1)
  {
    ghost var was := a.layout;
    NextIsLive(was, u, first, k);
    a.Free(u, first + k, {}, true);
    HoardStep(was, a.layout, u, first, k);
  }

  /** Thread u puts one slot too many and peels, and goes no further. */
  method HoardLast(a: TaskAllocator, u: nat, first: nat)
    requires a.Valid() && Hoarding(a.layout, u, first, 2 * BATCH) && first + 2 * BATCH < a.next.Length
    modifies a, a.next, a.heads, a.counts
    ensures a.Valid() && Hoarded(a.layout, u + 1, first + HOARD)
  {
    HoardEnds(a.layout, u, first);
    var batchHead, batchTail := a.PutAndPeel(u, first + 2 * BATCH);
  }

  /** Thread u frees the slots from first on: 2 * BATCH go into its cache, the last one makes it peel. */
  method Hoard(a: TaskAllocator, u: nat, first: nat)
    requires a.Valid() && Hoarding(a.layout, u, first, 0) && first + HOARD <= a.next.Length
    modifies a, a.next, a.heads, a.counts
    ensures a.Valid() && Hoarded(a.layout, u + 1, first + HOARD)
  {
    for k := 0 to 2 * BATCH
      invariant a.Valid() && Hoarding(a.layout, u, first, k)
    {
      HoardOne(a, u, first, k);
    }
    HoardLast(a, u, first);
  }

  lemma NothingLeftToTake(l: Layout, u: nat, slot: int, seen: Layout, l': Layout)
    requires Hoarded(l, u, |l.places|) && seen == Refilled(l, 0) && Allocated(seen, l', 0, slot)
    ensures slot == NIL && |l'.live| == 0
  {
    RefillTouchesOnly(l, 0);
    assert l.live == {};
  }

  method HoardAll(a: TaskAllocator)
    requires a.Valid() && Hoarded(a.layout, 1, 0) && a.next.Length == HOARD * (a.heads.Length - 1)
    modifies a, a.next, a.heads, a.counts
    ensures a.Valid() && Hoarded(a.layout, a.heads.Length, a.next.Length)
  {
    for u := 1 to a.heads.Length
      invariant a.Valid() && Hoarded(a.layout, u, HOARD * (u - 1))
    {
      Hoard(a, u, HOARD * (u - 1));
    }
  }

  /** Thread 0 finds nothing. */
  method Starve(a: TaskAllocator) returns (slot: int)
    requires a.Valid() && Hoarded(a.layout, a.heads.Length, a.next.Length)
    modifies a, a.next, a.heads, a.counts
    ensures a.Valid() && slot == NIL && a.liveCount == 0
  {
    ghost var was, seen := a.layout, a.layout;
    slot, seen := a.Alloc(0, {}, true);
    NothingLeftToTake(was, a.heads.Length, slot, seen, a.layout);
  }

  /** For any number of threads: the last thread is refused with no slot live, which is as low as
      ExhaustionBound allows and below what it allows when no free is half done. */
  method RunsDryWithNothingLive(threads: nat) returns (a: TaskAllocator, slot: int)
    requires threads >= 2
    ensures a.Valid() && a.heads.Length == threads && slot == NIL && a.liveCount == 0
    ensures a.liveCount == a.next.Length - (2 * BATCH + 1) * (threads - 1)
    ensures a.liveCount < a.next.Length - 2 * BATCH * (threads - 1)
  {
    a := new TaskAllocator(HOARD * (threads - 1), threads);
    TakeAll(a);
    HoardAll(a);
    slot := Starve(a);
  }

  // ---------------------------------------------------------------- exactly which states are that dry

  function HalfDoneOf(h: Holding): nat { if Size(h) == HOARD then 1 else 0 }

  /** How many slots more the thread's cache could keep at rest. */
  function RoomOf(h: Holding): nat { if Size(h) < 2 * BATCH then 2 * BATCH - Size(h) else 0 }

  lemma {:induction false} SizesAndRoom(hs: seq<Holding>)
    requires forall u :: 0 <= u < |hs| ==> Bounded(hs[u])
    ensures Sum(hs, Size) + Sum(hs, RoomOf) == 2 * BATCH * |hs| + Sum(hs, HalfDoneOf)
  {
    if hs != [] {
      SizesAndRoom(hs[..|hs| - 1]);
      assert 2 * BATCH * |hs| == 2 * BATCH * (|hs| - 1) + 2 * BATCH;
    }
  }

  /** When thread t is refused, the slots unused are those the other threads hold. There are more than
      2 * BATCH for each exactly if more threads stand between their put and their splice than the other
      caches have room for slots. */
  lemma BelowBoundIff(l: Layout, t: nat)
    requires Inv(l) && t < |l.threads| && Empty(l.threads[t]) && l.shared == []
    ensures |l.live| == |l.places| - Sum(l.threads, Size)
    ensures |l.live| < |l.places| - 2 * BATCH * (|l.threads| - 1) <==>
              Sum(l.threads, HalfDoneOf) > Sum(l.threads, RoomOf) - RoomOf(l.threads[t])
    ensures forall u :: 0 <= u < |l.threads| && HalfDoneOf(l.threads[u]) == 1 ==> u != t && l.threads[u].hand != []
  {
    SizesAndRoom(l.threads);
    assert 2 * BATCH * |l.threads| == 2 * BATCH * (|l.threads| - 1) + 2 * BATCH;
    assert forall u :: 0 <= u < |l.threads| ==> Bounded(l.threads[u]);
  }

  lemma {:induction false} MostIffAll(hs: seq<Holding>, t: nat, most: nat)
    requires t < |hs| && Size(hs[t]) == 0 && forall u :: 0 <= u < |hs| ==> Size(hs[u]) <= most
    ensures Sum(hs, Size) == most * (|hs| - 1) <==> forall u :: 0 <= u < |hs| && u != t ==> Size(hs[u]) == most
  {
    var m := |hs| - 1;
    if t == m {
      AllMostIffAll(hs[..m], most);
    } else {
      MostIffAll(hs[..m], t, most);
      OthersHoldAtMost(hs[..m], t, most);
      assert most * m == most * (m - 1) + most;
    }
  }

  lemma {:induction false} AllMostIffAll(hs: seq<Holding>, most: nat)
    requires forall u :: 0 <= u < |hs| ==> Size(hs[u]) <= most
    ensures Sum(hs, Size) == most * |hs| <==> forall u :: 0 <= u < |hs| ==> Size(hs[u]) == most
  {
    if hs != [] {
      var m := |hs| - 1;
      AllMostIffAll(hs[..m], most);
      AllHoldAtMost(hs[..m], most);
      assert most * |hs| == most * m + most;
    }
  }

  /** The two bounds are met exactly if every other thread holds all it can: at rest, or half done. */
  lemma BoundsAttainedIff(l: Layout, t: nat)
    requires Inv(l) && t < |l.threads| && Empty(l.threads[t]) && l.shared == []
    ensures |l.live| == |l.places| - HOARD * (|l.threads| - 1) <==>
              forall u :: 0 <= u < |l.threads| && u != t ==> Size(l.threads[u]) == HOARD
    ensures (forall u :: 0 <= u < |l.threads| ==> l.threads[u].hand == []) ==>
      (|l.live| == |l.places| - 2 * BATCH * (|l.threads| - 1) <==>
         forall u :: 0 <= u < |l.threads| && u != t ==> Size(l.threads[u]) == 2 * BATCH)
  {
    assert forall u :: 0 <= u < |l.threads| ==> Bounded(l.threads[u]);
    MostIffAll(l.threads, t, HOARD);
    if forall u :: 0 <= u < |l.threads| ==> l.threads[u].hand == [] {
      MostIffAll(l.threads, t, 2 * BATCH);
    }
  }

  /** Below the bound for threads at rest, some other thread is between its put and its splice: it has
      2 * BATCH + 1 slots, some of them in hand. */
  lemma BelowBoundSomeoneIsHalfDone(l: Layout, t: nat) returns (u: nat)
    requires Inv(l) && t < |l.threads| && Empty(l.threads[t]) && l.shared == []
    requires |l.live| < |l.places| - 2 * BATCH * (|l.threads| - 1)
    ensures u < |l.threads| && u != t && l.threads[u].hand != [] && Size(l.threads[u]) == HOARD
  {
    if forall v :: 0 <= v < |l.threads| ==> Size(l.threads[v]) <= 2 * BATCH {
      OthersHoldAtMost(l.threads, t, 2 * BATCH);
    }
    u :| 0 <= u < |l.threads| && Size(l.threads[u]) > 2 * BATCH;
  }
}
