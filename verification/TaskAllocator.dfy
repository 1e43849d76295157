/** The slab allocator: free slots are linked through themselves into one shared chain and one cache
    per thread; batches are spliced between the two. Wherever a call goes from its own cache to the shared
    chain or back, other threads may run: OthersInterfere stands for that, and its callers know only its
    contract. */
module TaskAllocators {
  import opened Sequences
  import opened SlabLayout
  import opened Sums

  const NIL := -1

  /** The links lead through s in order. */
  predicate Segment(next: seq<int>, s: seq<nat>)
  {
    && (forall k :: 0 <= k < |s| ==> s[k] < |next|)
    && forall k :: 0 <= k < |s| - 1 ==> next[s[k]] == s[k + 1]
  }

  /** Following the links from head visits exactly s. */
  predicate Chain(next: seq<int>, head: int, s: seq<nat>)
  {
    Segment(next, s) && if s == [] then head == NIL else head == s[0] && next[s[|s| - 1]] == NIL
  }

  predicate HoldingLinked(next: seq<int>, head: int, count: nat, h: Holding)
  {
    Chain(next, head, h.cache) && count == |h.cache| && Segment(next, h.hand)
  }

  lemma ChainElsewhere(next: seq<int>, head: int, s: seq<nat>, x: nat, v: int)
    requires x < |next| && x !in s
    ensures Segment(next, s) ==> Segment(next[x := v], s)
    ensures Chain(next, head, s) ==> Chain(next[x := v], head, s)
  {
    assert forall k :: 0 <= k < |s| ==> s[k] in s;
  }

  lemma CutChain(next: seq<int>, head: int, s: seq<nat>, n: nat)
    requires Chain(next, head, s) && n <= |s|
    ensures Segment(next, s[..n])
    ensures Chain(next, if n < |s| then s[n] else NIL, s[n..])
  {
    var b := s[n..];
    forall k | 0 <= k < |b| - 1
      ensures next[b[k]] == b[k + 1]
    {
      assert b[k] == s[n + k] && b[k + 1] == s[n + k + 1];
    }
  }

  /** Linking the last slot of a to the head of b joins the two. */
  lemma JoinChains(next: seq<int>, a: seq<nat>, head: int, b: seq<nat>)
    requires a != [] && Segment(next, a) && Chain(next, head, b) && NoRepeats(a)
    requires forall x :: x in a ==> x !in b
    ensures Chain(next[a[|a| - 1] := head], a[0], a + b)
  {
    var n := |a|;
    ChainElsewhere(next, head, b, a[n - 1], head);
    var next', s := next[a[n - 1] := head], a + b;
    forall k | 0 <= k < |s| - 1
      ensures next'[s[k]] == s[k + 1]
    {
      if k >= n {
        assert s[k] == b[k - n] && s[k + 1] == b[k - n + 1];
      }
    }
  }

  /** What a thread with an empty cache does before it takes a slot. */
  function Refilled(l: Layout, t: nat): Layout
    requires t < |l.threads|
  {
    if l.threads[t].cache == [] then Attach(Detach(l, t), t) else l
  }

  /** The result of an allocation on the layout `seen`: a slot that was free and is live now, or nothing
      because there was nothing in the thread's own cache and nothing to refill it with. */
  ghost predicate Allocated(seen: Layout, l': Layout, t: nat, slot: int)
    requires t < |seen.threads|
  {
    if slot == NIL then
      l' == seen && seen.shared == [] && seen.threads[t] == Holding([], [])
    else
      && seen.threads[t].cache != [] && slot == seen.threads[t].cache[0]
      && l' == Take(seen, t)
  }

  function PutPeeled(l: Layout, t: nat, slot: nat): Layout
    requires t < |l.threads|
  {
    var l' := Put(l, t, slot);
    if |l'.threads[t].cache| > 2 * BATCH then Peel(l', t) else l'
  }

  function Freed(l: Layout, t: nat, slot: nat): Layout
    requires t < |l.threads|
  {
    var l' := PutPeeled(l, t, slot);
    if l'.threads[t].hand == [] then l' else Splice(l', t)
  }

  class TaskAllocator {
    const next: array<int>
    const heads: array<int>
    const counts: array<nat>
    var sharedHead: int
    var liveCount: int
    ghost var layout: Layout

    ghost predicate Valid()
      reads this, next, heads, counts
    {
      && next != heads
      && Inv(layout)
      && next.Length == |layout.places|
      && heads.Length == counts.Length == |layout.threads|
      && Chain(next[..], sharedHead, layout.shared)
      && (forall t :: 0 <= t < heads.Length ==> HoldingLinked(next[..], heads[t], counts[t], layout.threads[t]))
      && liveCount == |layout.live|
    }

    constructor (slots: nat, threads: nat)
      ensures Valid() && fresh(next) && fresh(heads) && fresh(counts)
      ensures next.Length == slots && heads.Length == threads
      ensures layout.live == {} && forall t :: 0 <= t < threads ==> layout.threads[t] == Holding([], [])
    {
      next := new int[slots];
      heads := new int[threads](_ => NIL);
      counts := new nat[threads](_ => 0);
      sharedHead := NIL;
      liveCount := 0;
      layout := Layout([], seq(threads, _ => Holding([], [])), {}, seq(slots, _ => Shared));
      new;
      ghost var start := layout;
      for i := 0 to slots
        invariant layout == start.(shared := layout.shared) && liveCount == 0
        invariant |layout.shared| == i && forall k :: 0 <= k < i ==> layout.shared[k] == i - 1 - k
        invariant Chain(next[..], sharedHead, layout.shared)
        invariant forall t :: 0 <= t < threads ==> heads[t] == NIL && counts[t] == 0
      {
        ghost var was := layout.shared;
        ChainElsewhere(next[..], sharedHead, was, i, sharedHead);
        next[i] := sharedHead;
        sharedHead := i;
        layout := start.(shared := [i] + was);
      }
      AllShared(layout, slots);
    }

    /** Under the lock: up to BATCH slots are cut off the shared chain by a walk and one store. */
    method DetachBatch(t: nat) returns (batchHead: int, batchTail: int, moved: nat)
      requires Valid() && t < heads.Length && layout.threads[t] == Holding([], [])
      modifies this`sharedHead, this`layout
      ensures Valid() && layout == Detach(old(layout), t)
      ensures moved == |layout.threads[t].hand|
      ensures moved == 0 <==> batchHead == NIL
      ensures moved == 0 <==> old(layout).shared == []
      ensures moved > 0 ==> batchHead == layout.threads[t].hand[0] && batchTail == layout.threads[t].hand[moved - 1]
    {
      ghost var s := layout.shared;
      batchHead, batchTail, moved := sharedHead, NIL, 0;
      if batchHead == NIL {
        NothingDetached(layout, t);
        return;
      }
      var curr;
      batchTail, curr, moved := WalkBatch(batchHead, s);
      CutChain(next[..], sharedHead, s, moved);
      DetachKeepsInv(layout, t);
      sharedHead := curr;
      layout := Detach(layout, t);
    }

    /** The walk over the first slots of a chain s: the last slot of the batch and the one behind it. */
    method WalkBatch(batchHead: int, ghost s: seq<nat>) returns (batchTail: int, curr: int, moved: nat)
      requires Chain(next[..], batchHead, s) && s != []
      ensures moved == Min(BATCH, |s|) > 0 && batchTail == s[moved - 1]
      ensures curr == if moved < |s| then s[moved] else NIL
    {
      batchTail, curr, moved := NIL, batchHead, 0;
      while curr != NIL && moved < BATCH
        invariant moved <= Min(BATCH, |s|)
        invariant curr == if moved < |s| then s[moved] else NIL
        invariant moved > 0 ==> batchTail == s[moved - 1]
        decreases BATCH - moved
      {
        batchTail := curr;
        curr := next[curr];
        moved := moved + 1;
      }
    }

    /** Local: the batch goes in front of the cache. */
    method AttachBatch(t: nat, batchHead: int, batchTail: int, moved: nat)
      requires Valid() && t < heads.Length && layout.threads[t].cache == []
      requires moved == |layout.threads[t].hand| > 0
      requires batchHead == layout.threads[t].hand[0] && batchTail == layout.threads[t].hand[moved - 1]
      modifies next, heads, counts, this`layout
      ensures Valid() && layout == Attach(old(layout), t)
    {
      ghost var l, h := layout, layout.threads[t];
      forall x | x in h.hand ensures In(l, x, InHand(t)) && x !in h.cache {}
      JoinChains(next[..], h.hand, heads[t], h.cache);
      OthersAreElsewhere(batchTail, InHand(t), heads[t]);
      AttachKeepsInv(l, t);
      next[batchTail] := heads[t];
      heads[t] := batchHead;
      counts[t] := counts[t] + moved;
      layout := Attach(l, t);
    }

    /** Writing the link of a slot leaves every chain it is not on as it was. */
    lemma OthersAreElsewhere(x: int, p: Place, v: int)
      requires Valid() && 0 <= x < next.Length && In(layout, x, p)
      ensures p != Shared ==> Chain(next[..][x := v], sharedHead, layout.shared)
      ensures forall u :: 0 <= u < heads.Length && p != Cached(u) && p != InHand(u) ==>
                HoldingLinked(next[..][x := v], heads[u], counts[u], layout.threads[u])
      ensures forall u :: 0 <= u < heads.Length && p == InHand(u) ==>
                Chain(next[..][x := v], heads[u], layout.threads[u].cache)
      ensures forall u :: 0 <= u < heads.Length && p == Cached(u) ==>
                Segment(next[..][x := v], layout.threads[u].hand)
    {
      if p != Shared {
        assert !In(layout, x, Shared);
        ChainElsewhere(next[..], sharedHead, layout.shared, x, v);
      }
      forall u | 0 <= u < heads.Length
        ensures p != Cached(u) ==> Chain(next[..][x := v], heads[u], layout.threads[u].cache)
        ensures p != InHand(u) ==> Segment(next[..][x := v], layout.threads[u].hand)
      {
        assert HoldingLinked(next[..], heads[u], counts[u], layout.threads[u]);
        assert p != Cached(u) ==> !In(layout, x, Cached(u));
        assert p != InHand(u) ==> !In(layout, x, InHand(u));
        if p != Cached(u) { ChainElsewhere(next[..], heads[u], layout.threads[u].cache, x, v); }
        if p != InHand(u) { ChainElsewhere(next[..], NIL, layout.threads[u].hand, x, v); }
      }
    }

    /** Any number of steps of the threads other than t, none of which frees one of t's slots; none at all
        if t is alone. */
    method OthersInterfere(t: nat, ghost mine: set<nat>, ghost alone: bool)
      requires Valid() && t < heads.Length && mine <= layout.live
      modifies this, next, heads, counts
      ensures Valid() && mine <= layout.live && layout.threads[t] == old(layout).threads[t]
      ensures alone ==> layout == old(layout)
    {
    }

    /** Takes a batch from the shared chain when there is one. */
    method Refill(t: nat, ghost mine: set<nat>, ghost alone: bool)
      requires Valid() && t < heads.Length && layout.threads[t] == Holding([], []) && mine <= layout.live
      modifies this, next, heads, counts
      ensures Valid() && mine <= layout.live && layout.threads[t].hand == []
      ensures layout.threads[t].cache == [] ==> layout.shared == []
      ensures alone ==> layout == Attach(Detach(old(layout), t), t)
    {
      OthersInterfere(t, mine, alone);
      var batchHead, batchTail, moved := DetachBatch(t);
      if batchHead == NIL {
        NothingAttached(layout, t);
        return;
      }
      OthersInterfere(t, mine, alone);
      AttachBatch(t, batchHead, batchTail, moved);
    }

    /** Local: the top of the cache is handed out. */
    method TakeTop(t: nat) returns (slot: int)
      requires Valid() && t < heads.Length && heads[t] != NIL
      modifies this`liveCount, this`layout, heads, counts
      ensures old(layout).threads[t].cache != [] && slot == old(layout).threads[t].cache[0]
      ensures Valid() && layout == Take(old(layout), t)
    {
      ghost var l := layout;
      assert HoldingLinked(next[..], heads[t], counts[t], l.threads[t]);
      slot := heads[t];
      CutChain(next[..], slot, l.threads[t].cache, 1);
      TakeKeepsInv(l, t);
      heads[t] := next[slot];
      counts[t] := counts[t] - 1;
      liveCount := liveCount + 1;
      layout := Take(l, t);
    }

    /** `seen` is the layout at the last access of the call, and `mine` are the slots t already has. */
    method Alloc(t: nat, ghost mine: set<nat>, ghost alone: bool) returns (slot: int, ghost seen: Layout)
      requires Valid() && t < heads.Length && layout.threads[t].hand == [] && mine <= layout.live
      modifies this, next, heads, counts
      ensures Valid() && Inv(seen) && t < |seen.threads| && seen.threads[t].hand == []
      ensures Allocated(seen, layout, t, slot) && mine <= seen.live
      ensures alone ==> seen == Refilled(old(layout), t)
      ensures slot == NIL ==> liveCount >= next.Length - (2 * BATCH + 1) * (heads.Length - 1)
      ensures slot == NIL && (forall u :: 0 <= u < heads.Length ==> layout.threads[u].hand == []) ==>
                liveCount >= next.Length - 2 * BATCH * (heads.Length - 1)
    {
      assert HoldingLinked(next[..], heads[t], counts[t], layout.threads[t]);
      if heads[t] == NIL {
        Refill(t, mine, alone);
      }
      assert HoldingLinked(next[..], heads[t], counts[t], layout.threads[t]);
      seen := layout;
      if heads[t] == NIL {
        ExhaustionBound(layout, t);
        return NIL, seen;
      }
      OthersInterfere(t, mine, alone);
      assert HoldingLinked(next[..], heads[t], counts[t], layout.threads[t]);
      seen := layout;
      slot := TakeTop(t);
    }

    /** Local: the slot goes on top of the cache; when that is more than 2 * BATCH, everything above the
        bottom BATCH slots is peeled off into hand. */
    method PutAndPeel(t: nat, slot: nat) returns (batchHead: int, batchTail: int)
      requires Valid() && t < heads.Length && layout.threads[t].hand == [] && slot in layout.live
      modifies this`liveCount, this`layout, next, heads, counts
      ensures Valid() && layout == PutPeeled(old(layout), t, slot)
      ensures var h := layout.threads[t].hand;
        if h == [] then batchHead == NIL else batchHead == h[0] && batchTail == h[|h| - 1]
    {
      ghost var l := layout;
      assert In(l, slot, Live) && !In(l, slot, Cached(t));
      OthersAreElsewhere(slot, Live, heads[t]);
      PutKeepsInv(l, t, slot);
      JoinChains(next[..], [slot], heads[t], l.threads[t].cache);
      next[slot] := heads[t];
      heads[t] := slot;
      counts[t] := counts[t] + 1;
      liveCount := liveCount - 1;
      layout := Put(l, t, slot);
      batchHead, batchTail := NIL, NIL;
      if counts[t] > 2 * BATCH {
        batchHead, batchTail := PeelExcess(t);
      }
    }

    method PeelExcess(t: nat) returns (batchHead: int, batchTail: int)
      requires t < heads.Length && InvButFull(layout, t) && |layout.threads[t].cache| == 2 * BATCH + 1
      requires next != heads && next.Length == |layout.places| && liveCount == |layout.live|
      requires heads.Length == counts.Length == |layout.threads|
      requires Chain(next[..], sharedHead, layout.shared)
      requires forall u :: 0 <= u < heads.Length ==> HoldingLinked(next[..], heads[u], counts[u], layout.threads[u])
      modifies this`layout, heads, counts
      ensures Valid() && layout == Peel(old(layout), t)
      ensures var h := layout.threads[t].hand; batchHead == h[0] && batchTail == h[|h| - 1]
    {
      ghost var l, c := layout, layout.threads[t].cache;
      assert HoldingLinked(next[..], heads[t], counts[t], l.threads[t]);
      var toMove := counts[t] - BATCH;
      batchHead, batchTail := heads[t], heads[t];
      for i := 1 to toMove
        invariant batchTail == c[i - 1]
      {
        batchTail := next[batchTail];
      }
      CutChain(next[..], heads[t], c, toMove);
      PeelKeepsInv(l, t);
      heads[t] := next[batchTail];
      counts[t] := BATCH;
      layout := Peel(l, t);
    }

    /** Under the lock: the batch in hand goes in front of the shared chain in two writes. */
    method SpliceBatch(t: nat, batchHead: int, batchTail: int)
      requires Valid() && t < heads.Length && layout.threads[t].hand != []
      requires var h := layout.threads[t].hand; batchHead == h[0] && batchTail == h[|h| - 1]
      modifies this`sharedHead, this`layout, next
      ensures Valid() && layout == Splice(old(layout), t)
    {
      ghost var l, h := layout, layout.threads[t];
      forall x | x in h.hand ensures In(l, x, InHand(t)) && x !in l.shared {
        assert In(l, x, InHand(t)) && !In(l, x, Shared);
      }
      JoinChains(next[..], h.hand, sharedHead, l.shared);
      OthersAreElsewhere(batchTail, InHand(t), sharedHead);
      SpliceKeepsInv(l, t);
      next[batchTail] := sharedHead;
      sharedHead := batchHead;
      layout := Splice(l, t);
    }

    method Free(t: nat, slot: nat, ghost mine: set<nat>, ghost alone: bool)
      requires Valid() && t < heads.Length && layout.threads[t].hand == [] && slot in layout.live
      requires mine <= layout.live && slot !in mine
      modifies this, next, heads, counts
      ensures Valid() && layout.threads[t].hand == [] && mine <= layout.live && slot !in layout.live
      ensures layout.threads[t].cache ==
                if |old(layout).threads[t].cache| < 2 * BATCH then [slot] + old(layout).threads[t].cache
                else ([slot] + old(layout).threads[t].cache)[BATCH + 1..]
      ensures |old(layout).threads[t].cache| == 2 * BATCH ==> layout.shared != [] && layout.shared[0] == slot
      ensures alone ==> layout.live == old(layout).live - {slot}
      ensures alone ==> layout == Freed(old(layout), t, slot)
    {
      var batchHead, batchTail := PutAndPeel(t, slot);
      ghost var put := layout;
      if batchHead != NIL {
        OthersInterfere(t, mine, alone);
        SpliceBatch(t, batchHead, batchTail);
      }
      FreedIsNotLive(layout, t, slot, if batchHead == NIL then Cached(t) else Shared);
    }
  }

  lemma FreedIsNotLive(l: Layout, t: nat, slot: nat, p: Place)
    requires Inv(l) && In(l, slot, p) && !p.Live?
    ensures slot !in l.live
  {
    assert !In(l, slot, Live);
  }

  lemma NothingDetached(l: Layout, t: nat)
    requires t < |l.threads| && l.threads[t] == Holding([], []) && l.shared == []
    ensures Detach(l, t) == l
  {
  }

  lemma NothingAttached(l: Layout, t: nat)
    requires t < |l.threads| && l.threads[t].hand == []
    ensures Attach(l, t) == l
  {
    assert Attach(l, t).threads[t] == l.threads[t];
  }

  /** A slot handed out was free until then, on top of the thread's cache, and other threads' slots stay
      where they are. */
  lemma AllocatedWasFree(seen: Layout, l': Layout, t: nat, slot: nat)
    requires Inv(seen) && t < |seen.threads| && Allocated(seen, l', t, slot)
    ensures slot !in seen.live && l'.live == seen.live + {slot} && l'.shared == seen.shared
    ensures seen.threads[t].cache == [slot] + l'.threads[t].cache
    ensures forall u :: 0 <= u < |seen.threads| && u != t ==> l'.threads[u] == seen.threads[u]
  {
    assert In(seen, slot, Cached(t)) && !In(seen, slot, Live);
  }

  /** A freed slot is in the thread's cache or, if that overflowed, on the shared chain; the cache then
      holds BATCH slots. */
  lemma FreedIsBack(l: Layout, t: nat, slot: nat)
    requires Inv(l) && t < |l.threads| && l.threads[t].hand == [] && slot in l.live
    ensures var p := PutPeeled(l, t, slot);
      var l' := if p.threads[t].hand == [] then p else Splice(p, t);
      && l'.live == l.live - {slot}
      && (if |l.threads[t].cache| < 2 * BATCH then slot == l'.threads[t].cache[0] else slot == l'.shared[0])
      && |l'.threads[t].cache| == (if |l.threads[t].cache| < 2 * BATCH then |l.threads[t].cache| + 1 else BATCH)
  {
    assert |Put(l, t, slot).threads[t].cache| == |l.threads[t].cache| + 1;
  }

  lemma AllShared(l: Layout, slots: nat)
    requires l.live == {} && (forall t :: 0 <= t < |l.threads| ==> l.threads[t] == Holding([], []))
    requires |l.shared| == slots && forall k :: 0 <= k < slots ==> l.shared[k] == slots - 1 - k
    requires l.places == seq(slots, _ => Shared)
    ensures Inv(l)
  {
    forall x: nat, p ensures In(l, x, p) <==> x < |l.places| && l.places[x] == p
    {
      if x < slots { assert l.shared[slots - 1 - x] == x; }
    }
    SumOfZeros(l.threads, Size);
  }
}
