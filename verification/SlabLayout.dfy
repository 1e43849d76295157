/** Where the slots of the slab allocator are: the shared chain, each thread's cache and the batch in its
    hands between a locked section and a local one, and the slots handed out. */
module SlabLayout {
  import opened Sequences
  import opened Sums

  const BATCH := 32

  datatype Holding = Holding(cache: seq<nat>, hand: seq<nat>)

  datatype Place = Shared | Cached(t: nat) | InHand(t: nat) | Live

  /** `places` names the one place of every slot. */
  datatype Layout = Layout(shared: seq<nat>, threads: seq<Holding>, live: set<nat>, places: seq<Place>)

  predicate In(l: Layout, x: nat, p: Place)
  {
    match p
    case Shared => x in l.shared
    case Cached(t) => t < |l.threads| && x in l.threads[t].cache
    case InHand(t) => t < |l.threads| && x in l.threads[t].hand
    case Live => x in l.live
  }

  /** Every slot is in exactly one place, and no chain passes through a slot twice. */
  ghost predicate Partitioned(l: Layout)
  {
    && (forall x: nat, p :: In(l, x, p) <==> x < |l.places| && l.places[x] == p)
    && NoRepeats(l.shared)
    && forall t :: 0 <= t < |l.threads| ==> NoRepeats(l.threads[t].cache) && NoRepeats(l.threads[t].hand)
  }

  function Size(h: Holding): nat { |h.cache| + |h.hand| }

  predicate Bounded(h: Holding)
  {
    |h.cache| <= 2 * BATCH && |h.hand| <= BATCH + 1 && Size(h) <= 2 * BATCH + 1
  }

  ghost predicate Inv(l: Layout)
  {
    && Partitioned(l)
    && |l.shared| + Sum(l.threads, Size) + |l.live| == |l.places|
    && forall t :: 0 <= t < |l.threads| ==> Bounded(l.threads[t])
  }

  // ---------------------------------------------------------------- the sections of Alloc and Free

  function Min(a: nat, b: nat): nat { if a < b then a else b }

  function Moved(places: seq<Place>, xs: seq<nat>, p: Place): seq<Place>
  {
    seq(|places|, x requires 0 <= x < |places| => if x in xs then p else places[x])
  }

  /** Under the lock: a batch leaves the shared chain. */
  function Detach(l: Layout, t: nat): Layout
    requires t < |l.threads|
  {
    var n := Min(BATCH, |l.shared|);
    l.(shared := l.shared[n..], threads := l.threads[t := Holding(l.threads[t].cache, l.shared[..n])],
       places := Moved(l.places, l.shared[..n], InHand(t)))
  }

  /** Local: the batch in hand goes on top of the cache. */
  function Attach(l: Layout, t: nat): Layout
    requires t < |l.threads|
  {
    var h := l.threads[t];
    l.(threads := l.threads[t := Holding(h.hand + h.cache, [])], places := Moved(l.places, h.hand, Cached(t)))
  }

  /** Local: the top of the cache is handed out. */
  function Take(l: Layout, t: nat): Layout
    requires t < |l.threads| && l.threads[t].cache != []
  {
    var h := l.threads[t];
    l.(threads := l.threads[t := Holding(h.cache[1..], h.hand)], live := l.live + {h.cache[0]},
       places := Moved(l.places, [h.cache[0]], Live))
  }

  /** Local: a slot comes back on top of the cache. */
  function Put(l: Layout, t: nat, x: nat): Layout
    requires t < |l.threads|
  {
    var h := l.threads[t];
    l.(threads := l.threads[t := Holding([x] + h.cache, h.hand)], live := l.live - {x},
       places := Moved(l.places, [x], Cached(t)))
  }

  /** Local: the cache keeps its bottom BATCH slots, the rest is taken in hand. */
  function Peel(l: Layout, t: nat): Layout
    requires t < |l.threads| && |l.threads[t].cache| >= BATCH
  {
    var h := l.threads[t];
    var n := |h.cache| - BATCH;
    l.(threads := l.threads[t := Holding(h.cache[n..], h.cache[..n])],
       places := Moved(l.places, h.cache[..n], InHand(t)))
  }

  /** Under the lock: the batch in hand goes on top of the shared chain. */
  function Splice(l: Layout, t: nat): Layout
    requires t < |l.threads|
  {
    var h := l.threads[t];
    l.(shared := h.hand + l.shared, threads := l.threads[t := Holding(h.cache, [])],
       places := Moved(l.places, h.hand, Shared))
  }

  // ---------------------------------------------------------------- what every section keeps

  /** Moving slots from one place to another keeps every slot in exactly one place. */
  lemma MoveKeepsPlaces(l: Layout, l': Layout, xs: seq<nat>, p: Place, q: Place)
    requires Partitioned(l) && p != q
    requires forall x :: x in xs ==> In(l, x, p)
    requires l'.places == Moved(l.places, xs, q)
    requires forall x: nat, r :: In(l', x, r) <==> if x in xs then r == q else In(l, x, r)
    ensures forall x: nat, r :: In(l', x, r) <==> x < |l'.places| && l'.places[x] == r
  {
    assert forall x :: x in xs ==> In(l, x, p) && x < |l.places|;
  }

  /** The two ends of a chain without repetition share no slot. */
  lemma CutIsClean(s: seq<nat>, n: nat)
    requires NoRepeats(s) && n <= |s|
    ensures NoRepeats(s[..n]) && NoRepeats(s[n..])
    ensures forall x :: x in s <==> x in s[..n] || x in s[n..]
    ensures forall x :: x in s[..n] ==> x !in s[n..]
  {
    assert s == s[..n] + s[n..];
    var b := s[n..];
    assert forall j :: 0 <= j < |b| ==> b[j] == s[n + j];
  }

  lemma JoinIsDistinct(a: seq<nat>, b: seq<nat>)
    requires NoRepeats(a) && NoRepeats(b) && forall x :: x in a ==> x !in b
    ensures NoRepeats(a + b)
  {
    var s := a + b;
    forall j, k | 0 <= j < k < |s|
      ensures s[j] != s[k]
    {
      assert s[j] == if j < |a| then a[j] else b[j - |a|];
      assert s[k] == if k < |a| then a[k] else b[k - |a|];
      assert j < |a| ==> a[j] in a;
    }
  }

  lemma DetachKeepsInv(l: Layout, t: nat)
    requires Inv(l) && t < |l.threads| && l.threads[t] == Holding([], [])
    ensures Inv(Detach(l, t))
  {
    var l' := Detach(l, t);
    var n := Min(BATCH, |l.shared|);
    var xs := l.shared[..n];
    CutIsClean(l.shared, n);
    forall x | x in xs ensures In(l, x, Shared) {}
    forall x: nat, r ensures In(l', x, r) <==> if x in xs then r == InHand(t) else In(l, x, r)
    {
      if x in xs { assert In(l, x, Shared); }
      assert In(l, x, r) || !In(l, x, r);
    }
    MoveKeepsPlaces(l, l', xs, Shared, InHand(t));
    SumAfter(l.threads, t, l'.threads[t], Size);
  }

  lemma AttachKeepsInv(l: Layout, t: nat)
    requires Inv(l) && t < |l.threads| && l.threads[t].cache == []
    ensures Inv(Attach(l, t))
  {
    var l' := Attach(l, t);
    var xs := l.threads[t].hand;
    forall x | x in xs ensures In(l, x, InHand(t)) {}
    forall x: nat, r ensures In(l', x, r) <==> if x in xs then r == Cached(t) else In(l, x, r)
    {
      if x in xs { assert In(l, x, InHand(t)); }
      assert In(l, x, r) || !In(l, x, r);
    }
    MoveKeepsPlaces(l, l', xs, InHand(t), Cached(t));
    SumAfter(l.threads, t, l'.threads[t], Size);
  }

  lemma TakeKeepsInv(l: Layout, t: nat)
    requires Inv(l) && t < |l.threads| && l.threads[t].cache != []
    ensures Inv(Take(l, t))
    ensures l.threads[t].cache[0] !in l.live
  {
    var l' := Take(l, t);
    var x0 := l.threads[t].cache[0];
    CutIsClean(l.threads[t].cache, 1);
    assert In(l, x0, Cached(t)) && !In(l, x0, Live);
    assert l.threads[t].cache[..1] == [x0];
    forall x: nat, r ensures In(l', x, r) <==> if x in [x0] then r == Live else In(l, x, r)
    {
      assert In(l, x, r) || !In(l, x, r);
    }
    MoveKeepsPlaces(l, l', [x0], Cached(t), Live);
    SumAfter(l.threads, t, l'.threads[t], Size);
  }

  /** Putting may take the cache one past its bound; peeling brings it back. */
  ghost predicate InvButFull(l: Layout, t: nat)
  {
    && Partitioned(l)
    && |l.shared| + Sum(l.threads, Size) + |l.live| == |l.places|
    && t < |l.threads|
    && (forall u :: 0 <= u < |l.threads| && u != t ==> Bounded(l.threads[u]))
    && |l.threads[t].cache| <= 2 * BATCH + 1 && l.threads[t].hand == []
  }

  lemma PutKeepsInv(l: Layout, t: nat, x: nat)
    requires Inv(l) && t < |l.threads| && x in l.live && l.threads[t].hand == []
    ensures InvButFull(Put(l, t, x), t)
  {
    var l' := Put(l, t, x);
    assert In(l, x, Live) && !In(l, x, Cached(t));
    JoinIsDistinct([x], l.threads[t].cache);
    forall y: nat, r ensures In(l', y, r) <==> if y in [x] then r == Cached(t) else In(l, y, r)
    {
      assert In(l, y, r) || !In(l, y, r);
    }
    MoveKeepsPlaces(l, l', [x], Live, Cached(t));
    SumAfter(l.threads, t, l'.threads[t], Size);
  }

  lemma PeelKeepsInv(l: Layout, t: nat)
    requires InvButFull(l, t) && |l.threads[t].cache| > 2 * BATCH
    ensures Inv(Peel(l, t))
  {
    var l' := Peel(l, t);
    var n := |l.threads[t].cache| - BATCH;
    var xs := l.threads[t].cache[..n];
    CutIsClean(l.threads[t].cache, n);
    forall x | x in xs ensures In(l, x, Cached(t)) {}
    forall x: nat, r ensures In(l', x, r) <==> if x in xs then r == InHand(t) else In(l, x, r)
    {
      if x in xs { assert In(l, x, Cached(t)); }
      assert In(l, x, r) || !In(l, x, r);
    }
    MoveKeepsPlaces(l, l', xs, Cached(t), InHand(t));
    SumAfter(l.threads, t, l'.threads[t], Size);
  }

  lemma SpliceKeepsInv(l: Layout, t: nat)
    requires Inv(l) && t < |l.threads|
    ensures Inv(Splice(l, t))
  {
    var l' := Splice(l, t);
    var xs := l.threads[t].hand;
    forall x | x in xs ensures In(l, x, InHand(t)) && !In(l, x, Shared) {
      assert In(l, x, InHand(t));
    }
    JoinIsDistinct(xs, l.shared);
    forall x: nat, r ensures In(l', x, r) <==> if x in xs then r == Shared else In(l, x, r)
    {
      if x in xs { assert In(l, x, InHand(t)); }
      assert In(l, x, r) || !In(l, x, r);
    }
    MoveKeepsPlaces(l, l', xs, InHand(t), Shared);
    SumAfter(l.threads, t, l'.threads[t], Size);
  }

  // ---------------------------------------------------------------- the exhaustion bound

  lemma {:induction false} OthersHoldAtMost(hs: seq<Holding>, t: nat, most: nat)
    requires t < |hs| && Size(hs[t]) == 0 && forall u :: 0 <= u < |hs| ==> Size(hs[u]) <= most
    ensures Sum(hs, Size) <= most * (|hs| - 1)
  {
    var m := |hs| - 1;
    if t == m {
      AllHoldAtMost(hs[..m], most);
    } else {
      OthersHoldAtMost(hs[..m], t, most);
      assert most * m == most * (m - 1) + most;
    }
  }

  lemma {:induction false} AllHoldAtMost(hs: seq<Holding>, most: nat)
    requires forall u :: 0 <= u < |hs| ==> Size(hs[u]) <= most
    ensures Sum(hs, Size) <= most * |hs|
  {
    if hs != [] {
      AllHoldAtMost(hs[..|hs| - 1], most);
      assert most * |hs| == most * (|hs| - 1) + most;
    }
  }

  /** A thread that finds nothing in its cache or on the shared chain leaves at most the other threads'
      caches unused: 2 * BATCH slots each, and one more for each that is between a put and its splice. */
  lemma ExhaustionBound(l: Layout, t: nat)
    requires Inv(l) && t < |l.threads| && l.threads[t] == Holding([], []) && l.shared == []
    ensures |l.live| >= |l.places| - (2 * BATCH + 1) * (|l.threads| - 1)
    ensures (forall u :: 0 <= u < |l.threads| ==> l.threads[u].hand == []) ==>
              |l.live| >= |l.places| - 2 * BATCH * (|l.threads| - 1)
  {
    OthersHoldAtMost(l.threads, t, 2 * BATCH + 1);
    if forall u :: 0 <= u < |l.threads| ==> l.threads[u].hand == [] {
      OthersHoldAtMost(l.threads, t, 2 * BATCH);
    }
  }
}
