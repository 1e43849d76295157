/** The reference-counted free list of the vendored queue, one action per atomic access. A node's word
    holds a reference count and the should-be-on-freelist bit. */
module FreeListProtocol {
  import opened Options
  import opened Sums
  import Runs

  type Node = nat

  datatype Refs = Refs(count: nat, flag: bool)

  /** What a thread does after it has put a node on the list (or left that to another thread). */
  datatype Then = Finish | Retry(head: Option<Node>)

  datatype Thread =
    | Idle
    | AddLoading(n: Node, k: Then)                      // count is zero: head to be loaded
    | AddLinking(n: Node, head: Option<Node>, k: Then)     // next to be written
    | AddArming(n: Node, head: Option<Node>, k: Then)      // refs to be set to 1
    | AddSwapping(n: Node, head: Option<Node>, k: Then)    // head to be compared and swapped
    | AddFailing(n: Node, head: Option<Node>, k: Then)     // swap failed, saw head h
    | GetLoading                                        // head to be loaded
    | GetLooking(h: Node)                               // refs of h to be loaded
    | GetRefing(h: Node, seen: Refs)                    // refs to be incremented by compare and swap
    | GetHolding(h: Node)                               // reference held, next to be loaded
    | GetSwapping(h: Node, next: Option<Node>)          // head to be compared and swapped
    | GetTaking(h: Node)                                // node is off the list, two references to drop
    | GetDropping(h: Node, head: Option<Node>)          // swap failed, reference to be dropped

  /** Where a node is: with a client, waiting for its last reference to go, being put on the list by
      thread i (before and after its count is set to 1), on the list, or just taken by thread i. */
  datatype Place = Out | Waiting | Adding(i: nat) | Publishing(i: nat) | Listed | Taken(i: nat)

  /** `list` are the nodes from head on; adds and gets count finished hand-overs per node. */
  datatype State = State(
    head: Option<Node>, next: seq<Option<Node>>, refs: seq<Refs>, threads: seq<Thread>,
    list: seq<Node>, place: seq<Place>, adds: seq<nat>, gets: seq<nat>)

  datatype Action =
    | Add(i: nat, n: Node)       // a client gives n back: its bit is set
    | BeginGet(i: nat)
    | Step(i: nat)               // the thread's next access

  predicate Enabled(s: State, a: Action)
  {
    match a
    case Add(i, n) => i < |s.threads| && s.threads[i].Idle? && n < |s.place| && n < |s.refs| && n < |s.adds| && s.place[n].Out?
    case BeginGet(i) => i < |s.threads| && s.threads[i].Idle?
    case Step(i) =>
      i < |s.threads| && !s.threads[i].Idle? && (Target(s.threads[i]).Some? ==> Known(s, Target(s.threads[i]).value))
  }

  predicate Known(s: State, n: Node)
  {
    n < |s.next| && n < |s.refs| && n < |s.place| && n < |s.gets|
  }

  /** The node a thread is about to access. */
  function Target(t: Thread): Option<Node>
  {
    match t
    case Idle => None
    case GetLoading => None
    case AddLoading(n, _) => Some(n)
    case AddLinking(n, _, _) => Some(n)
    case AddArming(n, _, _) => Some(n)
    case AddSwapping(n, _, _) => Some(n)
    case AddFailing(n, _, _) => Some(n)
    case GetLooking(h) => Some(h)
    case GetRefing(h, _) => Some(h)
    case GetHolding(h) => Some(h)
    case GetSwapping(h, _) => Some(h)
    case GetTaking(h) => Some(h)
    case GetDropping(h, _) => Some(h)
  }

  function Continue(k: Then): Thread
  {
    match k
    case Finish => Idle
    case Retry(head) => if head.Some? then GetLooking(head.value) else Idle
  }

  function Minus(c: nat, d: nat): nat
  {
    if c >= d then c - d else 0
  }

  function Go(s: State, i: nat, t: Thread): State
    requires i < |s.threads|
  {
    s.(threads := s.threads[i := t])
  }

  function Apply(s: State, a: Action): State
    requires Enabled(s, a)
  {
    match a
    case Add(i, n) =>
      var last := s.refs[n].count == 0;
      s.(refs := s.refs[n := Refs(s.refs[n].count, true)], adds := s.adds[n := s.adds[n] + 1],
         place := s.place[n := if last then Adding(i) else Waiting],
         threads := s.threads[i := if last then AddLoading(n, Finish) else Idle])
    case BeginGet(i) => Go(s, i, GetLoading)
    case Step(i) => if AddsNode(s.threads[i]) then AddStep(s, i, s.threads[i]) else GetStep(s, i, s.threads[i])
  }

  predicate AddsNode(t: Thread)
  {
    t.AddLoading? || t.AddLinking? || t.AddArming? || t.AddSwapping? || t.AddFailing?
  }

  function AddStep(s: State, i: nat, t: Thread): State
    requires i < |s.threads| && AddsNode(t) && Known(s, t.n)
  {
    var n := t.n;
    match t
    case AddLoading(_, k) => Go(s, i, AddLinking(n, s.head, k))
    case AddLinking(_, h, k) => Go(s.(next := s.next[n := h]), i, AddArming(n, h, k))
    case AddArming(_, h, k) =>
      Go(s.(refs := s.refs[n := Refs(1, false)], place := s.place[n := Publishing(i)]), i, AddSwapping(n, h, k))
    case AddSwapping(_, h, k) =>
      if s.head == h
      then Go(s.(head := Some(n), list := [n] + s.list, place := s.place[n := Listed]), i, Continue(k))
      else Go(s, i, AddFailing(n, s.head, k))
    case AddFailing(_, h, k) =>
      var c := s.refs[n].count;
      var s' := s.(refs := s.refs[n := Refs(Minus(c, 1), true)]);
      if c == 1 then Go(s'.(place := s.place[n := Adding(i)]), i, AddLinking(n, h, k))
      else Go(s'.(place := s.place[n := Waiting]), i, Continue(k))
  }

  function GetStep(s: State, i: nat, t: Thread): State
    requires i < |s.threads| && !AddsNode(t) && !t.Idle? && (Target(t).Some? ==> Known(s, Target(t).value))
  {
    match t
    case GetLoading => Go(s, i, if s.head.Some? then GetLooking(s.head.value) else Idle)
    case GetLooking(h) => Go(s, i, if s.refs[h].count == 0 then GetLoading else GetRefing(h, s.refs[h]))
    case GetRefing(h, seen) =>
      if s.refs[h] == seen
      then Go(s.(refs := s.refs[h := Refs(seen.count + 1, seen.flag)]), i, GetHolding(h))
      else Go(s, i, GetLoading)
    case GetHolding(h) => Go(s, i, GetSwapping(h, s.next[h]))
    case GetSwapping(h, next) =>
      if s.head == Some(h)
      then Go(s.(head := next, list := if s.list == [] then [] else s.list[1..], place := s.place[h := Taken(i)]), i, GetTaking(h))
      else Go(s, i, GetDropping(h, s.head))
    case GetTaking(h) =>
      Go(s.(refs := s.refs[h := Refs(Minus(s.refs[h].count, 2), s.refs[h].flag)],
            place := s.place[h := Out], gets := s.gets[h := s.gets[h] + 1]), i, Idle)
    case GetDropping(h, head) =>
      var was := s.refs[h];
      var s' := s.(refs := s.refs[h := Refs(Minus(was.count, 1), was.flag)]);
      if was == Refs(1, true) then Go(s'.(place := s.place[h := Adding(i)]), i, AddLoading(h, Retry(head)))
      else Go(s', i, Continue(Retry(head)))
    case _ => s
  }

  ghost predicate Next(s: State, a: Action, s': State)
  {
    Enabled(s, a) && s' == Apply(s, a)
  }

  /** All nodes start with clients. */
  ghost predicate Init(s: State)
  {
    && s.head == None && s.list == []
    && |s.next| == |s.refs| == |s.place| == |s.adds| == |s.gets|
    && (forall n :: 0 <= n < |s.refs| ==>
          s.refs[n] == Refs(0, false) && s.place[n] == Out && s.adds[n] == 0 && s.gets[n] == 0)
    && forall i :: 0 <= i < |s.threads| ==> s.threads[i] == Idle
  }

  // ---------------------------------------------------------------- references held by threads

  /** How many references to n the thread holds by itself. */
  function Holds(t: Thread, n: Node): nat
  {
    if (t.GetHolding? || t.GetSwapping? || t.GetTaking? || t.GetDropping?) && t.h == n then 1 else 0
  }

  function HeldBy(n: Node): Thread -> nat
  {
    t => Holds(t, n)
  }

  function Holders(threads: seq<Thread>, n: Node): nat
  {
    Sum(threads, HeldBy(n))
  }

  // ---------------------------------------------------------------- the invariant

  /** The list's own reference. */
  function ListRef(p: Place): nat
  {
    if p.Publishing? || p.Listed? || p.Taken? then 1 else 0
  }

  predicate NodeOk(n: Node, refs: Refs, p: Place, holders: nat, adds: nat, gets: nat)
  {
    && refs.count == holders + ListRef(p)
    && (refs.flag <==> p.Waiting? || p.Adding?)
    && (p.Waiting? ==> holders > 0)
    && (p.Adding? ==> holders == 0)
    && adds == gets + (if p.Out? then 0 else 1)
  }

  predicate ThreadOk(i: nat, t: Thread, next: seq<Option<Node>>, place: seq<Place>)
  {
    (Target(t).Some? ==> Target(t).value < |place| && |next| == |place|) &&
    match t
    case AddLoading(n, k) => place[n] == Adding(i)
    case AddLinking(n, h, k) => place[n] == Adding(i)
    case AddArming(n, h, k) => place[n] == Adding(i) && next[n] == h
    case AddSwapping(n, h, k) => place[n] == Publishing(i) && next[n] == h
    case AddFailing(n, h, k) => place[n] == Publishing(i)
    case GetRefing(h, seen) => seen.count > 0
    case GetSwapping(h, nx) => nx == next[h]
    case GetTaking(h) => place[h] == Taken(i)
    case _ => true
  }

  /** The heads remembered for later are real nodes. */
  predicate HeadsKnown(t: Thread, size: nat)
  {
    match t
    case AddLoading(_, k) => ThenKnown(k, size)
    case AddLinking(_, h, k) => ThenKnown(k, size) && (h.Some? ==> h.value < size)
    case AddArming(_, h, k) => ThenKnown(k, size) && (h.Some? ==> h.value < size)
    case AddSwapping(_, h, k) => ThenKnown(k, size) && (h.Some? ==> h.value < size)
    case AddFailing(_, h, k) => ThenKnown(k, size) && (h.Some? ==> h.value < size)
    case GetDropping(_, h) => h.Some? ==> h.value < size
    case _ => true
  }

  predicate ThenKnown(k: Then, size: nat)
  {
    k.Retry? && k.head.Some? ==> k.head.value < size
  }

  /** Only the thread a place names is at work on the node. */
  predicate PlaceHasThread(n: Node, p: Place, threads: seq<Thread>)
  {
    match p
    case Adding(i) => i < |threads| && AddsNode(threads[i]) && threads[i].n == n
    case Publishing(i) => i < |threads| && AddsNode(threads[i]) && threads[i].n == n
    case Taken(i) => i < |threads| && threads[i] == GetTaking(n)
    case _ => true
  }

  /** The next fields lead through the list. */
  predicate Chained(next: seq<Option<Node>>, list: seq<Node>)
  {
    && (forall k :: 0 <= k < |list| ==> list[k] < |next|)
    && (forall k :: 0 <= k < |list| - 1 ==> next[list[k]] == Some(list[k + 1]))
    && (list != [] ==> next[list[|list| - 1]] == None)
  }

  predicate ListOk(head: Option<Node>, next: seq<Option<Node>>, list: seq<Node>, place: seq<Place>)
  {
    && (forall k :: 0 <= k < |list| ==> list[k] < |next| && list[k] < |place| && place[list[k]].Listed?)
    && (forall j, k :: 0 <= j < k < |list| ==> list[j] != list[k])
    && (forall n :: 0 <= n < |place| && place[n].Listed? ==> n in list)
    && head == (if list == [] then None else Some(list[0]))
    && Chained(next, list)
  }

  predicate NodesOk(s: State)
  {
    && |s.next| == |s.refs| == |s.place| == |s.adds| == |s.gets|
    && forall n :: 0 <= n < |s.refs| ==>
         NodeOk(n, s.refs[n], s.place[n], Holders(s.threads, n), s.adds[n], s.gets[n])
  }

  predicate ThreadsOk(threads: seq<Thread>, next: seq<Option<Node>>, place: seq<Place>)
  {
    forall i :: 0 <= i < |threads| ==> ThreadOk(i, threads[i], next, place) && HeadsKnown(threads[i], |place|)
  }

  predicate PlacesOk(place: seq<Place>, threads: seq<Thread>)
  {
    forall n :: 0 <= n < |place| ==> PlaceHasThread(n, place[n], threads)
  }

  ghost predicate Inv(s: State)
  {
    NodesOk(s) && ThreadsOk(s.threads, s.next, s.place) && PlacesOk(s.place, s.threads)
    && ListOk(s.head, s.next, s.list, s.place)
  }

  // ---------------------------------------------------------------- every action keeps it

  /** s' differs from s in thread i and in what concerns node n. */
  ghost predicate Local(s: State, s': State, i: nat, n: Node)
  {
    && i < |s.threads| && |s'.threads| == |s.threads| && s'.threads == s.threads[i := s'.threads[i]]
    && n < |s.place| == |s.next| == |s.refs| == |s.adds| == |s.gets|
    && |s'.place| == |s.place| && s'.place == s.place[n := s'.place[n]]
    && |s'.next| == |s.next| && s'.next == s.next[n := s'.next[n]]
    && |s'.refs| == |s.refs| && s'.refs == s.refs[n := s'.refs[n]]
    && |s'.adds| == |s.adds| && s'.adds == s.adds[n := s'.adds[n]]
    && |s'.gets| == |s.gets| && s'.gets == s.gets[n := s'.gets[n]]
    && (s.threads[i].Idle? || s.threads[i].GetLoading? || Target(s.threads[i]) == Some(n))
    && (forall m :: m != n ==> Holds(s'.threads[i], m) == 0)
  }

  /** The node's own bookkeeping is enough: the other nodes do not notice. */
  lemma NodesStay(s: State, s': State, i: nat, n: Node)
    requires Inv(s) && Local(s, s', i, n)
    requires var holders := Holders(s.threads, n) - Holds(s.threads[i], n) + Holds(s'.threads[i], n);
      holders >= 0 && NodeOk(n, s'.refs[n], s'.place[n], holders, s'.adds[n], s'.gets[n])
    ensures NodesOk(s')
  {
    forall m | 0 <= m < |s.refs|
      ensures NodeOk(m, s'.refs[m], s'.place[m], Holders(s'.threads, m), s'.adds[m], s'.gets[m])
    {
      SumAfter(s.threads, i, s'.threads[i], HeldBy(m));
      assert NodeOk(m, s.refs[m], s.place[m], Holders(s.threads, m), s.adds[m], s.gets[m]);
    }
  }

  /** The place of n names a thread other than i. */
  predicate NamesOther(p: Place, i: nat)
  {
    (p.Adding? || p.Publishing? || p.Taken?) && p.i != i
  }

  lemma ThreadsStay(s: State, s': State, i: nat, n: Node)
    requires Inv(s) && Local(s, s', i, n)
    requires ThreadOk(i, s'.threads[i], s'.next, s'.place) && HeadsKnown(s'.threads[i], |s.place|)
    requires s'.place[n] != s.place[n] ==> !NamesOther(s.place[n], i)
    requires s'.next[n] != s.next[n] ==> Holders(s.threads, n) == 0 && s.place[n] == Adding(i)
    ensures ThreadsOk(s'.threads, s'.next, s'.place)
  {
    forall j | 0 <= j < |s.threads| && j != i
      ensures ThreadOk(j, s.threads[j], s'.next, s'.place)
    {
      assert ThreadOk(j, s.threads[j], s.next, s.place);
      WeightWithinSum(s.threads, j, HeldBy(n));
    }
  }

  lemma PlacesStay(s: State, s': State, i: nat, n: Node)
    requires Inv(s) && Local(s, s', i, n)
    requires PlaceHasThread(n, s'.place[n], s'.threads)
    ensures PlacesOk(s'.place, s'.threads)
  {
    forall m | 0 <= m < |s.place| && m != n
      ensures PlaceHasThread(m, s.place[m], s'.threads)
    {
      assert PlaceHasThread(m, s.place[m], s.threads);
    }
  }

  /** Nodes that do not enter or leave the list leave it in order, whatever their next fields. */
  lemma ListStays(s: State, s': State, n: Node)
    requires Inv(s) && n < |s.place| && s'.head == s.head && s'.list == s.list
    requires |s'.place| == |s.place| && s'.place == s.place[n := s'.place[n]]
    requires |s'.next| == |s.next| && s'.next == s.next[n := s'.next[n]]
    requires (s'.place[n].Listed? <==> s.place[n].Listed?) && (s.place[n].Listed? ==> s'.next[n] == s.next[n])
    ensures ListOk(s'.head, s'.next, s'.list, s'.place)
  {
    assert forall k :: 0 <= k < |s.list| ==> s.place[s.list[k]].Listed?;
  }

  /** What a step on node n that leaves the list alone must respect. */
  ghost predicate Respects(s: State, s': State, i: nat, n: Node)
  {
    && Local(s, s', i, n)
    && (var holders := Holders(s.threads, n) - Holds(s.threads[i], n) + Holds(s'.threads[i], n);
        holders >= 0 && NodeOk(n, s'.refs[n], s'.place[n], holders, s'.adds[n], s'.gets[n]))
    && ThreadOk(i, s'.threads[i], s'.next, s'.place) && HeadsKnown(s'.threads[i], |s.place|)
    && (s'.place[n] != s.place[n] ==> !NamesOther(s.place[n], i))
    && (s'.next[n] != s.next[n] ==> Holders(s.threads, n) == 0 && s.place[n] == Adding(i))
    && PlaceHasThread(n, s'.place[n], s'.threads)
  }

  lemma QuietKeepsInv(s: State, s': State, i: nat, n: Node)
    requires Inv(s) && Respects(s, s', i, n) && s'.head == s.head && s'.list == s.list
    requires s'.place[n].Listed? <==> s.place[n].Listed?
    ensures Inv(s')
  {
    NodesStay(s, s', i, n);
    ThreadsStay(s, s', i, n);
    PlacesStay(s, s', i, n);
    ListStays(s, s', n);
  }

  /** A step that puts n on the list or takes it off. */
  lemma ListedKeepsInv(s: State, s': State, i: nat, n: Node)
    requires Inv(s) && Respects(s, s', i, n) && ListOk(s'.head, s'.next, s'.list, s'.place)
    ensures Inv(s')
  {
    NodesStay(s, s', i, n);
    ThreadsStay(s, s', i, n);
    PlacesStay(s, s', i, n);
  }

  /** What the invariant says of a thread and the node n it is about to access. */
  ghost predicate Facts(s: State, i: nat, n: Node)
  {
    && i < |s.threads| && n < |s.place| == |s.next| == |s.refs| == |s.adds| == |s.gets|
    && Target(s.threads[i]) == Some(n)
    && ThreadOk(i, s.threads[i], s.next, s.place) && HeadsKnown(s.threads[i], |s.place|)
    && Holds(s.threads[i], n) <= Holders(s.threads, n)
    && NodeOk(n, s.refs[n], s.place[n], Holders(s.threads, n), s.adds[n], s.gets[n])
    && PlaceHasThread(n, s.place[n], s.threads)
    && (s.head.Some? ==> s.head.value < |s.place|)
  }

  lemma ThreadFacts(s: State, i: nat)
    requires Inv(s) && i < |s.threads| && Target(s.threads[i]).Some?
    ensures Facts(s, i, Target(s.threads[i]).value)
  {
    WeightWithinSum(s.threads, i, HeldBy(Target(s.threads[i]).value));
    if s.head.Some? { assert s.list[0] < |s.place|; }
  }

  lemma AddKeepsInv(s: State, i: nat, n: Node)
    requires Inv(s) && Enabled(s, Add(i, n))
    ensures Inv(Apply(s, Add(i, n)))
  {
    var s' := Apply(s, Add(i, n));
    assert NodeOk(n, s.refs[n], s.place[n], Holders(s.threads, n), s.adds[n], s.gets[n]);
    QuietKeepsInv(s, s', i, n);
  }

  lemma AddStepRespects(s: State, i: nat, n: Node)
    requires Facts(s, i, n) && Enabled(s, Step(i)) && (s.threads[i].AddLoading? || s.threads[i].AddLinking?)
    ensures Respects(s, Apply(s, Step(i)), i, n)
  {
  }

  lemma ArmRespects(s: State, i: nat, n: Node)
    requires Facts(s, i, n) && Enabled(s, Step(i)) && (s.threads[i].AddArming? || s.threads[i].AddFailing?)
    ensures Respects(s, Apply(s, Step(i)), i, n)
  {
  }

  lemma PublishRespects(s: State, i: nat, n: Node)
    requires Facts(s, i, n) && Enabled(s, Step(i)) && s.threads[i].AddSwapping?
    ensures Respects(s, Apply(s, Step(i)), i, n)
  {
  }

  lemma GetStepRespects(s: State, i: nat, n: Node)
    requires Facts(s, i, n) && Enabled(s, Step(i))
    requires s.threads[i].GetLooking? || s.threads[i].GetHolding? || s.threads[i].GetRefing?
    ensures Respects(s, Apply(s, Step(i)), i, n)
  {
  }

  lemma GetEndRespects(s: State, i: nat, n: Node)
    requires Facts(s, i, n) && Enabled(s, Step(i))
    requires s.threads[i].GetTaking? || s.threads[i].GetDropping?
    ensures Respects(s, Apply(s, Step(i)), i, n)
  {
  }

  lemma TakeRespects(s: State, i: nat, n: Node)
    requires Facts(s, i, n) && Enabled(s, Step(i)) && s.threads[i].GetSwapping?
    requires s.head == Some(n) ==> s.place[n].Listed?
    ensures Respects(s, Apply(s, Step(i)), i, n)
  {
  }

  /** A step that leaves the list alone. */
  lemma QuietStepKeepsInv(s: State, i: nat)
    requires Inv(s) && Enabled(s, Step(i)) && Target(s.threads[i]).Some?
    requires !s.threads[i].AddSwapping? && !s.threads[i].GetSwapping?
    ensures Inv(Apply(s, Step(i)))
  {
    var t, n := s.threads[i], Target(s.threads[i]).value;
    ThreadFacts(s, i);
    if t.AddLoading? || t.AddLinking? {
      AddStepRespects(s, i, n);
    } else if t.AddArming? || t.AddFailing? {
      ArmRespects(s, i, n);
    } else if t.GetTaking? || t.GetDropping? {
      GetEndRespects(s, i, n);
    } else {
      GetStepRespects(s, i, n);
    }
    QuietKeepsInv(s, Apply(s, Step(i)), i, n);
  }

  lemma FrontChained(next: seq<Option<Node>>, list: seq<Node>, n: Node)
    requires Chained(next, list) && n < |next| && next[n] == if list == [] then None else Some(list[0])
    ensures Chained(next, [n] + list)
  {
    var list' := [n] + list;
    forall k | 0 <= k < |list'|
      ensures list'[k] < |next|
    {
      assert k > 0 ==> list'[k] == list[k - 1];
    }
    forall k | 0 <= k < |list'| - 1
      ensures next[list'[k]] == Some(list'[k + 1])
    {
      if k > 0 { assert list'[k] == list[k - 1] && list'[k + 1] == list[k - 1 + 1]; }
    }
  }

  lemma RestChained(next: seq<Option<Node>>, list: seq<Node>)
    requires Chained(next, list) && list != []
    ensures Chained(next, list[1..]) && next[list[0]] == if |list| > 1 then Some(list[1]) else None
  {
    var list' := list[1..];
    forall k | 0 <= k < |list'| - 1
      ensures next[list'[k]] == Some(list'[k + 1])
    {
      assert list'[k] == list[k + 1] && list'[k + 1] == list[k + 1 + 1];
    }
  }

  /** A node whose next is the head, put in front. */
  lemma FrontJoins(head: Option<Node>, next: seq<Option<Node>>, list: seq<Node>, place: seq<Place>, n: Node)
    requires ListOk(head, next, list, place) && n < |next| == |place| && !place[n].Listed? && next[n] == head
    ensures ListOk(Some(n), next, [n] + list, place[n := Listed])
  {
    FrontChained(next, list, n);
    var list', place' := [n] + list, place[n := Listed];
    forall k | 0 <= k < |list'|
      ensures list'[k] < |next| && place'[list'[k]].Listed?
    {
      if k > 0 { assert list'[k] == list[k - 1] && place[list[k - 1]].Listed?; }
    }
    forall j, k | 0 <= j < k < |list'|
      ensures list'[j] != list'[k]
    {
      assert list'[k] == list[k - 1] && place[list[k - 1]].Listed?;
      if j > 0 { assert list'[j] == list[j - 1] != list[k - 1]; }
    }
    forall m | 0 <= m < |place'| && place'[m].Listed?
      ensures m in list'
    {
      assert m == n || m in list;
    }
  }

  /** The first node, taken off. */
  lemma FrontLeaves(head: Option<Node>, next: seq<Option<Node>>, list: seq<Node>, place: seq<Place>, n: Node, p: Place)
    requires ListOk(head, next, list, place) && head == Some(n) && n < |next| == |place| && !p.Listed?
    ensures list != [] && ListOk(next[n], next, list[1..], place[n := p])
  {
    RestChained(next, list);
    var list' := list[1..];
    assert forall k :: 0 <= k < |list'| ==> list'[k] == list[k + 1] && list[0] != list[k + 1] && place[list[k + 1]].Listed?;
    forall m | 0 <= m < |place| && place[n := p][m].Listed?
      ensures m in list'
    {
      assert m in list && m != list[0];
    }
  }

  lemma PublishKeepsInv(s: State, i: nat)
    requires Inv(s) && Enabled(s, Step(i)) && s.threads[i].AddSwapping?
    ensures Inv(Apply(s, Step(i)))
  {
    var n := s.threads[i].n;
    ThreadFacts(s, i);
    PublishRespects(s, i, n);
    if s.head == s.threads[i].head {
      FrontJoins(s.head, s.next, s.list, s.place, n);
      ListedKeepsInv(s, Apply(s, Step(i)), i, n);
    } else {
      QuietKeepsInv(s, Apply(s, Step(i)), i, n);
    }
  }

  /** The compare and swap of head that takes a node: it is the first of the list, its next is the
      second, and no thread is adding it. */
  lemma TakeKeepsInv(s: State, i: nat)
    requires Inv(s) && Enabled(s, Step(i)) && s.threads[i].GetSwapping?
    ensures Inv(Apply(s, Step(i)))
  {
    var n := s.threads[i].h;
    ThreadFacts(s, i);
    if s.head == Some(n) {
      assert s.place[s.list[0]].Listed?;
      TakeRespects(s, i, n);
      FrontLeaves(s.head, s.next, s.list, s.place, n, Taken(i));
      ListedKeepsInv(s, Apply(s, Step(i)), i, n);
    } else {
      TakeRespects(s, i, n);
      QuietKeepsInv(s, Apply(s, Step(i)), i, n);
    }
  }

  lemma HoldersStay(threads: seq<Thread>, i: nat, t: Thread, n: Node)
    requires i < |threads| && Holds(threads[i], n) == Holds(t, n)
    ensures Holders(threads[i := t], n) == Holders(threads, n)
  {
    SumAfter(threads, i, t, HeldBy(n));
  }

  lemma LoadingKeepsInv(s: State, i: nat, t: Thread)
    requires Inv(s) && i < |s.threads| && (s.threads[i].Idle? || s.threads[i].GetLoading?)
    requires t.Idle? || t.GetLoading? || (t.GetLooking? && t.h < |s.place|)
    ensures Inv(Go(s, i, t))
  {
    var s' := Go(s, i, t);
    forall m | 0 <= m < |s.refs|
      ensures NodeOk(m, s.refs[m], s.place[m], Holders(s'.threads, m), s.adds[m], s.gets[m])
    {
      HoldersStay(s.threads, i, t, m);
    }
    forall m | 0 <= m < |s.place|
      ensures PlaceHasThread(m, s.place[m], s'.threads)
    {
      assert PlaceHasThread(m, s.place[m], s.threads);
    }
  }

  lemma StepKeepsInv(s: State, a: Action)
    requires Inv(s) && Enabled(s, a)
    ensures Inv(Apply(s, a))
  {
    match a
    case Add(i, n) => AddKeepsInv(s, i, n);
    case BeginGet(i) => LoadingKeepsInv(s, i, GetLoading);
    case Step(i) =>
      var t := s.threads[i];
      if t.AddSwapping? {
        PublishKeepsInv(s, i);
      } else if t.GetSwapping? {
        TakeKeepsInv(s, i);
      } else if t.GetLoading? {
        if s.head.Some? { assert s.list[0] < |s.place|; }
        LoadingKeepsInv(s, i, if s.head.Some? then GetLooking(s.head.value) else Idle);
      } else {
        QuietStepKeepsInv(s, i);
      }
  }

  lemma ReachableHoldsInv(s: State)
    requires Runs.Reachable(Init, Next, s)
    ensures Inv(s)
  {
    forall r | Init(r)
      ensures Inv(r)
    {
      forall n ensures Holders(r.threads, n) == 0 { SumOfZeros(r.threads, HeldBy(n)); }
    }
    forall r: State, a, r' | Inv(r) && Next(r, a, r')
      ensures Inv(r')
    {
      StepKeepsInv(r, a);
    }
    Runs.ReachableKeepsInvariant(Init, Next, Inv, s);
  }

  // ---------------------------------------------------------------- no loss, no double hand-out, no ABA

  /** A node is handed out as often as it was given back, or once less: never twice in a row; the list
      holds each node at most once and is what the next fields lead to from the head. */
  lemma NeverHandedOutTwice(s: State, n: Node)
    requires Runs.Reachable(Init, Next, s) && n < |s.place|
    ensures n < |s.adds| && n < |s.gets| && s.gets[n] <= s.adds[n] <= s.gets[n] + 1
    ensures s.adds[n] == s.gets[n] <==> s.place[n].Out?
    ensures ListOk(s.head, s.next, s.list, s.place)
  {
    ReachableHoldsInv(s);
    assert NodeOk(n, s.refs[n], s.place[n], Holders(s.threads, n), s.adds[n], s.gets[n]);
  }

  /** When no thread is at work, every node given back and not taken since is on the list. */
  lemma NothingLostAtRest(s: State, n: Node)
    requires Runs.Reachable(Init, Next, s) && n < |s.place|
    requires forall i :: 0 <= i < |s.threads| ==> s.threads[i].Idle?
    ensures n < |s.adds| && n < |s.gets| && n < |s.refs|
    ensures s.adds[n] == s.gets[n] + (if n in s.list then 1 else 0)
    ensures s.refs[n] == Refs(if n in s.list then 1 else 0, false)
  {
    ReachableHoldsInv(s);
    SumOfZeros(s.threads, HeldBy(n));
    assert NodeOk(n, s.refs[n], s.place[n], Holders(s.threads, n), s.adds[n], s.gets[n]);
    assert PlaceHasThread(n, s.place[n], s.threads);
    assert forall k :: 0 <= k < |s.list| ==> s.place[s.list[k]].Listed?;
  }

  /** While a thread holds its own reference, nobody writes the node's next field, so the compare and
      swap that follows the load installs the true second node. */
  lemma NextStableWhileHeld(s: State, a: Action, i: nat)
    requires Runs.Reachable(Init, Next, s) && Enabled(s, a) && i < |s.threads|
    requires s.threads[i].GetSwapping? && s.threads[i].h < |s.next|
    ensures Apply(s, a).next[s.threads[i].h] == s.next[s.threads[i].h] == s.threads[i].next
    ensures s.head == Some(s.threads[i].h) ==>
      s.threads[i].next == if |s.list| > 1 then Some(s.list[1]) else None
  {
    ReachableHoldsInv(s);
    ThreadFacts(s, i);
    if s.list != [] { assert s.next[s.list[0]] == if |s.list| > 1 then Some(s.list[1]) else None; }
    if a.Step? && s.threads[a.i].AddLinking? { ThreadFacts(s, a.i); }
  }

  /** The assertion in try_get: a node just taken does not have its bit set, nor has one a client gives back. */
  lemma TakenNodeHasClearBit(s: State, n: Node)
    requires Runs.Reachable(Init, Next, s) && n < |s.place| && (s.place[n].Taken? || s.place[n].Out?)
    ensures n < |s.refs| && !s.refs[n].flag && (s.place[n].Taken? ==> s.refs[n].count >= 2)
  {
    ReachableHoldsInv(s);
    assert NodeOk(n, s.refs[n], s.place[n], Holders(s.threads, n), s.adds[n], s.gets[n]);
    assert PlaceHasThread(n, s.place[n], s.threads);
    if s.place[n].Taken? { WeightWithinSum(s.threads, s.place[n].i, HeldBy(n)); }
  }
}
