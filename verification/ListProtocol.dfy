/** The ordered list with marked links: any number of threads add, remove, and walk, one action per atomic
    access. Nodes are never reused, which epochs see to. */
module ListProtocol {
  import Runs
  import opened Options

  const MAX := 0xFFFF_FFFF_FFFF_FFFF
  const HEAD := 0
  const TAIL := 1

  /** Where a node is: in its adder's hands, on the list since `born`, or unlinked since `at`. */
  datatype Place = Private | Linked(born: nat) | Gone(at: nat)

  datatype Node = Node(key: int, next: nat, marked: bool, place: Place)

  datatype Op = Adding(key: int) | Removing(key: int)

  /** `absent` records whether the key was absent when pred was seen to lead to curr. */
  datatype Thread =
    | Idle
    | Start(op: Op)
    | At(op: Op, pred: nat, curr: nat, absent: bool)
    | Snip(op: Op, pred: nat, curr: nat, succ: nat)
    | Insert(key: int, pred: nat, curr: nat, node: nat)
    | Found(key: int, pred: nat, curr: nat)
    | MarkReady(key: int, pred: nat, curr: nat, succ: nat)
    | Unlink(key: int, pred: nat, curr: nat, succ: nat)
    | Walk(since: nat, curr: nat, visited: seq<nat>)
    | WalkSeen(since: nat, curr: nat, visited: seq<nat>, marked: bool)

  /** `single` says that one thread at a time removes. */
  datatype State = State(nodes: seq<Node>, threads: seq<Thread>, now: nat, single: bool, retired: set<nat>)

  datatype Action =
    | Begin(i: nat, op: Op)
    | LoadHead(i: nat)         // find starts over
    | Look(i: nat)             // find loads the link of curr
    | TrySnip(i: nat)          // find unlinks a marked node
    | TryInsert(i: nat)
    | LoadSucc(i: nat)
    | Mark(i: nat)
    | TryUnlink(i: nat)        // whatever its outcome, the node is retired
    | BeginWalk(i: nat)
    | WalkMark(i: nat)         // for_each loads the mark of curr
    | WalkNext(i: nat)         // and then its link

  predicate InRemove(t: Thread)
  {
    match t
    case Start(op) => op.Removing?
    case At(op, _, _, _) => op.Removing?
    case Snip(op, _, _, _) => op.Removing?
    case Found(_, _, _) => true
    case MarkReady(_, _, _, _) => true
    case Unlink(_, _, _, _) => true
    case _ => false
  }

  predicate Enabled(s: State, a: Action)
  {
    a.i < |s.threads| &&
    var t := s.threads[a.i];
    match a
    case Begin(_, op) =>
      t.Idle? && 0 <= op.key < MAX &&
      (s.single && op.Removing? ==> forall j :: 0 <= j < |s.threads| ==> !InRemove(s.threads[j]))
    case LoadHead(_) => t.Start?
    case Look(_) => t.At?
    case TrySnip(_) => t.Snip?
    case TryInsert(_) => t.Insert?
    case LoadSucc(_) => t.Found?
    case Mark(_) => t.MarkReady?
    case TryUnlink(_) => t.Unlink?
    case BeginWalk(_) => t.Idle?
    case WalkMark(_) => t.Walk? && t.curr != TAIL
    case WalkNext(_) => t.WalkSeen?
  }

  predicate IsPresent(n: Node, k: int)
  {
    n.place.Linked? && !n.marked && n.key == k
  }

  /** The set the list stands for. */
  predicate Present(nodes: seq<Node>, k: int)
  {
    exists n :: 2 <= n < |nodes| && IsPresent(nodes[n], k)
  }

  /** compareAndSet(from, to, false, false) on the link of pred would succeed. */
  predicate LinkIs(nodes: seq<Node>, pred: nat, to: nat)
  {
    pred < |nodes| && nodes[pred].next == to && !nodes[pred].marked
  }

  function Linking(nodes: seq<Node>, pred: nat, node: nat, now: nat): seq<Node>
    requires pred < |nodes| && node < |nodes|
  {
    var ns := nodes[node := nodes[node].(place := Linked(now))];
    ns[pred := ns[pred].(next := node)]
  }

  function Unlinking(nodes: seq<Node>, pred: nat, curr: nat, succ: nat, now: nat): seq<Node>
    requires pred < |nodes| && curr < |nodes|
  {
    var ns := nodes[curr := nodes[curr].(place := Gone(now))];
    ns[pred := ns[pred].(next := succ)]
  }

  function AfterFound(s: State, t: Thread, i: nat): State
    requires i < |s.threads| && t.At? && t.curr < |s.nodes|
  {
    var k := s.nodes[t.curr].key;
    match t.op
    case Adding(key) =>
      if k == key then
        s.(threads := s.threads[i := Idle])
      else
        s.(nodes := s.nodes + [Node(key, t.curr, false, Private)],
           threads := s.threads[i := Insert(key, t.pred, t.curr, |s.nodes|)])
    case Removing(key) =>
      if k == key then s.(threads := s.threads[i := Found(key, t.pred, t.curr)]) else s.(threads := s.threads[i := Idle])
  }

  /** What an action does, but for the clock. */
  function Do(s: State, a: Action): State
    requires Enabled(s, a)
    requires forall n :: 0 <= n < |s.nodes| ==> s.nodes[n].next < |s.nodes|
    requires |s.nodes| >= 2 && RefsIn(s.threads[a.i], |s.nodes|)
  {
    var i, t := a.i, s.threads[a.i];
    match a
    case Begin(_, op) => s.(threads := s.threads[i := Start(op)])
    case LoadHead(_) =>
      var curr := s.nodes[HEAD].next;
      s.(threads := s.threads[i := At(t.op, HEAD, curr, !Present(s.nodes, t.op.key))])
    case Look(_) =>
      var n := s.nodes[t.curr];
      if n.marked then
        s.(threads := s.threads[i := Snip(t.op, t.pred, t.curr, n.next)])
      else if n.key < t.op.key then
        s.(threads := s.threads[i := At(t.op, t.curr, n.next, !Present(s.nodes, t.op.key))])
      else
        AfterFound(s, t, i)
    case TrySnip(_) =>
      if LinkIs(s.nodes, t.pred, t.curr) then
        s.(nodes := Unlinking(s.nodes, t.pred, t.curr, t.succ, s.now),
           threads := s.threads[i := At(t.op, t.pred, t.succ, !Present(s.nodes, t.op.key))])
      else
        s.(threads := s.threads[i := Start(t.op)])
    case TryInsert(_) =>
      if LinkIs(s.nodes, t.pred, t.curr) then
        s.(nodes := Linking(s.nodes, t.pred, t.node, s.now),
           threads := s.threads[i := Idle])
      else
        s.(threads := s.threads[i := Start(Adding(t.key))])
    case LoadSucc(_) => s.(threads := s.threads[i := MarkReady(t.key, t.pred, t.curr, s.nodes[t.curr].next)])
    case Mark(_) =>
      if s.nodes[t.curr].next != t.succ then
        s.(threads := s.threads[i := Start(Removing(t.key))])
      else
        s.(nodes := s.nodes[t.curr := s.nodes[t.curr].(marked := true)],
           threads := s.threads[i := Unlink(t.key, t.pred, t.curr, t.succ)])
    case TryUnlink(_) =>
      var r := s.(retired := s.retired + {t.curr}, threads := s.threads[i := Idle]);
      if LinkIs(s.nodes, t.pred, t.curr) then
        r.(nodes := Unlinking(s.nodes, t.pred, t.curr, t.succ, s.now))
      else
        r
    case BeginWalk(_) => s.(threads := s.threads[i := Walk(s.now, s.nodes[HEAD].next, [])])
    case WalkMark(_) => s.(threads := s.threads[i := WalkSeen(t.since, t.curr, t.visited, s.nodes[t.curr].marked)])
    case WalkNext(_) =>
      s.(threads := s.threads[i := Walk(t.since, s.nodes[t.curr].next, if t.marked then t.visited else t.visited + [t.curr])])
  }

  predicate RefsIn(t: Thread, size: nat)
  {
    match t
    case At(_, pred, curr, _) => pred < size && curr < size
    case Snip(_, pred, curr, succ) => pred < size && curr < size && succ < size
    case Insert(_, pred, curr, node) => pred < size && curr < size && node < size
    case Found(_, pred, curr) => pred < size && curr < size
    case MarkReady(_, pred, curr, succ) => pred < size && curr < size && succ < size
    case Unlink(_, pred, curr, succ) => pred < size && curr < size && succ < size
    case Walk(_, curr, _) => curr < size
    case WalkSeen(_, curr, _, _) => curr < size
    case _ => true
  }

  predicate Sized(s: State)
  {
    && |s.nodes| >= 2 && (forall n :: 0 <= n < |s.nodes| ==> s.nodes[n].next < |s.nodes|)
    && forall i :: 0 <= i < |s.threads| ==> RefsIn(s.threads[i], |s.nodes|)
  }

  function Apply(s: State, a: Action): State
    requires Sized(s) && Enabled(s, a)
  {
    Do(s, a).(now := s.now + 1)
  }

  ghost predicate Next(s: State, a: Action, s': State)
  {
    Sized(s) && Enabled(s, a) && s' == Apply(s, a)
  }

  /** An empty list; the modelled operations never read the key of the head. */
  ghost predicate Init(s: State)
  {
    && s.nodes == [Node(-1, TAIL, false, Linked(0)), Node(MAX, TAIL, false, Linked(0))]
    && s.now == 1 && s.retired == {}
    && forall i :: 0 <= i < |s.threads| ==> s.threads[i] == Idle
  }

  // ---------------------------------------------------------------- the invariant of the nodes

  predicate Sentinels(nodes: seq<Node>)
  {
    && |nodes| >= 2 && nodes[HEAD].key == -1 && nodes[TAIL].key == MAX && nodes[TAIL].next == TAIL
    && !nodes[HEAD].marked && !nodes[TAIL].marked && nodes[HEAD].place.Linked? && nodes[TAIL].place.Linked?
    && forall n :: 2 <= n < |nodes| ==> 0 <= nodes[n].key < MAX
  }

  predicate NodeOk(nodes: seq<Node>, n: nat, now: nat)
    requires n < |nodes|
  {
    var x := nodes[n];
    && x.next < |nodes| && !nodes[x.next].place.Private?
    && (n != TAIL ==> x.key < nodes[x.next].key)
    && (x.place.Private? ==> !x.marked)
    && (x.place.Linked? ==> x.place.born < now && nodes[x.next].place.Linked?)
    && (x.place.Gone? ==> x.marked && x.place.at < now)
    && (x.place.Gone? && nodes[x.next].place.Gone? ==> x.place.at <= nodes[x.next].place.at)
  }

  /** x is on the list, and n is too or was when x already was. */
  predicate Meet(n: Node, x: Node)
  {
    x.place.Linked? && (n.place.Linked? || (n.place.Gone? && !x.marked && x.place.born <= n.place.at))
  }

  /** The link of n skips nothing that n has met on the list: links lead from each key to the next. */
  predicate Clean(nodes: seq<Node>, n: nat, x: nat)
    requires n < |nodes| && x < |nodes|
  {
    nodes[n].next < |nodes| && n != TAIL && n != x && Meet(nodes[n], nodes[x]) ==>
      nodes[x].key < nodes[n].key || nodes[nodes[n].next].key <= nodes[x].key
  }

  ghost predicate NodesOk(nodes: seq<Node>, now: nat)
  {
    && Sentinels(nodes)
    && (forall n :: 0 <= n < |nodes| ==> NodeOk(nodes, n, now))
    && forall n, x :: 0 <= n < |nodes| && 0 <= x < |nodes| ==> Clean(nodes, n, x)
  }

  /** Where find may cut in: a published node before key. */
  predicate Before(nodes: seq<Node>, pred: nat, key: int)
  {
    pred < |nodes| && pred != TAIL && !nodes[pred].place.Private? && nodes[pred].key < key
  }

  lemma LinkKeepsNodes(nodes: seq<Node>, now: nat, pred: nat, node: nat)
    requires NodesOk(nodes, now) && node < |nodes| && nodes[node].place.Private?
    requires Before(nodes, pred, nodes[node].key) && LinkIs(nodes, pred, nodes[node].next)
    ensures NodesOk(Linking(nodes, pred, node, now), now + 1)
  {
    var nodes' := Linking(nodes, pred, node, now);
    assert NodeOk(nodes, pred, now) && NodeOk(nodes, node, now);
    var later := now + 1;
    forall n | 0 <= n < |nodes|
      ensures NodeOk(nodes', n, later)
    {
      assert NodeOk(nodes, n, now);
    }
    forall n, x | 0 <= n < |nodes| && 0 <= x < |nodes|
      ensures Clean(nodes', n, x)
    {
      assert NodeOk(nodes, n, now) && Clean(nodes, n, x) && Clean(nodes, pred, x);
      assert Clean(nodes, n, pred) && Clean(nodes, pred, n);
    }
  }

  lemma UnlinkKeepsNodes(nodes: seq<Node>, now: nat, pred: nat, curr: nat)
    requires NodesOk(nodes, now) && curr < |nodes| && curr >= 2 && nodes[curr].marked
    requires pred < |nodes| && pred != TAIL && !nodes[pred].place.Private? && LinkIs(nodes, pred, curr)
    ensures NodesOk(Unlinking(nodes, pred, curr, nodes[curr].next, now), now + 1)
    ensures nodes[curr].place.Linked?
  {
    var succ := nodes[curr].next;
    var nodes' := Unlinking(nodes, pred, curr, succ, now);
    assert NodeOk(nodes, pred, now) && NodeOk(nodes, curr, now);
    var later := now + 1;
    forall n | 0 <= n < |nodes|
      ensures NodeOk(nodes', n, later)
    {
      assert NodeOk(nodes, n, now) && Clean(nodes, n, pred) && Clean(nodes, pred, n);
    }
    forall n, x | 0 <= n < |nodes| && 0 <= x < |nodes|
      ensures Clean(nodes', n, x)
    {
      assert NodeOk(nodes, n, now) && Clean(nodes, n, x) && Clean(nodes, curr, x) && Clean(nodes, pred, x);
    }
  }

  lemma MarkKeepsNodes(nodes: seq<Node>, now: nat, n: nat)
    requires NodesOk(nodes, now) && 2 <= n < |nodes| && !nodes[n].place.Private?
    ensures NodesOk(nodes[n := nodes[n].(marked := true)], now + 1)
  {
    var nodes' := nodes[n := nodes[n].(marked := true)];
    var later := now + 1;
    forall m | 0 <= m < |nodes|
      ensures NodeOk(nodes', m, later)
    {
      assert NodeOk(nodes, m, now);
    }
    forall m, x | 0 <= m < |nodes| && 0 <= x < |nodes|
      ensures Clean(nodes', m, x)
    {
      assert Clean(nodes, m, x) && NodeOk(nodes, m, now);
    }
  }

  lemma AllocKeepsNodes(nodes: seq<Node>, now: nat, key: int, curr: nat)
    requires NodesOk(nodes, now) && 0 <= key < MAX && curr < |nodes|
    requires !nodes[curr].place.Private? && key < nodes[curr].key
    ensures NodesOk(nodes + [Node(key, curr, false, Private)], now + 1)
  {
    var nodes' := nodes + [Node(key, curr, false, Private)];
    var later := now + 1;
    forall m | 0 <= m < |nodes'|
      ensures NodeOk(nodes', m, later)
    {
      if m < |nodes| { assert NodeOk(nodes, m, now); }
    }
    forall m, x | 0 <= m < |nodes'| && 0 <= x < |nodes'|
      ensures Clean(nodes', m, x)
    {
      if m < |nodes| && x < |nodes| { assert Clean(nodes, m, x) && NodeOk(nodes, m, now); }
    }
  }

  // ---------------------------------------------------------------- the invariant of the threads

  predicate Published(nodes: seq<Node>, n: nat)
  {
    n < |nodes| && !nodes[n].place.Private?
  }

  /** n has been on the list at the time `since` or later. */
  predicate Fresh(n: Node, since: nat)
  {
    n.place.Linked? || (n.place.Gone? && since <= n.place.at)
  }

  /** x has been on the list, unmarked, from before `since` until now. */
  predicate Through(x: Node, since: nat)
  {
    x.place.Linked? && !x.marked && x.place.born < since
  }

  predicate WalkOk(nodes: seq<Node>, since: nat, curr: nat, visited: seq<nat>)
  {
    && Published(nodes, curr) && curr != HEAD && Fresh(nodes[curr], since)
    && (forall k :: 0 <= k < |visited| ==> 2 <= visited[k] < |nodes| && nodes[visited[k]].key < nodes[curr].key)
    && (forall j, k :: 0 <= j < k < |visited| ==> nodes[visited[j]].key < nodes[visited[k]].key)
    && forall x :: 2 <= x < |nodes| && Through(nodes[x], since) && nodes[x].key < nodes[curr].key ==> x in visited
  }

  predicate ThreadOk(nodes: seq<Node>, now: nat, single: bool, t: Thread)
  {
    match t
    case Idle => true
    case Start(op) => 0 <= op.key < MAX
    case At(op, pred, curr, absent) =>
      && 0 <= op.key < MAX && Before(nodes, pred, op.key) && Published(nodes, curr)
      && nodes[pred].key < nodes[curr].key && (nodes[curr].key > op.key ==> absent)
    case Snip(op, pred, curr, succ) =>
      && 0 <= op.key < MAX && Before(nodes, pred, op.key) && Published(nodes, curr)
      && curr >= 2 && nodes[curr].marked && nodes[curr].next == succ < |nodes|
    case Insert(key, pred, curr, node) =>
      && 0 <= key < MAX && Before(nodes, pred, key) && Published(nodes, curr) && key < nodes[curr].key
      && 2 <= node < |nodes| && nodes[node] == Node(key, curr, false, Private)
    case Found(key, pred, curr) =>
      && 0 <= key < MAX && Before(nodes, pred, key) && Published(nodes, curr) && nodes[curr].key == key
      && (single ==> !nodes[curr].marked)
    case MarkReady(key, pred, curr, succ) =>
      && 0 <= key < MAX && Before(nodes, pred, key) && Published(nodes, curr) && nodes[curr].key == key
      && succ < |nodes| && (single ==> !nodes[curr].marked)
    case Unlink(key, pred, curr, succ) =>
      && 0 <= key < MAX && Before(nodes, pred, key) && Published(nodes, curr) && nodes[curr].key == key
      && nodes[curr].marked && nodes[curr].next == succ < |nodes|
    case Walk(since, curr, visited) => since <= now && WalkOk(nodes, since, curr, visited)
    case WalkSeen(since, curr, visited, marked) =>
      since <= now && WalkOk(nodes, since, curr, visited) && curr != TAIL && (marked ==> nodes[curr].marked)
  }

  predicate Apart(t: Thread, u: Thread)
  {
    t.Insert? && u.Insert? ==> t.node != u.node
  }

  ghost predicate Inv(s: State)
  {
    && NodesOk(s.nodes, s.now)
    && (forall i :: 0 <= i < |s.threads| ==> ThreadOk(s.nodes, s.now, s.single, s.threads[i]))
    && (forall i, j :: 0 <= i < |s.threads| && 0 <= j < |s.threads| && i != j ==> Apart(s.threads[i], s.threads[j]))
    && Exclusive(s)
    && forall n :: n in s.retired ==> 2 <= n < |s.nodes| && s.nodes[n].marked
  }

  predicate Exclusive(s: State)
  {
    s.single ==> forall i, j :: 0 <= i < |s.threads| && 0 <= j < |s.threads| && i != j ==>
      !InRemove(s.threads[i]) || !InRemove(s.threads[j])
  }

  // ---------------------------------------------------------------- what a step means for other threads

  /** Keys never change, marks stay and freeze the link, and a private node is its owner's, `own`, to publish. */
  predicate NodeEvolves(n: Node, n': Node, now: nat, own: bool)
  {
    && n'.key == n.key && (n.marked ==> n'.marked && n'.next == n.next)
    && match n.place
       case Private => n' == n || (own && n'.place == Linked(now))
       case Linked(_) => n'.place == n.place || n'.place == Gone(now)
       case Gone(_) => n'.place == n.place
  }

  /** New nodes are private. */
  ghost predicate Evolves(nodes: seq<Node>, nodes': seq<Node>, now: nat, own: nat)
  {
    && |nodes| <= |nodes'|
    && (forall n :: 0 <= n < |nodes| ==> NodeEvolves(nodes[n], nodes'[n], now, n == own))
    && forall n :: |nodes| <= n < |nodes'| ==> nodes'[n].place.Private?
  }

  lemma WalkStays(nodes: seq<Node>, nodes': seq<Node>, now: nat, own: nat, since: nat, curr: nat, visited: seq<nat>)
    requires Evolves(nodes, nodes', now, own) && since <= now && WalkOk(nodes, since, curr, visited)
    ensures WalkOk(nodes', since, curr, visited)
  {
    assert NodeEvolves(nodes[curr], nodes'[curr], now, curr == own);
    forall k | 0 <= k < |visited|
      ensures visited[k] < |nodes'| && nodes'[visited[k]].key == nodes[visited[k]].key
    {
      assert NodeEvolves(nodes[visited[k]], nodes'[visited[k]], now, visited[k] == own);
    }
    forall x | 2 <= x < |nodes'| && Through(nodes'[x], since) && nodes'[x].key < nodes'[curr].key
      ensures x in visited
    {
      assert x < |nodes| && NodeEvolves(nodes[x], nodes'[x], now, x == own);
    }
  }

  lemma ThreadStays(nodes: seq<Node>, nodes': seq<Node>, now: nat, own: nat, single: bool, t: Thread)
    requires Evolves(nodes, nodes', now, own) && ThreadOk(nodes, now, single, t)
    requires t.Insert? ==> t.node != own
    requires single && (t.Found? || t.MarkReady?) ==> nodes'[t.curr].marked == nodes[t.curr].marked
    ensures ThreadOk(nodes', now + 1, single, t)
  {
    if t.Walk? || t.WalkSeen? {
      WalkStays(nodes, nodes', now, own, t.since, t.curr, t.visited);
      assert NodeEvolves(nodes[t.curr], nodes'[t.curr], now, t.curr == own);
    } else if !t.Idle? && !t.Start? {
      assert NodeEvolves(nodes[t.pred], nodes'[t.pred], now, t.pred == own);
      assert NodeEvolves(nodes[t.curr], nodes'[t.curr], now, t.curr == own);
      if t.Insert? { assert NodeEvolves(nodes[t.node], nodes'[t.node], now, t.node == own); }
    }
  }

  /** One thread moves and the nodes evolve. */
  ghost predicate Step(s: State, s': State, i: nat, own: nat)
  {
    && i < |s.threads| == |s'.threads| && s'.threads == s.threads[i := s'.threads[i]]
    && s'.now == s.now + 1 && s'.single == s.single
    && Evolves(s.nodes, s'.nodes, s.now, own)
    && (own < |s.nodes| ==> s.threads[i].Insert? && s.threads[i].node == own)
    && (s'.threads[i].Insert? ==> s'.threads[i].node == |s.nodes|)
    && (InRemove(s'.threads[i]) ==> InRemove(s.threads[i]) || (s.single ==> NobodyRemoves(s)))
    && (InRemove(s.threads[i]) || forall n :: 0 <= n < |s.nodes| ==> s'.nodes[n].marked == s.nodes[n].marked)
  }

  predicate NobodyRemoves(s: State)
  {
    forall j :: 0 <= j < |s.threads| ==> !InRemove(s.threads[j])
  }

  lemma OtherStays(s: State, s': State, i: nat, own: nat, j: nat)
    requires Inv(s) && Step(s, s', i, own) && j < |s.threads| && j != i
    ensures ThreadOk(s'.nodes, s'.now, s.single, s.threads[j])
    ensures Apart(s'.threads[i], s.threads[j]) && Apart(s.threads[j], s'.threads[i])
  {
    assert ThreadOk(s.nodes, s.now, s.single, s.threads[j]);
    assert Apart(s.threads[i], s.threads[j]);
    assert s.single ==> !InRemove(s.threads[i]) || !InRemove(s.threads[j]);
    ThreadStays(s.nodes, s'.nodes, s.now, own, s.single, s.threads[j]);
  }

  lemma ExclusiveStays(s: State, s': State, i: nat, own: nat)
    requires Exclusive(s) && Step(s, s', i, own)
    ensures Exclusive(s')
  {
  }

  /** Everything else stays as it was. */
  lemma Moved(s: State, s': State, i: nat, own: nat)
    requires Inv(s) && Step(s, s', i, own)
    requires NodesOk(s'.nodes, s'.now) && ThreadOk(s'.nodes, s'.now, s.single, s'.threads[i])
    requires forall n :: n in s'.retired ==> n in s.retired || (2 <= n < |s.nodes| && s.nodes[n].marked)
    ensures Inv(s')
  {
    forall j | 0 <= j < |s.threads| && j != i
      ensures ThreadOk(s'.nodes, s'.now, s.single, s.threads[j])
      ensures Apart(s'.threads[i], s.threads[j]) && Apart(s.threads[j], s'.threads[i])
    {
      OtherStays(s, s', i, own, j);
    }
    ExclusiveStays(s, s', i, own);
    forall n | n in s'.retired
      ensures 2 <= n < |s'.nodes| && s'.nodes[n].marked
    {
      assert NodeEvolves(s.nodes[n], s'.nodes[n], s.now, n == own);
    }
  }

  /** The nodes are as they were: only the clock has gone on. */
  lemma LaterIsOk(nodes: seq<Node>, now: nat)
    requires NodesOk(nodes, now)
    ensures NodesOk(nodes, now + 1) && Evolves(nodes, nodes, now, |nodes|)
  {
    var later := now + 1;
    forall n | 0 <= n < |nodes|
      ensures NodeOk(nodes, n, later)
    {
      assert NodeOk(nodes, n, now);
    }
  }

  lemma InvIsSized(s: State)
    requires Inv(s)
    ensures Sized(s)
  {
    forall n | 0 <= n < |s.nodes|
      ensures s.nodes[n].next < |s.nodes|
    {
      assert NodeOk(s.nodes, n, s.now);
    }
    forall i | 0 <= i < |s.threads|
      ensures RefsIn(s.threads[i], |s.nodes|)
    {
      assert ThreadOk(s.nodes, s.now, s.single, s.threads[i]);
    }
  }

  // ---------------------------------------------------------------- what find sees

  /** Between an unmarked published node and the node it links to, no key is present. */
  lemma NothingBetween(nodes: seq<Node>, now: nat, pred: nat, key: int)
    requires NodesOk(nodes, now) && Before(nodes, pred, key) && !nodes[pred].marked
    ensures Published(nodes, nodes[pred].next) && nodes[pred].key < nodes[nodes[pred].next].key
    ensures nodes[nodes[pred].next].key > key ==> !Present(nodes, key)
  {
    assert NodeOk(nodes, pred, now);
    forall n | 2 <= n < |nodes| && IsPresent(nodes[n], key)
      ensures nodes[nodes[pred].next].key <= key
    {
      assert Clean(nodes, pred, n);
    }
  }

  /** The same once a marked node has been skipped. */
  lemma NothingBetweenSnipped(nodes: seq<Node>, now: nat, pred: nat, curr: nat, key: int)
    requires NodesOk(nodes, now) && Before(nodes, pred, key) && LinkIs(nodes, pred, curr)
    requires curr < |nodes| && curr >= 2 && nodes[curr].marked
    ensures Published(nodes, nodes[curr].next) && nodes[pred].key < nodes[nodes[curr].next].key
    ensures nodes[nodes[curr].next].key > key ==> !Present(nodes, key)
  {
    assert NodeOk(nodes, pred, now) && NodeOk(nodes, curr, now);
    forall n | 2 <= n < |nodes| && IsPresent(nodes[n], key)
      ensures nodes[nodes[curr].next].key <= key
    {
      assert Clean(nodes, pred, n) && Clean(nodes, curr, n);
    }
  }

  // ---------------------------------------------------------------- every action keeps the invariant

  lemma LocalStepKeepsInv(s: State, a: Action)
    requires Inv(s) && Enabled(s, a) && Sized(s) && (a.Begin? || a.LoadHead? || a.LoadSucc?)
    ensures Inv(Apply(s, a))
  {
    assert ThreadOk(s.nodes, s.now, s.single, s.threads[a.i]);
    LaterIsOk(s.nodes, s.now);
    if a.LoadHead? { NothingBetween(s.nodes, s.now, HEAD, s.threads[a.i].op.key); }
    Moved(s, Apply(s, a), a.i, |s.nodes|);
  }

  lemma LookKeepsInv(s: State, i: nat)
    requires Inv(s) && Sized(s) && Enabled(s, Look(i))
    ensures Inv(Apply(s, Look(i)))
  {
    var t, s' := s.threads[i], Apply(s, Look(i));
    var n := s.nodes[t.curr];
    assert ThreadOk(s.nodes, s.now, s.single, t);
    LaterIsOk(s.nodes, s.now);
    if !n.marked && n.key < t.op.key {
      NothingBetween(s.nodes, s.now, t.curr, t.op.key);
    } else if !n.marked && t.op.Adding? && n.key != t.op.key {
      AllocKeepsNodes(s.nodes, s.now, t.op.key, t.curr);
    }
    Moved(s, s', i, if |s'.nodes| > |s.nodes| then |s'.nodes| else |s.nodes|);
  }

  lemma TrySnipKeepsInv(s: State, i: nat)
    requires Inv(s) && Sized(s) && Enabled(s, TrySnip(i))
    ensures Inv(Apply(s, TrySnip(i)))
  {
    var t := s.threads[i];
    if LinkIs(s.nodes, t.pred, t.curr) {
      SnipKeepsInv(s, i);
    } else {
      assert ThreadOk(s.nodes, s.now, s.single, t);
      LaterIsOk(s.nodes, s.now);
      Moved(s, Apply(s, TrySnip(i)), i, |s.nodes|);
    }
  }

  lemma SnipKeepsInv(s: State, i: nat)
    requires Inv(s) && Sized(s) && Enabled(s, TrySnip(i)) && LinkIs(s.nodes, s.threads[i].pred, s.threads[i].curr)
    ensures Inv(Apply(s, TrySnip(i)))
  {
    var t := s.threads[i];
    assert ThreadOk(s.nodes, s.now, s.single, t);
    UnlinkKeepsNodes(s.nodes, s.now, t.pred, t.curr);
    NothingBetweenSnipped(s.nodes, s.now, t.pred, t.curr, t.op.key);
    Moved(s, Apply(s, TrySnip(i)), i, |s.nodes|);
  }

  lemma TryInsertKeepsInv(s: State, i: nat)
    requires Inv(s) && Sized(s) && Enabled(s, TryInsert(i))
    ensures Inv(Apply(s, TryInsert(i)))
  {
    var t, s' := s.threads[i], Apply(s, TryInsert(i));
    assert ThreadOk(s.nodes, s.now, s.single, t);
    LaterIsOk(s.nodes, s.now);
    if LinkIs(s.nodes, t.pred, t.curr) {
      LinkKeepsNodes(s.nodes, s.now, t.pred, t.node);
    }
    Moved(s, s', i, if LinkIs(s.nodes, t.pred, t.curr) then t.node else |s.nodes|);
  }

  lemma MarkKeepsInv(s: State, i: nat)
    requires Inv(s) && Sized(s) && Enabled(s, Mark(i))
    ensures Inv(Apply(s, Mark(i)))
  {
    var t, s' := s.threads[i], Apply(s, Mark(i));
    assert ThreadOk(s.nodes, s.now, s.single, t);
    LaterIsOk(s.nodes, s.now);
    if s.nodes[t.curr].next == t.succ {
      MarkKeepsNodes(s.nodes, s.now, t.curr);
    }
    Moved(s, s', i, |s.nodes|);
  }

  lemma TryUnlinkKeepsInv(s: State, i: nat)
    requires Inv(s) && Sized(s) && Enabled(s, TryUnlink(i))
    ensures Inv(Apply(s, TryUnlink(i)))
  {
    var t, s' := s.threads[i], Apply(s, TryUnlink(i));
    assert ThreadOk(s.nodes, s.now, s.single, t);
    LaterIsOk(s.nodes, s.now);
    if LinkIs(s.nodes, t.pred, t.curr) {
      UnlinkKeepsNodes(s.nodes, s.now, t.pred, t.curr);
    }
    Moved(s, s', i, |s.nodes|);
  }

  /** Stepping on reaches no element that was on the list all the while but the one just left. */
  lemma NothingSkipped(nodes: seq<Node>, now: nat, since: nat, curr: nat, x: nat)
    requires NodesOk(nodes, now) && Published(nodes, curr) && curr != TAIL && Fresh(nodes[curr], since)
    requires 2 <= x < |nodes| && Through(nodes[x], since) && x != curr
    requires nodes[curr].next < |nodes| && nodes[x].key < nodes[nodes[curr].next].key
    ensures nodes[x].key < nodes[curr].key
  {
    assert Clean(nodes, curr, x);
  }

  lemma NextIsFresh(nodes: seq<Node>, now: nat, since: nat, curr: nat)
    requires NodesOk(nodes, now) && Published(nodes, curr) && curr != TAIL && Fresh(nodes[curr], since)
    ensures var n := nodes[curr].next;
      Published(nodes, n) && n != HEAD && Fresh(nodes[n], since) && nodes[curr].key < nodes[n].key
  {
    assert NodeOk(nodes, curr, now);
  }

  /** What a walk has met, or will meet, it does not lose by stepping on. */
  lemma StepOn(nodes: seq<Node>, now: nat, since: nat, curr: nat, visited: seq<nat>, marked: bool)
    requires NodesOk(nodes, now) && WalkOk(nodes, since, curr, visited) && curr != TAIL && (marked ==> nodes[curr].marked)
    ensures nodes[curr].next < |nodes|
    ensures WalkOk(nodes, since, nodes[curr].next, if marked then visited else visited + [curr])
  {
    NextIsFresh(nodes, now, since, curr);
    forall x | 2 <= x < |nodes| && Through(nodes[x], since) && nodes[x].key < nodes[nodes[curr].next].key
      ensures x in (if marked then visited else visited + [curr])
    {
      if x != curr { NothingSkipped(nodes, now, since, curr, x); }
    }
    if !marked {
      AppendKeepsOrder(nodes, visited, curr);
    }
  }

  lemma AppendKeepsOrder(nodes: seq<Node>, visited: seq<nat>, curr: nat)
    requires 2 <= curr < |nodes|
    requires forall k :: 0 <= k < |visited| ==> 2 <= visited[k] < |nodes| && nodes[visited[k]].key < nodes[curr].key
    requires forall j, k :: 0 <= j < k < |visited| ==> nodes[visited[j]].key < nodes[visited[k]].key
    ensures var more := visited + [curr];
      && (forall k :: 0 <= k < |more| ==> 2 <= more[k] < |nodes| && nodes[more[k]].key <= nodes[curr].key)
      && forall j, k :: 0 <= j < k < |more| ==> nodes[more[j]].key < nodes[more[k]].key
  {
    var more := visited + [curr];
    assert forall k :: 0 <= k < |more| ==> more[k] == if k < |visited| then visited[k] else curr;
  }

  lemma WalkStarts(nodes: seq<Node>, now: nat)
    requires NodesOk(nodes, now)
    ensures WalkOk(nodes, now, nodes[HEAD].next, [])
  {
    assert NodeOk(nodes, HEAD, now);
    forall x | 2 <= x < |nodes| && Through(nodes[x], now)
      ensures nodes[nodes[HEAD].next].key <= nodes[x].key
    {
      assert Clean(nodes, HEAD, x);
    }
  }

  lemma BeginWalkKeepsInv(s: State, i: nat)
    requires Inv(s) && Sized(s) && Enabled(s, BeginWalk(i))
    ensures Inv(Apply(s, BeginWalk(i)))
  {
    LaterIsOk(s.nodes, s.now);
    WalkStarts(s.nodes, s.now);
    Moved(s, Apply(s, BeginWalk(i)), i, |s.nodes|);
  }

  lemma WalkMarkKeepsInv(s: State, i: nat)
    requires Inv(s) && Sized(s) && Enabled(s, WalkMark(i))
    ensures Inv(Apply(s, WalkMark(i)))
  {
    assert ThreadOk(s.nodes, s.now, s.single, s.threads[i]);
    LaterIsOk(s.nodes, s.now);
    Moved(s, Apply(s, WalkMark(i)), i, |s.nodes|);
  }

  lemma WalkNextKeepsInv(s: State, i: nat)
    requires Inv(s) && Sized(s) && Enabled(s, WalkNext(i))
    ensures Inv(Apply(s, WalkNext(i)))
  {
    var t := s.threads[i];
    assert ThreadOk(s.nodes, s.now, s.single, t);
    LaterIsOk(s.nodes, s.now);
    StepOn(s.nodes, s.now, t.since, t.curr, t.visited, t.marked);
    var visited := if t.marked then t.visited else t.visited + [t.curr];
    assert ThreadOk(s.nodes, s.now + 1, s.single, Walk(t.since, s.nodes[t.curr].next, visited));
    Moved(s, Apply(s, WalkNext(i)), i, |s.nodes|);
  }

  lemma StepKeepsInv(s: State, a: Action)
    requires Inv(s) && Sized(s) && Enabled(s, a)
    ensures Inv(Apply(s, a))
  {
    match a
    case Look(i) => LookKeepsInv(s, i);
    case TrySnip(i) => TrySnipKeepsInv(s, i);
    case TryInsert(i) => TryInsertKeepsInv(s, i);
    case Mark(i) => MarkKeepsInv(s, i);
    case TryUnlink(i) => TryUnlinkKeepsInv(s, i);
    case BeginWalk(i) => BeginWalkKeepsInv(s, i);
    case WalkMark(i) => WalkMarkKeepsInv(s, i);
    case WalkNext(i) => WalkNextKeepsInv(s, i);
    case _ => LocalStepKeepsInv(s, a);
  }

  lemma ReachableHoldsInv(s: State)
    requires Runs.Reachable(Init, Next, s)
    ensures Inv(s) && Sized(s)
  {
    forall r: State, a, r' | Inv(r) && Next(r, a, r')
      ensures Inv(r')
    {
      StepKeepsInv(r, a);
    }
    Runs.ReachableKeepsInvariant(Init, Next, Inv, s);
    InvIsSized(s);
  }

  // ---------------------------------------------------------------- the list is a set

  /** The key an action puts into the set: that of a successful insert. */
  function Adds(s: State, a: Action): Option<int>
    requires Sized(s) && Enabled(s, a)
  {
    var t := s.threads[a.i];
    if a.TryInsert? && LinkIs(s.nodes, t.pred, t.curr) then Some(t.key) else None
  }

  /** The key an action takes out: that of a node it marks and nobody had marked. */
  function Removes(s: State, a: Action): Option<int>
    requires Sized(s) && Enabled(s, a)
  {
    var t := s.threads[a.i];
    if a.Mark? && s.nodes[t.curr].next == t.succ && !s.nodes[t.curr].marked then Some(t.key) else None
  }

  lemma PresentTransfers(nodes: seq<Node>, nodes': seq<Node>, k: int)
    requires |nodes| <= |nodes'|
    requires forall n :: 2 <= n < |nodes| ==> (IsPresent(nodes[n], k) <==> IsPresent(nodes'[n], k))
    requires forall n :: |nodes| <= n < |nodes'| ==> !IsPresent(nodes'[n], k)
    ensures Present(nodes, k) <==> Present(nodes', k)
  {
    if Present(nodes, k) {
      var n :| 2 <= n < |nodes| && IsPresent(nodes[n], k);
      assert IsPresent(nodes'[n], k);
    }
  }

  lemma InsertAdds(s: State, i: nat, k: int)
    requires Inv(s) && Sized(s) && Enabled(s, TryInsert(i)) && Adds(s, TryInsert(i)).Some?
    ensures !Present(s.nodes, s.threads[i].key)
    ensures Present(Apply(s, TryInsert(i)).nodes, k) <==> Present(s.nodes, k) || k == s.threads[i].key
  {
    var t, nodes' := s.threads[i], Apply(s, TryInsert(i)).nodes;
    assert ThreadOk(s.nodes, s.now, s.single, t);
    NothingBetween(s.nodes, s.now, t.pred, t.key);
    if k == t.key {
      assert IsPresent(nodes'[t.node], k);
    } else {
      PresentTransfers(s.nodes, nodes', k);
    }
  }

  lemma MarkRemoves(s: State, i: nat, k: int)
    requires Inv(s) && Sized(s) && Enabled(s, Mark(i)) && Removes(s, Mark(i)).Some?
    ensures Present(s.nodes, s.threads[i].key)
    ensures Present(Apply(s, Mark(i)).nodes, k) <==> Present(s.nodes, k) && k != s.threads[i].key
  {
    var t, nodes' := s.threads[i], Apply(s, Mark(i)).nodes;
    var n := t.curr;
    assert ThreadOk(s.nodes, s.now, s.single, t) && NodeOk(s.nodes, n, s.now);
    assert IsPresent(s.nodes[n], t.key);
    if k == t.key {
      forall x | 2 <= x < |s.nodes| && x != n
        ensures !IsPresent(s.nodes[x], k)
      {
        assert Clean(s.nodes, n, x);
      }
    } else {
      PresentTransfers(s.nodes, nodes', k);
    }
  }

  lemma OthersKeepSet(s: State, a: Action, k: int)
    requires Inv(s) && Sized(s) && Enabled(s, a) && Adds(s, a) == None && Removes(s, a) == None
    ensures Present(Apply(s, a).nodes, k) <==> Present(s.nodes, k)
  {
    assert ThreadOk(s.nodes, s.now, s.single, s.threads[a.i]);
    PresentTransfers(s.nodes, Apply(s, a).nodes, k);
  }

  /** The set changes only at a successful insert and at the first mark of a node, each time by that key. */
  lemma StepRefinesSet(s: State, a: Action, k: int)
    requires Runs.Reachable(Init, Next, s) && Sized(s) && Enabled(s, a)
    ensures Present(Apply(s, a).nodes, k) <==> (Present(s.nodes, k) || Adds(s, a) == Some(k)) && Removes(s, a) != Some(k)
    ensures Adds(s, a) == Some(k) ==> !Present(s.nodes, k)
    ensures Removes(s, a) == Some(k) ==> Present(s.nodes, k)
  {
    ReachableHoldsInv(s);
    if Adds(s, a).Some? {
      InsertAdds(s, a.i, k);
    } else if Removes(s, a).Some? {
      MarkRemoves(s, a.i, k);
    } else {
      OthersKeepSet(s, a, k);
    }
  }

  // ---------------------------------------------------------------- the answers

  /** An add that answers false does so when the key is present; a remove that answers false saw a moment
      of its search at which it was absent. */
  lemma FalseAnswersAreRight(s: State, i: nat)
    requires Runs.Reachable(Init, Next, s) && Sized(s) && Enabled(s, Look(i))
    requires !s.nodes[s.threads[i].curr].marked && Apply(s, Look(i)).threads[i] == Idle
    ensures var t := s.threads[i]; if t.op.Adding? then Present(s.nodes, t.op.key) else t.absent
  {
    ReachableHoldsInv(s);
    var t := s.threads[i];
    assert ThreadOk(s.nodes, s.now, s.single, t) && NodeOk(s.nodes, t.curr, s.now);
    if t.op.Adding? {
      assert IsPresent(s.nodes[t.curr], t.op.key);
    }
  }

  /** The operation a thread is in the middle of. */
  function OpOf(t: Thread): Option<Op>
  {
    match t
    case Start(op) => Some(op)
    case At(op, _, _, _) => Some(op)
    case Snip(op, _, _, _) => Some(op)
    case Insert(key, _, _, _) => Some(Adding(key))
    case Found(key, _, _) => Some(Removing(key))
    case MarkReady(key, _, _, _) => Some(Removing(key))
    case Unlink(key, _, _, _) => Some(Removing(key))
    case _ => None
  }

  lemma OwnOperationStays(s: State, a: Action)
    requires Sized(s) && Enabled(s, a)
    ensures var t, t' := s.threads[a.i], Apply(s, a).threads[a.i];
      && (OpOf(t).Some? && !t'.Idle? ==> OpOf(t') == OpOf(t))
      && (OpOf(t).None? && OpOf(t').Some? ==> a == Begin(a.i, OpOf(t').value))
  {
  }

  /** An operation stays what it is, and its thread's alone, until it ends. */
  lemma OperationStays(s: State, a: Action, i: nat)
    requires Sized(s) && Enabled(s, a) && i < |s.threads|
    ensures |Apply(s, a).threads| == |s.threads|
    ensures var t, t' := s.threads[i], Apply(s, a).threads[i];
      && (a.i != i ==> t' == t)
      && (OpOf(t).Some? && !t'.Idle? ==> OpOf(t') == OpOf(t))
      && (OpOf(t).None? && OpOf(t').Some? ==> a == Begin(i, OpOf(t').value))
  {
    if a.i == i {
      OwnOperationStays(s, a);
    }
  }

  /** When an add is over, its key is in the set, by its own exchange if the key was not there before. When a
      remove is over, either its search saw a moment without the key, or it has marked a node with that key
      (which is in the state Unlink only by its own mark). */
  lemma OperationEndsRight(s: State, a: Action)
    requires Runs.Reachable(Init, Next, s) && Sized(s) && Enabled(s, a)
    requires OpOf(s.threads[a.i]).Some? && Apply(s, a).threads[a.i].Idle?
    ensures var t, k, nodes' := s.threads[a.i], OpOf(s.threads[a.i]).value.key, Apply(s, a).nodes;
      if OpOf(t).value.Adding? then Present(nodes', k) && (Present(s.nodes, k) || Adds(s, a) == Some(k))
      else (t.At? && t.absent) || (t.Unlink? && nodes'[t.curr].marked && nodes'[t.curr].key == k)
  {
    ReachableHoldsInv(s);
    var t := s.threads[a.i];
    assert ThreadOk(s.nodes, s.now, s.single, t);
    if t.At? {
      FalseAnswersAreRight(s, a.i);
    }
    StepRefinesSet(s, a, OpOf(t).value.key);
  }

  /** What the records stand for: `absent` is set only when the key is absent, and Unlink is entered only by
      the thread's own mark. */
  lemma RecordsAreTrue(s: State, a: Action)
    requires Runs.Reachable(Init, Next, s) && Sized(s) && Enabled(s, a)
    ensures var t, t', nodes' := s.threads[a.i], Apply(s, a).threads[a.i], Apply(s, a).nodes;
      && (t'.At? && t'.absent ==> !Present(nodes', t'.op.key) || (t.At? && t.absent))
      && (t'.Unlink? ==> a.Mark? && nodes'[t'.curr].marked)
  {
    ReachableHoldsInv(s);
    assert ThreadOk(s.nodes, s.now, s.single, s.threads[a.i]);
    var t' := Apply(s, a).threads[a.i];
    if t'.At? && t'.absent {
      OthersKeepSet(s, a, t'.op.key);
    }
  }

  /** A remove whose attemptMark answers true, and which will answer true itself, has just taken its key out
      of the set exactly if the node was not marked already. */
  lemma TrueMarkRemovesIffUnmarked(s: State, i: nat)
    requires Runs.Reachable(Init, Next, s) && Sized(s) && Enabled(s, Mark(i))
    requires Apply(s, Mark(i)).threads[i].Unlink?
    ensures var t := s.threads[i];
      !s.nodes[t.curr].marked <==> Present(s.nodes, t.key) && !Present(Apply(s, Mark(i)).nodes, t.key)
  {
    ReachableHoldsInv(s);
    var t := s.threads[i];
    if s.nodes[t.curr].marked {
      OthersKeepSet(s, Mark(i), t.key);
    } else {
      MarkRemoves(s, i, t.key);
    }
  }

  /** The node a lone remover is about to mark is not marked yet. */
  lemma SingleRemoverRemoves(s: State, i: nat)
    requires Runs.Reachable(Init, Next, s) && Sized(s) && Enabled(s, Mark(i)) && s.single
    requires Apply(s, Mark(i)).threads[i].Unlink?
    ensures Present(s.nodes, s.threads[i].key) && !Present(Apply(s, Mark(i)).nodes, s.threads[i].key)
  {
    ReachableHoldsInv(s);
    assert ThreadOk(s.nodes, s.now, s.single, s.threads[i]);
    TrueMarkRemovesIffUnmarked(s, i);
  }

  // ---------------------------------------------------------------- the shape of the list

  /** A node on the list links to the next key on the list; a marked node's link and mark never change again,
      and only marked nodes leave the list. */
  lemma LinksAreInOrder(s: State, n: nat)
    requires Runs.Reachable(Init, Next, s) && n < |s.nodes| && s.nodes[n].place.Linked? && n != TAIL
    ensures Inv(s) && var m := s.nodes[n].next;
      && m < |s.nodes| && s.nodes[m].place.Linked? && s.nodes[n].key < s.nodes[m].key
      && forall x :: 0 <= x < |s.nodes| && s.nodes[x].place.Linked? && x != n ==>
           s.nodes[x].key < s.nodes[n].key || s.nodes[m].key <= s.nodes[x].key
  {
    ReachableHoldsInv(s);
    assert NodeOk(s.nodes, n, s.now);
    forall x | 0 <= x < |s.nodes| && s.nodes[x].place.Linked? && x != n
      ensures s.nodes[x].key < s.nodes[n].key || s.nodes[s.nodes[n].next].key <= s.nodes[x].key
    {
      assert Clean(s.nodes, n, x);
    }
  }

  lemma MarkedIsFrozen(s: State, a: Action, n: nat)
    requires Runs.Reachable(Init, Next, s) && Sized(s) && Enabled(s, a) && n < |s.nodes|
    ensures var n' := Apply(s, a).nodes[n];
      && n'.key == s.nodes[n].key && (s.nodes[n].marked ==> n'.marked && n'.next == s.nodes[n].next)
      && (s.nodes[n].place.Linked? && !n'.place.Linked? ==> s.nodes[n].marked)
  {
    ReachableHoldsInv(s);
    assert ThreadOk(s.nodes, s.now, s.single, s.threads[a.i]);
  }

  ghost predicate IsPathTo(nodes: seq<Node>, p: seq<nat>, n: nat)
  {
    && p != [] && p[0] == HEAD && p[|p| - 1] == n && (forall k :: 0 <= k < |p| ==> p[k] < |nodes|)
    && forall j, k :: 0 <= j && k == j + 1 && k < |p| ==> nodes[p[j]].next == p[k]
  }

  /** Following the links from the head leads to every node on the list. */
  lemma ListReachesAll(s: State, n: nat) returns (p: seq<nat>)
    requires Runs.Reachable(Init, Next, s) && n < |s.nodes| && s.nodes[n].place.Linked?
    ensures IsPathTo(s.nodes, p, n)
  {
    ReachableHoldsInv(s);
    p := [HEAD];
    var m: nat := HEAD;
    while m != n
      invariant m < |s.nodes| && s.nodes[m].place.Linked? && IsPathTo(s.nodes, p, m)
      invariant m == n || s.nodes[m].key < s.nodes[n].key
      decreases s.nodes[n].key - s.nodes[m].key
    {
      assert n == HEAD || n == TAIL || s.nodes[n].key < MAX;
      assert NodeOk(s.nodes, m, s.now) && Clean(s.nodes, m, n);
      var next := s.nodes[m].next;
      assert NodeOk(s.nodes, next, s.now) && Clean(s.nodes, next, n);
      p := p + [next];
      m := next;
    }
  }

  // ---------------------------------------------------------------- walks

  /** A walk that has come to the end has visited, in key order and so once each, every element that was on
      the list all the while. */
  lemma WalkVisitsAllPresent(s: State, i: nat)
    requires Runs.Reachable(Init, Next, s) && i < |s.threads| && s.threads[i].Walk? && s.threads[i].curr == TAIL
    ensures Inv(s) && var t := s.threads[i];
      && (forall j, k :: 0 <= j < k < |t.visited| ==>
            t.visited[j] < |s.nodes| && t.visited[k] < |s.nodes| && s.nodes[t.visited[j]].key < s.nodes[t.visited[k]].key)
      && forall x :: 2 <= x < |s.nodes| && Through(s.nodes[x], t.since) ==> x in t.visited
  {
    ReachableHoldsInv(s);
    assert ThreadOk(s.nodes, s.now, s.single, s.threads[i]);
  }

  /** And it visits only what was present when it looked. */
  lemma WalkVisitsOnlyPresent(s: State, i: nat)
    requires Runs.Reachable(Init, Next, s) && Sized(s) && Enabled(s, WalkMark(i)) && !s.nodes[s.threads[i].curr].marked
    ensures Present(s.nodes, s.nodes[s.threads[i].curr].key)
  {
    ReachableHoldsInv(s);
    var t := s.threads[i];
    assert ThreadOk(s.nodes, s.now, s.single, t) && NodeOk(s.nodes, t.curr, s.now);
    assert IsPresent(s.nodes[t.curr], s.nodes[t.curr].key);
  }

  // ---------------------------------------------------------------- retirement

  /** pred is unmarked on the list, and no key on the list lies between it and n. */
  ghost predicate InFront(nodes: seq<Node>, pred: nat, n: nat)
    requires n < |nodes|
  {
    && pred < |nodes| && nodes[pred].place.Linked? && !nodes[pred].marked
    && forall x :: 0 <= x < |nodes| && nodes[x].place.Linked? ==>
         nodes[x].key <= nodes[pred].key || nodes[n].key <= nodes[x].key
  }

  /** The exchange that unlinks a listed node works exactly if the node that the search found in front of it
      is still there, unmarked, and nothing has come between. */
  lemma UnlinkWorksIffInFront(s: State, pred: nat, n: nat)
    requires Runs.Reachable(Init, Next, s) && 2 <= n < |s.nodes| && s.nodes[n].place.Linked?
    requires Before(s.nodes, pred, s.nodes[n].key)
    ensures LinkIs(s.nodes, pred, n) <==> InFront(s.nodes, pred, n)
  {
    ReachableHoldsInv(s);
    assert NodeOk(s.nodes, pred, s.now);
    if s.nodes[pred].place.Linked? {
      LinksAreInOrder(s, pred);
      var m := s.nodes[pred].next;
      if InFront(s.nodes, pred, n) && m != n {
        assert s.nodes[m].key == s.nodes[n].key < MAX;
        LinksAreInOrder(s, m);
      }
    }
  }

  /** Only nodes on the list are reached from the head. */
  lemma {:induction false} PathStaysOnList(s: State, p: seq<nat>, n: nat)
    requires Inv(s) && IsPathTo(s.nodes, p, n)
    ensures s.nodes[n].place.Linked?
    decreases |p|
  {
    if |p| > 1 {
      var q := p[..|p| - 1];
      assert q[|q| - 1 + 1 - 1] == p[|p| - 2] && s.nodes[p[|p| - 2]].next == p[|p| - 1];
      PathStaysOnList(s, q, p[|p| - 2]);
      assert NodeOk(s.nodes, p[|p| - 2], s.now);
    }
  }

  /** A retired node is marked. It was on the list before the last step of its remove, and a path from the head
      leads to it still, exactly if no search had unlinked it and the node once in front of it is there no
      longer or something has come between. */
  lemma RetiredOffListIff(s: State, i: nat)
    requires Runs.Reachable(Init, Next, s) && Sized(s) && Enabled(s, TryUnlink(i))
    ensures var s', n, pred := Apply(s, TryUnlink(i)), s.threads[i].curr, s.threads[i].pred;
      && n in s'.retired && s'.nodes[n].marked && s'.threads[i] == Idle
      && (s'.nodes[n].place.Gone? <==> LinkIs(s.nodes, pred, n) || s.nodes[n].place.Gone?)
      && ((exists p :: IsPathTo(s'.nodes, p, n)) <==> s.nodes[n].place.Linked? && !InFront(s.nodes, pred, n))
  {
    ReachableHoldsInv(s);
    assert ThreadOk(s.nodes, s.now, s.single, s.threads[i]);
    var s', n := Apply(s, TryUnlink(i)), s.threads[i].curr;
    Runs.StepStaysReachable(Init, Next, s, TryUnlink(i), s');
    ReachableHoldsInv(s');
    if s.nodes[n].place.Linked? {
      UnlinkWorksIffInFront(s, s.threads[i].pred, n);
    }
    if s'.nodes[n].place.Linked? {
      var p := ListReachesAll(s', n);
    } else {
      forall p | IsPathTo(s'.nodes, p, n)
        ensures false
      {
        PathStaysOnList(s', p, n);
      }
    }
  }
}
