/** Building a task graph and checking it for cycles before it is submitted. */
module TaskDags {
  import opened Sequences
  import opened DependencyGraph
  import opened Options

  /** One AddDependency call. */
  datatype Call = Call(dependent: nat, dependency: nat)

  /** How often the dependency counter of n was bumped. */
  function Left(calls: seq<Call>, n: nat): nat
  {
    if calls == [] then 0
    else Left(calls[..|calls| - 1], n) + if calls[|calls| - 1].dependent == n then 1 else 0
  }

  /** The nodes n waits for. */
  function Waits(calls: seq<Call>, n: nat): set<nat>
  {
    set c | c in calls && c.dependent == n :: c.dependency
  }

  function GraphOf(calls: seq<Call>, size: nat): Graph
  {
    seq(size, m => set c | c in calls && c.dependency == m :: c.dependent)
  }

  ghost predicate RepeatedFor(calls: seq<Call>, n: nat)
  {
    exists i, j :: 0 <= i < j < |calls| && calls[i] == calls[j] && calls[i].dependent == n
  }

  /** Some pair was added more than once. */
  ghost predicate Repeated(calls: seq<Call>)
  {
    exists i, j :: 0 <= i < j < |calls| && calls[i] == calls[j]
  }

  predicate InRange(calls: seq<Call>, size: nat)
  {
    forall i :: 0 <= i < |calls| ==> calls[i].dependent < size && calls[i].dependency < size
  }

  lemma RepeatsAfter(before: seq<Call>, c: Call, n: nat)
    ensures RepeatedFor(before + [c], n) <==> RepeatedFor(before, n) || (c.dependent == n && c in before)
  {
    var calls := before + [c];
    if RepeatedFor(before, n) {
      var i, j :| 0 <= i < j < |before| && before[i] == before[j] && before[i].dependent == n;
      assert calls[i] == calls[j];
    }
    if c.dependent == n && c in before {
      var i :| 0 <= i < |before| && before[i] == c;
      assert calls[i] == calls[|before|];
    }
  }

  lemma WaitsAfter(before: seq<Call>, c: Call, n: nat)
    ensures Waits(before + [c], n) == Waits(before, n) + if c.dependent == n then {c.dependency} else {}
  {
    assert forall d :: d in before + [c] <==> d in before || d == c;
  }

  /** A counter is more than the number of edges exactly when a pair was repeated. */
  lemma {:induction false} RepeatsShow(calls: seq<Call>, n: nat)
    ensures |Waits(calls, n)| <= Left(calls, n)
    ensures |Waits(calls, n)| < Left(calls, n) <==> RepeatedFor(calls, n)
  {
    if calls != [] {
      var before, c := calls[..|calls| - 1], calls[|calls| - 1];
      assert calls == before + [c];
      RepeatsShow(before, n);
      RepeatsAfter(before, c, n);
      WaitsAfter(before, c, n);
      assert c in before && c.dependent == n ==> c.dependency in Waits(before, n);
    }
  }

  lemma WaitsAreEdges(calls: seq<Call>, size: nat, n: nat)
    requires InRange(calls, size)
    ensures Preds(GraphOf(calls, size), n, Below(size)) == Waits(calls, n)
  {
    var g := GraphOf(calls, size);
    forall m ensures m in Preds(g, n, Below(size)) <==> m in Waits(calls, n)
    {
      if m in Waits(calls, n) {
        var c :| c in calls && c.dependent == n && c.dependency == m;
        assert m < size && n in g[m];
      }
    }
  }

  // ---------------------------------------------------------------- the state of the check

  /** Each in-degree has lost one for every predecessor already drained. */
  ghost predicate Counted(deps: Graph, left: seq<int>, indeg: seq<int>, drained: set<nat>)
  {
    && |deps| == |left| == |indeg|
    && forall n :: 0 <= n < |deps| ==> indeg[n] == left[n] - |Preds(deps, n, drained)|
  }

  /** No counter is below the number of edges into its node. */
  ghost predicate Covered(deps: Graph, left: seq<int>)
  {
    |deps| == |left| && forall n :: 0 <= n < |deps| ==> |Preds(deps, n, Below(|deps|))| <= left[n]
  }

  ghost predicate IsReady(indeg: seq<int>, ready: seq<nat>, drained: set<nat>)
  {
    && NoRepeats(ready)
    && forall n: nat :: n in ready <==> n < |indeg| && n !in drained && indeg[n] == 0
  }

  ghost predicate Drained(indeg: seq<int>, order: seq<nat>, drained: set<nat>)
  {
    && NoRepeats(order)
    && (forall n: nat :: n in drained <==> n in order)
    && forall k :: 0 <= k < |order| ==> order[k] < |indeg| && indeg[order[k]] == 0
  }

  /** A node whose in-degree is used up has had all its predecessors drained. */
  lemma ReadyHasNoneLeft(deps: Graph, left: seq<int>, indeg: seq<int>, drained: set<nat>, n: nat)
    requires Covered(deps, left) && Counted(deps, left, indeg, drained)
    requires n < |deps| && indeg[n] == 0 && forall m :: m in drained ==> m < |deps|
    ensures forall m :: 0 <= m < |deps| && n in deps[m] ==> m in drained
    ensures left[n] == |Preds(deps, n, Below(|deps|))|
  {
    PredsWithin(deps, n, drained, Below(|deps|));
    SubsetSize(Preds(deps, n, drained), Preds(deps, n, Below(|deps|)));
    forall m | 0 <= m < |deps| && n in deps[m]
      ensures m in drained
    {
      assert m in Preds(deps, n, Below(|deps|));
    }
  }

  lemma CountDownKeepsReady(indeg: seq<int>, ready: seq<nat>, drained: set<nat>, n: nat)
    requires IsReady(indeg, ready, drained) && n < |indeg| && indeg[n] >= 1 && n !in drained
    ensures IsReady(indeg[n := indeg[n] - 1], if indeg[n] - 1 == 0 then ready + [n] else ready, drained)
  {
    var ready' := ready + [n];
    assert forall k :: 0 <= k < |ready| ==> ready'[k] == ready[k] && ready[k] in ready;
    assert ready'[|ready|] == n;
    assert forall k: nat :: k in ready' <==> k in ready || k == n;
  }

  lemma TakingKeepsReady(indeg: seq<int>, ready: seq<nat>, drained: set<nat>)
    requires IsReady(indeg, ready, drained) && ready != []
    ensures IsReady(indeg, ready[..|ready| - 1], drained + {ready[|ready| - 1]})
  {
    var last, rest := ready[|ready| - 1], ready[..|ready| - 1];
    assert ready == rest + [last];
    assert forall k :: 0 <= k < |rest| ==> rest[k] == ready[k] != last;
    assert forall n: nat :: n in ready <==> n in rest || n == last;
    assert last !in rest && last in ready;
  }

  lemma OneMoreDrained(indeg: seq<int>, order: seq<nat>, drained: set<nat>, n: nat)
    requires NoRepeats(order + [n]) && (forall m: nat :: m in drained <==> m in order)
    requires forall m :: m in drained + {n} ==> m < |indeg| && indeg[m] == 0
    ensures Drained(indeg, order + [n], drained + {n})
  {
    var order' := order + [n];
    forall k | 0 <= k < |order'|
      ensures order'[k] < |indeg| && indeg[order'[k]] == 0
    {
      var m := order'[k];
      assert m == if k < |order| then order[k] else n;
      assert k < |order| ==> m in order;
      assert m in drained + {n};
    }
  }

  /** The tasks the nodes carry, in order; a gate carries none. */
  function Carried(tasks: seq<Option<nat>>): seq<nat>
  {
    if tasks == [] then [] else Carried(tasks[..|tasks| - 1]) + Load(tasks[|tasks| - 1])
  }

  function Load(task: Option<nat>): seq<nat>
  {
    match task case Some(t) => [t] case None => []
  }

  /** The nodes that carry task t. */
  function CarriersOf(tasks: seq<Option<nat>>, t: nat): set<nat>
  {
    set n | 0 <= n < |tasks| && tasks[n] == Some(t)
  }

  /** Every task is carried as often as there are nodes with it. */
  lemma {:induction false} CarriedOncePerNode(tasks: seq<Option<nat>>, t: nat)
    ensures multiset(Carried(tasks))[t] == |CarriersOf(tasks, t)|
  {
    if tasks == [] {
      assert CarriersOf(tasks, t) == {};
    } else {
      var m := |tasks| - 1;
      CarriedOncePerNode(tasks[..m], t);
      LoadAdds(Carried(tasks[..m]), tasks[m], t);
      CarriersAdd(tasks, t);
    }
  }

  lemma LoadAdds(before: seq<nat>, task: Option<nat>, t: nat)
    ensures multiset(before + Load(task))[t] == multiset(before)[t] + if task == Some(t) then 1 else 0
  {
  }

  lemma CarriersAdd(tasks: seq<Option<nat>>, t: nat)
    requires tasks != []
    ensures |CarriersOf(tasks, t)| == |CarriersOf(tasks[..|tasks| - 1], t)| + if tasks[|tasks| - 1] == Some(t) then 1 else 0
  {
    var m := |tasks| - 1;
    var before := CarriersOf(tasks[..m], t);
    assert CarriersOf(tasks, t) == if tasks[m] == Some(t) then before + {m} else before;
  }

  /** One more call puts its edge into the graph. */
  lemma GraphAfter(before: seq<Call>, c: Call, size: nat)
    requires c.dependency < size
    ensures GraphOf(before + [c], size) ==
              GraphOf(before, size)[c.dependency := GraphOf(before, size)[c.dependency] + {c.dependent}]
  {
    var g, g' := GraphOf(before, size), GraphOf(before + [c], size);
    forall m | 0 <= m < size
      ensures g'[m] == if m == c.dependency then g[m] + {c.dependent} else g[m]
    {
      assert forall d :: d in before + [c] <==> d in before || d == c;
    }
  }

  /** Nodes are known by their position in the tracking vector. */
  class TaskDag {
    var tasks: seq<Option<nat>>
    var left: seq<int>
    var dependents: seq<set<nat>>
    ghost var calls: seq<Call>

    ghost predicate Valid()
      reads this
    {
      && InRange(calls, |left|) && |tasks| == |left|
      && dependents == GraphOf(calls, |left|)
      && forall n :: 0 <= n < |left| ==> left[n] == Left(calls, n)
    }

    constructor ()
      ensures Valid() && left == [] && calls == []
    {
      tasks, left, dependents, calls := [], [], [], [];
    }

    /** A node with a task, or a gate. */
    method CreateNode(task: Option<nat>) returns (n: nat)
      requires Valid()
      modifies this
      ensures Valid() && calls == old(calls) && n == |old(left)| && left == old(left) + [0]
      ensures tasks == old(tasks) + [task]
    {
      n := |left|;
      tasks := tasks + [task];
      NothingNamed(calls, n, n);
      left := left + [0];
      dependents := dependents + [{}];
      assert dependents == GraphOf(calls, n + 1) by {
        NoDependents(calls, n);
        assert forall m :: 0 <= m < n ==> dependents[m] == GraphOf(calls, n)[m] == GraphOf(calls, n + 1)[m];
      }
    }

    method AddDependency(dependent: nat, dependency: nat)
      requires Valid() && dependent < |left| && dependency < |left|
      modifies this
      ensures Valid() && calls == old(calls) + [Call(dependent, dependency)]
      ensures |left| == |old(left)| && tasks == old(tasks)
    {
      left := left[dependent := left[dependent] + 1];
      dependents := dependents[dependency := dependents[dependency] + {dependent}];
      calls := calls + [Call(dependent, dependency)];
      assert calls[..|calls| - 1] == old(calls);
      GraphAfter(old(calls), Call(dependent, dependency), |left|);
    }

    /** The walk over the dependents of a drained node, in whatever order the list keeps them. */
    method Release(n: nat, indeg: seq<int>, ready: seq<nat>, ghost drained: set<nat>)
      returns (indeg': seq<int>, ready': seq<nat>)
      requires Closed(dependents) && Covered(dependents, left) && n < |dependents| && n !in drained
      requires forall m :: m in drained ==> m < |dependents|
      requires Counted(dependents, left, indeg, drained) && indeg[n] == 0
      requires forall m :: m in drained ==> indeg[m] == 0
      requires IsReady(indeg, ready, drained + {n})
      ensures Counted(dependents, left, indeg', drained + {n})
      ensures forall m :: m in drained + {n} ==> indeg'[m] == 0
      ensures IsReady(indeg', ready', drained + {n})
    {
      indeg', ready' := indeg, ready;
      var todo := dependents[n];
      while todo != {}
        invariant todo <= dependents[n] && |indeg'| == |indeg|
        invariant forall k :: 0 <= k < |indeg| ==>
                    indeg'[k] == indeg[k] - if k in dependents[n] && k !in todo then 1 else 0
        invariant IsReady(indeg', ready', drained + {n})
        decreases |todo|
      {
        var dep :| dep in todo;
        StillCounted(dependents, left, indeg, drained, n, dep);
        CountDownKeepsReady(indeg', ready', drained + {n}, dep);
        todo := todo - {dep};
        indeg' := indeg'[dep := indeg'[dep] - 1];
        if indeg'[dep] == 0 {
          ready' := ready' + [dep];
        }
      }
      ReleasedOnce(dependents, left, indeg, indeg', drained, n);
    }

    /** True exactly when the dependencies have a cycle or some pair was added more than once. */
    method HasCycle() returns (r: bool)
      requires Valid()
      ensures r <==> Cyclic(dependents) || Repeated(calls)
    {
      ValidIsCovered();
      var indeg := left;
      var ready: seq<nat> := [];
      for n := 0 to |left|
        invariant NoRepeats(ready) && forall k: nat :: k in ready <==> k < n && indeg[k] == 0
      {
        if indeg[n] == 0 {
          ready := ready + [n];
        }
      }
      var processed := 0;
      ghost var order: seq<nat>, drained: set<nat> := [], {};
      while ready != []
        invariant processed == |order| <= |left|
        invariant Counted(dependents, left, indeg, drained) && Drained(indeg, order, drained)
        invariant IsReady(indeg, ready, drained) && Topological(dependents, order)
        decreases |left| - processed
      {
        var n := ready[|ready| - 1];
        assert n in ready;
        StillTopological(dependents, left, indeg, order, drained, n);
        TakingKeepsReady(indeg, ready, drained);
        ready := ready[..|ready| - 1];
        processed := processed + 1;
        indeg, ready := Release(n, indeg, ready, drained);
        OneMoreDrained(indeg, order, drained, n);
        order, drained := order + [n], drained + {n};
      }
      r := processed != |left|;
      Verdict(calls, left, indeg, order, drained);
    }

    /** Rejects what HasCycle reports, freeing every node and every task once; otherwise hands out the nodes
        that wait for nothing, each once, to be fired. Either way nothing is tracked any more. */
    method Submit() returns (ok: bool, roots: seq<nat>, freedNodes: seq<nat>, freedTasks: seq<nat>)
      requires Valid()
      modifies this
      ensures Valid() && left == [] && calls == []
      ensures ok <==> !Cyclic(old(dependents)) && !Repeated(old(calls))
      ensures !ok ==> roots == [] && freedTasks == Carried(old(tasks))
      ensures !ok ==> forall t :: multiset(freedTasks)[t] == |CarriersOf(old(tasks), t)|
      ensures !ok ==> NoRepeats(freedNodes) && forall n: nat :: n in freedNodes <==> n < |old(left)|
      ensures ok ==> freedNodes == [] && freedTasks == []
      ensures ok ==> NoRepeats(roots) && forall n: nat :: n in roots <==> n < |old(left)| && Waits(old(calls), n) == {}
    {
      roots, freedNodes, freedTasks := [], [], [];
      var cycle := HasCycle();
      ok := !cycle;
      if cycle {
        freedNodes, freedTasks := FreeAll();
      } else {
        roots := Roots();
      }
      Clear();
    }

    method Clear()
      modifies this
      ensures Valid() && left == [] && calls == []
    {
      tasks, left, dependents, calls := [], [], [], [];
    }

    method FreeAll() returns (freedNodes: seq<nat>, freedTasks: seq<nat>)
      requires Valid()
      ensures freedTasks == Carried(tasks)
      ensures forall t :: multiset(freedTasks)[t] == |CarriersOf(tasks, t)|
      ensures NoRepeats(freedNodes) && forall n: nat :: n in freedNodes <==> n < |left|
    {
      freedNodes, freedTasks := [], [];
      for n := 0 to |tasks|
        invariant freedTasks == Carried(tasks[..n])
        invariant NoRepeats(freedNodes) && forall k: nat :: k in freedNodes <==> k < n
      {
        assert n !in freedNodes;
        freedNodes := freedNodes + [n];
        assert tasks[..n + 1][..n] == tasks[..n];
        if tasks[n].Some? {
          freedTasks := freedTasks + [tasks[n].value];
        }
      }
      assert tasks[..|tasks|] == tasks;
      forall t ensures multiset(freedTasks)[t] == |CarriersOf(tasks, t)|
      {
        CarriedOncePerNode(tasks, t);
      }
    }

    method Roots() returns (roots: seq<nat>)
      requires Valid() && !Repeated(calls)
      ensures NoRepeats(roots) && forall n: nat :: n in roots <==> n < |left| && Waits(calls, n) == {}
    {
      roots := [];
      for n := 0 to |left|
        invariant NoRepeats(roots) && forall k: nat :: k in roots <==> k < n && Waits(calls, k) == {}
      {
        RepeatsShow(calls, n);
        if left[n] == 0 {
          roots := roots + [n];
        }
        assert !RepeatedFor(calls, n);
      }
    }

    lemma ValidIsCovered()
      requires Valid()
      ensures Closed(dependents) && Covered(dependents, left)
    {
      forall n | 0 <= n < |left|
        ensures |Preds(dependents, n, Below(|left|))| <= left[n]
      {
        RepeatsShow(calls, n);
        WaitsAreEdges(calls, |left|, n);
      }
    }
  }

  /** Adding the same dependency twice is enough to have a graph without a cycle rejected. */
  lemma RepeatIsRejected()
    ensures var calls := [Call(1, 0), Call(1, 0)];
      Repeated(calls) && !Cyclic(GraphOf(calls, 2))
  {
    var calls := [Call(1, 0), Call(1, 0)];
    var g := GraphOf(calls, 2);
    assert calls[0] == calls[1];
    assert forall c :: c in calls ==> c == Call(1, 0);
    assert g[1] == {};
    assert g[0] == {1} by { assert calls[0] in calls; }
    assert [0, 1][..1] == [0];
    assert Topological(g, [0, 1]);
    OrderedIsAcyclic(g, [0, 1]);
  }

  lemma {:induction false} NothingNamed(calls: seq<Call>, size: nat, n: nat)
    requires InRange(calls, size) && n >= size
    ensures Left(calls, n) == 0
  {
    if calls != [] {
      NothingNamed(calls[..|calls| - 1], size, n);
    }
  }

  lemma NoDependents(calls: seq<Call>, size: nat)
    requires InRange(calls, size)
    ensures GraphOf(calls, size + 1)[size] == {}
  {
  }

  /** A dependent of a node not yet drained still counts that node. */
  lemma StillCounted(deps: Graph, left: seq<int>, indeg: seq<int>, drained: set<nat>, n: nat, dep: nat)
    requires Covered(deps, left) && Counted(deps, left, indeg, drained)
    requires n < |deps| && n !in drained && dep < |deps| && dep in deps[n]
    requires forall m :: m in drained ==> m < |deps|
    ensures indeg[dep] >= 1
  {
    OneMorePred(deps, dep, drained, n);
    PredsWithin(deps, dep, drained + {n}, Below(|deps|));
  }

  /** Taking one off each dependent of n is draining n. */
  lemma ReleasedOnce(deps: Graph, left: seq<int>, indeg: seq<int>, indeg': seq<int>, drained: set<nat>, n: nat)
    requires Closed(deps) && Covered(deps, left) && Counted(deps, left, indeg, drained)
    requires n < |deps| && n !in drained && indeg[n] == 0
    requires forall m :: m in drained ==> m < |deps| && indeg[m] == 0
    requires |indeg'| == |indeg|
    requires forall k :: 0 <= k < |indeg| ==> indeg'[k] == indeg[k] - if k in deps[n] then 1 else 0
    ensures Counted(deps, left, indeg', drained + {n})
    ensures forall m :: m in drained + {n} ==> indeg'[m] == 0
  {
    forall k | 0 <= k < |indeg|
      ensures indeg'[k] == left[k] - |Preds(deps, k, drained + {n})|
    {
      OneMorePred(deps, k, drained, n);
    }
    forall m | m in drained + {n}
      ensures indeg'[m] == 0
    {
      if m in deps[n] { StillCounted(deps, left, indeg, drained, n, m); }
    }
  }

  lemma StillTopological(deps: Graph, left: seq<int>, indeg: seq<int>, order: seq<nat>, drained: set<nat>, n: nat)
    requires Covered(deps, left) && Counted(deps, left, indeg, drained) && Drained(indeg, order, drained)
    requires Topological(deps, order) && n < |deps| && n !in drained && indeg[n] == 0
    ensures Topological(deps, order + [n])
    ensures NoRepeats(order + [n]) && |order| < |deps|
  {
    ReadyHasNoneLeft(deps, left, indeg, drained, n);
    var order' := order + [n];
    assert n !in order;
    forall k, m | 0 <= k < |order'| && 0 <= m < |deps| && order'[k] in deps[m]
      ensures m in order'[..k]
    {
      assert order'[..k] == order[..k];
      if k == |order| {
        assert order[..k] == order;
      }
    }
    DistinctFits(order', Below(|deps|));
  }

  /** If every node was drained, no counter was more than its edges. */
  lemma AllDrainedNoneRepeated(calls: seq<Call>, left: seq<int>, indeg: seq<int>, drained: set<nat>)
    requires var deps := GraphOf(calls, |left|);
      InRange(calls, |left|) && Covered(deps, left) && Counted(deps, left, indeg, drained)
    requires forall n :: 0 <= n < |left| ==> left[n] == Left(calls, n)
    requires forall n :: n in drained ==> n < |left|
    requires forall n :: 0 <= n < |left| ==> indeg[n] == 0
    ensures !Repeated(calls)
  {
    forall i, j | 0 <= i < j < |calls|
      ensures calls[i] != calls[j]
    {
      var n := calls[i].dependent;
      ReadyHasNoneLeft(GraphOf(calls, |left|), left, indeg, drained, n);
      WaitsAreEdges(calls, |left|, n);
      RepeatsShow(calls, n);
    }
  }

  /** A node left over waits for another one left over. */
  lemma LeftOverWaits(calls: seq<Call>, left: seq<int>, indeg: seq<int>, drained: set<nat>, n: nat)
    requires var deps := GraphOf(calls, |left|);
      InRange(calls, |left|) && Counted(deps, left, indeg, drained)
    requires n < |left| && left[n] == Left(calls, n) && indeg[n] != 0 && !Repeated(calls)
    requires forall n :: n in drained ==> n < |left|
    ensures Preds(GraphOf(calls, |left|), n, Below(|left|) - drained) != {}
  {
    var deps := GraphOf(calls, |left|);
    WaitsAreEdges(calls, |left|, n);
    RepeatsShow(calls, n);
    var all, some := Preds(deps, n, Below(|left|)), Preds(deps, n, drained);
    assert some <= all && some != all;
    var m :| m in all && m !in some;
    assert m in Preds(deps, n, Below(|left|) - drained);
  }

  /** When nothing is ready any more, the nodes left over tell. */
  lemma Verdict(calls: seq<Call>, left: seq<int>, indeg: seq<int>, order: seq<nat>, drained: set<nat>)
    requires var deps := GraphOf(calls, |left|);
      && InRange(calls, |left|) && Closed(deps) && Covered(deps, left) && Counted(deps, left, indeg, drained)
      && Drained(indeg, order, drained) && Topological(deps, order) && IsReady(indeg, [], drained)
    requires forall n :: 0 <= n < |left| ==> left[n] == Left(calls, n)
    ensures |order| != |left| <==> Cyclic(GraphOf(calls, |left|)) || Repeated(calls)
  {
    var deps := GraphOf(calls, |left|);
    DistinctFits(order, Below(|left|));
    if |order| == |left| {
      AllDrained(order, |left|);
      OrderedIsAcyclic(deps, order);
      forall n | 0 <= n < |left|
        ensures indeg[n] == 0
      {
        assert n in order;
      }
      AllDrainedNoneRepeated(calls, left, indeg, drained);
    } else if !Repeated(calls) {
      var u := Below(|left|) - drained;
      SomeLeftOver(order, |left|, drained);
      forall n | n in u
        ensures Preds(deps, n, u) != {}
      {
        assert indeg[n] != 0;
        LeftOverWaits(calls, left, indeg, drained, n);
      }
      StuckIsCyclic(deps, u);
    }
  }

  lemma AllDrained(order: seq<nat>, size: nat)
    requires NoRepeats(order) && |order| == size && forall k :: 0 <= k < size ==> order[k] < size
    ensures forall n: nat :: n < size ==> n in order
  {
    forall n: nat | n < size
      ensures n in order
    {
      if n !in order {
        DistinctFits(order + [n], Below(size));
      }
    }
  }

  lemma SomeLeftOver(order: seq<nat>, size: nat, drained: set<nat>)
    requires |order| < size && forall n: nat :: n in drained ==> n in order
    ensures Below(size) - drained != {}
  {
    if Below(size) - drained == {} {
      var named := Elements(order);
      SubsetSize(Below(size), named);
    }
  }

  function Elements(s: seq<nat>): (e: set<nat>)
    ensures |e| <= |s| && forall n :: n in e <==> n in s
  {
    if s == [] then {} else Elements(s[..|s| - 1]) + {s[|s| - 1]}
  }
}
