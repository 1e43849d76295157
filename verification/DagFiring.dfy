/** A submitted task graph at work: any number of threads finish tasks, count dependents down and fire
    them, gates propagating on the spot. One action per atomic access. */
module DagFiring {
  import Runs
  import opened DependencyGraph
  import opened Sequences
  import opened Sums
  import D = TaskDags

  /** A gate has no task; `any` is OR logic, otherwise AND. */
  datatype Kind = Kind(gate: bool, any: bool)

  /** What a thread is in the middle of, innermost call last. */
  datatype Frame = Rooting | Firing(n: nat) | Finishing(n: nat)

  /** remaining[m] holds the dependents that the completion of m has not visited yet; `begun` says that
      this completion has started, that is, that the task of m is finished or the gate m has fired.
      `fires` counts how often a node was dispatched. */
  datatype State = State(
    deps: Graph, kinds: seq<Kind>,
    left: seq<int>, submitted: seq<bool>, begun: seq<bool>, remaining: Graph, roots: set<nat>,
    stacks: seq<seq<Frame>>, fires: seq<nat>)

  datatype Action =
    | FireRoot(t: nat, n: nat)      // Submit calls Fire on the next root
    | TakeTask(t: nat, n: nat)      // a thread has run the task of n and starts OnTaskFinished
    | Visit(t: nat, n: nat)         // OnTaskFinished reaches dependent n
    | Exchange(t: nat)              // Fire swaps the submitted flag
    | Return(t: nat)

  predicate Sized(s: State)
  {
    && |s.kinds| == |s.left| == |s.submitted| == |s.begun| == |s.remaining| == |s.fires| == |s.deps|
    && forall t :: 0 <= t < |s.stacks| ==> forall k :: 0 <= k < |s.stacks[t]| ==> FrameSized(s.stacks[t][k], |s.deps|)
  }

  predicate FrameSized(f: Frame, size: nat)
  {
    f.Rooting? || f.n < size
  }

  function Top(st: seq<Frame>): Frame
    requires st != []
  {
    st[|st| - 1]
  }

  function Pop(st: seq<Frame>): seq<Frame>
    requires st != []
  {
    st[..|st| - 1]
  }

  predicate Enabled(s: State, a: Action)
    requires Sized(s)
  {
    a.t < |s.stacks| &&
    var st := s.stacks[a.t];
    match a
    case FireRoot(_, n) => st != [] && Top(st).Rooting? && n in s.roots && n < |s.deps|
    case TakeTask(_, n) => st == [] && n < |s.deps| && s.submitted[n] && !s.begun[n] && !s.kinds[n].gate
    case Visit(_, n) => st != [] && Top(st).Finishing? && n < |s.deps| && n in s.remaining[Top(st).n]
    case Exchange(_) => st != [] && Top(st).Firing?
    case Return(_) =>
      st != [] && ((Top(st).Rooting? && s.roots == {}) || (Top(st).Finishing? && s.remaining[Top(st).n] == {}))
  }

  function Apply(s: State, a: Action): State
    requires Sized(s) && Enabled(s, a)
  {
    var t, st := a.t, s.stacks[a.t];
    match a
    case FireRoot(_, n) => s.(roots := s.roots - {n}, stacks := s.stacks[t := st + [Firing(n)]])
    case TakeTask(_, n) => s.(begun := s.begun[n := true], stacks := s.stacks[t := st + [Finishing(n)]])
    case Visit(_, n) =>
      var m := Top(st).n;
      var seen := s.(remaining := s.remaining[m := s.remaining[m] - {n}]);
      if s.kinds[n].any then
        seen.(stacks := s.stacks[t := st + [Firing(n)]])
      else if s.left[n] - 1 == 0 then
        seen.(left := s.left[n := 0], stacks := s.stacks[t := st + [Firing(n)]])
      else
        seen.(left := s.left[n := s.left[n] - 1])
    case Exchange(_) =>
      var n := Top(st).n;
      if s.submitted[n] then
        s.(stacks := s.stacks[t := Pop(st)])
      else if s.kinds[n].gate then
        s.(submitted := s.submitted[n := true], fires := s.fires[n := s.fires[n] + 1],
           begun := s.begun[n := true], stacks := s.stacks[t := Pop(st) + [Finishing(n)]])
      else
        s.(submitted := s.submitted[n := true], fires := s.fires[n := s.fires[n] + 1],
           stacks := s.stacks[t := Pop(st)])
    case Return(_) => s.(stacks := s.stacks[t := Pop(st)])
  }

  ghost predicate Next(s: State, a: Action, s': State)
  {
    Sized(s) && Enabled(s, a) && s' == Apply(s, a)
  }

  /** A graph in which every pair was added once, about to be submitted by thread 0. */
  ghost predicate Init(s: State)
  {
    && |s.kinds| == |s.left| == |s.deps| && Closed(s.deps)
    && s.submitted == seq(|s.deps|, _ => false) && s.begun == s.submitted
    && s.fires == seq(|s.deps|, _ => 0) && s.remaining == s.deps
    && (forall n :: 0 <= n < |s.deps| ==> s.left[n] == |Preds(s.deps, n, Below(|s.deps|))|)
    && (forall n: nat :: n in s.roots <==> n < |s.deps| && s.left[n] == 0)
    && s.stacks != [] && s.stacks[0] == [Rooting] && forall t :: 1 <= t < |s.stacks| ==> s.stacks[t] == []
  }

  // ---------------------------------------------------------------- the meaning of the gates

  ghost predicate IsRoot(deps: Graph, n: nat)
  {
    forall m :: 0 <= m < |deps| ==> n !in deps[m]
  }

  /** The Boolean condition of node n over the nodes that have finished. */
  ghost predicate IsReady(deps: Graph, kinds: seq<Kind>, begun: seq<bool>, n: nat)
    requires |begun| == |kinds| == |deps| && n < |deps|
  {
    || IsRoot(deps, n)
    || if kinds[n].any then exists m :: 0 <= m < |deps| && n in deps[m] && begun[m]
       else forall m :: 0 <= m < |deps| && n in deps[m] ==> begun[m]
  }

  // ---------------------------------------------------------------- the invariant

  ghost predicate On(stacks: seq<seq<Frame>>, f: Frame)
  {
    exists t, k :: 0 <= t < |stacks| && 0 <= k < |stacks[t]| && stacks[t][k] == f
  }

  /** The same condition over the edges that have been visited. */
  ghost predicate Triggered(deps: Graph, any: bool, remaining: Graph, n: nat)
    requires |remaining| == |deps|
  {
    || IsRoot(deps, n)
    || if any then exists m :: 0 <= m < |deps| && n in deps[m] && n !in remaining[m]
       else forall m :: 0 <= m < |deps| ==> n !in remaining[m]
  }

  ghost predicate Counting(kinds: seq<Kind>, left: seq<int>, remaining: Graph)
    requires |kinds| == |left| == |remaining|
  {
    forall n :: 0 <= n < |left| && !kinds[n].any ==> left[n] == |Preds(remaining, n, Below(|remaining|))|
  }

  ghost predicate NodeOk(deps: set<nat>, kind: Kind, submitted: bool, begun: bool, remaining: set<nat>, fires: nat)
  {
    && (begun ==> submitted) && (kind.gate && submitted ==> begun)
    && remaining <= deps && (!begun ==> remaining == deps)
    && fires == if submitted then 1 else 0
  }

  ghost predicate Looping(begun: seq<bool>, remaining: Graph, stacks: seq<seq<Frame>>)
    requires |begun| == |remaining|
  {
    forall n :: 0 <= n < |begun| ==>
      && (begun[n] && remaining[n] != {} ==> On(stacks, Finishing(n)))
      && (On(stacks, Finishing(n)) ==> begun[n])
  }

  ghost predicate Rooted(deps: Graph, roots: set<nat>, stacks: seq<seq<Frame>>)
  {
    && (roots != {} ==> On(stacks, Rooting))
    && forall n :: n in roots ==> n < |deps| && IsRoot(deps, n)
  }

  ghost predicate Asked(submitted: seq<bool>, roots: set<nat>, stacks: seq<seq<Frame>>, n: nat)
    requires n < |submitted|
  {
    submitted[n] || n in roots || On(stacks, Firing(n))
  }

  ghost predicate Asking(s: State)
    requires Sized(s)
  {
    forall n :: 0 <= n < |s.deps| ==>
      (Triggered(s.deps, s.kinds[n].any, s.remaining, n) <==> Asked(s.submitted, s.roots, s.stacks, n))
  }

  ghost predicate NodesOk(s: State)
    requires Sized(s)
  {
    forall n :: 0 <= n < |s.deps| ==>
      NodeOk(s.deps[n], s.kinds[n], s.submitted[n], s.begun[n], s.remaining[n], s.fires[n])
  }

  ghost predicate Inv(s: State)
  {
    && Sized(s) && Closed(s.deps)
    && Counting(s.kinds, s.left, s.remaining)
    && NodesOk(s)
    && Looping(s.begun, s.remaining, s.stacks)
    && Rooted(s.deps, s.roots, s.stacks)
    && Asking(s)
  }

  // ---------------------------------------------------------------- stacks

  lemma OnAfterPush(stacks: seq<seq<Frame>>, t: nat, f: Frame)
    requires t < |stacks|
    ensures forall g :: On(stacks[t := stacks[t] + [f]], g) <==> On(stacks, g) || g == f
  {
    var after := stacks[t := stacks[t] + [f]];
    forall g ensures On(after, g) <==> On(stacks, g) || g == f
    {
      if On(stacks, g) {
        var u, k :| 0 <= u < |stacks| && 0 <= k < |stacks[u]| && stacks[u][k] == g;
        assert after[u][k] == g;
      }
      if g == f { assert after[t][|stacks[t]|] == g; }
      if On(after, g) && g != f {
        var u, k :| 0 <= u < |after| && 0 <= k < |after[u]| && after[u][k] == g;
        assert stacks[u][k] == g;
      }
    }
  }

  /** Returning forgets nothing but, perhaps, the frame on top. */
  lemma OnAfterPop(stacks: seq<seq<Frame>>, t: nat)
    requires t < |stacks| && stacks[t] != []
    ensures forall g :: On(stacks[t := Pop(stacks[t])], g) ==> On(stacks, g)
    ensures forall g :: On(stacks, g) && g != Top(stacks[t]) ==> On(stacks[t := Pop(stacks[t])], g)
  {
    var after := stacks[t := Pop(stacks[t])];
    forall g | On(after, g) ensures On(stacks, g)
    {
      var u, k :| 0 <= u < |after| && 0 <= k < |after[u]| && after[u][k] == g;
      assert stacks[u][k] == g;
    }
    forall g | On(stacks, g) && g != Top(stacks[t]) ensures On(after, g)
    {
      var u, k :| 0 <= u < |stacks| && 0 <= k < |stacks[u]| && stacks[u][k] == g;
      assert after[u][k] == g;
    }
  }

  // ---------------------------------------------------------------- every action keeps the invariant

  lemma FireRootKeepsInv(s: State, t: nat, n: nat)
    requires Inv(s) && Enabled(s, FireRoot(t, n))
    ensures Inv(Apply(s, FireRoot(t, n)))
  {
    OnAfterPush(s.stacks, t, Firing(n));
    var s' := Apply(s, FireRoot(t, n));
    assert s.stacks[t][|s.stacks[t]| - 1] == Rooting;
    assert forall k :: 0 <= k < |s.deps| ==> (Asked(s'.submitted, s'.roots, s'.stacks, k) <==> Asked(s.submitted, s.roots, s.stacks, k));
  }

  lemma TakeTaskKeepsInv(s: State, t: nat, n: nat)
    requires Inv(s) && Enabled(s, TakeTask(t, n))
    ensures Inv(Apply(s, TakeTask(t, n)))
  {
    OnAfterPush(s.stacks, t, Finishing(n));
    var s' := Apply(s, TakeTask(t, n));
    assert forall k :: 0 <= k < |s.deps| ==> (Asked(s'.submitted, s'.roots, s'.stacks, k) <==> Asked(s.submitted, s.roots, s.stacks, k));
  }

  lemma ReturnKeepsInv(s: State, t: nat)
    requires Inv(s) && Enabled(s, Return(t))
    ensures Inv(Apply(s, Return(t)))
  {
    OnAfterPop(s.stacks, t);
    var s' := Apply(s, Return(t));
    assert forall k :: 0 <= k < |s.deps| ==> (Asked(s'.submitted, s'.roots, s'.stacks, k) <==> Asked(s.submitted, s.roots, s.stacks, k));
  }

  lemma ExchangeKeepsInv(s: State, t: nat)
    requires Inv(s) && Enabled(s, Exchange(t))
    ensures Inv(Apply(s, Exchange(t)))
  {
    var s' := Apply(s, Exchange(t));
    var n := Top(s.stacks[t]).n;
    var popped := s.stacks[t := Pop(s.stacks[t])];
    OnAfterPop(s.stacks, t);
    assert s.stacks[t][|s.stacks[t]| - 1] == Firing(n) && On(s.stacks, Firing(n));
    assert Asked(s.submitted, s.roots, s.stacks, n);
    if !s.submitted[n] && s.kinds[n].gate {
      OnAfterPush(popped, t, Finishing(n));
      assert s'.stacks == popped[t := popped[t] + [Finishing(n)]];
    }
    assert forall k :: 0 <= k < |s.deps| ==> (Asked(s'.submitted, s'.roots, s'.stacks, k) <==> Asked(s.submitted, s.roots, s.stacks, k));
  }

  /** Visiting one edge takes that edge, and no other, off what remains. */
  lemma VisitedEdge(remaining: Graph, m: nat, n: nat, k: nat)
    requires m < |remaining| && n in remaining[m] && k < |remaining|
    ensures var after := remaining[m := remaining[m] - {n}];
      |Preds(after, k, Below(|remaining|))| == |Preds(remaining, k, Below(|remaining|))| - if k == n then 1 else 0
  {
    var after, all := remaining[m := remaining[m] - {n}], Below(|remaining|);
    if k == n {
      assert Preds(remaining, k, all) == Preds(after, k, all) + {m};
    } else {
      assert Preds(remaining, k, all) == Preds(after, k, all);
    }
  }

  lemma VisitKeepsCounting(s: State, t: nat, n: nat)
    requires Inv(s) && Enabled(s, Visit(t, n))
    ensures var s' := Apply(s, Visit(t, n)); Counting(s'.kinds, s'.left, s'.remaining)
  {
    var s' := Apply(s, Visit(t, n));
    var m := Top(s.stacks[t]).n;
    forall k | 0 <= k < |s.left| && !s.kinds[k].any
      ensures s'.left[k] == |Preds(s'.remaining, k, Below(|s.remaining|))|
    {
      VisitedEdge(s.remaining, m, n, k);
    }
  }

  /** An AND node is triggered exactly when its counter has come down to zero. */
  lemma CountedDown(s: State, n: nat)
    requires Sized(s) && Counting(s.kinds, s.left, s.remaining) && n < |s.deps| && !s.kinds[n].any
    ensures s.left[n] == 0 <==> forall m :: 0 <= m < |s.deps| ==> n !in s.remaining[m]
  {
    var preds := Preds(s.remaining, n, Below(|s.deps|));
    assert forall m: nat :: m in preds <==> m < |s.deps| && n in s.remaining[m];
    if s.left[n] == 0 {
      assert preds == {};
      assert forall m :: 0 <= m < |s.deps| ==> m !in preds;
    } else {
      assert preds != {};
    }
  }

  /** A visit asks for its dependent exactly when it triggers it. */
  lemma VisitTriggersItsNode(s: State, t: nat, n: nat)
    requires Inv(s) && Enabled(s, Visit(t, n))
    ensures var s' := Apply(s, Visit(t, n));
      Triggered(s.deps, s.kinds[n].any, s'.remaining, n) <==> Asked(s'.submitted, s'.roots, s'.stacks, n)
  {
    var s' := Apply(s, Visit(t, n));
    var m := Top(s.stacks[t]).n;
    assert NodeOk(s.deps[m], s.kinds[m], s.submitted[m], s.begun[m], s.remaining[m], s.fires[m]);
    assert n in s.deps[m] && n !in s'.remaining[m];
    OnAfterPush(s.stacks, t, Firing(n));
    if !s.kinds[n].any {
      VisitKeepsCounting(s, t, n);
      CountedDown(s', n);
      assert !Triggered(s.deps, false, s.remaining, n);
      assert !Asked(s.submitted, s.roots, s.stacks, n);
    }
  }

  /** Visiting an edge to n triggers no other node. */
  lemma TriggersOnlyItsNode(deps: Graph, any: bool, remaining: Graph, m: nat, n: nat, k: nat)
    requires |remaining| == |deps| && m < |deps| && k != n
    ensures var after := remaining[m := remaining[m] - {n}];
      Triggered(deps, any, after, k) <==> Triggered(deps, any, remaining, k)
  {
    var after := remaining[m := remaining[m] - {n}];
    assert forall j :: 0 <= j < |deps| ==> (k in after[j] <==> k in remaining[j]);
  }

  lemma VisitLeavesOthers(s: State, t: nat, n: nat, k: nat)
    requires Sized(s) && Enabled(s, Visit(t, n)) && k < |s.deps| && k != n
    requires Triggered(s.deps, s.kinds[k].any, s.remaining, k) <==> Asked(s.submitted, s.roots, s.stacks, k)
    ensures var s' := Apply(s, Visit(t, n));
      Triggered(s.deps, s.kinds[k].any, s'.remaining, k) <==> Asked(s'.submitted, s'.roots, s'.stacks, k)
  {
    OnAfterPush(s.stacks, t, Firing(n));
    TriggersOnlyItsNode(s.deps, s.kinds[k].any, s.remaining, Top(s.stacks[t]).n, n, k);
  }

  lemma VisitKeepsLooping(begun: seq<bool>, remaining: Graph, stacks: seq<seq<Frame>>, t: nat, n: nat)
    requires |begun| == |remaining| && Looping(begun, remaining, stacks)
    requires t < |stacks| && stacks[t] != [] && Top(stacks[t]).Finishing? && Top(stacks[t]).n < |begun|
    ensures var m := Top(stacks[t]).n;
      var after := remaining[m := remaining[m] - {n}];
      Looping(begun, after, stacks) && Looping(begun, after, stacks[t := stacks[t] + [Firing(n)]])
  {
    assert stacks[t][|stacks[t]| - 1] == Finishing(Top(stacks[t]).n);
    assert On(stacks, Finishing(Top(stacks[t]).n));
    OnAfterPush(stacks, t, Firing(n));
  }

  lemma VisitKeepsNodes(s: State, t: nat, n: nat)
    requires Sized(s) && NodesOk(s) && Enabled(s, Visit(t, n)) && s.begun[Top(s.stacks[t]).n]
    ensures var s' := Apply(s, Visit(t, n)); Sized(s') && NodesOk(s')
  {
    var m := Top(s.stacks[t]).n;
    assert NodeOk(s.deps[m], s.kinds[m], s.submitted[m], s.begun[m], s.remaining[m], s.fires[m]);
  }

  lemma VisitKeepsAsking(s: State, t: nat, n: nat)
    requires Inv(s) && Enabled(s, Visit(t, n)) && Sized(Apply(s, Visit(t, n)))
    ensures Asking(Apply(s, Visit(t, n)))
  {
    VisitTriggersItsNode(s, t, n);
    forall k | 0 <= k < |s.deps| && k != n
      ensures var s' := Apply(s, Visit(t, n));
        Triggered(s.deps, s.kinds[k].any, s'.remaining, k) <==> Asked(s'.submitted, s'.roots, s'.stacks, k)
    {
      VisitLeavesOthers(s, t, n, k);
    }
  }

  lemma LoopingNodeHasBegun(s: State, t: nat)
    requires Inv(s) && t < |s.stacks| && s.stacks[t] != [] && Top(s.stacks[t]).Finishing?
    ensures s.begun[Top(s.stacks[t]).n]
  {
    var st := s.stacks[t];
    assert st[|st| - 1] == Finishing(Top(st).n);
    assert On(s.stacks, Finishing(Top(st).n));
  }

  lemma VisitKeepsLoops(s: State, t: nat, n: nat)
    requires Sized(s) && Enabled(s, Visit(t, n))
    requires Looping(s.begun, s.remaining, s.stacks) && Rooted(s.deps, s.roots, s.stacks)
    ensures var s' := Apply(s, Visit(t, n));
      |s'.begun| == |s'.remaining| && Looping(s'.begun, s'.remaining, s'.stacks) && Rooted(s'.deps, s'.roots, s'.stacks)
  {
    VisitKeepsLooping(s.begun, s.remaining, s.stacks, t, n);
    VisitKeepsRooted(s.deps, s.roots, s.stacks, t, n);
  }

  lemma VisitKeepsInv(s: State, t: nat, n: nat)
    requires Inv(s) && Enabled(s, Visit(t, n))
    ensures Inv(Apply(s, Visit(t, n)))
  {
    LoopingNodeHasBegun(s, t);
    VisitKeepsNodes(s, t, n);
    VisitKeepsLoops(s, t, n);
    VisitKeepsCounting(s, t, n);
    VisitKeepsAsking(s, t, n);
  }

  lemma VisitKeepsRooted(deps: Graph, roots: set<nat>, stacks: seq<seq<Frame>>, t: nat, n: nat)
    requires t < |stacks| && Rooted(deps, roots, stacks)
    ensures Rooted(deps, roots, stacks[t := stacks[t] + [Firing(n)]])
  {
    OnAfterPush(stacks, t, Firing(n));
  }

  lemma StepKeepsInv(s: State, a: Action)
    requires Inv(s) && Enabled(s, a)
    ensures Inv(Apply(s, a))
  {
    match a
    case FireRoot(t, n) => FireRootKeepsInv(s, t, n);
    case TakeTask(t, n) => TakeTaskKeepsInv(s, t, n);
    case Visit(t, n) => VisitKeepsInv(s, t, n);
    case Exchange(t) => ExchangeKeepsInv(s, t);
    case Return(t) => ReturnKeepsInv(s, t);
  }

  lemma InitHoldsInv(s: State)
    requires Init(s)
    ensures Inv(s)
  {
    assert s.stacks[0][0] == Rooting;
    forall n | 0 <= n < |s.deps|
      ensures s.left[n] == 0 <==> IsRoot(s.deps, n)
      ensures Triggered(s.deps, s.kinds[n].any, s.remaining, n) <==> IsRoot(s.deps, n)
    {
      var preds := Preds(s.deps, n, Below(|s.deps|));
      assert forall m: nat :: m in preds <==> m < |s.deps| && n in s.deps[m];
      if preds == {} {
        assert forall m :: 0 <= m < |s.deps| ==> m !in preds;
      }
    }
    assert forall n: nat :: !On(s.stacks, Firing(n)) && !On(s.stacks, Finishing(n));
  }

  lemma ReachableHoldsInv(s: State)
    requires Runs.Reachable(Init, Next, s)
    ensures Inv(s)
  {
    forall r | Init(r)
      ensures Inv(r)
    {
      InitHoldsInv(r);
    }
    forall r: State, a, r' | Inv(r) && Next(r, a, r')
      ensures Inv(r')
    {
      StepKeepsInv(r, a);
    }
    Runs.ReachableKeepsInvariant(Init, Next, Inv, s);
  }

  // ---------------------------------------------------------------- firing is Boolean readiness

  /** A node is dispatched at most once, and only when its condition over the finished nodes holds. */
  lemma FiredOnceWhenReady(s: State, n: nat)
    requires Runs.Reachable(Init, Next, s) && n < |s.deps|
    ensures Inv(s) && s.fires[n] <= 1
    ensures s.fires[n] == 1 ==> IsReady(s.deps, s.kinds, s.begun, n)
  {
    ReachableHoldsInv(s);
    assert NodeOk(s.deps[n], s.kinds[n], s.submitted[n], s.begun[n], s.remaining[n], s.fires[n]);
    if s.submitted[n] {
      assert Asked(s.submitted, s.roots, s.stacks, n);
      TriggeredIsReady(s, n);
    }
  }

  lemma TriggeredIsReady(s: State, n: nat)
    requires Inv(s) && n < |s.deps| && Triggered(s.deps, s.kinds[n].any, s.remaining, n)
    ensures IsReady(s.deps, s.kinds, s.begun, n)
  {
    forall m | 0 <= m < |s.deps| && n in s.deps[m] && n !in s.remaining[m]
      ensures s.begun[m]
    {
      assert NodeOk(s.deps[m], s.kinds[m], s.submitted[m], s.begun[m], s.remaining[m], s.fires[m]);
    }
  }

  predicate Quiet(s: State)
  {
    forall t :: 0 <= t < |s.stacks| ==> s.stacks[t] == []
  }

  /** Whenever no completion is running, exactly the nodes whose condition holds have fired. */
  lemma QuietFiredIffReady(s: State, n: nat)
    requires Runs.Reachable(Init, Next, s) && n < |s.deps| && Quiet(s)
    ensures Inv(s)
    ensures s.fires[n] == 1 <==> IsReady(s.deps, s.kinds, s.begun, n)
  {
    FiredOnceWhenReady(s, n);
    if IsReady(s.deps, s.kinds, s.begun, n) {
      forall m | 0 <= m < |s.deps| && s.begun[m]
        ensures s.remaining[m] == {}
      {
        assert !On(s.stacks, Finishing(m));
      }
      forall m | 0 <= m < |s.deps| && !s.begun[m]
        ensures s.remaining[m] == s.deps[m]
      {
        assert NodeOk(s.deps[m], s.kinds[m], s.submitted[m], s.begun[m], s.remaining[m], s.fires[m]);
      }
      forall m | 0 <= m < |s.deps|
        ensures s.remaining[m] <= s.deps[m]
      {
        assert NodeOk(s.deps[m], s.kinds[m], s.submitted[m], s.begun[m], s.remaining[m], s.fires[m]);
      }
      assert Triggered(s.deps, s.kinds[n].any, s.remaining, n);
      assert Asked(s.submitted, s.roots, s.stacks, n);
      assert !On(s.stacks, Rooting) && !On(s.stacks, Firing(n));
      assert NodeOk(s.deps[n], s.kinds[n], s.submitted[n], s.begun[n], s.remaining[n], s.fires[n]);
    }
  }

  // ---------------------------------------------------------------- every run ends, with everything fired

  function Unbegun(begun: bool): nat { if begun then 0 else 1 }

  function EdgesLeft(dependents: set<nat>): nat { |dependents| }

  function Depth(st: seq<Frame>): nat { |st| }

  /** Bounds the number of steps still to come, gate recursion included. */
  function Work(s: State): nat
  {
    2 * Sum(s.begun, Unbegun) + 2 * Sum(s.remaining, EdgesLeft) + 2 * |s.roots| + Sum(s.stacks, Depth)
  }

  lemma VisitDecreasesWork(s: State, t: nat, n: nat)
    requires Sized(s) && Enabled(s, Visit(t, n))
    ensures Work(Apply(s, Visit(t, n))) < Work(s)
  {
    var m := Top(s.stacks[t]).n;
    SumAfter(s.remaining, m, s.remaining[m] - {n}, EdgesLeft);
    SumAfter(s.stacks, t, s.stacks[t] + [Firing(n)], Depth);
  }

  lemma StepDecreasesWork(s: State, a: Action)
    requires Inv(s) && Enabled(s, a)
    ensures Work(Apply(s, a)) < Work(s)
  {
    if a.Visit? {
      VisitDecreasesWork(s, a.t, a.n);
    } else {
      SumAfter(s.stacks, a.t, Apply(s, a).stacks[a.t], Depth);
      if a.TakeTask? { SumAfter(s.begun, a.n, true, Unbegun); }
      if a.Exchange? {
        var n := Top(s.stacks[a.t]).n;
        assert NodeOk(s.deps[n], s.kinds[n], s.submitted[n], s.begun[n], s.remaining[n], s.fires[n]);
        SumAfter(s.begun, n, true, Unbegun);
      }
    }
  }

  /** No run is longer than the work there was at the start. */
  lemma {:induction false} RunsEnd(states: seq<State>, actions: seq<Action>)
    requires Runs.IsRun(Init, Next, states, actions)
    ensures |actions| + Work(states[|actions|]) <= Work(states[0])
    decreases |actions|
  {
    if actions != [] {
      var n := |actions| - 1;
      var states', actions' := states[..n + 1], actions[..n];
      assert Runs.IsRun(Init, Next, states', actions') && states'[n] == states[n];
      RunsEnd(states', actions');
      assert Next(states[n], actions[n], states[n + 1]);
      ReachableHoldsInv(states[n]);
      StepDecreasesWork(states[n], actions[n]);
    }
  }

  ghost predicate HasThread(s: State) { s.stacks != [] }

  /** Where no thread can take a step, none is in the middle of anything and every fired task has finished. */
  lemma StuckIsQuiet(s: State)
    requires Inv(s) && HasThread(s) && forall a :: !Enabled(s, a)
    ensures Quiet(s)
    ensures forall n :: 0 <= n < |s.deps| && s.submitted[n] ==> s.begun[n]
  {
    forall t | 0 <= t < |s.stacks|
      ensures s.stacks[t] == []
    {
      var st := s.stacks[t];
      if st != [] {
        var a := SomeStepOfThread(s, t);
      }
    }
    forall n | 0 <= n < |s.deps| && s.submitted[n]
      ensures s.begun[n]
    {
      assert !Enabled(s, TakeTask(0, n));
      assert NodeOk(s.deps[n], s.kinds[n], s.submitted[n], s.begun[n], s.remaining[n], s.fires[n]);
    }
  }

  /** A thread in the middle of something can always go on. */
  lemma SomeStepOfThread(s: State, t: nat) returns (a: Action)
    requires Inv(s) && t < |s.stacks| && s.stacks[t] != []
    ensures Enabled(s, a)
  {
    var top := Top(s.stacks[t]);
    if top.Rooting? && s.roots != {} {
      var n :| n in s.roots;
      a := FireRoot(t, n);
    } else if top.Firing? {
      a := Exchange(t);
    } else if top.Finishing? && s.remaining[top.n] != {} {
      var m := top.n;
      var n :| n in s.remaining[m];
      assert NodeOk(s.deps[m], s.kinds[m], s.submitted[m], s.begun[m], s.remaining[m], s.fires[m]);
      a := Visit(t, n);
    } else {
      a := Return(t);
    }
  }

  function Unfired(submitted: seq<bool>): set<nat>
  {
    set n | 0 <= n < |submitted| && !submitted[n]
  }

  /** A node that has not fired waits for another that has not. */
  lemma UnfiredWaits(s: State, n: nat)
    requires Runs.Reachable(Init, Next, s) && Sized(s) && Quiet(s) && n < |s.deps| && !s.submitted[n]
    requires forall m :: 0 <= m < |s.deps| && s.submitted[m] ==> s.begun[m]
    ensures Preds(s.deps, n, Unfired(s.submitted)) != {}
  {
    QuietFiredIffReady(s, n);
    assert NodeOk(s.deps[n], s.kinds[n], s.submitted[n], s.begun[n], s.remaining[n], s.fires[n]);
    var m :| 0 <= m < |s.deps| && n in s.deps[m] && !s.begun[m];
    assert m in Preds(s.deps, n, Unfired(s.submitted));
  }

  /** On a graph without cycles, a run that cannot go on has dispatched every node exactly once. */
  lemma AllFireWhenAcyclic(s: State)
    requires Runs.Reachable(Init, Next, s) && !Cyclic(s.deps)
    requires Sized(s) && forall a :: !Enabled(s, a)
    ensures forall n :: 0 <= n < |s.deps| ==> s.fires[n] == 1 && s.begun[n]
  {
    ReachableHoldsInv(s);
    Runs.ReachableKeepsInvariant(Init, Next, HasThread, s);
    StuckIsQuiet(s);
    var u := Unfired(s.submitted);
    if u != {} {
      forall n | n in u
        ensures Preds(s.deps, n, u) != {}
      {
        UnfiredWaits(s, n);
      }
      StuckIsCyclic(s.deps, u);
    }
    forall n | 0 <= n < |s.deps|
      ensures s.fires[n] == 1 && s.begun[n]
    {
      assert n !in u;
      assert NodeOk(s.deps[n], s.kinds[n], s.submitted[n], s.begun[n], s.remaining[n], s.fires[n]);
    }
  }

  // ---------------------------------------------------------------- one completion per node

  ghost predicate Single(stacks: seq<seq<Frame>>)
  {
    forall t, k, u, l ::
      0 <= t < |stacks| && 0 <= k < |stacks[t]| && 0 <= u < |stacks| && 0 <= l < |stacks[u]| &&
      stacks[t][k].Finishing? && stacks[t][k] == stacks[u][l] ==>
      t == u && k == l
  }

  lemma PushKeepsSingle(stacks: seq<seq<Frame>>, t: nat, f: Frame)
    requires t < |stacks| && Single(stacks) && (f.Finishing? ==> !On(stacks, f))
    ensures Single(stacks[t := stacks[t] + [f]])
  {
  }

  lemma PopKeepsSingle(stacks: seq<seq<Frame>>, t: nat)
    requires t < |stacks| && Single(stacks) && stacks[t] != []
    ensures Single(stacks[t := Pop(stacks[t])])
  {
  }

  ghost predicate InvSingle(s: State) { Inv(s) && Single(s.stacks) }

  lemma StepKeepsSingle(s: State, a: Action)
    requires InvSingle(s) && Enabled(s, a)
    ensures Single(Apply(s, a).stacks)
  {
    var t, st := a.t, s.stacks[a.t];
    match a
    case FireRoot(_, n) => PushKeepsSingle(s.stacks, t, Firing(n));
    case TakeTask(_, n) => PushKeepsSingle(s.stacks, t, Finishing(n));
    case Visit(_, n) => PushKeepsSingle(s.stacks, t, Firing(n));
    case Exchange(_) =>
      var n, popped := Top(st).n, s.stacks[t := Pop(st)];
      PopKeepsSingle(s.stacks, t);
      OnAfterPop(s.stacks, t);
      assert NodeOk(s.deps[n], s.kinds[n], s.submitted[n], s.begun[n], s.remaining[n], s.fires[n]);
      if !s.submitted[n] {
        assert !On(s.stacks, Finishing(n));
        PushKeepsSingle(popped, t, Finishing(n));
        assert popped[t := popped[t] + [Finishing(n)]] == s.stacks[t := Pop(st) + [Finishing(n)]];
      }
    case Return(_) => PopKeepsSingle(s.stacks, t);
  }

  /** No two threads, and no two calls of one, are ever in the completion of the same node. */
  lemma OneCompletionPerNode(s: State)
    requires Runs.Reachable(Init, Next, s)
    ensures Single(s.stacks)
  {
    forall r | Init(r)
      ensures InvSingle(r)
    {
      InitHoldsInv(r);
    }
    forall r: State, a, r' | InvSingle(r) && Next(r, a, r')
      ensures InvSingle(r')
    {
      StepKeepsInv(r, a);
      StepKeepsSingle(r, a);
    }
    Runs.ReachableKeepsInvariant(Init, Next, InvSingle, s);
  }

  // ---------------------------------------------------------------- from the build to the run

  /** What Submit accepts starts a run: the counters are the in-degrees and the roots those without any. */
  lemma AcceptedGraphStarts(calls: seq<D.Call>, kinds: seq<Kind>, left: seq<int>, threads: nat)
    requires D.InRange(calls, |left|) && |kinds| == |left| && threads > 0
    requires forall n :: 0 <= n < |left| ==> left[n] == D.Left(calls, n)
    requires !D.Repeated(calls)
    ensures Init(Submitted(D.GraphOf(calls, |left|), kinds, left, threads))
  {
    forall n | 0 <= n < |left|
      ensures left[n] == |Preds(D.GraphOf(calls, |left|), n, Below(|left|))|
    {
      D.WaitsAreEdges(calls, |left|, n);
      D.RepeatsShow(calls, n);
    }
  }

  function Submitted(deps: Graph, kinds: seq<Kind>, left: seq<int>, threads: nat): State
    requires threads > 0
  {
    State(deps, kinds, left, seq(|deps|, _ => false), seq(|deps|, _ => false), deps,
          set n: nat | n in Below(|left|) && n < |left| && left[n] == 0,
          [[Rooting]] + seq(threads - 1, _ => []), seq(|deps|, _ => 0))
  }

  /** Submit as a whole: what it accepts is in the state the machine starts from, about to fire exactly the
      roots it has collected; AllFireWhenAcyclic says how such a run ends. */
  method SubmitStarts(dag: D.TaskDag, ghost kinds: seq<Kind>, ghost threads: nat)
    returns (ok: bool, roots: seq<nat>, ghost run: State)
    requires dag.Valid() && |kinds| == |dag.left| && threads > 0
    modifies dag
    ensures dag.Valid() && dag.left == []
    ensures ok <==> !Cyclic(old(dag.dependents)) && !D.Repeated(old(dag.calls))
    ensures ok ==> Init(run) && run.deps == old(dag.dependents) && run.kinds == kinds && !Cyclic(run.deps)
    ensures ok ==> NoRepeats(roots) && forall n: nat :: n in roots <==> n in run.roots
    ensures !ok ==> roots == []
  {
    run := Submitted(dag.dependents, kinds, dag.left, threads);
    ghost var calls, left := dag.calls, dag.left;
    var freedNodes, freedTasks;
    ok, roots, freedNodes, freedTasks := dag.Submit();
    if ok {
      AcceptedGraphStarts(calls, kinds, left, threads);
      RootsAreReady(calls, left, roots, run);
    }
  }

  lemma RootsAreReady(calls: seq<D.Call>, left: seq<int>, roots: seq<nat>, run: State)
    requires !D.Repeated(calls) && |run.deps| == |left| && forall n :: 0 <= n < |left| ==> left[n] == D.Left(calls, n)
    requires forall n: nat :: n in run.roots <==> n < |left| && left[n] == 0
    requires forall n: nat :: n in roots <==> n < |left| && D.Waits(calls, n) == {}
    ensures forall n: nat :: n in roots <==> n in run.roots
  {
    forall n: nat | n < |left|
      ensures n in roots <==> n in run.roots
    {
      D.RepeatsShow(calls, n);
      assert !D.RepeatedFor(calls, n);
    }
  }
}
