/** Directed graphs over nodes 0 .. n: deps[m] holds the nodes that wait for m. */
module DependencyGraph {
  import opened Sequences

  type Graph = seq<set<nat>>

  predicate Closed(deps: Graph)
  {
    forall m :: 0 <= m < |deps| ==> forall n :: n in deps[m] ==> n < |deps|
  }

  predicate IsPath(deps: Graph, p: seq<nat>)
  {
    && p != [] && (forall i :: 0 <= i < |p| ==> p[i] < |deps|)
    && forall i :: 0 <= i < |p| - 1 ==> p[i + 1] in deps[p[i]]
  }

  ghost predicate IsCycle(deps: Graph, p: seq<nat>)
  {
    |p| >= 2 && IsPath(deps, p) && p[0] == p[|p| - 1]
  }

  ghost predicate Cyclic(deps: Graph)
  {
    exists p :: IsCycle(deps, p)
  }

  /** The nodes of `among` that n waits for. */
  function Preds(deps: Graph, n: nat, among: set<nat>): set<nat>
  {
    set m | m in among && m < |deps| && n in deps[m]
  }

  function Below(n: nat): (all: set<nat>)
    ensures |all| == n && forall k: nat :: k in all <==> k < n
  {
    if n == 0 then {} else Below(n - 1) + {n - 1}
  }

  // ---------------------------------------------------------------- no order without acyclicity

  /** Every node comes after all it waits for. */
  ghost predicate Topological(deps: Graph, order: seq<nat>)
  {
    forall k, m :: 0 <= k < |order| && 0 <= m < |deps| && order[k] in deps[m] ==> m in order[..k]
  }

  lemma {:induction false} PathsGoForward(deps: Graph, order: seq<nat>, p: seq<nat>, k: nat)
    requires Topological(deps, order) && IsPath(deps, p) && |p| >= 2
    requires k < |order| && order[k] == p[|p| - 1]
    ensures p[0] in order[..k]
  {
    var last := |p| - 1;
    assert p[last - 1 + 1] in deps[p[last - 1]];
    var j :| 0 <= j < k && order[..k][j] == p[last - 1];
    assert order[..k][j] == order[j];
    if last > 1 {
      var q := p[..last];
      forall i | 0 <= i < |q| - 1
        ensures q[i + 1] in deps[q[i]]
      {
        assert p[i + 1] in deps[p[i]];
      }
      PathsGoForward(deps, order, q, j);
      var i :| 0 <= i < j && order[..j][i] == p[0];
      assert order[..k][i] == p[0];
    }
  }

  lemma OrderedIsAcyclic(deps: Graph, order: seq<nat>)
    requires Closed(deps) && Topological(deps, order) && NoRepeats(order)
    requires forall n: nat :: n < |deps| ==> n in order
    ensures !Cyclic(deps)
  {
    forall p | IsPath(deps, p) && |p| >= 2
      ensures p[0] != p[|p| - 1]
    {
      assert p[|p| - 1] in order;
      var k :| 0 <= k < |order| && order[k] == p[|p| - 1];
      PathsGoForward(deps, order, p, k);
      assert forall j :: 0 <= j < k ==> order[..k][j] == order[j] != order[k];
    }
  }

  // ---------------------------------------------------------------- no way out without a cycle

  lemma {:induction false} WalkBack(deps: Graph, u: set<nat>, length: nat) returns (p: seq<nat>)
    requires u != {} && forall n :: n in u ==> n < |deps|
    requires forall n :: n in u ==> Preds(deps, n, u) != {}
    ensures |p| == length + 1 && IsPath(deps, p) && forall i :: 0 <= i < |p| ==> p[i] in u
  {
    if length == 0 {
      var n :| n in u;
      p := [n];
    } else {
      var q := WalkBack(deps, u, length - 1);
      var m :| m in Preds(deps, q[0], u);
      p := [m] + q;
      forall i | 0 <= i < |p| - 1
        ensures p[i + 1] in deps[p[i]]
      {
        assert i > 0 ==> q[i - 1 + 1] in deps[q[i - 1]];
      }
    }
  }

  lemma {:induction false} DistinctFits(s: seq<nat>, u: set<nat>)
    requires NoRepeats(s) && forall i :: 0 <= i < |s| ==> s[i] in u
    ensures |s| <= |u|
  {
    if s != [] {
      var m := |s| - 1;
      forall i | 0 <= i < m
        ensures s[..m][i] in u - {s[m]}
      {
        assert s[i] != s[m];
      }
      DistinctFits(s[..m], u - {s[m]});
    }
  }

  /** Where every node of a set waits for another in it, there is a cycle. */
  lemma StuckIsCyclic(deps: Graph, u: set<nat>)
    requires u != {} && forall n :: n in u ==> n < |deps|
    requires forall n :: n in u ==> Preds(deps, n, u) != {}
    ensures Cyclic(deps)
  {
    var p := WalkBack(deps, u, |u|);
    if NoRepeats(p) {
      DistinctFits(p, u);
    }
    var i, j :| 0 <= i < j < |p| && p[i] == p[j];
    var c := p[i..j + 1];
    forall k | 0 <= k < |c| - 1
      ensures c[k + 1] in deps[c[k]]
    {
      assert c[k] == p[i + k] && c[k + 1] == p[i + k + 1];
      assert p[(i + k) + 1] in deps[p[i + k]];
    }
    assert IsCycle(deps, c);
  }

  lemma OneMorePred(deps: Graph, n: nat, among: set<nat>, m: nat)
    requires m < |deps| && m !in among
    ensures |Preds(deps, n, among + {m})| == |Preds(deps, n, among)| + if n in deps[m] then 1 else 0
  {
    if n in deps[m] {
      assert Preds(deps, n, among + {m}) == Preds(deps, n, among) + {m};
    } else {
      assert Preds(deps, n, among + {m}) == Preds(deps, n, among);
    }
  }

  lemma PredsWithin(deps: Graph, n: nat, few: set<nat>, many: set<nat>)
    requires few <= many
    ensures Preds(deps, n, few) <= Preds(deps, n, many) && |Preds(deps, n, few)| <= |Preds(deps, n, many)|
  {
    SubsetSize(Preds(deps, n, few), Preds(deps, n, many));
  }

  lemma {:induction false} SubsetSize(a: set<nat>, b: set<nat>)
    requires a <= b
    ensures |a| <= |b| && (|a| == |b| ==> a == b)
  {
    if a != {} {
      var x :| x in a;
      SubsetSize(a - {x}, b - {x});
    }
  }
}
