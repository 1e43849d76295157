/** What the list does not promise: two runs that show why removers must take turns, and that a retired node
    may still be on the list. */
module ListLimits {
  import Runs
  import opened ListProtocol

  ghost predicate IsReachable(s: State)
  {
    Runs.Reachable(Init, Next, s)
  }

  function With(s: State, i: nat, t: Thread): State
    requires i < |s.threads|
  {
    s.(threads := s.threads[i := t], now := s.now + 1)
  }

  // ---------------------------------------------------------------- single steps

  lemma Stepped(s: State, a: Action)
    requires IsReachable(s) && Enabled(s, a)
    ensures Sized(s) && IsReachable(Apply(s, a))
  {
    ReachableHoldsInv(s);
    Runs.StepStaysReachable(Init, Next, s, a, Apply(s, a));
  }

  lemma Began(s: State, i: nat, op: Op)
    requires IsReachable(s) && Enabled(s, Begin(i, op))
    ensures IsReachable(With(s, i, Start(op)))
  {
    Stepped(s, Begin(i, op));
  }

  lemma HeadLoaded(s: State, i: nat, absent: bool)
    requires IsReachable(s) && Enabled(s, LoadHead(i)) && |s.nodes| > 0
    requires absent == !Present(s.nodes, s.threads[i].op.key)
    ensures IsReachable(With(s, i, At(s.threads[i].op, HEAD, s.nodes[HEAD].next, absent)))
  {
    Stepped(s, LoadHead(i));
  }

  lemma LookedAndFound(s: State, i: nat)
    requires IsReachable(s) && Enabled(s, Look(i)) && s.threads[i].op.Removing? && s.threads[i].curr < |s.nodes|
    requires var n := s.nodes[s.threads[i].curr]; !n.marked && n.key == s.threads[i].op.key
    ensures var t := s.threads[i]; IsReachable(With(s, i, Found(t.op.key, t.pred, t.curr)))
  {
    Stepped(s, Look(i));
  }

  lemma LookedAndAllocated(s: State, i: nat)
    requires IsReachable(s) && Enabled(s, Look(i)) && s.threads[i].op.Adding? && s.threads[i].curr < |s.nodes|
    requires var n := s.nodes[s.threads[i].curr]; !n.marked && n.key > s.threads[i].op.key
    ensures var t := s.threads[i];
      IsReachable(With(s, i, Insert(t.op.key, t.pred, t.curr, |s.nodes|)).(
        nodes := s.nodes + [Node(t.op.key, t.curr, false, Private)]))
  {
    Stepped(s, Look(i));
  }

  lemma Inserted(s: State, i: nat)
    requires IsReachable(s) && Enabled(s, TryInsert(i))
    requires var t := s.threads[i]; t.node < |s.nodes| && LinkIs(s.nodes, t.pred, t.curr)
    ensures var t := s.threads[i];
      IsReachable(With(s, i, Idle).(nodes := Linking(s.nodes, t.pred, t.node, s.now)))
  {
    Stepped(s, TryInsert(i));
  }

  lemma SuccLoaded(s: State, i: nat)
    requires IsReachable(s) && Enabled(s, LoadSucc(i)) && s.threads[i].curr < |s.nodes|
    ensures var t := s.threads[i]; IsReachable(With(s, i, MarkReady(t.key, t.pred, t.curr, s.nodes[t.curr].next)))
  {
    Stepped(s, LoadSucc(i));
  }

  lemma Marked(s: State, i: nat)
    requires IsReachable(s) && Enabled(s, Mark(i)) && s.threads[i].curr < |s.nodes|
    requires s.nodes[s.threads[i].curr].next == s.threads[i].succ
    ensures var t := s.threads[i];
      IsReachable(With(s, i, Unlink(t.key, t.pred, t.curr, t.succ)).(
        nodes := s.nodes[t.curr := s.nodes[t.curr].(marked := true)]))
  {
    Stepped(s, Mark(i));
  }

  lemma RetiredInPlace(s: State, i: nat)
    requires IsReachable(s) && Enabled(s, TryUnlink(i)) && !LinkIs(s.nodes, s.threads[i].pred, s.threads[i].curr)
    ensures IsReachable(With(s, i, Idle).(retired := s.retired + {s.threads[i].curr}))
  {
    Stepped(s, TryUnlink(i));
  }

  // ---------------------------------------------------------------- the runs

  function Head(next: nat): Node { Node(-1, next, false, Linked(0)) }

  const TAIL_NODE: Node := Node(MAX, TAIL, false, Linked(0))

  /** Key 5 on the list as node 2, and two threads at rest. */
  function OneElement(single: bool): State
  {
    State([Head(2), TAIL_NODE, Node(5, 1, false, Linked(4))], [Idle, Idle], 5, single, {})
  }

  lemma OneElementIsReachable(single: bool)
    ensures IsReachable(OneElement(single))
  {
    var empty := [Head(1), TAIL_NODE];
    var s0 := State(empty, [Idle, Idle], 1, single, {});
    var none: seq<Action> := [];
    assert Runs.IsRun(Init, Next, [s0], none) && [s0][0] == s0;
    Began(s0, 0, Adding(5));
    var s1 := With(s0, 0, Start(Adding(5)));
    HeadLoaded(s1, 0, true);
    var s2 := With(s1, 0, At(Adding(5), 0, 1, true));
    LookedAndAllocated(s2, 0);
    var s3 := With(s2, 0, Insert(5, 0, 1, 2)).(nodes := empty + [Node(5, 1, false, Private)]);
    Inserted(s3, 0);
    assert With(s3, 0, Idle).(nodes := Linking(s3.nodes, 0, 2, s3.now)) == OneElement(single);
  }

  /** From rest, a remover finds node 2. */
  lemma RemoverFinds(s: State, i: nat)
    requires IsReachable(s) && Enabled(s, Begin(i, Removing(5)))
    requires |s.nodes| > 2 && s.nodes[HEAD].next == 2 && IsPresent(s.nodes[2], 5)
    ensures IsReachable(With(s, i, Found(5, 0, 2)).(now := s.now + 3))
  {
    assert Present(s.nodes, 5);
    Began(s, i, Removing(5));
    var s1 := With(s, i, Start(Removing(5)));
    HeadLoaded(s1, i, false);
    var s2 := With(s1, i, At(Removing(5), 0, 2, false));
    LookedAndFound(s2, i);
    assert With(s2, i, Found(5, 0, 2)) == With(s, i, Found(5, 0, 2)).(now := s.now + 3);
  }

  /** Without turns, two removes of a key that was added once both go on to answer true. */
  lemma TwoRemoversBothSucceed() returns (s: State)
    ensures Runs.Reachable(Init, Next, s) && !s.single && |s.threads| == 2 && |s.nodes| == 3
    ensures s.threads[0] == s.threads[1] == Unlink(5, 0, 2, 1)
  {
    var e := OneElement(false);
    OneElementIsReachable(false);
    RemoverFinds(e, 0);
    var f := With(e, 0, Found(5, 0, 2)).(now := 8);
    RemoverFinds(f, 1);
    var g := With(f, 1, Found(5, 0, 2)).(now := 11);
    SuccLoaded(g, 0);
    var g1 := With(g, 0, MarkReady(5, 0, 2, 1));
    SuccLoaded(g1, 1);
    var g2 := With(g1, 1, MarkReady(5, 0, 2, 1));
    Marked(g2, 0);
    var g3 := With(g2, 0, Unlink(5, 0, 2, 1)).(nodes := g2.nodes[2 := Node(5, 1, true, Linked(4))]);
    Marked(g3, 1);
    s := With(g3, 1, Unlink(5, 0, 2, 1)).(nodes := g3.nodes[2 := Node(5, 1, true, Linked(4))]);
  }

  /** Key 3 has been put in front of the node that a remover has found. */
  function Overtaken(): State
  {
    State([Head(3), TAIL_NODE, Node(5, 1, false, Linked(4)), Node(3, 2, false, Linked(11))], [Found(5, 0, 2), Idle], 12, true, {})
  }

  lemma OvertakenIsReachable()
    ensures IsReachable(Overtaken())
  {
    var e := OneElement(true);
    OneElementIsReachable(true);
    RemoverFinds(e, 0);
    var f := With(e, 0, Found(5, 0, 2)).(now := 8);
    Began(f, 1, Adding(3));
    var f1 := With(f, 1, Start(Adding(3)));
    assert !Present(f1.nodes, 3);
    HeadLoaded(f1, 1, true);
    var f2 := With(f1, 1, At(Adding(3), 0, 2, true));
    LookedAndAllocated(f2, 1);
    var f3 := With(f2, 1, Insert(3, 0, 2, 3)).(nodes := f2.nodes + [Node(3, 2, false, Private)]);
    Inserted(f3, 1);
    assert With(f3, 1, Idle).(nodes := Linking(f3.nodes, 0, 3, f3.now)) == Overtaken();
  }

  /** Even with one remover, a node can be retired, and the remove be over, while the links from the head
      still lead to it. */
  lemma RetiredWhileLinked() returns (s: State, p: seq<nat>)
    ensures Runs.Reachable(Init, Next, s) && s.single && 2 in s.retired && s.threads == [Idle, Idle]
    ensures |s.nodes| == 4 && s.nodes[2].place.Linked? && IsPathTo(s.nodes, p, 2)
  {
    OvertakenIsReachable();
    var f := Overtaken();
    SuccLoaded(f, 0);
    var f1 := With(f, 0, MarkReady(5, 0, 2, 1));
    Marked(f1, 0);
    var f2 := With(f1, 0, Unlink(5, 0, 2, 1)).(nodes := f1.nodes[2 := Node(5, 1, true, Linked(4))]);
    RetiredInPlace(f2, 0);
    s := With(f2, 0, Idle).(retired := {2});
    assert f2.retired + {2} == {2};
    p := [0, 3, 2];
  }
}
