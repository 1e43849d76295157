/** Adds and removes end: a thread that runs by itself, from whatever the others have left it with, comes to the
    end of its operation. */
module ListProgress {
  import opened ListProtocol
  import opened Options
  import Runs

  /** The next access of a thread in an operation. */
  function OwnStep(i: nat, t: Thread): Action
  {
    match t
    case Start(_) => LoadHead(i)
    case At(_, _, _, _) => Look(i)
    case Snip(_, _, _, _) => TrySnip(i)
    case Insert(_, _, _, _) => TryInsert(i)
    case Found(_, _, _) => LoadSucc(i)
    case MarkReady(_, _, _, _) => Mark(i)
    case Unlink(_, _, _, _) => TryUnlink(i)
    case _ => BeginWalk(i)
  }

  ghost predicate Alone(i: nat, s: State, a: Action, s': State)
  {
    Next(s, a, s') && i < |s.threads| && OpOf(s.threads[i]).Some? && a == OwnStep(i, s.threads[i])
  }

  ghost function By(i: nat): (State, Action, State) -> bool
  {
    (s, a, s') => Alone(i, s, a, s')
  }

  /** Steps of thread i alone lead from s0, which some run has come to, to s. */
  ghost predicate Reached(i: nat, s0: State, s: State)
  {
    Runs.Reachable((r: State) => r == s0, By(i), s) && Runs.Reachable(Init, Next, s)
  }

  lemma Step(i: nat, s0: State, s: State) returns (s': State)
    requires Reached(i, s0, s) && i < |s.threads| && OpOf(s.threads[i]).Some?
    ensures Inv(s) && Sized(s)
    ensures Enabled(s, OwnStep(i, s.threads[i])) && s' == Apply(s, OwnStep(i, s.threads[i]))
    ensures Reached(i, s0, s') && |s'.threads| == |s.threads|
  {
    ReachableHoldsInv(s);
    s' := Apply(s, OwnStep(i, s.threads[i]));
    Runs.StepStaysReachable(Init, Next, s, OwnStep(i, s.threads[i]), s');
    Runs.StepStaysReachable((r: State) => r == s0, By(i), s, OwnStep(i, s.threads[i]), s');
  }

  // ---------------------------------------------------------------- how far there is to go

  /** What the thread has read is still so: none of its exchanges will fail. */
  predicate Fresh(nodes: seq<Node>, t: Thread)
  {
    match t
    case Start(_) => true
    case At(_, pred, curr, _) => LinkIs(nodes, pred, curr)
    case Snip(_, pred, curr, succ) => LinkIs(nodes, pred, curr)
    case Insert(_, pred, curr, _) => LinkIs(nodes, pred, curr)
    case MarkReady(_, _, curr, succ) => curr < |nodes| && nodes[curr].next == succ
    case _ => true
  }

  /** The keys still to be passed, and then the accesses still to come. */
  function Ahead(nodes: seq<Node>, t: Thread): nat
  {
    match t
    case Start(_) => MAX + 3
    case At(_, _, curr, _) => if curr < |nodes| && nodes[curr].key <= MAX then MAX - nodes[curr].key + 1 else 0
    case Snip(_, _, curr, _) => if curr < |nodes| && nodes[curr].key <= MAX then MAX - nodes[curr].key + 1 else 0
    case _ => 0
  }

  function Rank(t: Thread): nat
  {
    match t
    case At(_, _, _, _) => 5
    case Snip(_, _, _, _) => 4
    case Insert(_, _, _, _) => 1
    case Found(_, _, _) => 3
    case MarkReady(_, _, _, _) => 2
    case Unlink(_, _, _, _) => 1
    case _ => 0
  }

  function Staleness(nodes: seq<Node>, t: Thread): nat
  {
    if Fresh(nodes, t) then 0 else 1
  }

  ghost predicate Closer(nodes: seq<Node>, t: Thread, nodes': seq<Node>, t': Thread)
  {
    || Staleness(nodes', t') < Staleness(nodes, t)
    || (Staleness(nodes', t') == Staleness(nodes, t) &&
        (Ahead(nodes', t') < Ahead(nodes, t) || (Ahead(nodes', t') == Ahead(nodes, t) && Rank(t') < Rank(t))))
  }

  ghost predicate OnItsWay(s: State, i: nat)
  {
    Inv(s) && Sized(s) && i < |s.threads| && OpOf(s.threads[i]).Some?
  }

  /** The operation is over, or closer to its end. */
  ghost predicate GetsCloser(s: State, i: nat)
    requires OnItsWay(s, i) && Enabled(s, OwnStep(i, s.threads[i]))
  {
    var s' := Apply(s, OwnStep(i, s.threads[i]));
    i < |s'.threads| &&
    (s'.threads[i].Idle? || (OpOf(s'.threads[i]).Some? && Closer(s.nodes, s.threads[i], s'.nodes, s'.threads[i])))
  }

  lemma LookGetsCloser(s: State, i: nat)
    requires OnItsWay(s, i) && s.threads[i].At?
    ensures GetsCloser(s, i)
  {
    assert ThreadOk(s.nodes, s.now, s.single, s.threads[i]);
    assert NodeOk(s.nodes, s.threads[i].curr, s.now);
  }

  lemma SnipGetsCloser(s: State, i: nat)
    requires OnItsWay(s, i) && s.threads[i].Snip?
    ensures GetsCloser(s, i)
  {
    assert ThreadOk(s.nodes, s.now, s.single, s.threads[i]);
    assert NodeOk(s.nodes, s.threads[i].curr, s.now);
  }

  lemma StartGetsCloser(s: State, i: nat)
    requires OnItsWay(s, i) && s.threads[i].Start?
    ensures GetsCloser(s, i)
  {
    assert NodeOk(s.nodes, HEAD, s.now);
  }

  lemma ExchangeGetsCloser(s: State, i: nat)
    requires OnItsWay(s, i) && !s.threads[i].At? && !s.threads[i].Snip? && !s.threads[i].Start?
    ensures GetsCloser(s, i)
  {
    assert ThreadOk(s.nodes, s.now, s.single, s.threads[i]);
  }

  /** Every access of its own ends the operation or brings it closer to its end. */
  lemma StepGetsCloser(s: State, i: nat)
    requires OnItsWay(s, i)
    ensures GetsCloser(s, i)
  {
    match s.threads[i]
    case At(_, _, _, _) => LookGetsCloser(s, i);
    case Snip(_, _, _, _) => SnipGetsCloser(s, i);
    case Start(_) => StartGetsCloser(s, i);
    case _ => ExchangeGetsCloser(s, i);
  }

  /** An operation whose thread runs alone ends, whatever the others have done before. */
  lemma {:induction false} EndsAlone(i: nat, s0: State, s: State) returns (s': State)
    requires Reached(i, s0, s) && i < |s.threads| && OpOf(s.threads[i]).Some?
    ensures Reached(i, s0, s') && i < |s'.threads| && s'.threads[i].Idle?
    ensures OpOf(s.threads[i]).value.Adding? ==> Present(s'.nodes, OpOf(s.threads[i]).value.key)
    decreases Staleness(s.nodes, s.threads[i]), Ahead(s.nodes, s.threads[i]), Rank(s.threads[i])
  {
    ReachableHoldsInv(s);
    StepGetsCloser(s, i);
    var s1 := Step(i, s0, s);
    s' := s1;
    if s1.threads[i].Idle? {
      OperationEndsRight(s, OwnStep(i, s.threads[i]));
    } else {
      OperationStays(s, OwnStep(i, s.threads[i]), i);
      s' := EndsAlone(i, s0, s1);
    }
  }

  /** The same of any moment of any run: operations cannot block each other. An add leaves its key in the set. */
  lemma OperationEndsAlone(s: State, i: nat) returns (s': State)
    requires Runs.Reachable(Init, Next, s) && i < |s.threads| && OpOf(s.threads[i]).Some?
    ensures Runs.Reachable((r: State) => r == s, By(i), s') && i < |s'.threads| && s'.threads[i].Idle?
    ensures OpOf(s.threads[i]).value.Adding? ==> Present(s'.nodes, OpOf(s.threads[i]).value.key)
  {
    assert Runs.IsRun((r: State) => r == s, By(i), [s], []);
    s' := EndsAlone(i, s, s);
  }
}
