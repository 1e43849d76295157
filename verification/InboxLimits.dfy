/** A run in which a pop comes back empty although tasks are waiting, all of them linked. */
module InboxLimits {
  import opened Options
  import opened InboxProtocol
  import Runs

  /** One producer and the tasks 1 and 2; the stub is node 0. */
  function At(
    next: seq<Option<Node>>, head: Node, tail: Node, producer: Producer, consumer: Consumer,
    q: seq<Node>, sent: seq<Node>, gapSeen: bool): State
  {
    State(0, next, head, tail, [producer], consumer, q, sent, [], gapSeen)
  }

  ghost predicate Reached(s: State)
  {
    Runs.Reachable(Init, Next, s)
  }

  lemma Go(s: State, a: Action, s': State)
    requires Reached(s) && Enabled(s, a) && Apply(s, a) == s'
    ensures Reached(s')
  {
    Runs.StepStaysReachable(Init, Next, s, a, s');
  }

  const UNLINKED: seq<Option<Node>> := [None, None, None]

  /** Task 1 is about to be exchanged in. */
  function Chained(): State
  {
    At(UNLINKED, 0, 0, Swapping([1]), Resting, [0], [], false)
  }

  lemma ChainedIsReached()
    ensures Reached(Chained())
  {
    var s0 := Chained().(producers := [Idle]);
    assert Runs.IsRun(Init, Next, [s0], []);
    var s1 := Chained().(producers := [Chaining([1], 0)]);
    Go(s0, Begin(0, [1]), s1);
    Go(s1, WriteOwn(0), Chained());
  }

  /** Task 1 is pushed and linked. */
  function OnePushed(): State
  {
    At([Some(1), None, None], 1, 0, Idle, Resting, [0, 1], [1], true)
  }

  lemma OnePushedIsReached()
    ensures Reached(OnePushed())
  {
    ChainedIsReached();
    var s0 := Chained();
    var s1 := At(UNLINKED, 1, 0, Linking(0, 1), Resting, [0, 1], [1], true);
    assert s1.producers[0].Linking? && s0.producers[0 := Linking(0, 1)] == s1.producers;
    assert s0.q + [1] == s1.q && s0.sent + [1] == s1.sent;
    Go(s0, Swap(0), s1);
    var s2 := OnePushed().(producers := [Linked]);
    Go(s1, Link(0), s2);
    Go(s2, Return(0), OnePushed());
  }

  /** The pop has skipped the stub, and task 2 is about to be exchanged in. */
  function Overtaken(): State
  {
    At([Some(1), None, None], 1, 1, Swapping([2]), PastStub(1), [1], [1], false)
  }

  lemma OvertakenIsReached()
    ensures Reached(Overtaken())
  {
    OnePushedIsReached();
    var s := OnePushed();
    var s1 := Overtaken().(producers := [Idle]);
    Go(s, LoadNext, s1);
    var s2 := s1.(producers := [Chaining([2], 0)]);
    Go(s1, Begin(0, [2]), s2);
    Go(s2, WriteOwn(0), Overtaken());
  }

  /** Task 2 is in, but not linked. */
  function Exchanged(): State
  {
    At([Some(1), None, None], 2, 1, Linking(1, 2), PastStub(1), [1, 2], [1, 2], true)
  }

  lemma ExchangedIsReached()
    ensures Reached(Exchanged())
  {
    OvertakenIsReached();
    var s0, s1 := Overtaken(), Exchanged();
    assert s1.producers[0].Linking? && s0.producers[0 := Linking(1, 2)] == s1.producers;
    assert s0.q + [2] == s1.q && s0.sent + [2] == s1.sent;
    Go(s0, Swap(0), s1);
  }

  /** The pop finds no link, the producer links, and the check of the head sends the pop home empty. */
  lemma PopMissesLinkedTasks() returns (s: State)
    ensures Runs.Reachable(Init, Next, s) && Enabled(s, CheckHead) && PopFails(s, CheckHead)
    ensures Tasks(s.q, s.stub) == [1, 2] && !SomeGap(s.producers)
    ensures forall k :: 0 <= k < |s.q| - 1 ==> NextOf(s.next, s.q[k]) == Some(s.q[k + 1])
  {
    ExchangedIsReached();
    var s1 := Exchanged().(consumer := CheckingHead(1));
    assert s1.producers[0].Linking?;
    Go(Exchanged(), LoadNextAgain, s1);
    s := s1.(next := [Some(1), Some(2), None], producers := [Linked]);
    Go(s1, Link(0), s);
    TasksOfChain(s.q, 0);
  }
}
