/** The intrusive inbox: many producers exchange `head` and then link; one consumer walks from
    `tail` and puts the stub back when it reaches the last node. One action per shared access. */
module InboxProtocol {
  import opened Sequences
  import opened Options
  import Runs

  /** A node is a task, or the stub, known by its address. */
  type Node = nat

  datatype Producer =
    | Idle
    | Chaining(chain: seq<Node>, k: nat)    // k of the chain's own next fields are written
    | Swapping(chain: seq<Node>)            // chain is complete, head to be exchanged
    | Linking(prev: Node, first: Node)      // exchanged, old head to be linked to first
    | Linked                                // done, about to return

  datatype Consumer =
    | Resting
    | PastStub(tail: Node)                  // stub skipped, next of the new tail to be loaded
    | CheckingHead(tail: Node)              // next of tail was null
    | ClearingStub(tail: Node)              // tail is the head, stub to be appended
    | SwappingStub(tail: Node)
    | LinkingStub(tail: Node, prev: Node)
    | LastLook(tail: Node)

  /** `q` lists the nodes from tail to head, `sent` the tasks in the order of the exchanges, `taken`
      the tasks popped. `gapSeen` tells whether, at some moment since the pop in progress (or the
      last one) began, a producer stood between its exchange and its link. */
  datatype State = State(
    stub: Node, next: seq<Option<Node>>, head: Node, tail: Node,
    producers: seq<Producer>, consumer: Consumer,
    q: seq<Node>, sent: seq<Node>, taken: seq<Node>, gapSeen: bool)

  datatype Action =
    | Begin(i: nat, chain: seq<Node>) | WriteOwn(i: nat) | Swap(i: nat) | Link(i: nat) | Return(i: nat)
    | LoadNext | LoadNextAgain | CheckHead | ClearStub | SwapStub | LinkStub | LookAgain

  predicate ProducerAction(a: Action)
  {
    a.Begin? || a.WriteOwn? || a.Swap? || a.Link? || a.Return?
  }

  /** The nodes a producer still has to itself. */
  function Held(p: Producer): seq<Node>
  {
    if p.Chaining? || p.Swapping? then p.chain else []
  }

  /** A client pushes a task that is neither in the inbox nor being pushed by anyone, nor the stub. */
  ghost predicate MayPush(s: State, chain: seq<Node>)
  {
    && chain != [] && NoRepeats(chain)
    && (forall n :: n in chain ==> n < |s.next| && n != s.stub && n !in s.q)
    && forall j, n :: 0 <= j < |s.producers| && n in chain ==> n !in Held(s.producers[j])
  }

  ghost predicate Enabled(s: State, a: Action)
  {
    && (ProducerAction(a) ==> a.i < |s.producers|)
    && match a
       case Begin(i, chain) => s.producers[i].Idle? && MayPush(s, chain)
       case WriteOwn(i) => s.producers[i].Chaining? && s.producers[i].k < |s.producers[i].chain|
       case Swap(i) => s.producers[i].Swapping? && s.producers[i].chain != []
       case Link(i) => s.producers[i].Linking?
       case Return(i) => s.producers[i].Linked?
       case LoadNext => s.consumer.Resting?
       case LoadNextAgain => s.consumer.PastStub?
       case CheckHead => s.consumer.CheckingHead?
       case ClearStub => s.consumer.ClearingStub?
       case SwapStub => s.consumer.SwappingStub?
       case LinkStub => s.consumer.LinkingStub?
       case LookAgain => s.consumer.LastLook?
  }

  predicate SomeGap(producers: seq<Producer>)
  {
    exists i :: 0 <= i < |producers| && producers[i].Linking?
  }

  function NextOf(next: seq<Option<Node>>, n: Node): Option<Node>
  {
    if n < |next| then next[n] else None
  }

  function SetNext(next: seq<Option<Node>>, n: Node, v: Option<Node>): seq<Option<Node>>
  {
    if n < |next| then next[n := v] else next
  }

  function WriteOwnLink(s: State, i: nat, chain: seq<Node>, k: nat): State
    requires i < |s.producers| && k < |chain|
  {
    if k + 1 < |chain| then
      s.(next := SetNext(s.next, chain[k], Some(chain[k + 1])), producers := s.producers[i := Chaining(chain, k + 1)])
    else
      s.(next := SetNext(s.next, chain[k], None), producers := s.producers[i := Swapping(chain)])
  }

  function Rest(q: seq<Node>): seq<Node>
  {
    if q == [] then [] else q[1..]
  }

  /** The consumer has a successor: it moves on to it and returns the old tail. */
  function Take(s: State, successor: Node): State
  {
    s.(tail := successor, consumer := Resting, taken := s.taken + [s.tail], q := Rest(s.q))
  }

  function SkipStub(s: State, successor: Node): State
  {
    s.(tail := successor, consumer := PastStub(successor), q := Rest(s.q))
  }

  function LookAtTail(s: State): State
  {
    if NextOf(s.next, s.tail).Some? then Take(s, NextOf(s.next, s.tail).value)
    else s.(consumer := CheckingHead(s.tail))
  }

  function Apply(s: State, a: Action): State
    requires Enabled(s, a)
  {
    var s' := Effect(s, a);
    s'.(gapSeen := (s.gapSeen && !a.LoadNext?) || SomeGap(s'.producers))
  }

  function Effect(s: State, a: Action): State
    requires Enabled(s, a)
  {
    match a
    case Begin(i, chain) => s.(producers := s.producers[i := Chaining(chain, 0)])
    case WriteOwn(i) => WriteOwnLink(s, i, s.producers[i].chain, s.producers[i].k)
    case Swap(i) =>
      var chain := s.producers[i].chain;
      s.(head := chain[|chain| - 1], producers := s.producers[i := Linking(s.head, chain[0])],
         q := s.q + chain, sent := s.sent + chain)
    case Link(i) =>
      s.(next := SetNext(s.next, s.producers[i].prev, Some(s.producers[i].first)),
         producers := s.producers[i := Linked])
    case Return(i) => s.(producers := s.producers[i := Idle])
    case LoadNext =>
      if s.tail != s.stub then LookAtTail(s)
      else if NextOf(s.next, s.tail).None? then s
      else SkipStub(s, NextOf(s.next, s.tail).value)
    case LoadNextAgain => LookAtTail(s)
    case CheckHead => s.(consumer := if s.head == s.tail then ClearingStub(s.tail) else Resting)
    case ClearStub => s.(next := SetNext(s.next, s.stub, None), consumer := SwappingStub(s.tail))
    case SwapStub =>
      s.(head := s.stub, consumer := LinkingStub(s.tail, s.head), q := s.q + [s.stub])
    case LinkStub =>
      s.(next := SetNext(s.next, s.consumer.prev, Some(s.stub)), consumer := LastLook(s.tail))
    case LookAgain =>
      if NextOf(s.next, s.tail).Some? then Take(s, NextOf(s.next, s.tail).value) else s.(consumer := Resting)
  }

  ghost predicate Next(s: State, a: Action, s': State)
  {
    Enabled(s, a) && s' == Apply(s, a)
  }

  ghost predicate Init(s: State)
  {
    && s.stub < |s.next| && s.head == s.tail == s.stub && s.next[s.stub] == None
    && (forall i :: 0 <= i < |s.producers| ==> s.producers[i] == Idle)
    && s.consumer == Resting && s.q == [s.stub] && s.sent == [] && s.taken == [] && !s.gapSeen
  }

  // ---------------------------------------------------------------- the invariant

  /** Someone has exchanged first in behind prev and will link the two. */
  ghost predicate WillLink(producers: seq<Producer>, consumer: Consumer, stub: Node, prev: Node, first: Node)
  {
    || (exists i :: 0 <= i < |producers| && producers[i] == Linking(prev, first))
    || (consumer.LinkingStub? && consumer.prev == prev && first == stub)
  }

  ghost predicate QueueOk(stub: Node, next: seq<Option<Node>>, head: Node, tail: Node, q: seq<Node>)
  {
    && |q| > 0 && q[0] == tail && q[|q| - 1] == head && NoRepeats(q)
    && stub < |next|
    && (forall k :: 0 <= k < |q| ==> q[k] < |next|)
    && NextOf(next, head) == None
  }

  /** Neighbours are linked, or about to be. */
  ghost predicate PairOk(next: seq<Option<Node>>, producers: seq<Producer>, consumer: Consumer, stub: Node, a: Node, b: Node)
  {
    || NextOf(next, a) == Some(b)
    || (NextOf(next, a) == None && WillLink(producers, consumer, stub, a, b))
  }

  ghost predicate LinksOk(next: seq<Option<Node>>, producers: seq<Producer>, consumer: Consumer, stub: Node, q: seq<Node>)
  {
    forall k :: 0 <= k < |q| - 1 ==> PairOk(next, producers, consumer, stub, q[k], q[k + 1])
  }

  /** a stands right before b. */
  ghost predicate Adjacent(q: seq<Node>, a: Node, b: Node)
  {
    exists k :: 0 <= k < |q| - 1 && q[k] == a && q[k + 1] == b
  }

  /** The first k links inside a chain are in place. */
  ghost predicate ChainLinked(next: seq<Option<Node>>, chain: seq<Node>, k: nat)
  {
    forall j :: 0 <= j < k && j + 1 < |chain| ==> NextOf(next, chain[j]) == Some(chain[j + 1])
  }

  ghost predicate ProducerOk(p: Producer, stub: Node, next: seq<Option<Node>>, q: seq<Node>)
  {
    match p
    case Chaining(chain, k) => HoldsFreely(chain, stub, next, q) && k < |chain| && ChainLinked(next, chain, k)
    case Swapping(chain) =>
      && HoldsFreely(chain, stub, next, q) && chain != [] && ChainLinked(next, chain, |chain| - 1)
      && NextOf(next, chain[|chain| - 1]) == None
    case Linking(prev, first) => NextOf(next, prev) == None && Adjacent(q, prev, first)
    case _ => true
  }

  ghost predicate HoldsFreely(chain: seq<Node>, stub: Node, next: seq<Option<Node>>, q: seq<Node>)
  {
    && NoRepeats(chain)
    && forall n :: n in chain ==> n < |next| && n != stub && n !in q
  }

  ghost predicate ProducersOk(producers: seq<Producer>, stub: Node, next: seq<Option<Node>>, q: seq<Node>)
  {
    forall i :: 0 <= i < |producers| ==> ProducerOk(producers[i], stub, next, q)
  }

  /** Two producers hold no common node, and are not to write the same link. */
  ghost predicate Apart(p: Producer, r: Producer)
  {
    && (forall n :: n in Held(p) ==> n !in Held(r))
    && (p.Linking? && r.Linking? ==> p.prev != r.prev)
  }

  ghost predicate AllApart(producers: seq<Producer>)
  {
    forall i, j :: 0 <= i < |producers| && 0 <= j < |producers| && i != j ==> Apart(producers[i], producers[j])
  }

  ghost predicate ConsumerOk(s: State)
  {
    match s.consumer
    case Resting => true
    case PastStub(tail) => tail == s.tail && s.stub !in s.q
    case CheckingHead(tail) => tail == s.tail != s.stub && (|s.q| == 1 || s.gapSeen)
    case ClearingStub(tail) => tail == s.tail && s.stub !in s.q
    case SwappingStub(tail) => tail == s.tail && s.stub !in s.q && NextOf(s.next, s.stub) == None
    case LinkingStub(tail, prev) =>
      && tail == s.tail != s.stub && NextOf(s.next, prev) == None && Adjacent(s.q, prev, s.stub)
      && forall i :: 0 <= i < |s.producers| && s.producers[i].Linking? ==> s.producers[i].prev != prev
    case LastLook(tail) => tail == s.tail != s.stub && s.stub in s.q
  }

  /** q without the stub: the tasks waiting in the inbox. */
  function Tasks(q: seq<Node>, stub: Node): seq<Node>
  {
    if q == [] then [] else (if q[0] == stub then [] else [q[0]]) + Tasks(q[1..], stub)
  }

  ghost predicate Shaped(s: State)
  {
    && QueueOk(s.stub, s.next, s.head, s.tail, s.q)
    && LinksOk(s.next, s.producers, s.consumer, s.stub, s.q)
    && ProducersOk(s.producers, s.stub, s.next, s.q)
    && AllApart(s.producers)
    && ConsumerOk(s)
    && (SomeGap(s.producers) ==> s.gapSeen)
  }

  ghost predicate Inv(s: State)
  {
    Shaped(s) && s.sent == s.taken + Tasks(s.q, s.stub)
  }

  // ---------------------------------------------------------------- producers

  lemma WillLinkSurvives(producers: seq<Producer>, consumer: Consumer, stub: Node, i: nat, p: Producer, prev: Node,
                         first: Node)
    requires WillLink(producers, consumer, stub, prev, first)
    requires i < |producers| && producers[i] != Linking(prev, first)
    ensures WillLink(producers[i := p], consumer, stub, prev, first)
  {
    if j :| 0 <= j < |producers| && producers[j] == Linking(prev, first) {
      assert producers[i := p][j] == Linking(prev, first);
    }
  }

  /** Replacing the state of a producer that is not linking loses no promised link. */
  lemma LinksSurvive(s: State, i: nat, p: Producer)
    requires LinksOk(s.next, s.producers, s.consumer, s.stub, s.q)
    requires i < |s.producers| && !s.producers[i].Linking?
    ensures LinksOk(s.next, s.producers[i := p], s.consumer, s.stub, s.q)
  {
    forall k | 0 <= k < |s.q| - 1
      ensures PairOk(s.next, s.producers[i := p], s.consumer, s.stub, s.q[k], s.q[k + 1])
    {
      assert PairOk(s.next, s.producers, s.consumer, s.stub, s.q[k], s.q[k + 1]);
      if NextOf(s.next, s.q[k]) == None {
        WillLinkSurvives(s.producers, s.consumer, s.stub, i, p, s.q[k], s.q[k + 1]);
      }
    }
  }

  /** Writing the next field of x does not concern a producer that neither holds x nor links from it. */
  lemma WriteElsewhere(p: Producer, stub: Node, next: seq<Option<Node>>, q: seq<Node>, x: Node, v: Option<Node>)
    requires ProducerOk(p, stub, next, q) && x !in Held(p) && (p.Linking? ==> p.prev != x)
    ensures ProducerOk(p, stub, SetNext(next, x, v), q)
  {
  }

  lemma AdjacentNodes(q: seq<Node>, a: Node, b: Node)
    requires Adjacent(q, a, b)
    ensures a in q && b in q
  {
  }

  /** Nodes outside the queue can be written without disturbing it. */
  lemma WriteOutside(s: State, x: Node, v: Option<Node>)
    requires QueueOk(s.stub, s.next, s.head, s.tail, s.q) && x !in s.q
    requires LinksOk(s.next, s.producers, s.consumer, s.stub, s.q)
    ensures QueueOk(s.stub, SetNext(s.next, x, v), s.head, s.tail, s.q)
    ensures LinksOk(SetNext(s.next, x, v), s.producers, s.consumer, s.stub, s.q)
  {
    assert s.head in s.q;
    forall k | 0 <= k < |s.q| - 1
      ensures PairOk(SetNext(s.next, x, v), s.producers, s.consumer, s.stub, s.q[k], s.q[k + 1])
    {
      assert PairOk(s.next, s.producers, s.consumer, s.stub, s.q[k], s.q[k + 1]);
      assert s.q[k] in s.q;
    }
  }

  lemma BeginKeepsShape(s: State, i: nat, chain: seq<Node>)
    requires Shaped(s) && Enabled(s, Begin(i, chain))
    ensures Shaped(Apply(s, Begin(i, chain)))
  {
    LinksSurvive(s, i, Chaining(chain, 0));
  }

  lemma ReturnKeepsShape(s: State, i: nat)
    requires Shaped(s) && Enabled(s, Return(i))
    ensures Shaped(Apply(s, Return(i)))
  {
    LinksSurvive(s, i, Idle);
  }

  lemma OwnWrite(p: Producer, stub: Node, next: seq<Option<Node>>, q: seq<Node>)
    requires p.Chaining? && ProducerOk(p, stub, next, q)
    ensures var c, k := p.chain, p.k;
      if k + 1 < |c| then ProducerOk(Chaining(c, k + 1), stub, SetNext(next, c[k], Some(c[k + 1])), q)
      else ProducerOk(Swapping(c), stub, SetNext(next, c[k], None), q)
  {
    assert p.chain[p.k] in p.chain;
  }

  /** Nobody else is concerned when producer i writes a node it holds. */
  lemma OthersKeep(s: State, i: nat, x: Node, v: Option<Node>)
    requires Shaped(s) && i < |s.producers| && x in Held(s.producers[i])
    ensures forall j :: 0 <= j < |s.producers| && j != i ==>
              ProducerOk(s.producers[j], s.stub, SetNext(s.next, x, v), s.q)
    ensures ConsumerOk(s.(next := SetNext(s.next, x, v)))
    ensures x !in s.q
  {
    assert ProducerOk(s.producers[i], s.stub, s.next, s.q);
    forall j | 0 <= j < |s.producers| && j != i
      ensures ProducerOk(s.producers[j], s.stub, SetNext(s.next, x, v), s.q)
    {
      assert Apart(s.producers[i], s.producers[j]) && ProducerOk(s.producers[j], s.stub, s.next, s.q);
      if s.producers[j].Linking? { AdjacentNodes(s.q, s.producers[j].prev, s.producers[j].first); }
      WriteElsewhere(s.producers[j], s.stub, s.next, s.q, x, v);
    }
    if s.consumer.LinkingStub? { AdjacentNodes(s.q, s.consumer.prev, s.stub); }
  }

  /** A producer moving on with the same chain stays apart from the others. */
  lemma SameHoldings(s: State, i: nat, p: Producer)
    requires AllApart(s.producers) && i < |s.producers|
    requires Held(p) == Held(s.producers[i]) && !p.Linking?
    ensures AllApart(s.producers[i := p])
  {
    var after := s.producers[i := p];
    forall j, k | 0 <= j < |after| && 0 <= k < |after| && j != k
      ensures Apart(after[j], after[k])
    {
      assert Apart(s.producers[j], s.producers[k]);
    }
  }

  function NextOwn(p: Producer): Producer
    requires p.Chaining?
  {
    if p.k + 1 < |p.chain| then Chaining(p.chain, p.k + 1) else Swapping(p.chain)
  }

  function OwnLink(p: Producer): Option<Node>
    requires p.Chaining?
  {
    if p.k + 1 < |p.chain| then Some(p.chain[p.k + 1]) else None
  }

  lemma WriteOwnKeepsQueue(s: State, i: nat)
    requires Shaped(s) && Enabled(s, WriteOwn(i))
    ensures var p := s.producers[i];
      var next := SetNext(s.next, p.chain[p.k], OwnLink(p));
      && QueueOk(s.stub, next, s.head, s.tail, s.q)
      && LinksOk(next, s.producers[i := NextOwn(p)], s.consumer, s.stub, s.q)
  {
    var p := s.producers[i];
    var x, v := p.chain[p.k], OwnLink(p);
    OthersKeep(s, i, x, v);
    WriteOutside(s, x, v);
    LinksSurvive(s.(next := SetNext(s.next, x, v)), i, NextOwn(p));
  }

  lemma WriteOwnKeepsProducers(s: State, i: nat)
    requires Shaped(s) && Enabled(s, WriteOwn(i))
    ensures var p := s.producers[i];
      var next, producers := SetNext(s.next, p.chain[p.k], OwnLink(p)), s.producers[i := NextOwn(p)];
      && ProducersOk(producers, s.stub, next, s.q) && AllApart(producers)
      && ConsumerOk(s.(next := next, producers := producers))
  {
    var p := s.producers[i];
    assert ProducerOk(p, s.stub, s.next, s.q);
    OthersKeep(s, i, p.chain[p.k], OwnLink(p));
    OwnWrite(p, s.stub, s.next, s.q);
    SameHoldings(s, i, NextOwn(p));
  }

  lemma WriteOwnKeepsShape(s: State, i: nat)
    requires Shaped(s) && Enabled(s, WriteOwn(i))
    ensures Shaped(Apply(s, WriteOwn(i)))
  {
    WriteOwnKeepsQueue(s, i);
    WriteOwnKeepsProducers(s, i);
  }

  /** The exchange leaves the others' claims alone. */
  lemma SwapLeavesProducer(s: State, i: nat, j: nat)
    requires Shaped(s) && Enabled(s, Swap(i)) && j < |s.producers| && j != i
    ensures var chain := s.producers[i].chain;
      && ProducerOk(s.producers[j], s.stub, s.next, s.q + chain)
      && Apart(Linking(s.head, chain[0]), s.producers[j]) && Apart(s.producers[j], Linking(s.head, chain[0]))
  {
    assert ProducerOk(s.producers[j], s.stub, s.next, s.q);
    assert Apart(s.producers[i], s.producers[j]) && Apart(s.producers[j], s.producers[i]);
    ProducerSeesLongerQueue(s.producers[j], s.stub, s.next, s.q, s.producers[i].chain);
    if s.producers[j].Linking? { AdjacentIsNotLast(s.q, s.producers[j].prev, s.producers[j].first); }
  }

  lemma SwapLeavesConsumer(s: State, i: nat)
    requires Shaped(s) && Enabled(s, Swap(i))
    ensures ConsumerOk(Apply(s, Swap(i)))
  {
    var chain := s.producers[i].chain;
    assert ProducerOk(s.producers[i], s.stub, s.next, s.q);
    if s.consumer.LinkingStub? {
      AdjacentIsNotLast(s.q, s.consumer.prev, s.stub);
      AdjacentInLonger(s.q, chain, s.consumer.prev, s.stub);
    }
    assert Apply(s, Swap(i)).producers[i].Linking?;
  }

  lemma SwapKeepsProducers(s: State, i: nat)
    requires Shaped(s) && Enabled(s, Swap(i))
    ensures var s' := Apply(s, Swap(i));
      ProducersOk(s'.producers, s.stub, s.next, s'.q) && AllApart(s'.producers)
  {
    var s' := Apply(s, Swap(i));
    var chain := s.producers[i].chain;
    assert ProducerOk(s.producers[i], s.stub, s.next, s.q);
    assert s'.q[|s.q| - 1] == s.head && s'.q[|s.q| - 1 + 1] == chain[0];
    forall j | 0 <= j < |s.producers| && j != i
      ensures ProducerOk(s.producers[j], s.stub, s.next, s'.q)
      ensures Apart(s'.producers[i], s.producers[j]) && Apart(s.producers[j], s'.producers[i])
    {
      SwapLeavesProducer(s, i, j);
    }
  }

  /** The exchange puts a finished chain behind the head in one stroke. */
  lemma SwapKeepsShape(s: State, i: nat)
    requires Shaped(s) && Enabled(s, Swap(i))
    ensures Shaped(Apply(s, Swap(i)))
  {
    ChainExtendsQueue(s, i);
    SwapKeepsProducers(s, i);
    SwapLeavesConsumer(s, i);
  }

  lemma AdjacentInLonger(q: seq<Node>, more: seq<Node>, a: Node, b: Node)
    requires Adjacent(q, a, b)
    ensures Adjacent(q + more, a, b)
  {
    var k :| 0 <= k < |q| - 1 && q[k] == a && q[k + 1] == b;
    assert (q + more)[k] == a && (q + more)[k + 1] == b;
  }

  lemma AdjacentIsNotLast(q: seq<Node>, a: Node, b: Node)
    requires Adjacent(q, a, b) && NoRepeats(q)
    ensures |q| > 0 && a != q[|q| - 1]
  {
  }

  lemma ProducerSeesLongerQueue(p: Producer, stub: Node, next: seq<Option<Node>>, q: seq<Node>, more: seq<Node>)
    requires ProducerOk(p, stub, next, q)
    requires forall n :: n in more ==> n !in Held(p)
    ensures ProducerOk(p, stub, next, q + more)
  {
    if p.Linking? { AdjacentInLonger(q, more, p.prev, p.first); }
  }

  lemma ChainExtendsQueue(s: State, i: nat)
    requires Shaped(s) && Enabled(s, Swap(i))
    ensures var s' := Apply(s, Swap(i));
      && QueueOk(s.stub, s.next, s'.head, s.tail, s'.q)
      && LinksOk(s.next, s'.producers, s.consumer, s.stub, s'.q)
  {
    var s' := Apply(s, Swap(i));
    var chain, n := s.producers[i].chain, |s.q|;
    assert ProducerOk(s.producers[i], s.stub, s.next, s.q);
    assert s'.q == s.q + chain;
    forall k | 0 <= k < |s'.q|
      ensures s'.q[k] < |s.next|
    {
      if k >= n { assert chain[k - n] in chain; }
    }
    forall j, k | 0 <= j < k < |s'.q|
      ensures s'.q[j] != s'.q[k]
    {
      if j < n <= k { assert chain[k - n] in chain && s.q[j] in s.q; }
    }
    LinksSurvive(s, i, s'.producers[i]);
    forall k | 0 <= k < |s'.q| - 1
      ensures PairOk(s.next, s'.producers, s.consumer, s.stub, s'.q[k], s'.q[k + 1])
    {
      if k < n - 1 {
        assert PairOk(s.next, s'.producers, s.consumer, s.stub, s.q[k], s.q[k + 1]);
      } else if k == n - 1 {
        assert s'.producers[i] == Linking(s'.q[k], s'.q[k + 1]);
      } else {
        assert NextOf(s.next, chain[k - n]) == Some(chain[k - n + 1]);
      }
    }
  }

  lemma LinkKeepsShape(s: State, i: nat)
    requires Shaped(s) && Enabled(s, Link(i))
    ensures Shaped(Apply(s, Link(i)))
  {
    var s' := Apply(s, Link(i));
    var prev, first := s.producers[i].prev, s.producers[i].first;
    assert ProducerOk(s.producers[i], s.stub, s.next, s.q);
    AdjacentNodes(s.q, prev, first);
    AdjacentIsNotLast(s.q, prev, first);
    forall k | 0 <= k < |s.q| - 1
      ensures PairOk(s'.next, s'.producers, s.consumer, s.stub, s.q[k], s.q[k + 1])
    {
      assert PairOk(s.next, s.producers, s.consumer, s.stub, s.q[k], s.q[k + 1]);
      if s.q[k] != prev && NextOf(s.next, s.q[k]) == None {
        WillLinkSurvives(s.producers, s.consumer, s.stub, i, Linked, s.q[k], s.q[k + 1]);
      }
    }
    forall j | 0 <= j < |s.producers|
      ensures ProducerOk(s'.producers[j], s.stub, s'.next, s.q)
    {
      assert ProducerOk(s.producers[j], s.stub, s.next, s.q);
      if j != i {
        assert Apart(s.producers[i], s.producers[j]);
        WriteElsewhere(s.producers[j], s.stub, s.next, s.q, prev, Some(first));
      }
    }
  }

  // ---------------------------------------------------------------- the consumer

  /** A tail with a successor: the successor is the next node of the queue, and the queue without the
      tail is still in order. */
  lemma TailMayAdvance(s: State)
    requires Shaped(s) && !s.consumer.LinkingStub? && NextOf(s.next, s.tail).Some?
    ensures |s.q| > 1 && NextOf(s.next, s.tail) == Some(s.q[1]) && s.tail !in s.q[1..]
    ensures QueueOk(s.stub, s.next, s.head, s.q[1], s.q[1..])
    ensures LinksOk(s.next, s.producers, s.consumer, s.stub, s.q[1..])
    ensures ProducersOk(s.producers, s.stub, s.next, s.q[1..])
  {
    assert PairOk(s.next, s.producers, s.consumer, s.stub, s.q[0], s.q[1]);
    forall k | 0 <= k < |s.q| - 2
      ensures PairOk(s.next, s.producers, s.consumer, s.stub, s.q[1..][k], s.q[1..][k + 1])
    {
      assert PairOk(s.next, s.producers, s.consumer, s.stub, s.q[k + 1], s.q[k + 2]);
    }
    forall i | 0 <= i < |s.producers|
      ensures ProducerOk(s.producers[i], s.stub, s.next, s.q[1..])
    {
      assert ProducerOk(s.producers[i], s.stub, s.next, s.q);
      if s.producers[i].Linking? { AdjacentInRest(s.q, s.producers[i].prev, s.producers[i].first); }
    }
  }

  lemma AdjacentInRest(q: seq<Node>, a: Node, b: Node)
    requires Adjacent(q, a, b) && a != q[0]
    ensures Adjacent(q[1..], a, b)
  {
    var k :| 0 <= k < |q| - 1 && q[k] == a && q[k + 1] == b;
    assert q[1..][k - 1] == a && q[1..][k] == b;
  }

  lemma ConsumerMoves(s: State, consumer: Consumer)
    requires LinksOk(s.next, s.producers, s.consumer, s.stub, s.q)
    requires !s.consumer.LinkingStub? && !consumer.LinkingStub?
    ensures LinksOk(s.next, s.producers, consumer, s.stub, s.q)
  {
    forall k | 0 <= k < |s.q| - 1
      ensures PairOk(s.next, s.producers, consumer, s.stub, s.q[k], s.q[k + 1])
    {
      assert PairOk(s.next, s.producers, s.consumer, s.stub, s.q[k], s.q[k + 1]);
    }
  }

  lemma TakeKeepsShape(s: State)
    requires Shaped(s) && !s.consumer.LinkingStub? && NextOf(s.next, s.tail).Some?
    ensures Shaped(Take(s, NextOf(s.next, s.tail).value))
    ensures Shaped(SkipStub(s, NextOf(s.next, s.tail).value)) || s.tail != s.stub
  {
    TailMayAdvance(s);
    ConsumerMoves(s.(q := s.q[1..]), Resting);
    ConsumerMoves(s.(q := s.q[1..]), PastStub(s.q[1]));
  }

  /** A tail without a successor is alone, or someone is about to link it. */
  lemma NoSuccessorMeansAloneOrGap(s: State)
    requires Shaped(s) && !s.consumer.LinkingStub? && NextOf(s.next, s.tail).None?
    ensures |s.q| == 1 || SomeGap(s.producers)
  {
    if |s.q| > 1 {
      assert PairOk(s.next, s.producers, s.consumer, s.stub, s.q[0], s.q[1]);
    }
  }

  lemma LookAtTailKeepsShape(s: State)
    requires Shaped(s) && !s.consumer.LinkingStub? && s.tail != s.stub
    ensures Shaped(LookAtTail(s))
  {
    if NextOf(s.next, s.tail).Some? {
      TakeKeepsShape(s);
    } else {
      NoSuccessorMeansAloneOrGap(s);
      ConsumerMoves(s, CheckingHead(s.tail));
    }
  }

  lemma LoadKeepsShape(s: State, a: Action)
    requires Shaped(s) && Enabled(s, a) && (a.LoadNext? || a.LoadNextAgain? || a.LookAgain?)
    ensures Shaped(Apply(s, a))
  {
    var r := s.(gapSeen := (s.gapSeen && !a.LoadNext?) || SomeGap(s.producers));
    assert Shaped(r);
    if NextOf(r.next, r.tail).Some? {
      TakeKeepsShape(r);
    } else {
      ConsumerMoves(r, Resting);
    }
    if a.LoadNextAgain? { assert r.tail in r.q; }
    if r.tail != r.stub { LookAtTailKeepsShape(r); }
  }

  lemma ClearStubKeepsShape(s: State)
    requires Shaped(s) && Enabled(s, ClearStub)
    ensures Shaped(Apply(s, ClearStub))
  {
    var s' := Apply(s, ClearStub);
    WriteOutside(s, s.stub, None);
    ConsumerMoves(s.(next := s'.next), s'.consumer);
    forall j | 0 <= j < |s.producers|
      ensures ProducerOk(s'.producers[j], s.stub, s'.next, s.q)
    {
      assert ProducerOk(s.producers[j], s.stub, s.next, s.q);
      if s.producers[j].Linking? { AdjacentNodes(s.q, s.producers[j].prev, s.producers[j].first); }
      WriteElsewhere(s.producers[j], s.stub, s.next, s.q, s.stub, None);
    }
  }

  lemma CheckHeadKeepsShape(s: State)
    requires Shaped(s) && Enabled(s, CheckHead)
    ensures Shaped(Apply(s, CheckHead))
  {
    ConsumerMoves(s, Apply(s, CheckHead).consumer);
  }

  lemma SwapStubKeepsShape(s: State)
    requires Shaped(s) && Enabled(s, SwapStub)
    ensures Shaped(Apply(s, SwapStub))
  {
    var s' := Apply(s, SwapStub);
    var n := |s.q|;
    assert s.tail in s.q;
    forall k | 0 <= k < n
      ensures PairOk(s.next, s.producers, s'.consumer, s.stub, s'.q[k], s'.q[k + 1])
    {
      if k < n - 1 {
        assert PairOk(s.next, s.producers, s.consumer, s.stub, s.q[k], s.q[k + 1]);
      }
    }
    assert s'.q[n - 1] == s.head && s'.q[n] == s.stub;
    forall i | 0 <= i < |s.producers|
      ensures ProducerOk(s.producers[i], s.stub, s.next, s'.q)
      ensures s.producers[i].Linking? ==> s.producers[i].prev != s.head
    {
      assert ProducerOk(s.producers[i], s.stub, s.next, s.q);
      ProducerSeesStub(s.producers[i], s.stub, s.next, s.q);
    }
  }

  lemma ProducerSeesStub(p: Producer, stub: Node, next: seq<Option<Node>>, q: seq<Node>)
    requires ProducerOk(p, stub, next, q) && NoRepeats(q)
    ensures ProducerOk(p, stub, next, q + [stub])
    ensures p.Linking? ==> |q| > 0 && p.prev != q[|q| - 1]
  {
    if p.Linking? {
      AdjacentInLonger(q, [stub], p.prev, p.first);
      AdjacentIsNotLast(q, p.prev, p.first);
    }
  }

  lemma LinkStubKeepsShape(s: State)
    requires Shaped(s) && Enabled(s, LinkStub)
    ensures Shaped(Apply(s, LinkStub))
  {
    var s' := Apply(s, LinkStub);
    var prev := s.consumer.prev;
    AdjacentNodes(s.q, prev, s.stub);
    AdjacentIsNotLast(s.q, prev, s.stub);
    forall k | 0 <= k < |s.q| - 1
      ensures PairOk(s'.next, s.producers, s'.consumer, s.stub, s.q[k], s.q[k + 1])
    {
      assert PairOk(s.next, s.producers, s.consumer, s.stub, s.q[k], s.q[k + 1]);
    }
    forall j | 0 <= j < |s.producers|
      ensures ProducerOk(s'.producers[j], s.stub, s'.next, s.q)
    {
      assert ProducerOk(s.producers[j], s.stub, s.next, s.q);
      WriteElsewhere(s.producers[j], s.stub, s.next, s.q, prev, Some(s.stub));
    }
  }

  lemma StepKeepsShape(s: State, a: Action)
    requires Shaped(s) && Enabled(s, a)
    ensures Shaped(Apply(s, a))
  {
    match a
    case Begin(i, chain) => BeginKeepsShape(s, i, chain);
    case WriteOwn(i) => WriteOwnKeepsShape(s, i);
    case Swap(i) => SwapKeepsShape(s, i);
    case Link(i) => LinkKeepsShape(s, i);
    case Return(i) => ReturnKeepsShape(s, i);
    case CheckHead => CheckHeadKeepsShape(s);
    case ClearStub => ClearStubKeepsShape(s);
    case SwapStub => SwapStubKeepsShape(s);
    case LinkStub => LinkStubKeepsShape(s);
    case _ => LoadKeepsShape(s, a);
  }

  // ---------------------------------------------------------------- first in, first out

  lemma {:induction false} TasksAppend(q: seq<Node>, more: seq<Node>, stub: Node)
    ensures Tasks(q + more, stub) == Tasks(q, stub) + Tasks(more, stub)
  {
    if q == [] {
      assert q + more == more;
    } else {
      assert (q + more)[1..] == q[1..] + more;
      TasksAppend(q[1..], more, stub);
    }
  }

  lemma {:induction false} TasksOfChain(chain: seq<Node>, stub: Node)
    requires stub !in chain
    ensures Tasks(chain, stub) == chain
  {
    if chain != [] {
      TasksOfChain(chain[1..], stub);
    }
  }

  lemma TakeKeepsOrder(s: State)
    requires Inv(s) && !s.consumer.LinkingStub? && NextOf(s.next, s.tail).Some?
    ensures s.sent == s.taken + (if s.tail == s.stub then [] else [s.tail]) + Tasks(Rest(s.q), s.stub)
  {
    TailMayAdvance(s);
  }

  lemma ChainJoinsInOrder(s: State, i: nat)
    requires Inv(s) && Enabled(s, Swap(i))
    ensures Tasks(s.q + s.producers[i].chain, s.stub) == Tasks(s.q, s.stub) + s.producers[i].chain
  {
    assert ProducerOk(s.producers[i], s.stub, s.next, s.q);
    TasksAppend(s.q, s.producers[i].chain, s.stub);
    TasksOfChain(s.producers[i].chain, s.stub);
  }

  lemma TailIsTask(s: State, a: Action)
    requires Shaped(s) && Enabled(s, a) && (a.LoadNextAgain? || a.LookAgain?)
    ensures s.tail != s.stub && !s.consumer.LinkingStub?
  {
    assert s.tail in s.q;
  }

  /** Every action keeps the order: what was taken, then what waits, is what was sent. */
  lemma StepKeepsOrder(s: State, a: Action)
    requires Inv(s) && Enabled(s, a)
    ensures var s' := Apply(s, a); s'.sent == s'.taken + Tasks(s'.q, s'.stub)
  {
    match a
    case Swap(i) => ChainJoinsInOrder(s, i);
    case SwapStub => TasksAppend(s.q, [s.stub], s.stub);
    case LoadNext => if NextOf(s.next, s.tail).Some? { TakeKeepsOrder(s); }
    case LoadNextAgain => TailIsTask(s, a); if NextOf(s.next, s.tail).Some? { TakeKeepsOrder(s); }
    case LookAgain => TailIsTask(s, a); if NextOf(s.next, s.tail).Some? { TakeKeepsOrder(s); }
    case _ =>
  }

  lemma StepKeepsInv(s: State, a: Action)
    requires Inv(s) && Enabled(s, a)
    ensures Inv(Apply(s, a))
  {
    StepKeepsShape(s, a);
    StepKeepsOrder(s, a);
  }

  lemma InitHoldsInv(s: State)
    requires Init(s)
    ensures Inv(s)
  {
    assert forall k :: 0 <= k < |s.q| ==> s.q[k] == s.stub;
  }

  lemma ReachableHoldsInv(s: State)
    requires Runs.Reachable(Init, Next, s)
    ensures Inv(s)
  {
    forall r | Init(r) ensures Inv(r) { InitHoldsInv(r); }
    forall r: State, a, r' | Inv(r) && Next(r, a, r')
      ensures Inv(r')
    {
      StepKeepsInv(r, a);
    }
    Runs.ReachableKeepsInvariant(Init, Next, Inv, s);
  }

  /** However producers and consumer interleave, tasks come out in the order of the exchanges, none
      lost and none twice: what was sent is what was taken, in that order, and then what waits. */
  lemma FirstInFirstOut(s: State)
    requires Runs.Reachable(Init, Next, s)
    ensures s.sent == s.taken + Tasks(s.q, s.stub)
    ensures NoRepeats(s.q) && s.head in s.q && s.tail in s.q
  {
    ReachableHoldsInv(s);
  }

  // ---------------------------------------------------------------- popped tasks, failed pops

  /** The node is out of the inbox, and no producer has it in hand. */
  ghost predicate Outside(s: State, n: Node)
  {
    && n != s.stub && n !in s.q
    && forall j :: 0 <= j < |s.producers| ==> n !in Held(s.producers[j])
  }

  lemma PoppedTaskIsOutside(s: State, a: Action)
    requires Shaped(s) && Enabled(s, a) && Apply(s, a).taken != s.taken
    ensures Apply(s, a).taken == s.taken + [s.tail] && Outside(Apply(s, a), s.tail)
  {
    assert s.tail in s.q;
    TailMayAdvance(s);
    forall j | 0 <= j < |s.producers|
      ensures s.tail !in Held(s.producers[j])
    {
      assert ProducerOk(s.producers[j], s.stub, s.next, s.q);
    }
  }

  lemma WritesQueueOrHeld(s: State, a: Action, n: Node)
    requires Shaped(s) && Enabled(s, a) && Outside(s, n)
    ensures NextOf(Apply(s, a).next, n) == NextOf(s.next, n)
  {
    match a
    case WriteOwn(i) => assert s.producers[i].chain[s.producers[i].k] in Held(s.producers[i]);
    case Link(i) =>
      assert ProducerOk(s.producers[i], s.stub, s.next, s.q);
      AdjacentNodes(s.q, s.producers[i].prev, s.producers[i].first);
    case LinkStub => AdjacentNodes(s.q, s.consumer.prev, s.stub);
    case _ =>
  }

  lemma StaysOutside(s: State, a: Action, n: Node)
    requires Shaped(s) && Enabled(s, a) && Outside(s, n)
    requires a.Begin? ==> n !in a.chain
    ensures Outside(Apply(s, a), n)
  {
    var s' := Apply(s, a);
    if ProducerAction(a) {
      assert n !in Held(s.producers[a.i]);
      forall j | 0 <= j < |s'.producers|
        ensures n !in Held(s'.producers[j])
      {
        assert j != a.i ==> s'.producers[j] == s.producers[j];
      }
    }
  }

  /** Until some producer pushes it again, nobody writes a popped task, and it is never the head. */
  lemma PoppedTaskIsLeftAlone(s: State, a: Action, n: Node)
    requires Shaped(s) && Enabled(s, a) && Outside(s, n)
    requires a.Begin? ==> n !in a.chain
    ensures Outside(Apply(s, a), n)
    ensures NextOf(Apply(s, a).next, n) == NextOf(s.next, n) && n != Apply(s, a).head
  {
    WritesQueueOrHeld(s, a, n);
    StaysOutside(s, a, n);
    StepKeepsShape(s, a);
    HeadIsQueued(Apply(s, a));
  }

  lemma HeadIsQueued(s: State)
    requires Shaped(s)
    ensures s.head in s.q && s.tail in s.q
  {
  }

  /** The consumer's pop ends without a task. */
  predicate PopFails(s: State, a: Action)
  {
    || (a.LoadNext? && s.tail == s.stub && NextOf(s.next, s.tail).None?)
    || (a.CheckHead? && s.head != s.tail)
    || (a.LookAgain? && NextOf(s.next, s.tail).None?)
  }

  /** A pop fails only if the inbox is empty, or some producer stood between its exchange and its link
      at some moment while the pop was running. */
  lemma PopFailsOnlyOnEmptyOrGap(s: State, a: Action)
    requires Shaped(s) && Enabled(s, a) && PopFails(s, a)
    ensures Apply(s, a).consumer == Resting && Apply(s, a).taken == s.taken
    ensures Tasks(s.q, s.stub) == [] || Apply(s, a).gapSeen
  {
    if a.CheckHead? {
      assert |s.q| > 1;
    } else {
      NoSuccessorMeansAloneOrGap(s);
      if |s.q| == 1 {
        assert s.q == [s.tail];
      }
    }
  }

  /** Looked at when it comes back, a pop that fails on the check of the head leaves tasks waiting, and any
      other failed pop an empty inbox or a missing link; so a failed pop is then explained exactly unless it
      came back from the check of the head with every link by then in place. */
  lemma FailedPopExplainedIff(s: State, a: Action)
    requires Shaped(s) && Enabled(s, a) && PopFails(s, a)
    ensures a.CheckHead? ==> Tasks(s.q, s.stub) != []
    ensures !a.CheckHead? ==> Tasks(s.q, s.stub) == [] || SomeGap(s.producers)
    ensures Tasks(s.q, s.stub) == [] || SomeGap(s.producers) <==> !(a.CheckHead? && !SomeGap(s.producers))
  {
    if a.CheckHead? {
      assert |s.q| > 1 && s.q[0] != s.stub;
    } else {
      NoSuccessorMeansAloneOrGap(s);
      if |s.q| == 1 {
        assert s.q == [s.tail];
      }
    }
  }

  // ---------------------------------------------------------------- what the others may do meanwhile

  ghost predicate ProducerNext(s: State, a: Action, s': State)
  {
    Next(s, a, s') && ProducerAction(a)
  }

  ghost predicate ProducerRun(states: seq<State>, actions: seq<Action>)
  {
    |states| == |actions| + 1 && forall k :: 0 <= k < |actions| ==> ProducerNext(states[k], actions[k], states[k + 1])
  }

  /** Some number of producer steps lead from s to s'. */
  ghost predicate ProducersLead(s: State, s': State)
  {
    exists states, actions :: ProducerRun(states, actions) && states[0] == s && states[|actions|] == s'
  }

  /** The step of another thread than producer i. */
  ghost predicate OtherNext(i: nat, s: State, a: Action, s': State)
  {
    Next(s, a, s') && !(ProducerAction(a) && a.i == i)
  }

  ghost predicate OtherRun(i: nat, states: seq<State>, actions: seq<Action>)
  {
    |states| == |actions| + 1 && forall k :: 0 <= k < |actions| ==> OtherNext(i, states[k], actions[k], states[k + 1])
  }

  /** Some number of steps of the consumer and the producers other than i lead from s to s'. */
  ghost predicate OthersLead(i: nat, s: State, s': State)
  {
    exists states, actions :: OtherRun(i, states, actions) && states[0] == s && states[|actions|] == s'
  }

  /** Producers never touch what is the consumer's, nor take back what they sent. */
  lemma {:induction false} ProducersOnlySend(states: seq<State>, actions: seq<Action>)
    requires ProducerRun(states, actions)
    ensures var s, s' := states[0], states[|actions|];
      && s'.stub == s.stub && |s'.next| == |s.next| && |s'.producers| == |s.producers|
      && s'.tail == s.tail && s'.consumer == s.consumer && s'.taken == s.taken
      && s.sent <= s'.sent && s.q <= s'.q && (s.gapSeen ==> s'.gapSeen)
    decreases |actions|
  {
    if actions != [] {
      var n := |actions| - 1;
      ProducersOnlySend(states[..n + 1], actions[..n]);
      assert ProducerNext(states[n], actions[n], states[n + 1]);
    }
  }

  /** Nobody else moves a producer on, or takes back what was sent. */
  lemma {:induction false} OthersLeaveProducer(i: nat, states: seq<State>, actions: seq<Action>)
    requires OtherRun(i, states, actions) && i < |states[0].producers|
    ensures var s, s' := states[0], states[|actions|];
      && s'.stub == s.stub && |s'.next| == |s.next| && i < |s'.producers| == |s.producers|
      && s'.producers[i] == s.producers[i] && s.sent <= s'.sent && s.taken <= s'.taken
    decreases |actions|
  {
    if actions != [] {
      var n := |actions| - 1;
      OthersLeaveProducer(i, states[..n + 1], actions[..n]);
      assert OtherNext(i, states[n], actions[n], states[n + 1]);
    }
  }
}
