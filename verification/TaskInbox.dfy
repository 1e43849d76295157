/** The inbox's own code. Between any two accesses to shared memory the other threads may run for as long as
    they like: the Interfere methods stand for that, and their callers know only the contracts. The ghost
    field `m` follows the code access by access through the protocol of InboxProtocol. */
module TaskInboxes {
  import opened InboxProtocol
  import opened Options
  import Runs

  class TaskInbox {
    const stub: Node
    const next: array<Option<Node>>
    var head: Node
    var tail: Node
    ghost var m: State

    /** The fields are those of a state some run of the protocol leads to. */
    ghost predicate Valid()
      reads this, next
    {
      && m.stub == stub && m.next == next[..] && m.head == head && m.tail == tail
      && Runs.Reachable(Init, Next, m)
    }

    constructor (nodes: nat, stub: Node, ghost producers: nat)
      requires stub < nodes
      ensures Valid() && fresh(next) && Init(m) && next.Length == nodes && |m.producers| == producers
    {
      this.stub := stub;
      next := new Option<Node>[nodes](_ => None);
      head, tail := stub, stub;
      new;
      m := State(stub, next[..], stub, stub, seq(producers, _ => Idle), Resting, [stub], [], [], false);
      assert Runs.IsRun(Init, Next, [m], []);
    }

    /** Any number of steps of the producers. */
    method ProducersInterfere()
      requires Valid()
      modifies this`head, this`m, next
      ensures Valid() && ProducersLead(old(m), m)
      ensures m.consumer == old(m.consumer) && m.taken == old(m.taken)
      ensures old(m.sent) <= m.sent && (old(m.gapSeen) ==> m.gapSeen)
    {
      assert ProducerRun([m], []);
    }

    /** Any number of steps of the consumer and of the producers other than i. */
    method OthersInterfere(ghost i: nat)
      requires Valid() && i < |m.producers|
      modifies this, next
      ensures Valid() && OthersLead(i, old(m), m)
      ensures i < |m.producers| && m.producers[i] == old(m.producers[i])
      ensures old(m.sent) <= m.sent
    {
      assert OtherRun(i, [m], []);
    }

    /** The next access, as the protocol sees it. */
    ghost method Advance(a: Action)
      requires Runs.Reachable(Init, Next, m) && Enabled(m, a)
      modifies this`m
      ensures m == Apply(old(m), a) && Runs.Reachable(Init, Next, m)
    {
      Runs.StepStaysReachable(Init, Next, m, a, Apply(m, a));
      m := Apply(m, a);
    }

    /** An access by which a pop may end: with a task, it is the oldest one not yet taken; without, either no
        task was waiting or some producer had not yet linked what it had exchanged in. */
    ghost method Finish(a: Action)
      requires Runs.Reachable(Init, Next, m) && Enabled(m, a)
      modifies this`m
      ensures m == Apply(old(m), a) && Runs.Reachable(Init, Next, m)
      ensures PopFails(old(m), a) ==> Tasks(m.q, m.stub) == [] || m.gapSeen
      ensures m.taken == old(m.taken) || m.taken == old(m.taken) + [old(m.tail)]
      ensures m.taken <= m.sent
    {
      ReachableHoldsInv(m);
      if PopFails(m, a) {
        PopFailsOnlyOnEmptyOrGap(m, a);
      }
      if Apply(m, a).taken != m.taken {
        PoppedTaskIsOutside(m, a);
      }
      Advance(a);
      FirstInFirstOut(m);
    }

    method Pop() returns (r: Option<Node>)
      requires Valid() && m.consumer.Resting?
      modifies this, next
      ensures Valid() && m.consumer.Resting?
      ensures m.taken == old(m.taken) + match r case Some(x) => [x] case None => []
      ensures m.taken <= m.sent
      ensures r.None? ==> Tasks(m.q, m.stub) == [] || m.gapSeen
    {
      var t := tail;
      InRange(t);
      var n := next[t];
      Finish(LoadNext);
      if t == stub {
        if n.None? {
          return None;
        }
        tail := n.value;
        t := n.value;
        ProducersInterfere();
        InRange(t);
        n := next[t];
        Finish(LoadNextAgain);
      }
      if n.Some? {
        tail := n.value;
        return Some(t);
      }
      r := PopLast(t);
    }

    /** The rest of a pop whose tail t had no successor. */
    method PopLast(t: Node) returns (r: Option<Node>)
      requires Valid() && m.consumer == CheckingHead(t) && tail == t && m.taken <= m.sent
      modifies this, next
      ensures Valid() && m.consumer.Resting?
      ensures m.taken == old(m.taken) + match r case Some(x) => [x] case None => []
      ensures m.taken <= m.sent
      ensures r.None? ==> Tasks(m.q, m.stub) == [] || m.gapSeen
    {
      ProducersInterfere();
      var h := head;
      Finish(CheckHead);
      if t != h {
        return None;
      }
      AppendStub();
      ProducersInterfere();
      InRange(t);
      var n := next[t];
      Finish(LookAgain);
      if n.Some? {
        tail := n.value;
        return Some(t);
      }
      return None;
    }

    /** The tail is always a node. */
    lemma InRange(t: Node)
      requires Valid() && t == tail
      ensures t < next.Length && stub < next.Length
    {
      ReachableHoldsInv(m);
    }

    /** The consumer puts the stub back behind the last task. */
    method AppendStub()
      requires Valid() && m.consumer.ClearingStub?
      modifies this, next
      ensures Valid() && m.consumer == LastLook(old(m.tail)) && m.taken == old(m.taken) && tail == old(tail)
    {
      ProducersInterfere();
      InRange(tail);
      next[stub] := None;
      Advance(ClearStub);
      ProducersInterfere();
      var prev := head;
      head := stub;
      Advance(SwapStub);
      ProducersInterfere();
      PrevInRange();
      next[prev] := Some(stub);
      Advance(LinkStub);
    }

    lemma PrevInRange()
      requires Valid() && m.consumer.LinkingStub?
      ensures m.consumer.prev < next.Length
    {
      ReachableHoldsInv(m);
    }

    /** Producer i. The batch is linked from headBatch to tailBatch but for the end, which is cleared here;
        push is the same code with a batch of one. */
    method PushBatch(ghost i: nat, headBatch: Node, tailBatch: Node)
      requires Valid() && i < |m.producers| && m.producers[i].Chaining?
      requires var c := m.producers[i].chain;
        m.producers[i].k == |c| - 1 && headBatch == c[0] && tailBatch == c[|c| - 1]
      modifies this, next
      ensures Valid() && i < |m.producers| && m.producers[i].Idle?
      ensures old(m.sent) <= m.sent && SentTogether(m.sent, |old(m.sent)|, old(m.producers[i].chain))
    {
      ChainInRange(i);
      assert tailBatch in m.producers[i].chain;
      next[tailBatch] := None;
      Advance(WriteOwn(i));
      OthersInterfere(i);
      SwapAndLink(i, headBatch, tailBatch);
    }

    /** The exchange of the head and the link from the old head. */
    method SwapAndLink(ghost i: nat, headBatch: Node, tailBatch: Node)
      requires Valid() && i < |m.producers| && m.producers[i].Swapping?
      requires var c := m.producers[i].chain; c != [] && headBatch == c[0] && tailBatch == c[|c| - 1]
      modifies this, next
      ensures Valid() && i < |m.producers| && m.producers[i].Idle?
      ensures old(m.sent) <= m.sent && SentTogether(m.sent, |old(m.sent)|, old(m.producers[i].chain))
    {
      ghost var before, c := m.sent, m.producers[i].chain;
      var prev := head;
      head := tailBatch;
      Advance(Swap(i));
      ghost var after := m.sent;
      assert after == before + c;
      OthersInterfere(i);
      assert after <= m.sent && m.sent[|before|..|before| + |c|] == after[|before|..] == c;
      assert SliceIs(m.sent, |before|, c);
      OldHeadInRange(i);
      next[prev] := Some(headBatch);
      Advance(Link(i));
      Advance(Return(i));
    }

    /** Producer i pushes one task, which is its to push. */
    method Push(ghost i: nat, task: Node)
      requires Valid() && i < |m.producers| && m.producers[i].Idle? && MayPush(m, [task])
      modifies this, next
      ensures Valid() && i < |m.producers| && m.producers[i].Idle?
      ensures old(m.sent) <= m.sent && task in m.sent[|old(m.sent)|..]
    {
      Advance(Begin(i, [task]));
      PushBatch(i, task, task);
      ghost var at :| |old(m.sent)| <= at && SliceIs(m.sent, at, [task]);
      assert m.sent[|old(m.sent)|..][at - |old(m.sent)|] == m.sent[at] == m.sent[at..at + 1][0];
    }

    lemma ChainInRange(i: nat)
      requires Valid() && i < |m.producers| && m.producers[i].Chaining?
      ensures forall n :: n in m.producers[i].chain ==> n < next.Length
      ensures m.producers[i].chain != []
    {
      ReachableHoldsInv(m);
      assert ProducerOk(m.producers[i], m.stub, m.next, m.q);
    }

    lemma OldHeadInRange(i: nat)
      requires Valid() && i < |m.producers| && m.producers[i].Linking?
      ensures m.producers[i].prev < next.Length
    {
      ReachableHoldsInv(m);
      assert ProducerOk(m.producers[i], m.stub, m.next, m.q);
    }
  }

  /** The batch went in as a whole, after the first `since` tasks. */
  ghost predicate SentTogether(sent: seq<Node>, since: nat, batch: seq<Node>)
  {
    exists at :: since <= at && SliceIs(sent, at, batch)
  }

  predicate SliceIs(sent: seq<Node>, at: nat, batch: seq<Node>)
  {
    at + |batch| <= |sent| && sent[at..at + |batch|] == batch
  }
}
