/** What a worker does with its inboxes between two sleeps: it drains each of them, up to a batch, and hands what
    it pops over to its deques before it does anything else. */
module WorkerHands {
  import I = InboxProtocol
  import Runs
  import opened WorkerSleep

  /** handed: the tasks handed over so far; hiFrom and loFrom: how many had been popped from each inbox when
      the worker last cleared its flag. */
  datatype Watched = Watched(s: State, handed: nat, hiFrom: nat, loFrom: nat)

  predicate Holds(w: Worker)
  {
    w.HoldingHi? || w.HoldingLo?
  }

  function Popped(s: State): nat
  {
    |s.hi.queue.taken| + |s.lo.queue.taken|
  }

  /** Entering Holding is handing over the batch. */
  ghost predicate WatchedNext(v: Watched, a: Action, v': Watched)
  {
    && Next(v.s, a, v'.s)
    && v'.handed == (if Holds(v'.s.worker) && !Holds(v.s.worker) then Popped(v'.s) else v.handed)
    && v'.hiFrom == (if a.Clear? then |v.s.hi.queue.taken| else v.hiFrom)
    && v'.loFrom == if a.Clear? then |v.s.lo.queue.taken| else v.loFrom
  }

  ghost predicate WatchedInit(v: Watched)
  {
    Init(v.s) && v.handed == v.hiFrom == v.loFrom == 0
  }

  /** The tasks of the drain in progress. */
  function InHand(w: Worker): nat
  {
    if w.DrainingHi? || w.DrainingLo? then w.count else 0
  }

  ghost predicate Accounted(v: Watched)
  {
    Popped(v.s) == v.handed + InHand(v.s.worker)
  }

  lemma PopTakesOne(q: I.State, step: I.Action)
    requires I.Enabled(q, step)
    ensures I.Apply(q, step).taken == q.taken || |I.Apply(q, step).taken| == |q.taken| + 1
    ensures I.ProducerAction(step) ==> I.Apply(q, step).taken == q.taken
    ensures I.PopFails(q, step) ==> I.Apply(q, step).taken == q.taken
  {
  }

  predicate PusherAction(a: Action)
  {
    a.Push? || a.Mark? || a.PassMutex? || a.Notify?
  }

  /** A pusher leaves alone what is the worker's, but for waking it. */
  ghost predicate WorkersPartSame(s: State, s': State)
  {
    && s'.hi.queue.taken == s.hi.queue.taken && s'.hi.queue.consumer == s.hi.queue.consumer
    && s'.lo.queue.taken == s.lo.queue.taken && s'.lo.queue.consumer == s.lo.queue.consumer
    && s'.hiDrained == s.hiDrained && s'.loDrained == s.loDrained
    && (s'.worker == s.worker || (s.worker.Blocked? && s'.worker.Woken?))
  }

  lemma ProducersDoNotPop(q: I.State, step: I.Action)
    requires I.Enabled(q, step) && I.ProducerAction(step)
    ensures I.Apply(q, step).consumer == q.consumer && I.Apply(q, step).taken == q.taken
  {
  }

  lemma PushLeavesWorker(s: State, a: Action)
    requires Enabled(s, a) && (a.Push? || a.Notify?)
    ensures WorkersPartSame(s, Apply(s, a))
  {
    ProducersDoNotPop(Box(s, a.high).queue, if a.Push? then a.a else I.Return(a.i));
  }

  lemma PusherLeavesWorker(s: State, a: Action)
    requires Enabled(s, a) && PusherAction(a)
    ensures WorkersPartSame(s, Apply(s, a))
  {
    if a.Push? || a.Notify? {
      PushLeavesWorker(s, a);
    }
  }

  lemma StepKeepsAccount(v: Watched, a: Action, v': Watched)
    requires Accounted(v) && WatchedNext(v, a, v')
    ensures Accounted(v')
  {
    if PusherAction(a) {
      PusherLeavesWorker(v.s, a);
    } else if a.Pop? {
      PopTakesOne(Box(v.s, a.high).queue, a.a);
    }
  }

  /** In every run, whenever the worker is not in the middle of a drain, all it has popped has been handed over;
      in the middle of one, all but what this drain has popped. */
  lemma PoppedIsHandedOver(v: Watched)
    requires Runs.Reachable(WatchedInit, WatchedNext, v)
    ensures Popped(v.s) == v.handed + InHand(v.s.worker)
    ensures v.s.worker.Blocked? || v.s.worker.Searching? ==> Popped(v.s) == v.handed
  {
    forall u: Watched, a, u' | Accounted(u) && WatchedNext(u, a, u')
      ensures Accounted(u')
    {
      StepKeepsAccount(u, a, u');
    }
    Runs.ReachableKeepsInvariant(WatchedInit, WatchedNext, Accounted, v);
  }

  // ---------------------------------------------------------------- both inboxes are drained before sleep

  /** The drain of an inbox is over: it ended on a failed pop, or with a full batch. */
  predicate DrainOver(drained: bool, taken: nat, from: nat)
  {
    drained || taken == from + BATCH_SIZE
  }

  /** A pop is begun only while the batch has room. */
  predicate MayGoOn(count: nat, b: Inbox)
  {
    if b.queue.consumer.Resting? then count <= BATCH_SIZE else count < BATCH_SIZE
  }

  /** How far the iteration that began with clearing the flag has got with its drains. */
  ghost predicate Drained(v: Watched)
  {
    var hi, lo := |v.s.hi.queue.taken|, |v.s.lo.queue.taken|;
    var hiOver := DrainOver(v.s.hiDrained, hi, v.hiFrom);
    var loOver := DrainOver(v.s.loDrained, lo, v.loFrom);
    match v.s.worker
    case Starting => true
    case Searching => hi == v.hiFrom && lo == v.loFrom
    case DrainingHi(c) => MayGoOn(c, v.s.hi) && hi == v.hiFrom + c && lo == v.loFrom
    case HoldingHi => hiOver && lo == v.loFrom
    case DrainingLo(c) => MayGoOn(c, v.s.lo) && hiOver && lo == v.loFrom + c
    case _ => hiOver && loOver
  }

  /** A pop is over exactly when it has taken a task or failed. */
  lemma PopEnds(q: I.State, step: I.Action)
    requires I.Enabled(q, step) && !I.ProducerAction(step)
    ensures I.Apply(q, step).consumer.Resting? <==> I.PopFails(q, step) || I.Apply(q, step).taken != q.taken
    ensures q.consumer.Resting? <==> step.LoadNext?
  {
  }

  lemma PopKeepsDrained(v: Watched, high: bool, step: I.Action, v': Watched)
    requires Drained(v) && WatchedNext(v, Pop(high, step), v')
    ensures Drained(v')
  {
    PopTakesOne(Box(v.s, high).queue, step);
    PopEnds(Box(v.s, high).queue, step);
  }

  lemma StepKeepsDrained(v: Watched, a: Action, v': Watched)
    requires Drained(v) && WatchedNext(v, a, v')
    ensures Drained(v')
  {
    if PusherAction(a) {
      PusherLeavesWorker(v.s, a);
    } else if a.Pop? {
      PopKeepsDrained(v, a.high, a.a, v');
    }
  }

  /** A worker that is about to sleep, or asleep, or woken, has drained each inbox since it cleared its flag, until
      a pop failed or the batch was full; the conditions in NoSleepOnVisibleWork are the first of the two. */
  lemma SleepsOnlyAfterBothDrains(v: Watched)
    requires Runs.Reachable(WatchedInit, WatchedNext, v)
    requires v.s.worker.Locking? || v.s.worker.Checking? || v.s.worker.Parking? || v.s.worker.Blocked? || v.s.worker.Woken?
    ensures v.s.hiDrained || |v.s.hi.queue.taken| == v.hiFrom + BATCH_SIZE
    ensures v.s.loDrained || |v.s.lo.queue.taken| == v.loFrom + BATCH_SIZE
  {
    forall u: Watched, a, u' | Drained(u) && WatchedNext(u, a, u')
      ensures Drained(u')
    {
      StepKeepsDrained(u, a, u');
    }
    Runs.ReachableKeepsInvariant(WatchedInit, WatchedNext, Drained, v);
  }
}
