/** How one worker clears its flag, drains its two inboxes and goes to sleep, against any number of
    pushers that link a task, mark the flag, pass through the worker's mutex and notify. */
module WorkerSleep {
  import opened Options
  import I = InboxProtocol
  import Runs

  /** How many tasks one drain loop takes at most. */
  const BATCH_SIZE: nat := 64

  /** What a pusher still has to do once its task is linked. */
  datatype Phase = Unmarked | Marked | PastMutex

  /** An inbox with the phase of each of its producers. */
  datatype Inbox = Inbox(queue: I.State, phases: seq<Phase>)

  datatype Worker =
    | Starting                              // top of the loop, flag to be cleared
    | Searching                             // own deques and stealing
    | DrainingHi(count: nat) | HoldingHi    // HoldingHi: the batch is in the deque, one is popped back
    | DrainingLo(count: nat) | HoldingLo
    | Locking                               // about to take the mutex
    | Checking                              // mutex held, predicate to be evaluated
    | Parking                               // mutex held, predicate was false
    | Blocked                               // waiting on the condition variable
    | Woken                                 // notified, mutex to be taken again

  /** hiDrained and loDrained: this iteration's drain loop ended on a failed pop. */
  datatype State = State(hi: Inbox, lo: Inbox, flag: bool, worker: Worker, hiDrained: bool, loDrained: bool)

  datatype Action =
    | Push(high: bool, a: I.Action)         // a step of a producer inside the inbox
    | Pop(high: bool, a: I.Action)          // a step of the worker's pop
    | Mark(high: bool, i: nat) | PassMutex(high: bool, i: nat) | Notify(high: bool, i: nat)
    | Clear | Search(found: bool) | StopHi | UseHi(found: bool) | StopLo | UseLo(found: bool)
    | Lock | Check | Park | SpuriousWake

  function Box(s: State, high: bool): Inbox
  {
    if high then s.hi else s.lo
  }

  function WithBox(s: State, high: bool, b: Inbox): State
  {
    if high then s.(hi := b) else s.(lo := b)
  }

  predicate PhaseIs(b: Inbox, i: nat, phase: Phase)
  {
    i < |b.phases| && i < |b.queue.producers| && b.queue.producers[i].Linked? && b.phases[i] == phase
  }

  predicate Draining(w: Worker, high: bool)
  {
    if high then w.DrainingHi? else w.DrainingLo?
  }

  ghost predicate Enabled(s: State, a: Action)
  {
    match a
    case Push(high, step) => I.ProducerAction(step) && !step.Return? && I.Enabled(Box(s, high).queue, step)
    case Pop(high, step) =>
      && !I.ProducerAction(step) && Draining(s.worker, high) && I.Enabled(Box(s, high).queue, step)
      && (step.LoadNext? ==> s.worker.count < BATCH_SIZE)
    case Mark(high, i) => PhaseIs(Box(s, high), i, Unmarked)
    case PassMutex(high, i) => PhaseIs(Box(s, high), i, Marked) && !s.worker.Checking? && !s.worker.Parking?
    case Notify(high, i) => PhaseIs(Box(s, high), i, PastMutex)
    case Clear => s.worker.Starting?
    case Search(_) => s.worker.Searching?
    case StopHi => s.worker.DrainingHi? && s.hi.queue.consumer.Resting? && s.worker.count == BATCH_SIZE
    case UseHi(_) => s.worker.HoldingHi?
    case StopLo => s.worker.DrainingLo? && s.lo.queue.consumer.Resting? && s.worker.count == BATCH_SIZE
    case UseLo(_) => s.worker.HoldingLo?
    case Lock => s.worker.Locking? || s.worker.Woken?
    case Check => s.worker.Checking?
    case Park => s.worker.Parking?
    case SpuriousWake => s.worker.Blocked?
  }

  /** Where the worker goes when a drain loop ends with count tasks in hand. */
  function AfterDrain(high: bool, count: nat): Worker
  {
    if high then (if count > 0 then HoldingHi else DrainingLo(0))
    else (if count > 0 then HoldingLo else Locking)
  }

  ghost function PopStep(s: State, high: bool, step: I.Action): State
    requires Enabled(s, Pop(high, step))
  {
    var q := Box(s, high).queue;
    var q' := I.Apply(q, step);
    var s' := WithBox(s, high, Box(s, high).(queue := q'));
    if I.PopFails(q, step) then
      if high then s'.(worker := AfterDrain(high, s.worker.count), hiDrained := true)
      else s'.(worker := AfterDrain(high, s.worker.count), loDrained := true)
    else if q'.taken != q.taken then
      s'.(worker := if high then DrainingHi(s.worker.count + 1) else DrainingLo(s.worker.count + 1))
    else s'
  }

  ghost function Apply(s: State, a: Action): State
    requires Enabled(s, a)
  {
    match a
    case Push(high, step) =>
      WithBox(s, high, Box(s, high).(queue := I.Apply(Box(s, high).queue, step)))
    case Pop(high, step) => PopStep(s, high, step)
    case Mark(high, i) =>
      WithBox(s, high, Box(s, high).(phases := Box(s, high).phases[i := Marked])).(flag := true)
    case PassMutex(high, i) =>
      WithBox(s, high, Box(s, high).(phases := Box(s, high).phases[i := PastMutex]))
    case Notify(high, i) =>
      var b := Box(s, high);
      WithBox(s, high, Inbox(I.Apply(b.queue, I.Return(i)), b.phases[i := Unmarked]))
        .(worker := if s.worker.Blocked? then Woken else s.worker)
    case Clear => s.(flag := false, worker := Searching, hiDrained := false, loDrained := false)
    case Search(found) => s.(worker := if found then Starting else DrainingHi(0))
    case StopHi => s.(worker := HoldingHi)
    case UseHi(found) => s.(worker := if found then Starting else DrainingLo(0))
    case StopLo => s.(worker := HoldingLo)
    case UseLo(found) => s.(worker := if found then Starting else Locking)
    case Lock => s.(worker := Checking)
    case Check => s.(worker := if s.flag then Starting else Parking)
    case Park => s.(worker := Blocked)
    case SpuriousWake => s.(worker := Woken)
  }

  ghost predicate Next(s: State, a: Action, s': State)
  {
    Enabled(s, a) && s' == Apply(s, a)
  }

  ghost predicate Init(s: State)
  {
    && I.Init(s.hi.queue) && I.Init(s.lo.queue)
    && |s.hi.phases| == |s.hi.queue.producers| && |s.lo.phases| == |s.lo.queue.producers|
    && (forall i :: 0 <= i < |s.hi.phases| ==> s.hi.phases[i] == Unmarked)
    && (forall i :: 0 <= i < |s.lo.phases| ==> s.lo.phases[i] == Unmarked)
    && !s.flag && s.worker == Starting && !s.hiDrained && !s.loDrained
  }

  // ---------------------------------------------------------------- one inbox

  function Waiting(b: Inbox): seq<I.Node>
  {
    I.Tasks(b.queue.q, b.queue.stub)
  }

  /** Producer i has made its exchange and has not marked the flag. */
  predicate OwesMark(b: Inbox, i: nat)
  {
    && i < |b.queue.producers| && i < |b.phases|
    && (b.queue.producers[i].Linking? || (b.queue.producers[i].Linked? && b.phases[i] == Unmarked))
  }

  predicate SomeOwesMark(b: Inbox)
  {
    exists i :: 0 <= i < |b.phases| && OwesMark(b, i)
  }

  /** Producer i has marked the flag and has not notified. */
  predicate OwesNotify(b: Inbox, i: nat)
  {
    && i < |b.queue.producers| && i < |b.phases|
    && b.queue.producers[i].Linked? && b.phases[i] != Unmarked
  }

  ghost predicate BoxOk(b: Inbox)
  {
    && I.Inv(b.queue) && |b.phases| == |b.queue.producers|
    && forall i :: 0 <= i < |b.phases| && b.phases[i] != Unmarked ==> b.queue.producers[i].Linked?
  }

  /** The pop in progress has come across a producer between exchange and link. */
  predicate GapMet(b: Inbox)
  {
    b.queue.gapSeen && !b.queue.consumer.Resting?
  }

  lemma GapOwesMark(b: Inbox)
    requires BoxOk(b) && I.SomeGap(b.queue.producers)
    ensures SomeOwesMark(b)
  {
    var i :| 0 <= i < |b.queue.producers| && b.queue.producers[i].Linking?;
    assert OwesMark(b, i);
  }

  /** What a step inside an inbox may change, as far as sleeping is concerned. */
  lemma InnerStep(b: Inbox, step: I.Action)
    requires BoxOk(b) && I.Enabled(b.queue, step) && !step.Return?
    ensures var b' := b.(queue := I.Apply(b.queue, step));
      && BoxOk(b')
      && (SomeOwesMark(b) ==> SomeOwesMark(b'))
      && (Waiting(b') != [] ==> Waiting(b) != [] || SomeOwesMark(b'))
      && (GapMet(b') ==> GapMet(b) || SomeOwesMark(b'))
      && (I.PopFails(b.queue, step) ==> Waiting(b') == [] || GapMet(b) || SomeOwesMark(b'))
      && forall i :: OwesNotify(b, i) ==> OwesNotify(b', i)
  {
    var b' := b.(queue := I.Apply(b.queue, step));
    I.StepKeepsInv(b.queue, step);
    InnerKeepsPhases(b, step);
    if SomeOwesMark(b) {
      var i :| 0 <= i < |b.phases| && OwesMark(b, i);
      assert OwesMark(b', i);
    }
    if I.SomeGap(b'.queue.producers) { GapOwesMark(b'); }
    if I.PopFails(b.queue, step) { I.PopFailsOnlyOnEmptyOrGap(b.queue, step); }
    InnerAddsOnlyBySwap(b, step);
  }

  lemma InnerKeepsPhases(b: Inbox, step: I.Action)
    requires BoxOk(b) && I.Enabled(b.queue, step) && !step.Return?
    ensures var b' := b.(queue := I.Apply(b.queue, step));
      && |b'.queue.producers| == |b.queue.producers|
      && forall i :: 0 <= i < |b.queue.producers| ==>
           && (b.queue.producers[i].Linked? ==> b'.queue.producers[i].Linked?)
           && (b.queue.producers[i].Linking? ==> b'.queue.producers[i].Linking? || b'.queue.producers[i].Linked?)
  {
  }

  lemma InnerAddsOnlyBySwap(b: Inbox, step: I.Action)
    requires BoxOk(b) && I.Enabled(b.queue, step) && !step.Return?
    ensures var b' := b.(queue := I.Apply(b.queue, step));
      Waiting(b') != [] ==> Waiting(b) != [] || I.SomeGap(b'.queue.producers)
  {
    var b' := b.(queue := I.Apply(b.queue, step));
    if step.Swap? {
      assert b'.queue.producers[step.i].Linking?;
    } else if step.SwapStub? {
      I.TasksAppend(b.queue.q, [b.queue.stub], b.queue.stub);
    } else {
      assert b'.queue.q == b.queue.q || b'.queue.q == I.Rest(b.queue.q);
    }
  }

  // ---------------------------------------------------------------- the invariant

  /** The worker will be told: the flag is set, or someone has yet to set it. */
  predicate WillKnow(s: State)
  {
    s.flag || SomeOwesMark(s.hi) || SomeOwesMark(s.lo)
  }

  predicate SomeIs(b: Inbox, phase: Phase)
  {
    exists i :: 0 <= i < |b.phases| && PhaseIs(b, i, phase)
  }

  predicate SomeMarked(s: State)
  {
    SomeIs(s.hi, Marked) || SomeIs(s.lo, Marked)
  }

  predicate SomeNotifies(s: State)
  {
    SomeMarked(s) || SomeIs(s.hi, PastMutex) || SomeIs(s.lo, PastMutex)
  }

  ghost predicate SearchOk(s: State)
  {
    s.worker.Starting? ||
    (&& (GapMet(s.hi) ==> WillKnow(s)) && (GapMet(s.lo) ==> WillKnow(s))
     && (s.hiDrained ==> Waiting(s.hi) == [] || WillKnow(s))
     && (s.loDrained ==> Waiting(s.lo) == [] || WillKnow(s)))
  }

  ghost predicate Inv(s: State)
  {
    && BoxOk(s.hi) && BoxOk(s.lo)
    && (s.worker.DrainingHi? || s.hi.queue.consumer.Resting?)
    && (s.worker.DrainingLo? || s.lo.queue.consumer.Resting?)
    && SearchOk(s)
    && (s.worker.Parking? && s.flag ==> SomeMarked(s))
    && (s.worker.Blocked? && s.flag ==> SomeNotifies(s))
  }

  // ---------------------------------------------------------------- every action keeps it

  lemma PhasesSurviveStep(b: Inbox, step: I.Action, phase: Phase)
    requires BoxOk(b) && I.Enabled(b.queue, step) && !step.Return? && SomeIs(b, phase)
    ensures SomeIs(b.(queue := I.Apply(b.queue, step)), phase)
  {
    InnerKeepsPhases(b, step);
    var i :| 0 <= i < |b.phases| && PhaseIs(b, i, phase);
    assert PhaseIs(b.(queue := I.Apply(b.queue, step)), i, phase);
  }

  lemma PhasesSurviveAll(b: Inbox, step: I.Action)
    requires BoxOk(b) && I.Enabled(b.queue, step) && !step.Return?
    ensures SomeIs(b, Marked) ==> SomeIs(b.(queue := I.Apply(b.queue, step)), Marked)
    ensures SomeIs(b, PastMutex) ==> SomeIs(b.(queue := I.Apply(b.queue, step)), PastMutex)
  {
    if SomeIs(b, Marked) { PhasesSurviveStep(b, step, Marked); }
    if SomeIs(b, PastMutex) { PhasesSurviveStep(b, step, PastMutex); }
  }

  lemma PushKeepsInv(s: State, high: bool, step: I.Action)
    requires Inv(s) && Enabled(s, Push(high, step))
    ensures Inv(Apply(s, Push(high, step)))
  {
    InnerStep(Box(s, high), step);
    PhasesSurviveAll(Box(s, high), step);
    ProducersLeaveConsumer(Box(s, high).queue, step);
  }

  lemma ProducersLeaveConsumer(q: I.State, step: I.Action)
    requires I.Enabled(q, step) && I.ProducerAction(step)
    ensures I.Apply(q, step).consumer == q.consumer
  {
  }

  lemma PopEnds(q: I.State, step: I.Action)
    requires I.Enabled(q, step) && !I.ProducerAction(step)
    ensures I.PopFails(q, step) || I.Apply(q, step).taken != q.taken ==> I.Apply(q, step).consumer.Resting?
    ensures !I.PopFails(q, step) && I.Apply(q, step).taken == q.taken ==> !I.Apply(q, step).consumer.Resting?
  {
  }

  lemma PopKeepsInv(s: State, high: bool, step: I.Action)
    requires Inv(s) && Enabled(s, Pop(high, step))
    ensures Inv(Apply(s, Pop(high, step)))
  {
    if high { PopHighKeepsInv(s, step); } else { PopLowKeepsInv(s, step); }
  }

  lemma PopHighKeepsInv(s: State, step: I.Action)
    requires Inv(s) && Enabled(s, Pop(true, step))
    ensures Inv(Apply(s, Pop(true, step)))
  {
    InnerStep(s.hi, step);
    PhasesSurviveAll(s.hi, step);
    PopEnds(s.hi.queue, step);
  }

  lemma PopLowKeepsInv(s: State, step: I.Action)
    requires Inv(s) && Enabled(s, Pop(false, step))
    ensures Inv(Apply(s, Pop(false, step)))
  {
    InnerStep(s.lo, step);
    PhasesSurviveAll(s.lo, step);
    PopEnds(s.lo.queue, step);
  }

  lemma PhaseMoves(b: Inbox, i: nat, phase: Phase)
    requires BoxOk(b) && i < |b.phases| && b.queue.producers[i].Linked?
    ensures var b' := b.(phases := b.phases[i := phase]);
      && BoxOk(b') && (phase != Unmarked ==> SomeIs(b', phase))
      && Waiting(b') == Waiting(b) && GapMet(b') == GapMet(b)
      && (b.phases[i] != Unmarked && SomeOwesMark(b) ==> SomeOwesMark(b'))
      && (forall p :: p != b.phases[i] && SomeIs(b, p) ==> SomeIs(b', p))
  {
    var b' := b.(phases := b.phases[i := phase]);
    assert phase != Unmarked ==> PhaseIs(b', i, phase);
    if b.phases[i] != Unmarked && SomeOwesMark(b) {
      var j :| 0 <= j < |b.phases| && OwesMark(b, j);
      assert OwesMark(b', j);
    }
    forall p | p != b.phases[i] && SomeIs(b, p)
      ensures SomeIs(b', p)
    {
      var j :| 0 <= j < |b.phases| && PhaseIs(b, j, p);
      assert PhaseIs(b', j, p);
    }
  }

  lemma MarkKeepsInv(s: State, high: bool, i: nat)
    requires Inv(s) && Enabled(s, Mark(high, i))
    ensures Inv(Apply(s, Mark(high, i)))
  {
    PhaseMoves(Box(s, high), i, Marked);
  }

  lemma PassMutexKeepsInv(s: State, high: bool, i: nat)
    requires Inv(s) && Enabled(s, PassMutex(high, i))
    ensures Inv(Apply(s, PassMutex(high, i)))
  {
    PhaseMoves(Box(s, high), i, PastMutex);
  }

  lemma ReturnInInbox(b: Inbox, i: nat)
    requires BoxOk(b) && PhaseIs(b, i, PastMutex)
    ensures var b' := Inbox(I.Apply(b.queue, I.Return(i)), b.phases[i := Unmarked]);
      && BoxOk(b') && Waiting(b') == Waiting(b) && b'.queue.consumer == b.queue.consumer
      && (GapMet(b') ==> GapMet(b) || SomeOwesMark(b'))
      && (SomeOwesMark(b) ==> SomeOwesMark(b'))
      && (SomeIs(b, Marked) ==> SomeIs(b', Marked))
  {
    var b' := Inbox(I.Apply(b.queue, I.Return(i)), b.phases[i := Unmarked]);
    I.StepKeepsInv(b.queue, I.Return(i));
    if SomeOwesMark(b) {
      var j :| 0 <= j < |b.phases| && OwesMark(b, j);
      assert OwesMark(b', j);
    }
    if SomeIs(b, Marked) {
      var j :| 0 <= j < |b.phases| && PhaseIs(b, j, Marked);
      assert PhaseIs(b', j, Marked);
    }
    if I.SomeGap(b'.queue.producers) { GapOwesMark(b'); }
  }

  lemma NotifyKeepsInv(s: State, high: bool, i: nat)
    requires Inv(s) && Enabled(s, Notify(high, i))
    ensures Inv(Apply(s, Notify(high, i)))
  {
    ReturnInInbox(Box(s, high), i);
  }

  lemma StepKeepsInv(s: State, a: Action)
    requires Inv(s) && Enabled(s, a)
    ensures Inv(Apply(s, a))
  {
    match a
    case Push(high, step) => PushKeepsInv(s, high, step);
    case Pop(high, step) => PopKeepsInv(s, high, step);
    case Mark(high, i) => MarkKeepsInv(s, high, i);
    case PassMutex(high, i) => PassMutexKeepsInv(s, high, i);
    case Notify(high, i) => NotifyKeepsInv(s, high, i);
    case _ =>
  }

  lemma ReachableHoldsInv(s: State)
    requires Runs.Reachable(Init, Next, s)
    ensures Inv(s)
  {
    forall r | Init(r)
      ensures Inv(r)
    {
      I.InitHoldsInv(r.hi.queue);
      I.InitHoldsInv(r.lo.queue);
    }
    forall r: State, a, r' | Inv(r) && Next(r, a, r')
      ensures Inv(r')
    {
      StepKeepsInv(r, a);
    }
    Runs.ReachableKeepsInvariant(Init, Next, Inv, s);
  }

  // ---------------------------------------------------------------- no lost wakeup

  /** Some pusher whose task is in an inbox has its notify still to come. */
  predicate NotifyToCome(s: State)
  {
    SomeOwesMark(s.hi) || SomeOwesMark(s.lo) || SomeNotifies(s)
  }

  /** A worker blocked on its condition variable with a task waiting in an inbox whose drain loop ended on a
      failed pop has a notify still to come, whatever became of the other inbox; so does one blocked with
      its flag set. */
  lemma NoSleepOnVisibleWork(s: State)
    requires Runs.Reachable(Init, Next, s) && s.worker.Blocked?
    ensures s.flag ==> NotifyToCome(s)
    ensures s.hiDrained && Waiting(s.hi) != [] ==> NotifyToCome(s)
    ensures s.loDrained && Waiting(s.lo) != [] ==> NotifyToCome(s)
  {
    ReachableHoldsInv(s);
  }

  /** While the predicate is evaluated and until the worker blocks, no pusher passes the mutex: a false
      predicate with a task waiting in such an inbox leaves someone who has yet to mark the flag. */
  lemma FalsePredicateLeavesAMark(s: State)
    requires Runs.Reachable(Init, Next, s) && s.worker.Checking? && !s.flag
    requires (s.hiDrained && Waiting(s.hi) != []) || (s.loDrained && Waiting(s.lo) != [])
    ensures SomeOwesMark(s.hi) || SomeOwesMark(s.lo)
  {
    ReachableHoldsInv(s);
  }
}
