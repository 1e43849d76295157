/** One fiber that owns the WaitGroup, waits on it once and may then destroy it: who touches the group
    after the fiber may run again? */
module WaitLifetime {
  import opened Options
  import opened WaitProtocol
  import opened WaitTiming
  import Runs

  /** The owner increments only before its one wait, the bare waiter bit only if `onBare` says so; tasks
      increment only while the count is positive. */
  ghost predicate LifeNext(onBare: bool, s: State, a: Action, s': State)
  {
    && Next(s, a, s') && |s.fibers| == 1
    && (a.BeginWait? ==> s.fibers[0].waits == 0)
    && (a.Increment? ==> s.count > 0 || (s.fibers[0].waits == 0 && (!s.bit || onBare)))
  }

  ghost function Living(onBare: bool): (State, Action, State) -> bool
  {
    (s, a, s') => LifeNext(onBare, s, a, s')
  }

  /** s0 is a start state with one fiber, an event for it, and at least one completer. */
  ghost predicate LifeStart(s0: State)
  {
    Start(s0) && |s0.fibers| == 1 && |s0.completers| > 0 && s0.free != {}
  }

  ghost predicate ReachableFrom(onBare: bool, s0: State, s: State)
  {
    Runs.Reachable((r: State) => r == s0, Living(onBare), s)
  }

  /** No bit is left over, or there is nothing to wait for and never will be. */
  predicate NoStaleBit(onBare: bool, s: State)
  {
    !s.bit || (s.count == 0 && !onBare)
  }

  /** The fiber has been signalled in its wait: nothing of the protocol holds it back any more. */
  predicate MayResume(fb: Fiber)
  {
    fb.waits > 0 &&
    (fb.status.SuspendSignaled? || fb.status.Ready? || fb.place.Returned? || fb.place.Outside?)
  }

  /** Some completer has an access to the group still to make. */
  predicate StillTouched(s: State)
  {
    s.count > 0 || SomeMustWake(s.completers)
  }

  predicate LifeSafe(s: State)
  {
    |s.fibers| == 1 && (MayResume(s.fibers[0]) ==> !StillTouched(s))
  }

  predicate BeforeArming(fb: Fiber)
  {
    (fb.place.Outside? && fb.waits == 0) || fb.place.Acquired? || fb.place.Parkable? || fb.place.Published?
  }

  ghost predicate LifeInv(onBare: bool, s: State)
  {
    && TimedInv(s) && |s.fibers| == 1
    && (!s.fibers[0].place.Outside? ==> s.fibers[0].waits > 0)
    && if BeforeArming(s.fibers[0])
       then s.waiters == {} && NoStaleBit(onBare, s) && !SomeMustWake(s.completers)
       else s.waiters == {} ==> !StillTouched(s)
  }

  lemma NobodyMustWakeAfter(s: State, c: nat, cm: Completer)
    requires c < |s.completers| && !cm.MustWakeAll?
    requires forall d :: 0 <= d < |s.completers| && d != c ==> !s.completers[d].MustWakeAll?
    ensures !SomeMustWake(s.completers[c := cm])
  {
  }

  lemma CompleterStepKeepsLifeInv(onBare: bool, s: State, a: Action)
    requires LifeInv(onBare, s) && Enabled(s, a) && !FiberAction(a) && !a.Increment?
    requires TimedInv(Apply(s, a))
    ensures LifeInv(onBare, Apply(s, a))
  {
    if a.ClearWaiters? {
      assert SomeMustWake(s.completers);
      NobodyMustWakeAfter(s, a.c, Signaling(s.waiters));
    } else if a.Decrement? {
      if !SomeMustWake(s.completers) && !(s.count == 1 && s.bit) {
        NobodyMustWakeAfter(s, a.c, Idle);
      }
    } else {
      WakeStaysDue(s.completers, a.c, Apply(s, a).completers[a.c]);
    }
  }

  lemma FiberStepKeepsLifeInv(onBare: bool, s: State, a: Action)
    requires LifeInv(onBare, s) && Enabled(s, a) && LifeNext(onBare, s, a, Apply(s, a))
    requires FiberAction(a) || a.Increment?
    requires TimedInv(Apply(s, a))
    ensures LifeInv(onBare, Apply(s, a))
  {
  }

  lemma StepKeepsLifeInv(onBare: bool, s: State, a: Action)
    requires LifeInv(onBare, s) && Enabled(s, a) && LifeNext(onBare, s, a, Apply(s, a))
    ensures LifeInv(onBare, Apply(s, a))
  {
    assert TimelyNext(s, a, Apply(s, a));
    StepKeepsInv(s, a);
    StepKeepsTimed(s, a);
    if FiberAction(a) || a.Increment? {
      FiberStepKeepsLifeInv(onBare, s, a);
    } else {
      CompleterStepKeepsLifeInv(onBare, s, a);
    }
  }

  lemma RegisteredIsNotResumed(s: State, e: nat)
    requires Inv(s) && |s.fibers| == 1 && e in s.waiters
    ensures !MayResume(s.fibers[0])
  {
    assert EventArmed(s.events, s.fibers, e);
  }

  lemma LifeInvIsSafe(onBare: bool, s: State)
    requires LifeInv(onBare, s)
    ensures LifeSafe(s)
  {
    assert FiberOk(s.fibers[0], 0, s.events, s.mutex, s.waiters, s.completers);
    if s.waiters != {} {
      var e :| e in s.waiters;
      RegisteredIsNotResumed(s, e);
    }
  }

  /** Started without a stale waiter bit, or with nothing to wait for, no completer touches the group
      after a step that lets its owner run on. */
  lemma SafeWithoutStaleBit(onBare: bool, s0: State, s: State)
    requires LifeStart(s0) && NoStaleBit(onBare, s0) && ReachableFrom(onBare, s0, s)
    ensures LifeSafe(s)
  {
    var from, inv := (r: State) => r == s0, (r: State) => LifeInv(onBare, r);
    forall r: State, a, r' | inv(r) && Living(onBare)(r, a, r')
      ensures inv(r')
    {
      StepKeepsLifeInv(onBare, r, a);
    }
    Runs.ReachableKeepsInvariant(from, Living(onBare), inv, s);
    LifeInvIsSafe(onBare, s);
  }

  lemma Step(onBare: bool, s0: State, s: State, a: Action)
    requires ReachableFrom(onBare, s0, s) && Enabled(s, a) && LifeNext(onBare, s, a, Apply(s, a))
    ensures ReachableFrom(onBare, s0, Apply(s, a))
  {
    Runs.StepStaysReachable((r: State) => r == s0, Living(onBare), s, a, Apply(s, a));
  }

  /** The group when n of its tasks are left to complete. */
  function With(s0: State, n: nat): State
    requires n <= s0.count
  {
    s0.(count := n, completed := s0.count - n)
  }

  /** All but the last task complete. */
  lemma {:induction false} CountDown(onBare: bool, s0: State, n: nat)
    requires LifeStart(s0) && 0 < n <= s0.count
    ensures ReachableFrom(onBare, s0, With(s0, n))
    decreases s0.count - n
  {
    if n == s0.count {
      assert Runs.IsRun((r: State) => r == s0, Living(onBare), [s0], []);
      assert With(s0, n) == s0;
    } else {
      CountDown(onBare, s0, n + 1);
      var s := With(s0, n + 1);
      assert s.completers[0 := Idle] == s.completers;
      Step(onBare, s0, s, Decrement(0));
    }
  }

  /** The owner arms on a count of zero; the completers do nothing meanwhile. */
  lemma OwnerArmsOnZero(onBare: bool, s0: State, s: State, e: nat) returns (s': State)
    requires LifeStart(s0) && ReachableFrom(onBare, s0, s)
    requires s.fibers == [Fiber(Running, Outside, false, 0)] && e in s.free && e < |s.events|
    requires s.count == 0 && s.completed == s.counted && s.mutex.None?
    ensures ReachableFrom(onBare, s0, s') && s'.fibers == [Fiber(WantsSuspend, SelfSignaling(e), true, 1)]
    ensures e < |s'.events| && s'.events[e] == Some(0) && s'.completers == s.completers
  {
    Step(onBare, s0, s, BeginWait(0, e));
    var s1 := Apply(s, BeginWait(0, e));
    Step(onBare, s0, s1, WantSuspend(0));
    var s2 := Apply(s1, WantSuspend(0));
    Step(onBare, s0, s2, Publish(0));
    var s3 := Apply(s2, Publish(0));
    Step(onBare, s0, s3, Arm(0));
    s' := Apply(s3, Arm(0));
  }

  lemma OwnerSignalsItself(onBare: bool, s0: State, s: State, e: nat) returns (s': State)
    requires LifeStart(s0) && ReachableFrom(onBare, s0, s) && s.fibers == [Fiber(WantsSuspend, SelfSignaling(e), true, 1)]
    requires e < |s.events| && s.events[e] == Some(0)
    ensures ReachableFrom(onBare, s0, s') && |s'.fibers| == 1 && MayResume(s'.fibers[0]) && s'.completers == s.completers
  {
    Step(onBare, s0, s, SelfSignal(0));
    var s1 := Apply(s, SelfSignal(0));
    Step(onBare, s0, s1, SelfResumeStep(0));
    var s2 := Apply(s1, SelfResumeStep(0));
    Step(onBare, s0, s2, SelfResumeStep(0));
    s' := Apply(s2, SelfResumeStep(0));
  }

  /** One task is left to complete, and the bit is stale. */
  lemma OneLeft(onBare: bool, s0: State) returns (s: State)
    requires LifeStart(s0) && !NoStaleBit(onBare, s0)
    ensures ReachableFrom(onBare, s0, s) && s == s0.(count := 1, counted := s.counted, completed := s.completed) && s.bit
    ensures s.completed + 1 == s.counted
  {
    if s0.count > 0 {
      CountDown(onBare, s0, 1);
      s := With(s0, 1);
    } else {
      assert Runs.IsRun((r: State) => r == s0, Living(onBare), [s0], []);
      Step(onBare, s0, s0, Increment);
      s := Apply(s0, Increment);
    }
  }

  /** With a stale bit and something to wait for, now or later, some run has the owner free to go while the
      last completer is still about to lock the group. */
  lemma StaleBitIsUnsafe(onBare: bool, s0: State) returns (s: State)
    requires LifeStart(s0) && !NoStaleBit(onBare, s0)
    ensures ReachableFrom(onBare, s0, s) && !LifeSafe(s)
  {
    var e :| e in s0.free;
    var s1 := OneLeft(onBare, s0);
    Step(onBare, s0, s1, Decrement(0));
    var s2 := Apply(s1, Decrement(0));
    assert s2.fibers == s0.fibers && s2.completers[0].MustWakeAll?;
    var s3 := OwnerArmsOnZero(onBare, s0, s2, e);
    s := OwnerSignalsItself(onBare, s0, s3, e);
    assert s.completers[0].MustWakeAll?;
  }

  /** The group outlives every access to it, whatever the schedule, exactly when it starts without a leftover
      waiter bit, or on a count of zero that its owner does not raise before it waits. */
  lemma LifetimeIffNoStaleBit(onBare: bool, s0: State)
    requires LifeStart(s0)
    ensures (forall s :: ReachableFrom(onBare, s0, s) ==> LifeSafe(s)) <==> !s0.bit || (s0.count == 0 && !onBare)
  {
    if NoStaleBit(onBare, s0) {
      forall s | ReachableFrom(onBare, s0, s)
        ensures LifeSafe(s)
      {
        SafeWithoutStaleBit(onBare, s0, s);
      }
    } else {
      var s := StaleBitIsUnsafe(onBare, s0);
    }
  }
}
