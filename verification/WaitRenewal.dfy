/** When may a group be incremented from zero? Exactly when no completer that has taken it to zero has yet to
    clear the waiters; and of rules that look at the group's word alone, exactly those that leave the bare
    waiter bit alone keep to that. */
module WaitRenewal {
  import opened Options
  import opened WaitProtocol
  import opened WaitTiming
  import Runs

  type From = State -> bool
  type Steps = (State, Action, State) -> bool

  /** All steps but increments are allowed. */
  ghost predicate FreeToRun(next: Steps)
  {
    forall s, a :: Enabled(s, a) && !a.Increment? ==> next(s, a, Apply(s, a))
  }

  ghost predicate Reached(from: From, next: Steps, s: State)
  {
    FreeToRun(next) && Runs.Reachable(from, next, s)
  }

  ghost predicate NobodyWokenEarly(s: State)
  {
    forall f :: 0 <= f < |s.fibers| && Signalled(s.fibers[f]) ==> s.fibers[f].doneSeen
  }

  lemma Step(from: From, next: Steps, s: State, a: Action)
    requires Reached(from, next, s) && Enabled(s, a) && !a.Increment?
    ensures Reached(from, next, Apply(s, a))
  {
    Runs.StepStaysReachable(from, next, s, a, Apply(s, a));
  }

  // ---------------------------------------------------------------- a wake owed to the next count

  /** Completer c owes a wake for an earlier count, and fiber f has not begun to wait for the present one. */
  ghost predicate Overtaken(s: State, c: nat, f: nat, e: nat)
  {
    && Inv(s) && c < |s.completers| && s.completers[c].MustWakeAll? && s.count == 1
    && f < |s.fibers| && s.fibers[f].place.Outside? && e in s.free
  }

  /** Whoever holds the mutex signals itself and lets go of it. */
  lemma MutexComesFree(from: From, next: Steps, s: State, c: nat, f: nat, e: nat) returns (s': State)
    requires Reached(from, next, s) && Overtaken(s, c, f, e)
    ensures Reached(from, next, s') && Overtaken(s', c, f, e) && s'.mutex.None?
  {
    s' := s;
    if s.mutex.Some? {
      var g := s.mutex.value;
      assert FiberOk(s.fibers[g], g, s.events, s.mutex, s.waiters, s.completers);
      if s.fibers[g].place.SelfSignaling? {
        HolderSteps(from, next, s', c, f, e, g, SelfSignal(g));
        s' := Apply(s', SelfSignal(g));
      }
      s' := HolderResumes(from, next, s', c, f, e, g);
      HolderSteps(from, next, s', c, f, e, g, Unlock(g));
      s' := Apply(s', Unlock(g));
    }
  }

  /** A step of the fiber that holds the mutex. */
  lemma HolderSteps(from: From, next: Steps, s: State, c: nat, f: nat, e: nat, g: nat, a: Action)
    requires Reached(from, next, s) && Overtaken(s, c, f, e) && g != f
    requires Enabled(s, a) && (a.SelfSignal? || a.SelfResumeStep? || a.Unlock?) && a.f == g
    ensures Reached(from, next, Apply(s, a)) && Overtaken(Apply(s, a), c, f, e)
  {
    StepKeepsInv(s, a);
    Step(from, next, s, a);
  }

  lemma HolderResumes(from: From, next: Steps, s: State, c: nat, f: nat, e: nat, g: nat) returns (s': State)
    requires Reached(from, next, s) && Overtaken(s, c, f, e) && s.mutex == Some(g) && g < |s.fibers|
    requires s.fibers[g].place.SelfResuming?
    ensures Reached(from, next, s') && Overtaken(s', c, f, e) && s'.mutex == Some(g) && g < |s'.fibers|
    ensures s'.fibers[g].place.SelfResuming? && s'.fibers[g].place.r.Over?
    decreases var r := s.fibers[g].place.r; if r.Over? then 0 else if r.Looking? then 2 else 1
  {
    s' := s;
    assert FiberOk(s.fibers[g], g, s.events, s.mutex, s.waiters, s.completers);
    if !s.fibers[g].place.r.Over? {
      HolderSteps(from, next, s, c, f, e, g, SelfResumeStep(g));
      s' := HolderResumes(from, next, Apply(s, SelfResumeStep(g)), c, f, e, g);
    }
  }

  /** Fiber f is armed on e, waiting for a count that has not been zero since. */
  ghost predicate Registered(s: State, c: nat, f: nat, e: nat)
  {
    && c < |s.completers| && s.completers[c].MustWakeAll? && s.count == 1 && s.mutex.None?
    && f < |s.fibers| && s.fibers[f].status.WantsSuspend? && s.fibers[f].place == Leaving(e) && !s.fibers[f].doneSeen
    && e in s.waiters && e < |s.events| && s.events[e] == Some(f)
  }

  lemma ArmsTooSoon(from: From, next: Steps, s: State, c: nat, f: nat, e: nat) returns (s': State)
    requires Reached(from, next, s) && Overtaken(s, c, f, e) && s.mutex.None?
    ensures Reached(from, next, s') && Registered(s', c, f, e)
  {
    Step(from, next, s, BeginWait(f, e));
    var s1 := Apply(s, BeginWait(f, e));
    Step(from, next, s1, WantSuspend(f));
    var s2 := Apply(s1, WantSuspend(f));
    Step(from, next, s2, Publish(f));
    var s3 := Apply(s2, Publish(f));
    Step(from, next, s3, Arm(f));
    s' := Apply(s3, Arm(f));
  }

  /** The completer clears and signals what it finds registered, whatever count it was for. */
  lemma WokenTooSoon(from: From, next: Steps, s: State, c: nat, f: nat, e: nat) returns (s': State)
    requires Reached(from, next, s) && Registered(s, c, f, e)
    ensures Reached(from, next, s') && s'.count == 1 && f < |s'.fibers|
    ensures s'.fibers[f].status.SuspendSignaled? && !s'.fibers[f].doneSeen
  {
    Step(from, next, s, ClearWaiters(c));
    var s1 := Apply(s, ClearWaiters(c));
    Step(from, next, s1, TakeWaiter(c, e));
    var s2 := Apply(s1, TakeWaiter(c, e));
    Step(from, next, s2, ResumeStep(c));
    var s3 := Apply(s2, ResumeStep(c));
    Step(from, next, s3, ResumeStep(c));
    s' := Apply(s3, ResumeStep(c));
  }

  lemma OvertakenWakesEarly(from: From, next: Steps, s: State, c: nat, f: nat, e: nat) returns (s': State)
    requires Reached(from, next, s) && Overtaken(s, c, f, e)
    ensures Reached(from, next, s') && s'.count == 1 && f < |s'.fibers|
    ensures s'.fibers[f].status.SuspendSignaled? && !s'.fibers[f].doneSeen
  {
    s' := MutexComesFree(from, next, s, c, f, e);
    s' := ArmsTooSoon(from, next, s', c, f, e);
    s' := WokenTooSoon(from, next, s', c, f, e);
  }

  // ---------------------------------------------------------------- exactly which increments are harmless

  /** After a timely run, with a fiber that can still begin a wait: incrementing now is safe, whatever timely
      steps follow, exactly if no wake is owed. */
  lemma IncrementIsSafeIffNoWakeOwed(s: State, f: nat, e: nat)
    requires Runs.Reachable(Start, TimelyNext, s)
    requires f < |s.fibers| && s.fibers[f].place.Outside? && e in s.free
    ensures (forall s' :: Runs.Reachable((r: State) => r == Apply(s, Increment), TimelyNext, s') ==> NobodyWokenEarly(s'))
       <==> !WakeOwed(s)
  {
    var from := (r: State) => r == Apply(s, Increment);
    TimelyRunStaysTimed(Start, s);
    StepKeepsInv(s, Increment);
    if WakeOwed(s) {
      var c :| 0 <= c < |s.completers| && s.completers[c].MustWakeAll?;
      assert Runs.IsRun(from, TimelyNext, [Apply(s, Increment)], []);
      var s' := OvertakenWakesEarly(from, TimelyNext, Apply(s, Increment), c, f, e);
      assert Runs.Reachable(from, TimelyNext, s') && !NobodyWokenEarly(s');
    } else {
      StepKeepsTimed(s, Increment);
      forall s' | Runs.Reachable(from, TimelyNext, s')
        ensures NobodyWokenEarly(s')
      {
        TimelyRunStaysTimed(from, s');
        assert forall g :: 0 <= g < |s'.fibers| ==> FiberTimed(s'.fibers[g]);
      }
    }
  }

  // ---------------------------------------------------------------- rules on the group's word

  /** Which words, count and waiter bit, may be incremented. */
  type Rule = (nat, bool) -> bool

  ghost predicate RuledNext(rule: Rule, s: State, a: Action, s': State)
  {
    Next(s, a, s') && (a.Increment? ==> rule(s.count, s.bit))
  }

  ghost function Ruled(rule: Rule): Steps
  {
    (s, a, s') => RuledNext(rule, s, a, s')
  }

  ghost function Just(s0: State): From
  {
    s => s == s0
  }

  /** A start state with a fiber, a completer, and an event to wait on. */
  ghost predicate CanWait(s0: State)
  {
    Start(s0) && s0.fibers != [] && s0.completers != [] && s0.free != {}
  }

  /** Fiber 0 is outside of any wait and event e is free; nobody is registered with the group. */
  ghost predicate Idling(s: State, e: nat)
  {
    && s.fibers != [] && s.completers != []
    && s.mutex.None? && s.waiters == {} && e in s.free && e < |s.events|
    && s.fibers[0].status.Running? && s.fibers[0].place.Outside?
  }

  /** Completer 0 takes the count to zero. */
  lemma {:induction false} CountDown(from: From, next: Steps, s: State, e: nat) returns (s': State)
    requires Reached(from, next, s) && Idling(s, e) && s.completers[0].Idle? && s.count > 0
    ensures Reached(from, next, s') && Idling(s', e) && s'.count == 0 && s'.bit == s.bit
    ensures s'.completers[0] == if s.bit then MustWakeAll else Idle
    decreases s.count
  {
    Step(from, next, s, Decrement(0));
    s' := Apply(s, Decrement(0));
    if s.count > 1 {
      s' := CountDown(from, next, s', e);
    }
  }

  /** Nobody is registered, and fiber 0 is at `place` of its wait on e. */
  ghost predicate Passing(s: State, status: Status, place: Place, e: nat)
  {
    && s.fibers != [] && s.completers != [] && s.mutex.None? && s.waiters == {} && e < |s.events|
    && s.fibers[0].status == status && s.fibers[0].place == place
    && s.completers[0].Idle? && s.bit && s.count == 0
  }

  /** Fiber 0 arms on a count of zero, which sets the bit, and signals itself. */
  lemma ArmsOnZero(from: From, next: Steps, s: State, e: nat) returns (s': State)
    requires Reached(from, next, s) && Idling(s, e) && s.completers[0].Idle? && s.count == 0
    ensures Reached(from, next, s') && Passing(s', SuspendSignaled, Leaving(e), e)
  {
    Step(from, next, s, BeginWait(0, e));
    var s1 := Apply(s, BeginWait(0, e));
    Step(from, next, s1, WantSuspend(0));
    var s2 := Apply(s1, WantSuspend(0));
    Step(from, next, s2, Publish(0));
    var s3 := Apply(s2, Publish(0));
    Step(from, next, s3, Arm(0));
    s' := SignalsItself(from, next, Apply(s3, Arm(0)), e);
  }

  lemma SignalsItself(from: From, next: Steps, s: State, e: nat) returns (s': State)
    requires Reached(from, next, s) && s.fibers != [] && s.completers != [] && s.completers[0].Idle?
    requires e < |s.events| && s.events[e] == Some(0) && s.waiters == {} && s.bit && s.count == 0
    requires s.fibers[0].status.WantsSuspend? && s.fibers[0].place == SelfSignaling(e)
    ensures Reached(from, next, s') && Passing(s', SuspendSignaled, Leaving(e), e)
  {
    Step(from, next, s, SelfSignal(0));
    var s1 := Apply(s, SelfSignal(0));
    Step(from, next, s1, SelfResumeStep(0));
    var s2 := Apply(s1, SelfResumeStep(0));
    Step(from, next, s2, SelfResumeStep(0));
    var s3 := Apply(s2, SelfResumeStep(0));
    Step(from, next, s3, Unlock(0));
    s' := Apply(s3, Unlock(0));
  }

  /** The worker finds the fiber signalled when it is about to park it. */
  lemma IsRewoken(from: From, next: Steps, s: State, e: nat) returns (s': State)
    requires Reached(from, next, s) && Passing(s, SuspendSignaled, Leaving(e), e)
    ensures Reached(from, next, s') && Passing(s', Ready, Rewoken(e), e)
  {
    Step(from, next, s, SwitchOut(0));
    var s1 := Apply(s, SwitchOut(0));
    Step(from, next, s1, Park(0));
    var s2 := Apply(s1, Park(0));
    Step(from, next, s2, MarkReady(0));
    s' := Apply(s2, MarkReady(0));
  }

  /** It is queued, runs, and releases its event. */
  lemma ComesBack(from: From, next: Steps, s: State, e: nat) returns (s': State)
    requires Reached(from, next, s) && Passing(s, Ready, Rewoken(e), e)
    ensures Reached(from, next, s') && Idling(s', e) && s'.completers[0].Idle? && s'.bit && s'.count == 0
  {
    Step(from, next, s, RequeueSelf(0));
    var s1 := Apply(s, RequeueSelf(0));
    Step(from, next, s1, RunAgain(0));
    var s2 := Apply(s1, RunAgain(0));
    Step(from, next, s2, Release(0));
    s' := Apply(s2, Release(0));
  }

  lemma RuledStep(rule: Rule, s0: State, s: State)
    requires Reached(Just(s0), Ruled(rule), s) && rule(s.count, s.bit)
    ensures Reached(Just(s0), Ruled(rule), Apply(s, Increment))
  {
    Runs.StepStaysReachable(Just(s0), Ruled(rule), s, Increment, Apply(s, Increment));
  }

  /** From any start the count can come to zero with the bit set, one completer being about to wake. */
  lemma BitCanBeBare(rule: Rule, s0: State) returns (s: State, e: nat)
    requires CanWait(s0) && rule(0, true)
    ensures Reached(Just(s0), Ruled(rule), s) && Idling(s, e) && s.count == 0 && s.bit && s.completers[0].MustWakeAll?
  {
    var from, next := Just(s0), Ruled(rule);
    e :| e in s0.free;
    assert Runs.IsRun(from, next, [s0], []);
    s := s0;
    if !s.bit {
      if s.count > 0 {
        s := CountDown(from, next, s, e);
      }
      s := ArmsOnZero(from, next, s, e);
      s := IsRewoken(from, next, s, e);
      s := ComesBack(from, next, s, e);
    }
    if s.count == 0 {
      RuledStep(rule, s0, s);
      s := Apply(s, Increment);
    }
    s := CountDown(from, next, s, e);
  }

  lemma RuledRunHoldsInv(rule: Rule, s0: State, s: State)
    requires Start(s0) && Runs.Reachable(Just(s0), Ruled(rule), s)
    ensures Inv(s)
  {
    forall r: State, a, r' | Inv(r) && Ruled(rule)(r, a, r')
      ensures Inv(r')
    {
      StepKeepsInv(r, a);
    }
    Runs.ReachableKeepsInvariant(Just(s0), Ruled(rule), Inv, s);
  }

  /** Where the bare bit may be incremented, a run from any start wakes a fiber whose wait never saw the
      count at zero. */
  lemma EarlyWakeFromBareBit(rule: Rule, s0: State) returns (s: State)
    requires CanWait(s0) && rule(0, true)
    ensures Runs.Reachable(Just(s0), Ruled(rule), s) && s.fibers != [] && s.count == 1
    ensures s.fibers[0].status.SuspendSignaled? && !s.fibers[0].doneSeen
  {
    var s1, e := BitCanBeBare(rule, s0);
    RuledStep(rule, s0, s1);
    RuledRunHoldsInv(rule, s0, Apply(s1, Increment));
    s := OvertakenWakesEarly(Just(s0), Ruled(rule), Apply(s1, Increment), 0, 0, e);
  }

  /** A rule that leaves the bare bit alone makes every step a timely one. */
  lemma RuledRunStaysTimed(rule: Rule, s0: State, s: State)
    requires Start(s0) && !rule(0, true) && Runs.Reachable(Just(s0), Ruled(rule), s)
    ensures TimedInv(s)
  {
    forall r: State, a, r' | TimedInv(r) && Ruled(rule)(r, a, r')
      ensures TimedInv(r')
    {
      StepKeepsInv(r, a);
      StepKeepsTimed(r, a);
    }
    Runs.ReachableKeepsInvariant(Just(s0), Ruled(rule), TimedInv, s);
  }

  /** Of all rules that go by the group's word, whatever else they allow: no run from s0 wakes a fiber early
      exactly if the rule does not allow the bare waiter bit to be incremented. */
  lemma NoEarlyWakeIffNeverFromBareBit(rule: Rule, s0: State)
    requires CanWait(s0)
    ensures (forall s :: Runs.Reachable(Just(s0), Ruled(rule), s) ==> NobodyWokenEarly(s)) <==> !rule(0, true)
  {
    if rule(0, true) {
      var s := EarlyWakeFromBareBit(rule, s0);
    } else {
      forall s | Runs.Reachable(Just(s0), Ruled(rule), s)
        ensures NobodyWokenEarly(s)
      {
        RuledRunStaysTimed(rule, s0, s);
        assert forall g :: 0 <= g < |s.fibers| ==> FiberTimed(s.fibers[g]);
      }
    }
  }
}
