/** Waits end: when no more waits are begun and no more tasks counted in, every run comes to an end, and then
    all tasks have completed and every fiber has returned from its wait. */
module WaitProgress {
  import opened Options
  import opened Sums
  import opened WaitProtocol
  import Runs

  predicate Winding(a: Action)
  {
    !a.Increment? && !a.BeginWait?
  }

  // ---------------------------------------------------------------- the work that is left

  /** The accesses Resume has still to make, whatever is done to the fiber meanwhile. */
  function ResumeWork(r: Resume, status: Status): nat
  {
    match r
    case Looking => if status.WantsSuspend? then 6 else 3
    case SwappingWants => if status.WantsSuspend? then 5 else 4
    case SwappingSuspended => 2
    case Requeueing => 1
    case Over => 0
  }

  /** What it takes to signal one event. */
  const SIGNAL: nat := 7

  function FiberWork(fb: Fiber): nat
  {
    match fb.place
    case Outside => 0
    case Returned(_) => 1
    case Queued(_) => 2
    case Rewoken(_) => 3
    case Parked(_) => 3
    case Rewaking(_) => 4
    case AtPark(_) => 5
    case Leaving(_) => 6
    case SelfResuming(_, r) => 7 + ResumeWork(r, fb.status)
    case SelfSignaling(_) => 14
    case Published(_) => 15 + SIGNAL
    case Parkable(_) => 16 + SIGNAL
    case Acquired(_) => 17 + SIGNAL
  }

  function CompleterWork(cm: Completer, fibers: seq<Fiber>): nat
  {
    match cm
    case Idle => 0
    case MustWakeAll => 2
    case Signaling(todo) => 1 + SIGNAL * |todo|
    case Resuming(todo, f, r) =>
      1 + SIGNAL * |todo| + ResumeWork(r, if f < |fibers| then fibers[f].status else Ready)
  }

  function OfFibers(): Fiber -> nat { FiberWork }

  function OfCompleters(fibers: seq<Fiber>): Completer -> nat
  {
    cm => CompleterWork(cm, fibers)
  }

  function Work(s: State): nat
  {
    3 * s.count + SIGNAL * |s.waiters| + Sum(s.fibers, OfFibers()) + Sum(s.completers, OfCompleters(s.fibers))
  }

  // ---------------------------------------------------------------- every step takes some off

  lemma {:induction false} SumShrinks<T>(ts: seq<T>, us: seq<T>, v: T -> nat, w: T -> nat)
    requires |ts| == |us| && forall i :: 0 <= i < |ts| ==> w(us[i]) <= v(ts[i])
    ensures Sum(us, w) <= Sum(ts, v)
  {
    if ts != [] {
      SumShrinks(ts[..|ts| - 1], us[..|us| - 1], v, w);
    }
  }

  /** Fiber f moves; nobody else's work grows. */
  lemma FiberMovesOn(s: State, f: nat, fb: Fiber)
    requires f < |s.fibers| && FiberWork(fb) < FiberWork(s.fibers[f])
    requires forall c :: 0 <= c < |s.completers| ==>
      CompleterWork(s.completers[c], s.fibers[f := fb]) <= CompleterWork(s.completers[c], s.fibers)
    ensures Sum(s.fibers[f := fb], OfFibers()) + FiberWork(s.fibers[f]) == Sum(s.fibers, OfFibers()) + FiberWork(fb)
    ensures Sum(s.completers, OfCompleters(s.fibers[f := fb])) <= Sum(s.completers, OfCompleters(s.fibers))
  {
    SumAfter(s.fibers, f, fb, OfFibers());
    SumShrinks(s.completers, s.completers, OfCompleters(s.fibers), OfCompleters(s.fibers[f := fb]));
  }

  /** A fiber that nobody is resuming, or whose status does not come to want suspension, makes no work. */
  lemma StatusMakesNoWork(s: State, f: nat, fb: Fiber)
    requires Inv(s) && f < |s.fibers|
    requires (fb.status.WantsSuspend? ==> s.fibers[f].status.WantsSuspend?) || Private(s.fibers[f].place)
    ensures forall c :: 0 <= c < |s.completers| ==>
              CompleterWork(s.completers[c], s.fibers[f := fb]) <= CompleterWork(s.completers[c], s.fibers)
  {
    if Private(s.fibers[f].place) {
      PrivateIsSettled(s, f);
    }
    forall c | 0 <= c < |s.completers|
      ensures CompleterWork(s.completers[c], s.fibers[f := fb]) <= CompleterWork(s.completers[c], s.fibers)
    {
      assert Private(s.fibers[f].place) ==> !Attends(s.completers[c], f, s.fibers[f].place.e);
    }
  }

  /** The fiber's own work: arming makes room for the signal to come. */
  lemma OwnWorkDrops(s: State, a: Action)
    requires Inv(s) && Enabled(s, a) && FiberAction(a) && Winding(a)
    ensures var fb, fb' := s.fibers[a.f], Apply(s, a).fibers[a.f];
      && Apply(s, a).fibers == s.fibers[a.f := fb'] && Apply(s, a).completers == s.completers
      && FiberWork(fb') + (if a.Arm? then SIGNAL else 0) < FiberWork(fb)
      && ((fb'.status.WantsSuspend? ==> fb.status.WantsSuspend?) || Private(fb.place))
  {
    assert FiberOk(s.fibers[a.f], a.f, s.events, s.mutex, s.waiters, s.completers);
  }

  lemma FiberStepTakesOff(s: State, a: Action)
    requires Inv(s) && Enabled(s, a) && FiberAction(a) && Winding(a)
    ensures Work(Apply(s, a)) < Work(s)
  {
    OwnWorkDrops(s, a);
    StatusMakesNoWork(s, a.f, Apply(s, a).fibers[a.f]);
    FiberMovesOn(s, a.f, Apply(s, a).fibers[a.f]);
    WaitersGrow(s, a);
    CountStays(s, a);
  }

  lemma CountStays(s: State, a: Action)
    requires Enabled(s, a) && FiberAction(a)
    ensures Apply(s, a).count == s.count
  {
  }

  /** Only arming registers a waiter, one at most. */
  lemma WaitersGrow(s: State, a: Action)
    requires Enabled(s, a) && FiberAction(a)
    ensures |Apply(s, a).waiters| <= |s.waiters| + if a.Arm? then 1 else 0
  {
    if a.Arm? {
      var e := PlaceOf(s, a.f).e;
      assert e in s.waiters ==> s.waiters + {e} == s.waiters;
      assert e !in s.waiters ==> s.waiters - {e} == s.waiters;
      assert e in s.waiters ==> |s.waiters - {e}| == |s.waiters| - 1;
    }
  }

  lemma DecrementTakesOff(s: State, c: nat)
    requires Enabled(s, Decrement(c))
    ensures Work(Apply(s, Decrement(c))) < Work(s)
  {
    var s' := Apply(s, Decrement(c));
    SumShrinks(s.fibers, s'.fibers, OfFibers(), OfFibers());
    SumAfter(s.completers, c, s'.completers[c], OfCompleters(s.fibers));
    SumShrinks(s'.completers, s'.completers, OfCompleters(s.fibers), OfCompleters(s'.fibers));
  }

  lemma SignalStepTakesOff(s: State, a: Action)
    requires Inv(s) && Enabled(s, a) && (a.ClearWaiters? || a.TakeWaiter? || a.FinishSignals?)
    ensures Work(Apply(s, a)) < Work(s)
  {
    SumAfter(s.completers, a.c, Apply(s, a).completers[a.c], OfCompleters(s.fibers));
  }

  /** Of the two whom an access of Resume concerns, the completer's work drops and the fiber's does not grow. */
  lemma ResumeWorkDrops(s: State, c: nat)
    requires Inv(s) && Enabled(s, ResumeStep(c))
    ensures var s', f := Apply(s, ResumeStep(c)), s.completers[c].f;
      && s'.fibers == s.fibers[f := s'.fibers[f]] && s'.completers == s.completers[c := s'.completers[c]]
      && s'.count == s.count && s'.waiters == s.waiters
      && FiberWork(s'.fibers[f]) <= FiberWork(s.fibers[f])
      && CompleterWork(s'.completers[c], s'.fibers) < CompleterWork(s.completers[c], s.fibers)
      && (s'.fibers[f].status.WantsSuspend? ==> s.fibers[f].status.WantsSuspend?)
  {
    assert CompleterOk(s.events, s.fibers, s.completers[c]);
  }

  lemma ResumeStepTakesOff(s: State, c: nat)
    requires Inv(s) && Enabled(s, ResumeStep(c))
    ensures Work(Apply(s, ResumeStep(c))) < Work(s)
  {
    var s', f := Apply(s, ResumeStep(c)), s.completers[c].f;
    ResumeWorkDrops(s, c);
    SumAfter(s.fibers, f, s'.fibers[f], OfFibers());
    StatusMakesNoWork(s, f, s'.fibers[f]);
    OthersWorkNotMore(s.completers, c, s'.completers[c], s.fibers, s'.fibers);
  }

  lemma OthersWorkNotMore(cs: seq<Completer>, c: nat, cm: Completer, fibers: seq<Fiber>, fibers': seq<Fiber>)
    requires c < |cs| && CompleterWork(cm, fibers') < CompleterWork(cs[c], fibers)
    requires forall d :: 0 <= d < |cs| ==> CompleterWork(cs[d], fibers') <= CompleterWork(cs[d], fibers)
    ensures Sum(cs[c := cm], OfCompleters(fibers')) < Sum(cs, OfCompleters(fibers))
  {
    SumAfter(cs, c, cm, OfCompleters(fibers'));
    SumAfter(cs, c, Idle, OfCompleters(fibers));
    SumAfter(cs, c, Idle, OfCompleters(fibers'));
    var others := cs[c := Idle];
    SumShrinks(others, others, OfCompleters(fibers), OfCompleters(fibers'));
  }

  lemma StepTakesOff(s: State, a: Action)
    requires Inv(s) && Enabled(s, a) && Winding(a)
    ensures Work(Apply(s, a)) < Work(s)
  {
    if FiberAction(a) {
      FiberStepTakesOff(s, a);
    } else if a.Decrement? {
      DecrementTakesOff(s, a.c);
    } else if a.ResumeStep? {
      ResumeStepTakesOff(s, a.c);
    } else {
      SignalStepTakesOff(s, a);
    }
  }

  // ---------------------------------------------------------------- every run ends, and well

  ghost predicate WindingRun(states: seq<State>, actions: seq<Action>)
  {
    && |states| == |actions| + 1
    && forall k :: 0 <= k < |actions| ==> Next(states[k], actions[k], states[k + 1]) && Winding(actions[k])
  }

  /** No run that begins no wait and counts in no task takes more steps than there is work. */
  lemma {:induction false} RunsEnd(states: seq<State>, actions: seq<Action>)
    requires WindingRun(states, actions) && Inv(states[0])
    ensures Inv(states[|actions|]) && |actions| + Work(states[|actions|]) <= Work(states[0])
    decreases |actions|
  {
    if actions != [] {
      var n := |actions| - 1;
      RunsEnd(states[..n + 1], actions[..n]);
      assert Next(states[n], actions[n], states[n + 1]);
      StepKeepsInv(states[n], actions[n]);
      StepTakesOff(states[n], actions[n]);
    }
  }

  /** The next access of a fiber in a wait. */
  function OwnStep(f: nat, p: Place): Action
  {
    match p
    case Outside => Release(f)
    case Acquired(_) => WantSuspend(f)
    case Parkable(_) => Publish(f)
    case Published(_) => Arm(f)
    case SelfSignaling(_) => SelfSignal(f)
    case SelfResuming(_, r) => if r.Over? then Unlock(f) else SelfResumeStep(f)
    case Leaving(_) => SwitchOut(f)
    case AtPark(_) => Park(f)
    case Parked(_) => Release(f)
    case Rewaking(_) => MarkReady(f)
    case Rewoken(_) => RequeueSelf(f)
    case Queued(_) => RunAgain(f)
    case Returned(_) => Release(f)
  }

  /** A fiber in a wait can go on unless it is parked or the mutex it needs is held. */
  lemma FiberCanGoOn(s: State, f: nat)
    requires Inv(s) && f < |s.fibers| && InWait(s.fibers[f]) && !s.fibers[f].place.Parked?
    requires s.fibers[f].place.Published? ==> s.mutex.None?
    ensures Winding(OwnStep(f, s.fibers[f].place)) && Enabled(s, OwnStep(f, s.fibers[f].place))
  {
    assert FiberOk(s.fibers[f], f, s.events, s.mutex, s.waiters, s.completers);
  }

  /** A completer at work can go on unless the mutex is held. */
  lemma CompleterCanGoOn(s: State, c: nat) returns (a: Action)
    requires Inv(s) && c < |s.completers| && !s.completers[c].Idle? && s.mutex.None?
    ensures Winding(a) && Enabled(s, a)
  {
    var cm := s.completers[c];
    assert CompleterOk(s.events, s.fibers, cm);
    if cm.MustWakeAll? {
      a := ClearWaiters(c);
    } else if cm.Resuming? {
      a := ResumeStep(c);
    } else if cm.todo == {} {
      a := FinishSignals(c);
    } else {
      var e :| e in cm.todo;
      assert EventArmed(s.events, s.fibers, e);
      a := TakeWaiter(c, e);
    }
  }

  ghost predicate AllIdle(s: State)
  {
    forall c :: 0 <= c < |s.completers| ==> s.completers[c].Idle?
  }

  lemma NobodyIsParked(s: State, f: nat)
    requires Inv(s) && f < |s.fibers| && s.count == 0 && AllIdle(s)
    ensures !s.fibers[f].place.Parked? && s.waiters == {}
  {
    assert FiberOk(s.fibers[f], f, s.events, s.mutex, s.waiters, s.completers);
  }

  /** All tasks have completed, and every fiber has returned from its wait. */
  ghost predicate Done(s: State)
  {
    && s.count == 0 && s.completed == s.counted && AllIdle(s)
    && forall f :: 0 <= f < |s.fibers| ==> s.fibers[f].place.Outside?
  }

  /** Until then somebody can go on. */
  lemma NotStuck(s: State) returns (a: Action)
    requires Inv(s) && s.completers != [] && !Done(s)
    ensures Winding(a) && Enabled(s, a)
  {
    if s.mutex.Some? {
      var g := s.mutex.value;
      FiberCanGoOn(s, g);
      a := OwnStep(g, s.fibers[g].place);
    } else if !AllIdle(s) {
      var c :| 0 <= c < |s.completers| && !s.completers[c].Idle?;
      a := CompleterCanGoOn(s, c);
    } else if s.count > 0 {
      a := Decrement(0);
    } else {
      var f :| 0 <= f < |s.fibers| && !s.fibers[f].place.Outside?;
      NobodyIsParked(s, f);
      FiberCanGoOn(s, f);
      a := OwnStep(f, s.fibers[f].place);
    }
  }

  /** A run that cannot go on, as every run must come to, has completed every task, and every fiber has
      returned from its wait. */
  lemma StuckIsDone(s: State)
    requires Runs.Reachable(Start, Next, s) && s.completers != []
    requires forall a :: Winding(a) ==> !Enabled(s, a)
    ensures Done(s)
  {
    ReachableHoldsInv(s);
    if !Done(s) {
      var a := NotStuck(s);
    }
  }
}
