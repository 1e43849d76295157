/** When waits end: a group is renewed by an increment from zero, and one that comes while a completer has yet
    to clear the waiters lets that completer wake fibers that wait for the new count. */
module WaitTiming {
  import opened Options
  import opened WaitProtocol
  import Runs

  /** A completer that has taken the count to zero has yet to clear the waiters. */
  predicate WakeOwed(s: State)
  {
    SomeMustWake(s.completers)
  }

  /** The group is not incremented from zero while a wake is owed. */
  ghost predicate TimelyNext(s: State, a: Action, s': State)
  {
    Next(s, a, s') && (a.Increment? ==> s.count > 0 || !WakeOwed(s))
  }

  // ---------------------------------------------------------------- the invariant

  /** Nothing of the protocol holds the fiber back any more. */
  predicate Signalled(fb: Fiber)
  {
    fb.status.SuspendSignaled? || fb.status.Ready? || fb.place.Returned?
  }

  predicate FiberTimed(fb: Fiber)
  {
    Signalled(fb) || fb.place.SelfSignaling? || fb.place.SelfResuming? ==> fb.doneSeen
  }

  predicate EventTimed(events: seq<Option<nat>>, fibers: seq<Fiber>, e: nat)
  {
    e < |events| && events[e].Some? && events[e].value < |fibers| ==> fibers[events[e].value].doneSeen
  }

  /** Whoever a completer is about to wake has seen the count at zero. */
  predicate CompleterTimed(events: seq<Option<nat>>, fibers: seq<Fiber>, cm: Completer)
  {
    && (forall e :: e in Todo(cm) ==> EventTimed(events, fibers, e))
    && (cm.Resuming? && cm.f < |fibers| ==> fibers[cm.f].doneSeen)
  }

  predicate CompletersTimed(events: seq<Option<nat>>, fibers: seq<Fiber>, completers: seq<Completer>)
  {
    forall c :: 0 <= c < |completers| ==> CompleterTimed(events, fibers, completers[c])
  }

  predicate FibersTimed(fibers: seq<Fiber>)
  {
    forall f :: 0 <= f < |fibers| ==> FiberTimed(fibers[f])
  }

  predicate AllSawDone(fibers: seq<Fiber>)
  {
    forall f :: 0 <= f < |fibers| && InWait(fibers[f]) ==> fibers[f].doneSeen
  }

  predicate OneWakeOwed(completers: seq<Completer>)
  {
    forall c, d :: 0 <= c < |completers| && 0 <= d < |completers| && c != d ==>
      !(completers[c].MustWakeAll? && completers[d].MustWakeAll?)
  }

  /** At most one wake is owed, and only while the word is the bare bit. */
  predicate CountTimed(count: nat, bit: bool, fibers: seq<Fiber>, completers: seq<Completer>)
  {
    && OneWakeOwed(completers)
    && (SomeMustWake(completers) ==> count == 0 && bit)
    && (count == 0 ==> AllSawDone(fibers))
  }

  ghost predicate Timed(s: State)
  {
    && FibersTimed(s.fibers)
    && CompletersTimed(s.events, s.fibers, s.completers)
    && CountTimed(s.count, s.bit, s.fibers, s.completers)
  }

  // ---------------------------------------------------------------- every timely step keeps it

  /** A fiber moves on by itself; if it writes an event, that event is on nobody's list. */
  lemma FiberMoveKeepsTimed(s: State, s': State, f: nat)
    requires Inv(s) && Timed(s) && f < |s.fibers| == |s'.fibers|
    requires s'.fibers == s.fibers[f := s'.fibers[f]] && s'.completers == s.completers && s'.count == s.count
    requires s.bit ==> s'.bit
    requires FiberTimed(s'.fibers[f]) && s'.fibers[f].doneSeen == s.fibers[f].doneSeen
    requires InWait(s'.fibers[f]) ==> InWait(s.fibers[f])
    requires |s'.events| == |s.events|
    requires s'.events == s.events || (Private(s.fibers[f].place) &&
      forall e :: 0 <= e < |s.events| && e != s.fibers[f].place.e ==> s'.events[e] == s.events[e])
    ensures Timed(s')
  {
    if Private(s.fibers[f].place) { OwnEventUnlisted(s, f); }
    forall c | 0 <= c < |s.completers|
      ensures CompleterTimed(s'.events, s'.fibers, s.completers[c])
    {
      assert CompleterTimed(s.events, s.fibers, s.completers[c]);
      forall e | e in Todo(s.completers[c])
        ensures EventTimed(s'.events, s'.fibers, e)
      {
        assert EventTimed(s.events, s.fibers, e);
      }
    }
  }

  lemma WaitStepKeepsTimed(s: State, a: Action)
    requires Inv(s) && Timed(s) && Enabled(s, a) && FiberAction(a) && !a.BeginWait?
    ensures Timed(Apply(s, a))
  {
    assert FiberOk(s.fibers[a.f], a.f, s.events, s.mutex, s.waiters, s.completers);
    assert FiberTimed(s.fibers[a.f]);
    FiberMoveKeepsTimed(s, Apply(s, a), a.f);
  }

  lemma BeginWaitKeepsTimed(s: State, f: nat, e: nat)
    requires Inv(s) && Timed(s) && Enabled(s, BeginWait(f, e))
    ensures Timed(Apply(s, BeginWait(f, e)))
  {
    var s' := Apply(s, BeginWait(f, e));
    assert FiberOk(s.fibers[f], f, s.events, s.mutex, s.waiters, s.completers);
    FreeEventUnlisted(s, e);
    forall c | 0 <= c < |s.completers|
      ensures CompleterTimed(s'.events, s'.fibers, s.completers[c])
    {
      assert CompleterTimed(s.events, s.fibers, s.completers[c]) && CompleterOk(s.events, s.fibers, s.completers[c]);
      forall x | x in Todo(s.completers[c])
        ensures EventTimed(s'.events, s'.fibers, x)
      {
        assert EventTimed(s.events, s.fibers, x) && EventArmed(s.events, s.fibers, x);
      }
    }
  }

  lemma DecrementKeepsTimed(s: State, c: nat)
    requires Inv(s) && Timed(s) && Enabled(s, Decrement(c))
    ensures Timed(Apply(s, Decrement(c)))
  {
    var s' := Apply(s, Decrement(c));
    assert !SomeMustWake(s.completers);
    forall d | 0 <= d < |s.completers|
      ensures CompleterTimed(s'.events, s'.fibers, s'.completers[d])
    {
      assert CompleterTimed(s.events, s.fibers, s.completers[d]);
      forall e | e in Todo(s'.completers[d])
        ensures EventTimed(s'.events, s'.fibers, e)
      {
        assert EventTimed(s.events, s.fibers, e);
      }
    }
  }

  /** The one wake that is owed comes at a count of zero, which everyone registered has seen. */
  lemma ClearWaitersKeepsTimed(s: State, c: nat)
    requires Inv(s) && Timed(s) && Enabled(s, ClearWaiters(c))
    ensures Timed(Apply(s, ClearWaiters(c)))
  {
    assert SomeMustWake(s.completers);
    assert forall e :: e in s.waiters ==> EventArmed(s.events, s.fibers, e);
  }

  lemma TakeWaiterKeepsTimed(s: State, c: nat, e: nat)
    requires Inv(s) && Timed(s) && Enabled(s, TakeWaiter(c, e))
    ensures Timed(Apply(s, TakeWaiter(c, e)))
  {
    var s' := Apply(s, TakeWaiter(c, e));
    WakeStaysDue(s.completers, c, s'.completers[c]);
    assert CompleterOk(s.events, s.fibers, s.completers[c]);
    assert EventArmed(s.events, s.fibers, e) && CompleterTimed(s.events, s.fibers, s.completers[c]);
    assert EventTimed(s.events, s.fibers, e);
    forall d | 0 <= d < |s.completers|
      ensures CompleterTimed(s'.events, s'.fibers, s'.completers[d])
    {
      assert CompleterTimed(s.events, s.fibers, s.completers[d]);
      forall x | x in Todo(s'.completers[d])
        ensures EventTimed(s'.events, s'.fibers, x)
      {
        assert EventTimed(s.events, s.fibers, x);
      }
    }
  }

  lemma SignalStepKeepsTimed(s: State, a: Action)
    requires Inv(s) && Timed(s) && Enabled(s, a) && (a.FinishSignals? || a.ResumeStep?)
    ensures Timed(Apply(s, a))
  {
    var s' := Apply(s, a);
    WakeStaysDue(s.completers, a.c, s'.completers[a.c]);
    assert CompleterOk(s.events, s.fibers, s.completers[a.c]) && CompleterTimed(s.events, s.fibers, s.completers[a.c]);
    forall d | 0 <= d < |s.completers|
      ensures CompleterTimed(s'.events, s'.fibers, s'.completers[d])
    {
      assert CompleterTimed(s.events, s.fibers, s.completers[d]);
      forall e | e in Todo(s'.completers[d])
        ensures EventTimed(s'.events, s'.fibers, e)
      {
        assert EventTimed(s.events, s.fibers, e);
      }
    }
  }

  lemma StepKeepsTimed(s: State, a: Action)
    requires Inv(s) && Timed(s) && Enabled(s, a) && TimelyNext(s, a, Apply(s, a))
    ensures Timed(Apply(s, a))
  {
    match a
    case Increment =>
    case Decrement(c) => DecrementKeepsTimed(s, c);
    case ClearWaiters(c) => ClearWaitersKeepsTimed(s, c);
    case TakeWaiter(c, e) => TakeWaiterKeepsTimed(s, c, e);
    case BeginWait(f, e) => BeginWaitKeepsTimed(s, f, e);
    case _ =>
      if FiberAction(a) {
        WaitStepKeepsTimed(s, a);
      } else {
        SignalStepKeepsTimed(s, a);
      }
  }

  ghost predicate TimedInv(s: State) { Inv(s) && Timed(s) }

  /** Whatever it starts from, a timely run keeps the timing. */
  lemma TimelyRunStaysTimed(from: State -> bool, s: State)
    requires forall r :: from(r) ==> TimedInv(r)
    requires Runs.Reachable(from, TimelyNext, s)
    ensures TimedInv(s)
  {
    forall r: State, a, r' | TimedInv(r) && TimelyNext(r, a, r')
      ensures TimedInv(r')
    {
      StepKeepsInv(r, a);
      StepKeepsTimed(r, a);
    }
    Runs.ReachableKeepsInvariant(from, TimelyNext, TimedInv, s);
  }

  // ---------------------------------------------------------------- no wait ends too soon

  /** What the records stand for: a fiber's record is set only in its wait, at a moment at which every task
      counted in has completed; and the totals change by one task at a time. */
  lemma RecordsAreTrue(s: State, a: Action, f: nat)
    requires Runs.Reachable(Start, Next, s) && Enabled(s, a) && f < |s.fibers|
    ensures var s' := Apply(s, a);
      && |s'.fibers| == |s.fibers|
      && (s'.fibers[f].doneSeen && !(s.fibers[f].doneSeen && s'.fibers[f].waits == s.fibers[f].waits) ==>
            InWait(s'.fibers[f]) && s'.completed == s'.counted)
      && s'.counted == s.counted + (if a.Increment? then 1 else 0)
      && s'.completed == s.completed + (if a.Decrement? then 1 else 0)
      && s'.count == s'.counted - s'.completed
  {
    ReachableHoldsInv(s);
    StepKeepsInv(s, a);
  }

  /** In a timely run a fiber that has been signalled, and in particular one that leaves WaitFor or is
      requeued, is one whose wait saw a moment at which every task counted in so far had completed. */
  lemma NoEarlyWake(s: State, f: nat)
    requires Runs.Reachable(Start, TimelyNext, s) && f < |s.fibers| && Signalled(s.fibers[f])
    ensures s.fibers[f].doneSeen
  {
    TimelyRunStaysTimed(Start, s);
    assert FiberTimed(s.fibers[f]);
  }

  /** The one owed wake leaves plain zero: the group may be renewed at once. */
  lemma WakeAllRenews(s: State, c: nat)
    requires Runs.Reachable(Start, TimelyNext, s) && Enabled(s, ClearWaiters(c))
    ensures var s' := Apply(s, ClearWaiters(c)); s'.count == 0 && !s'.bit && s'.waiters == {} && !WakeOwed(s')
  {
    TimelyRunStaysTimed(Start, s);
    assert SomeMustWake(s.completers);
  }

  /** A wake is owed only while the word is the bare bit, so any other word may be incremented. */
  lemma WakeOwedShowsInWord(s: State)
    requires Runs.Reachable(Start, TimelyNext, s) && WakeOwed(s)
    ensures s.count == 0 && s.bit
  {
    TimelyRunStaysTimed(Start, s);
  }
}
