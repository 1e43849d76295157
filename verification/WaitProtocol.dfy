/** Fibers waiting on one WaitGroup, and the tasks whose completion wakes them. One action per atomic
    access; each section under the group's mutex that makes only one racing access is one action. */
module WaitProtocol {
  import opened Options
  import Runs

  /** Fiber statuses that matter to suspension. */
  datatype Status = Ready | Running | WantsSuspend | SuspendSignaled | Suspended

  /** Where a call of Resume on fiber f stands. */
  datatype Resume = Looking | SwappingSuspended | SwappingWants | Requeueing | Over

  /** Event e is the one the fiber drew from the pool for this wait. */
  datatype Place =
    | Outside                               // running, not in WaitFor
    | Acquired(e: nat)
    | Parkable(e: nat)                      // status says it wants to suspend
    | Published(e: nat)                     // the event names the fiber
    | SelfSignaling(e: nat)                 // armed with the count at zero; holds the mutex
    | SelfResuming(e: nat, r: Resume)       // same, inside Resume
    | Leaving(e: nat)                       // armed, about to switch out
    | AtPark(e: nat)                        // context saved, the worker is about to park the fiber
    | Parked(e: nat)
    | Rewaking(e: nat)                      // signalled before it was parked, to be marked ready
    | Rewoken(e: nat)                       // ready, to be queued by the worker
    | Queued(e: nat)
    | Returned(e: nat)                      // running again, event to be released

  /** doneSeen: every task counted in had completed at some moment since the wait began; waits: waits begun. */
  datatype Fiber = Fiber(status: Status, place: Place, doneSeen: bool, waits: nat)

  datatype Completer =
    | Idle
    | MustWakeAll                           // took the count to zero and saw the waiter bit
    | Signaling(todo: set<nat>)             // events still to be signalled
    | Resuming(todo: set<nat>, f: nat, r: Resume)

  /** `count` and `bit` are the two parts of the group's word; events[e] is the waiter field of e.
      counted and completed: the tasks counted in so far, and those of them that have completed. */
  datatype State = State(
    count: nat, bit: bool, mutex: Option<nat>, waiters: set<nat>,
    events: seq<Option<nat>>, free: set<nat>, fibers: seq<Fiber>, completers: seq<Completer>,
    counted: nat, completed: nat)

  datatype Action =
    | Increment | Decrement(c: nat) | ClearWaiters(c: nat) | TakeWaiter(c: nat, e: nat) | FinishSignals(c: nat)
    | ResumeStep(c: nat)
    | BeginWait(f: nat, e: nat) | WantSuspend(f: nat) | Publish(f: nat) | Arm(f: nat) | SelfSignal(f: nat)
    | SelfResumeStep(f: nat) | Unlock(f: nat) | SwitchOut(f: nat) | Park(f: nat) | MarkReady(f: nat)
    | RequeueSelf(f: nat) | RunAgain(f: nat) | Release(f: nat)

  predicate FiberAction(a: Action)
  {
    !(a.Increment? || a.Decrement? || a.ClearWaiters? || a.TakeWaiter? || a.FinishSignals? || a.ResumeStep?)
  }

  function PlaceOf(s: State, f: nat): Place
    requires f < |s.fibers|
  {
    s.fibers[f].place
  }

  ghost predicate Enabled(s: State, a: Action)
  {
    && (FiberAction(a) ==> a.f < |s.fibers|)
    && (!FiberAction(a) && !a.Increment? ==> a.c < |s.completers|)
    && match a
       case Increment => true
       case Decrement(c) => s.completers[c].Idle? && s.count > 0
       case ClearWaiters(c) => s.completers[c].MustWakeAll? && s.mutex.None?
       case TakeWaiter(c, e) => s.completers[c].Signaling? && e in s.completers[c].todo && e < |s.events|
       case FinishSignals(c) => s.completers[c] == Signaling({})
       case ResumeStep(c) => s.completers[c].Resuming? && s.completers[c].f < |s.fibers|
       case BeginWait(f, e) => PlaceOf(s, f).Outside? && e in s.free && e < |s.events|
       case WantSuspend(f) => PlaceOf(s, f).Acquired?
       case Publish(f) => PlaceOf(s, f).Parkable? && PlaceOf(s, f).e < |s.events|
       case Arm(f) => PlaceOf(s, f).Published? && s.mutex.None?
       case SelfSignal(f) => PlaceOf(s, f).SelfSignaling? && PlaceOf(s, f).e < |s.events|
       case SelfResumeStep(f) => PlaceOf(s, f).SelfResuming? && !PlaceOf(s, f).r.Over?
       case Unlock(f) => PlaceOf(s, f).SelfResuming? && PlaceOf(s, f).r.Over?
       case SwitchOut(f) => PlaceOf(s, f).Leaving?
       case Park(f) => PlaceOf(s, f).AtPark?
       case MarkReady(f) => PlaceOf(s, f).Rewaking?
       case RequeueSelf(f) => PlaceOf(s, f).Rewoken?
       case RunAgain(f) => PlaceOf(s, f).Queued?
       case Release(f) => PlaceOf(s, f).Returned?
  }

  /** One access of Resume to the status of the fiber: the new status, and where Resume goes on. */
  function ResumeAccess(status: Status, r: Resume): (Status, Resume)
  {
    match r
    case Looking =>
      (status, if status.Suspended? then SwappingSuspended else if status.WantsSuspend? then SwappingWants else Over)
    case SwappingSuspended => if status.Suspended? then (Ready, Requeueing) else (status, Over)
    case SwappingWants => if status.WantsSuspend? then (SuspendSignaled, Over) else (status, Looking)
    case Requeueing => (status, Over)
    case Over => (status, Over)
  }

  function SetPlace(s: State, f: nat, p: Place): State
    requires f < |s.fibers|
  {
    s.(fibers := s.fibers[f := s.fibers[f].(place := p)])
  }

  function SetStatus(s: State, f: nat, status: Status, p: Place): State
    requires f < |s.fibers|
  {
    s.(fibers := s.fibers[f := s.fibers[f].(status := status, place := p)])
  }

  predicate InWait(fb: Fiber)
  {
    !fb.place.Outside?
  }

  /** Every wait in progress notices that all tasks have completed. */
  function NoteDone(fibers: seq<Fiber>): seq<Fiber>
  {
    seq(|fibers|, i requires 0 <= i < |fibers| =>
      if InWait(fibers[i]) then fibers[i].(doneSeen := true) else fibers[i])
  }

  /** A task that is requeued goes into a run queue, wherever the fiber was. */
  function Requeued(p: Place): Place
  {
    if p.Outside? then Outside else Queued(p.e)
  }

  function ResumeBy(s: State, c: nat): State
    requires c < |s.completers| && s.completers[c].Resuming? && s.completers[c].f < |s.fibers|
  {
    var cm := s.completers[c];
    var fb := s.fibers[cm.f];
    var (status, r) := ResumeAccess(fb.status, cm.r);
    var fb' := fb.(status := status, place := if cm.r.Requeueing? then Requeued(fb.place) else fb.place);
    s.(fibers := s.fibers[cm.f := fb'],
       completers := s.completers[c := if r.Over? then Signaling(cm.todo) else Resuming(cm.todo, cm.f, r)])
  }

  function Apply(s: State, a: Action): State
    requires Enabled(s, a)
  {
    match a
    case Increment => s.(count := s.count + 1, counted := s.counted + 1)
    case Decrement(c) =>
      s.(count := s.count - 1, completed := s.completed + 1,
         fibers := if s.completed + 1 == s.counted then NoteDone(s.fibers) else s.fibers,
         completers := s.completers[c := if s.count == 1 && s.bit then MustWakeAll else Idle])
    case ClearWaiters(c) =>
      s.(waiters := {}, bit := false, completers := s.completers[c := Signaling(s.waiters)])
    case TakeWaiter(c, e) =>
      var todo := s.completers[c].todo - {e};
      s.(events := s.events[e := None],
         completers := s.completers[c :=
           if s.events[e].Some? then Resuming(todo, s.events[e].value, Looking) else Signaling(todo)])
    case FinishSignals(c) => s.(completers := s.completers[c := Idle])
    case ResumeStep(c) => ResumeBy(s, c)
    case BeginWait(f, e) =>
      s.(free := s.free - {e}, events := s.events[e := None],
         fibers := s.fibers[f := Fiber(s.fibers[f].status, Acquired(e), s.completed == s.counted, s.fibers[f].waits + 1)])
    case WantSuspend(f) => SetStatus(s, f, WantsSuspend, Parkable(PlaceOf(s, f).e))
    case Publish(f) =>
      SetPlace(s.(events := s.events[PlaceOf(s, f).e := Some(f)]), f, Published(PlaceOf(s, f).e))
    case Arm(f) =>
      var e := PlaceOf(s, f).e;
      if s.count == 0 then SetPlace(s.(bit := true, mutex := Some(f), waiters := s.waiters - {e}), f, SelfSignaling(e))
      else SetPlace(s.(bit := true, waiters := s.waiters + {e}), f, Leaving(e))
    case SelfSignal(f) =>
      var e := PlaceOf(s, f).e;
      SetPlace(s.(events := s.events[e := None]), f, SelfResuming(e, if s.events[e].Some? then Looking else Over))
    case SelfResumeStep(f) =>
      var p := PlaceOf(s, f);
      var (status, r) := ResumeAccess(s.fibers[f].status, p.r);
      SetStatus(s, f, status, if p.r.Requeueing? then Queued(p.e) else SelfResuming(p.e, r))
    case Unlock(f) => SetPlace(s.(mutex := None), f, Leaving(PlaceOf(s, f).e))
    case SwitchOut(f) => SetPlace(s, f, AtPark(PlaceOf(s, f).e))
    case Park(f) =>
      var e := PlaceOf(s, f).e;
      if s.fibers[f].status.WantsSuspend? then SetStatus(s, f, Suspended, Parked(e))
      else if s.fibers[f].status.SuspendSignaled? then SetPlace(s, f, Rewaking(e))
      else SetPlace(s, f, Parked(e))
    case MarkReady(f) => SetStatus(s, f, Ready, Rewoken(PlaceOf(s, f).e))
    case RequeueSelf(f) => SetPlace(s, f, Queued(PlaceOf(s, f).e))
    case RunAgain(f) => SetStatus(s, f, Running, Returned(PlaceOf(s, f).e))
    case Release(f) => SetPlace(s.(free := s.free + {PlaceOf(s, f).e}), f, Outside)
  }

  ghost predicate Next(s: State, a: Action, s': State)
  {
    Enabled(s, a) && s' == Apply(s, a)
  }

  /** Any count of tasks to come, any waiter bit left over from an earlier use, all fibers running, all events
      free. */
  ghost predicate Start(s: State)
  {
    && s.mutex.None? && s.waiters == {} && s.counted == s.count && s.completed == 0
    && (forall e :: e in s.free ==> e < |s.events|)
    && (forall f :: 0 <= f < |s.fibers| ==> s.fibers[f] == Fiber(Running, Outside, false, 0))
    && forall c :: 0 <= c < |s.completers| ==> s.completers[c] == Idle
  }

  // ---------------------------------------------------------------- the invariant

  function Todo(cm: Completer): set<nat>
  {
    if cm.Signaling? || cm.Resuming? then cm.todo else {}
  }

  /** The fiber is armed on e and nothing has reached it yet. */
  predicate WaitsOn(fb: Fiber, e: nat)
  {
    || ((fb.place == Leaving(e) || fb.place == AtPark(e)) && fb.status.WantsSuspend?)
    || (fb.place == Parked(e) && fb.status.Suspended?)
  }

  /** The event names a fiber that is armed on it. */
  predicate EventArmed(events: seq<Option<nat>>, fibers: seq<Fiber>, e: nat)
  {
    e < |events| && events[e].Some? && events[e].value < |fibers| && WaitsOn(fibers[events[e].value], e)
  }

  /** A completer inside Resume has the fiber to itself, and has taken its event's waiter. */
  predicate ResumeOk(events: seq<Option<nat>>, fibers: seq<Fiber>, f: nat, r: Resume)
  {
    f < |fibers| && InWait(fibers[f]) &&
    var fb := fibers[f];
    fb.place.e < |events| && events[fb.place.e].None? &&
    match r
    case Looking => WaitsOn(fb, fb.place.e)
    case SwappingWants => WaitsOn(fb, fb.place.e)
    case SwappingSuspended => fb.place.Parked? && fb.status.Suspended?
    case Requeueing => fb.place.Parked? && fb.status.Ready?
    case Over => false
  }

  predicate CompleterOk(events: seq<Option<nat>>, fibers: seq<Fiber>, cm: Completer)
  {
    && (forall e :: e in Todo(cm) ==> EventArmed(events, fibers, e))
    && (cm.Resuming? ==> ResumeOk(events, fibers, cm.f, cm.r))
  }

  /** The completer has the fiber's event on its list, or is resuming the fiber. */
  predicate Attends(cm: Completer, f: nat, e: nat)
  {
    e in Todo(cm) || (cm.Resuming? && cm.f == f)
  }

  /** Someone will still signal fiber f, armed on e. */
  predicate Awaited(waiters: set<nat>, completers: seq<Completer>, f: nat, e: nat)
  {
    e in waiters || exists c :: 0 <= c < |completers| && Attends(completers[c], f, e)
  }

  predicate FiberOk(fb: Fiber, f: nat, events: seq<Option<nat>>, mutex: Option<nat>, waiters: set<nat>, completers: seq<Completer>)
  {
    match fb.place
    case Outside => fb.status.Running?
    case Acquired(e) => fb.status.Running?
    case Parkable(e) => fb.status.WantsSuspend?
    case Published(e) => fb.status.WantsSuspend? && e < |events| && events[e] == Some(f)
    case SelfSignaling(e) =>
      fb.status.WantsSuspend? && e < |events| && events[e] == Some(f) && mutex == Some(f)
    case SelfResuming(e, r) =>
      && mutex == Some(f)
      && if r.Over? then fb.status.SuspendSignaled? else (r.Looking? || r.SwappingWants?) && fb.status.WantsSuspend?
    case Leaving(e) => SignalledOrAwaited(fb, f, e, waiters, completers)
    case AtPark(e) => SignalledOrAwaited(fb, f, e, waiters, completers)
    case Parked(e) => Awaited(waiters, completers, f, e) && (fb.status.Suspended? || fb.status.Ready?)
    case Rewaking(e) => fb.status.SuspendSignaled?
    case Rewoken(e) => fb.status.Ready?
    case Queued(e) => fb.status.Ready?
    case Returned(e) => fb.status.Running?
  }

  predicate SignalledOrAwaited(fb: Fiber, f: nat, e: nat, waiters: set<nat>, completers: seq<Completer>)
  {
    || (fb.status.WantsSuspend? && Awaited(waiters, completers, f, e))
    || fb.status.SuspendSignaled?
  }

  ghost predicate WaitersOk(events: seq<Option<nat>>, fibers: seq<Fiber>, waiters: set<nat>)
  {
    forall e :: e in waiters ==> EventArmed(events, fibers, e)
  }

  predicate CompletersOk(events: seq<Option<nat>>, fibers: seq<Fiber>, completers: seq<Completer>)
  {
    forall c :: 0 <= c < |completers| ==> CompleterOk(events, fibers, completers[c])
  }

  /** No event is on two lists, and no fiber is resumed twice. */
  predicate Apart(cm: Completer, dm: Completer)
  {
    && Todo(cm) !! Todo(dm)
    && !(cm.Resuming? && dm.Resuming? && cm.f == dm.f)
  }

  predicate ListsApart(waiters: set<nat>, completers: seq<Completer>)
  {
    && (forall c :: 0 <= c < |completers| ==> waiters !! Todo(completers[c]))
    && (forall c, d :: 0 <= c < |completers| && 0 <= d < |completers| && c != d ==> Apart(completers[c], completers[d]))
  }

  /** A fiber in a wait has its event to itself. */
  predicate PoolOk(events: seq<Option<nat>>, free: set<nat>, fibers: seq<Fiber>)
  {
    && (forall e :: e in free ==> e < |events|)
    && (forall f :: 0 <= f < |fibers| && InWait(fibers[f]) ==>
          fibers[f].place.e < |events| && fibers[f].place.e !in free)
    && (forall f, g :: 0 <= f < |fibers| && 0 <= g < |fibers| && f != g && InWait(fibers[f]) && InWait(fibers[g])
          ==> fibers[f].place.e != fibers[g].place.e)
  }

  predicate SomeMustWake(completers: seq<Completer>)
  {
    exists c :: 0 <= c < |completers| && completers[c].MustWakeAll?
  }

  /** Waiters are registered under the bit, and someone is or will be bound to wake them. */
  predicate CountOk(count: nat, bit: bool, waiters: set<nat>, completers: seq<Completer>)
  {
    waiters != {} ==> bit && (count > 0 || SomeMustWake(completers))
  }

  predicate FibersOk(fibers: seq<Fiber>, events: seq<Option<nat>>, mutex: Option<nat>, waiters: set<nat>, completers: seq<Completer>)
  {
    forall f :: 0 <= f < |fibers| ==> FiberOk(fibers[f], f, events, mutex, waiters, completers)
  }

  predicate MutexOk(fibers: seq<Fiber>, mutex: Option<nat>)
  {
    mutex.Some? ==>
      mutex.value < |fibers| && (fibers[mutex.value].place.SelfSignaling? || fibers[mutex.value].place.SelfResuming?)
  }

  /** What every run keeps, however the group is used. */
  ghost predicate Inv(s: State)
  {
    && WaitersOk(s.events, s.fibers, s.waiters)
    && CompletersOk(s.events, s.fibers, s.completers)
    && ListsApart(s.waiters, s.completers)
    && PoolOk(s.events, s.free, s.fibers)
    && CountOk(s.count, s.bit, s.waiters, s.completers)
    && FibersOk(s.fibers, s.events, s.mutex, s.waiters, s.completers)
    && MutexOk(s.fibers, s.mutex)
    && Counts(s)
  }

  /** The count is that of the tasks counted in and not completed. */
  predicate Counts(s: State)
  {
    s.count + s.completed == s.counted
  }

  // ---------------------------------------------------------------- every action keeps it

  /** Where nobody else has anything to do with the fiber. */
  predicate Private(p: Place)
  {
    !p.Outside? && !p.Leaving? && !p.AtPark? && !p.Parked?
  }

  /** A fiber in a private place may move on, and use its own event, without touching anyone's view. */
  lemma PrivateMove(s: State, f: nat, fb: Fiber, events: seq<Option<nat>>)
    requires Inv(s) && f < |s.fibers| && Private(s.fibers[f].place)
    requires fb.place.Outside? || fb.place.e == s.fibers[f].place.e
    requires |events| == |s.events| && forall e :: 0 <= e < |events| && e != s.fibers[f].place.e ==> events[e] == s.events[e]
    ensures WaitersOk(events, s.fibers[f := fb], s.waiters)
    ensures CompletersOk(events, s.fibers[f := fb], s.completers)
    ensures !fb.place.Outside? ==> PoolOk(events, s.free, s.fibers[f := fb])
  {
    var fibers := s.fibers[f := fb];
    forall e | e in s.waiters
      ensures EventArmed(events, fibers, e)
    {
      assert EventArmed(s.events, s.fibers, e);
    }
    forall c | 0 <= c < |s.completers|
      ensures CompleterOk(events, fibers, s.completers[c])
    {
      assert CompleterOk(s.events, s.fibers, s.completers[c]);
      forall e | e in Todo(s.completers[c])
        ensures EventArmed(events, fibers, e)
      {
        assert EventArmed(s.events, s.fibers, e);
      }
    }
  }

  /** The other fibers do not notice what f does with its event and the mutex it holds. */
  lemma OthersStay(s: State, f: nat, events: seq<Option<nat>>, mutex: Option<nat>)
    requires Inv(s) && f < |s.fibers| && InWait(s.fibers[f])
    requires |events| == |s.events| && forall e :: 0 <= e < |events| && e != s.fibers[f].place.e ==> events[e] == s.events[e]
    requires mutex == s.mutex || s.mutex.None? || s.mutex == Some(f)
    ensures forall g :: 0 <= g < |s.fibers| && g != f ==>
              FiberOk(s.fibers[g], g, events, mutex, s.waiters, s.completers)
  {
    forall g | 0 <= g < |s.fibers| && g != f
      ensures FiberOk(s.fibers[g], g, events, mutex, s.waiters, s.completers)
    {
      assert FiberOk(s.fibers[g], g, s.events, s.mutex, s.waiters, s.completers);
    }
  }

  /** Fiber f has moved on within its wait; the rest is as it was. */
  lemma MoveKeepsInv(s: State, s': State, f: nat)
    requires Inv(s) && f < |s.fibers| == |s'.fibers| && InWait(s.fibers[f]) && InWait(s'.fibers[f])
    requires s' == s.(events := s'.events, mutex := s'.mutex, fibers := s.fibers[f := s'.fibers[f]])
    requires s'.fibers[f].doneSeen == s.fibers[f].doneSeen && s'.fibers[f].place.e == s.fibers[f].place.e
    requires |s'.events| == |s.events|
    requires forall e :: 0 <= e < |s.events| && e != s.fibers[f].place.e ==> s'.events[e] == s.events[e]
    requires s'.mutex == s.mutex || s.mutex.None? || s.mutex == Some(f)
    requires WaitersOk(s'.events, s'.fibers, s.waiters) && CompletersOk(s'.events, s'.fibers, s.completers)
    requires FiberOk(s'.fibers[f], f, s'.events, s'.mutex, s.waiters, s.completers)
    requires MutexOk(s'.fibers, s'.mutex)
    ensures Inv(s')
  {
    OthersStay(s, f, s'.events, s'.mutex);
  }

  lemma FiberFacts(s: State, f: nat)
    requires Inv(s) && f < |s.fibers| && InWait(s.fibers[f])
    ensures FiberOk(s.fibers[f], f, s.events, s.mutex, s.waiters, s.completers)
    ensures s.fibers[f].place.e < |s.events| && MutexOk(s.fibers, s.mutex)
  {
  }

  /** Up to the signal to itself. */
  lemma EarlyStepKeepsInv(s: State, a: Action)
    requires Inv(s) && Enabled(s, a) && (a.WantSuspend? || a.Publish? || a.SelfSignal? || a.SelfResumeStep?)
    ensures Inv(Apply(s, a))
  {
    var s' := Apply(s, a);
    FiberFacts(s, a.f);
    PrivateMove(s, a.f, s'.fibers[a.f], s'.events);
    MoveKeepsInv(s, s', a.f);
  }

  /** After it, and after waking. */
  lemma LateStepKeepsInv(s: State, a: Action)
    requires Inv(s) && Enabled(s, a) && (a.Unlock? || a.MarkReady? || a.RequeueSelf? || a.RunAgain?)
    ensures Inv(Apply(s, a))
  {
    var s' := Apply(s, a);
    FiberFacts(s, a.f);
    PrivateMove(s, a.f, s'.fibers[a.f], s'.events);
    MoveKeepsInv(s, s', a.f);
  }

  /** A free event is on no list and in no fiber's hands. */
  lemma FreeEventUnlisted(s: State, e: nat)
    requires Inv(s) && e in s.free
    ensures forall x :: x in s.waiters ==> x != e
    ensures forall c, x :: 0 <= c < |s.completers| && x in Todo(s.completers[c]) ==> x != e
    ensures forall g :: 0 <= g < |s.fibers| && InWait(s.fibers[g]) ==> s.fibers[g].place.e != e
  {
    forall x | x in s.waiters ensures x != e
    {
      assert EventArmed(s.events, s.fibers, x);
    }
    forall c, x | 0 <= c < |s.completers| && x in Todo(s.completers[c]) ensures x != e
    {
      assert CompleterOk(s.events, s.fibers, s.completers[c]) && EventArmed(s.events, s.fibers, x);
    }
  }

  lemma BeginWaitKeepsLists(s: State, f: nat, e: nat)
    requires Inv(s) && Enabled(s, BeginWait(f, e))
    ensures var s' := Apply(s, BeginWait(f, e));
      WaitersOk(s'.events, s'.fibers, s'.waiters) && CompletersOk(s'.events, s'.fibers, s'.completers)
  {
    var s' := Apply(s, BeginWait(f, e));
    FreeEventUnlisted(s, e);
    forall x | x in s.waiters
      ensures EventArmed(s'.events, s'.fibers, x)
    {
      assert EventArmed(s.events, s.fibers, x);
    }
    forall c | 0 <= c < |s.completers|
      ensures CompleterOk(s'.events, s'.fibers, s.completers[c])
    {
      assert CompleterOk(s.events, s.fibers, s.completers[c]);
      forall x | x in Todo(s.completers[c])
        ensures EventArmed(s'.events, s'.fibers, x)
      {
        assert EventArmed(s.events, s.fibers, x);
      }
    }
  }

  lemma BeginWaitKeepsFibers(s: State, f: nat, e: nat)
    requires Inv(s) && Enabled(s, BeginWait(f, e))
    ensures var s' := Apply(s, BeginWait(f, e));
      && FibersOk(s'.fibers, s'.events, s'.mutex, s'.waiters, s'.completers)
      && PoolOk(s'.events, s'.free, s'.fibers) && MutexOk(s'.fibers, s'.mutex)
  {
    var s' := Apply(s, BeginWait(f, e));
    FreeEventUnlisted(s, e);
    forall g | 0 <= g < |s.fibers|
      ensures FiberOk(s'.fibers[g], g, s'.events, s'.mutex, s'.waiters, s'.completers)
    {
      assert FiberOk(s.fibers[g], g, s.events, s.mutex, s.waiters, s.completers);
    }
  }

  lemma BeginWaitKeepsInv(s: State, f: nat, e: nat)
    requires Inv(s) && Enabled(s, BeginWait(f, e))
    ensures Inv(Apply(s, BeginWait(f, e)))
  {
    BeginWaitKeepsLists(s, f, e);
    BeginWaitKeepsFibers(s, f, e);
  }

  lemma ReleaseKeepsInv(s: State, f: nat)
    requires Inv(s) && Enabled(s, Release(f))
    ensures Inv(Apply(s, Release(f)))
  {
    var s' := Apply(s, Release(f));
    PrivateMove(s, f, s'.fibers[f], s'.events);
    OthersStay(s, f, s'.events, s'.mutex);
  }

  lemma IncrementKeepsInv(s: State)
    requires Inv(s) && Enabled(s, Increment)
    ensures Inv(Apply(s, Increment))
  {
  }

  /** A fiber on its way to being parked, whose arming is not lost on the way. */
  lemma ArmedMove(s: State, f: nat, fb: Fiber)
    requires Inv(s) && f < |s.fibers| && (s.fibers[f].place.Leaving? || s.fibers[f].place.AtPark?)
    requires !fb.place.Outside? && fb.place.e == s.fibers[f].place.e && fb.doneSeen == s.fibers[f].doneSeen
    requires WaitsOn(s.fibers[f], fb.place.e) ==> WaitsOn(fb, fb.place.e)
    ensures WaitersOk(s.events, s.fibers[f := fb], s.waiters)
    ensures CompletersOk(s.events, s.fibers[f := fb], s.completers)
  {
    var fibers := s.fibers[f := fb];
    forall e | e in s.waiters
      ensures EventArmed(s.events, fibers, e)
    {
      assert EventArmed(s.events, s.fibers, e);
    }
    forall c | 0 <= c < |s.completers|
      ensures CompleterOk(s.events, fibers, s.completers[c])
    {
      assert CompleterOk(s.events, s.fibers, s.completers[c]);
      forall e | e in Todo(s.completers[c])
        ensures EventArmed(s.events, fibers, e)
      {
        assert EventArmed(s.events, s.fibers, e);
      }
    }
  }

  lemma SwitchOutKeepsInv(s: State, f: nat)
    requires Inv(s) && Enabled(s, SwitchOut(f))
    ensures Inv(Apply(s, SwitchOut(f)))
  {
    var s' := Apply(s, SwitchOut(f));
    FiberFacts(s, f);
    ArmedMove(s, f, s'.fibers[f]);
    MoveKeepsInv(s, s', f);
  }

  lemma ParkKeepsInv(s: State, f: nat)
    requires Inv(s) && Enabled(s, Park(f))
    ensures Inv(Apply(s, Park(f)))
  {
    var s' := Apply(s, Park(f));
    FiberFacts(s, f);
    ArmedMove(s, f, s'.fibers[f]);
    MoveKeepsInv(s, s', f);
  }

  /** A fiber that is not armed has its event on no list. */
  lemma OwnEventUnlisted(s: State, f: nat)
    requires Inv(s) && f < |s.fibers| && Private(s.fibers[f].place)
    ensures s.fibers[f].place.e !in s.waiters
    ensures forall c :: 0 <= c < |s.completers| ==> s.fibers[f].place.e !in Todo(s.completers[c])
  {
    forall x | x in s.waiters
      ensures x != s.fibers[f].place.e
    {
      assert EventArmed(s.events, s.fibers, x);
    }
    forall c, x | 0 <= c < |s.completers| && x in Todo(s.completers[c])
      ensures x != s.fibers[f].place.e
    {
      assert CompleterOk(s.events, s.fibers, s.completers[c]);
      assert EventArmed(s.events, s.fibers, x);
    }
  }

  lemma ArmKeepsInv(s: State, f: nat)
    requires Inv(s) && Enabled(s, Arm(f))
    ensures Inv(Apply(s, Arm(f)))
  {
    var s' := Apply(s, Arm(f));
    assert FiberOk(s.fibers[f], f, s.events, s.mutex, s.waiters, s.completers);
    PrivateMove(s, f, s'.fibers[f], s.events);
    OthersStay(s, f, s.events, s'.mutex);
    OwnEventUnlisted(s, f);
    forall g | 0 <= g < |s.fibers| && g != f
      ensures FiberOk(s'.fibers[g], g, s.events, s'.mutex, s'.waiters, s.completers)
    {
      assert FiberOk(s.fibers[g], g, s.events, s'.mutex, s.waiters, s.completers);
    }
  }

  // Actions of completers.

  lemma AwaitedByOthers(s: State, c: nat, cm: Completer, f: nat, e: nat)
    requires c < |s.completers| && Awaited(s.waiters, s.completers, f, e)
    requires Attends(s.completers[c], f, e) ==> Attends(cm, f, e)
    ensures Awaited(s.waiters, s.completers[c := cm], f, e)
  {
    if e !in s.waiters {
      var d :| 0 <= d < |s.completers| && Attends(s.completers[d], f, e);
      assert Attends(s.completers[c := cm][d], f, e);
    }
  }

  lemma FiberKeepsWaiting(s: State, c: nat, cm: Completer, f: nat)
    requires Inv(s) && c < |s.completers| && f < |s.fibers|
    requires InWait(s.fibers[f]) && Attends(s.completers[c], f, s.fibers[f].place.e) ==> Attends(cm, f, s.fibers[f].place.e)
    ensures FiberOk(s.fibers[f], f, s.events, s.mutex, s.waiters, s.completers[c := cm])
  {
    var fb := s.fibers[f];
    assert FiberOk(fb, f, s.events, s.mutex, s.waiters, s.completers);
    if InWait(fb) && Awaited(s.waiters, s.completers, f, fb.place.e) {
      AwaitedByOthers(s, c, cm, f, fb.place.e);
    }
  }

  lemma NoteDoneKeeps(s: State)
    requires Inv(s)
    ensures Inv(s.(fibers := NoteDone(s.fibers)))
  {
    var fibers := NoteDone(s.fibers);
    forall f | 0 <= f < |fibers|
      ensures FiberOk(fibers[f], f, s.events, s.mutex, s.waiters, s.completers)
    {
      assert FiberOk(s.fibers[f], f, s.events, s.mutex, s.waiters, s.completers);
    }
    forall c | 0 <= c < |s.completers|
      ensures CompleterOk(s.events, fibers, s.completers[c])
    {
      assert CompleterOk(s.events, s.fibers, s.completers[c]);
      assert forall e :: e in Todo(s.completers[c]) ==> EventArmed(s.events, s.fibers, e);
    }
    assert forall e :: e in s.waiters ==> EventArmed(s.events, s.fibers, e);
  }

  lemma DecrementKeepsInv(s: State, c: nat)
    requires Inv(s) && Enabled(s, Decrement(c))
    ensures Inv(Apply(s, Decrement(c)))
  {
    var r := if s.completed + 1 == s.counted then s.(fibers := NoteDone(s.fibers)) else s;
    NoteDoneKeeps(s);
    var s' := Apply(s, Decrement(c));
    forall f | 0 <= f < |r.fibers|
      ensures FiberOk(r.fibers[f], f, r.events, r.mutex, r.waiters, s'.completers)
    {
      FiberKeepsWaiting(r, c, s'.completers[c], f);
    }
    assert s.count == 1 && s.bit ==> s'.completers[c].MustWakeAll?;
  }

  /** The waiters move to the list of the one completer that must wake them. */
  lemma ClearWaitersKeepsInv(s: State, c: nat)
    requires Inv(s) && Enabled(s, ClearWaiters(c))
    ensures Inv(Apply(s, ClearWaiters(c)))
  {
    var s' := Apply(s, ClearWaiters(c));
    assert forall d :: 0 <= d < |s.completers| && d != c ==> Apart(s.completers[c], s.completers[d]);
    forall f | 0 <= f < |s.fibers|
      ensures FiberOk(s.fibers[f], f, s.events, s.mutex, {}, s'.completers)
    {
      var fb := s.fibers[f];
      assert FiberOk(fb, f, s.events, s.mutex, s.waiters, s.completers);
      if InWait(fb) && Awaited(s.waiters, s.completers, f, fb.place.e) {
        if fb.place.e in s.waiters {
          assert Attends(s'.completers[c], f, fb.place.e);
        } else {
          var d :| 0 <= d < |s.completers| && Attends(s.completers[d], f, fb.place.e);
          assert Attends(s'.completers[d], f, fb.place.e);
        }
      }
    }
  }

  lemma WakeStaysDue(completers: seq<Completer>, c: nat, cm: Completer)
    requires c < |completers| && !completers[c].MustWakeAll? && !cm.MustWakeAll?
    ensures SomeMustWake(completers[c := cm]) == SomeMustWake(completers)
  {
    if SomeMustWake(completers) {
      var d :| 0 <= d < |completers| && completers[d].MustWakeAll?;
      assert completers[c := cm][d].MustWakeAll?;
    }
  }

  lemma FinishSignalsKeepsInv(s: State, c: nat)
    requires Inv(s) && Enabled(s, FinishSignals(c))
    ensures Inv(Apply(s, FinishSignals(c)))
  {
    var s' := Apply(s, FinishSignals(c));
    WakeStaysDue(s.completers, c, s'.completers[c]);
    forall f | 0 <= f < |s.fibers|
      ensures FiberOk(s.fibers[f], f, s.events, s.mutex, s.waiters, s'.completers)
    {
      FiberKeepsWaiting(s, c, Idle, f);
    }
  }

  /** The others' lists do not hold the event that c takes, nor do they resume its fiber. */
  lemma TakeWaiterLeavesCompleter(s: State, c: nat, e: nat, d: nat)
    requires Inv(s) && Enabled(s, TakeWaiter(c, e)) && d < |s.completers| && d != c
    ensures CompleterOk(Apply(s, TakeWaiter(c, e)).events, s.fibers, s.completers[d])
    ensures s.events[e].Some? && (s.completers[d].Resuming? ==> s.completers[d].f != s.events[e].value)
  {
    assert CompleterOk(s.events, s.fibers, s.completers[c]) && EventArmed(s.events, s.fibers, e);
    assert CompleterOk(s.events, s.fibers, s.completers[d]) && Apart(s.completers[c], s.completers[d]);
    assert forall x :: x in Todo(s.completers[d]) ==> EventArmed(s.events, s.fibers, x);
  }

  lemma TakeWaiterKeepsCompleters(s: State, c: nat, e: nat)
    requires Inv(s) && Enabled(s, TakeWaiter(c, e))
    ensures var s' := Apply(s, TakeWaiter(c, e));
      && WaitersOk(s'.events, s'.fibers, s'.waiters) && CompletersOk(s'.events, s'.fibers, s'.completers)
      && ListsApart(s'.waiters, s'.completers)
  {
    var s' := Apply(s, TakeWaiter(c, e));
    assert CompleterOk(s.events, s.fibers, s.completers[c]);
    assert forall x :: x in Todo(s.completers[c]) ==> EventArmed(s.events, s.fibers, x);
    forall x | x in s.waiters
      ensures EventArmed(s'.events, s.fibers, x)
    {
      assert EventArmed(s.events, s.fibers, x);
    }
    forall d | 0 <= d < |s.completers| && d != c
      ensures CompleterOk(s'.events, s.fibers, s.completers[d])
      ensures Apart(s'.completers[c], s.completers[d]) && Apart(s.completers[d], s'.completers[c])
    {
      TakeWaiterLeavesCompleter(s, c, e, d);
      assert Apart(s.completers[c], s.completers[d]) && Apart(s.completers[d], s.completers[c]);
    }
  }

  lemma TakeWaiterKeepsFiber(s: State, c: nat, e: nat, g: nat)
    requires Inv(s) && Enabled(s, TakeWaiter(c, e)) && g < |s.fibers|
    ensures var s' := Apply(s, TakeWaiter(c, e));
      FiberOk(s.fibers[g], g, s'.events, s.mutex, s.waiters, s'.completers)
  {
    assert CompleterOk(s.events, s.fibers, s.completers[c]) && EventArmed(s.events, s.fibers, e);
    FiberKeepsWaiting(s, c, Apply(s, TakeWaiter(c, e)).completers[c], g);
  }

  lemma TakeWaiterKeepsInv(s: State, c: nat, e: nat)
    requires Inv(s) && Enabled(s, TakeWaiter(c, e))
    ensures Inv(Apply(s, TakeWaiter(c, e)))
  {
    var s' := Apply(s, TakeWaiter(c, e));
    WakeStaysDue(s.completers, c, s'.completers[c]);
    TakeWaiterKeepsCompleters(s, c, e);
    forall g | 0 <= g < |s.fibers|
      ensures FiberOk(s.fibers[g], g, s'.events, s.mutex, s.waiters, s'.completers)
    {
      TakeWaiterKeepsFiber(s, c, e, g);
    }
  }

  /** One access of Resume: only this completer is concerned with the fiber it resumes. */
  lemma ResumeStepKeepsLists(s: State, c: nat)
    requires Inv(s) && Enabled(s, ResumeStep(c))
    ensures var s' := Apply(s, ResumeStep(c));
      && WaitersOk(s'.events, s'.fibers, s'.waiters)
      && CompletersOk(s'.events, s'.fibers, s'.completers)
      && ListsApart(s'.waiters, s'.completers)
  {
    var s' := Apply(s, ResumeStep(c));
    var f := s.completers[c].f;
    assert CompleterOk(s.events, s.fibers, s.completers[c]);
    forall e | e in s.waiters
      ensures EventArmed(s'.events, s'.fibers, e)
    {
      assert EventArmed(s.events, s.fibers, e);
    }
    forall d | 0 <= d < |s.completers|
      ensures CompleterOk(s'.events, s'.fibers, s'.completers[d])
    {
      assert CompleterOk(s.events, s.fibers, s.completers[d]);
      if d != c { assert Apart(s.completers[c], s.completers[d]); }
      forall e | e in Todo(s.completers[d])
        ensures EventArmed(s'.events, s'.fibers, e)
      {
        assert EventArmed(s.events, s.fibers, e);
      }
    }
    forall d, d' | 0 <= d < |s.completers| && 0 <= d' < |s.completers| && d != d'
      ensures Apart(s'.completers[d], s'.completers[d'])
    {
      assert Apart(s.completers[d], s.completers[d']);
    }
  }

  lemma ResumeStepKeepsInv(s: State, c: nat)
    requires Inv(s) && Enabled(s, ResumeStep(c))
    ensures Inv(Apply(s, ResumeStep(c)))
  {
    var s' := Apply(s, ResumeStep(c));
    var f := s.completers[c].f;
    WakeStaysDue(s.completers, c, s'.completers[c]);
    ResumeStepKeepsLists(s, c);
    assert CompleterOk(s.events, s.fibers, s.completers[c]);
    assert FiberOk(s.fibers[f], f, s.events, s.mutex, s.waiters, s.completers);
    assert s'.completers[c].Resuming? ==> Attends(s'.completers[c], f, s.fibers[f].place.e);
    forall g | 0 <= g < |s.fibers| && g != f
      ensures FiberOk(s'.fibers[g], g, s.events, s.mutex, s.waiters, s'.completers)
    {
      FiberKeepsWaiting(s, c, s'.completers[c], g);
    }
  }

  lemma StepKeepsInv(s: State, a: Action)
    requires Inv(s) && Enabled(s, a)
    ensures Inv(Apply(s, a))
  {
    match a
    case Increment => IncrementKeepsInv(s);
    case Decrement(c) => DecrementKeepsInv(s, c);
    case ClearWaiters(c) => ClearWaitersKeepsInv(s, c);
    case TakeWaiter(c, e) => TakeWaiterKeepsInv(s, c, e);
    case FinishSignals(c) => FinishSignalsKeepsInv(s, c);
    case ResumeStep(c) => ResumeStepKeepsInv(s, c);
    case BeginWait(f, e) => BeginWaitKeepsInv(s, f, e);
    case Arm(f) => ArmKeepsInv(s, f);
    case SwitchOut(f) => SwitchOutKeepsInv(s, f);
    case Park(f) => ParkKeepsInv(s, f);
    case Release(f) => ReleaseKeepsInv(s, f);
    case _ =>
      if a.WantSuspend? || a.Publish? || a.SelfSignal? || a.SelfResumeStep? {
        EarlyStepKeepsInv(s, a);
      } else {
        LateStepKeepsInv(s, a);
      }
  }

  lemma ReachableHoldsInv(s: State)
    requires Runs.Reachable(Start, Next, s)
    ensures Inv(s)
  {
    forall r: State, a, r' | Inv(r) && Next(r, a, r')
      ensures Inv(r')
    {
      StepKeepsInv(r, a);
    }
    Runs.ReachableKeepsInvariant(Start, Next, Inv, s);
  }

  // ---------------------------------------------------------------- what waiters may rely on, in every run

  /** With the count at zero and no completer at work, nobody is left parked. */
  lemma NoLostWakeup(s: State, f: nat)
    requires Runs.Reachable(Start, Next, s) && f < |s.fibers|
    requires s.count == 0 && forall c :: 0 <= c < |s.completers| ==> s.completers[c].Idle?
    ensures !s.fibers[f].place.Parked?
    ensures s.fibers[f].place.Leaving? || s.fibers[f].place.AtPark? ==> s.fibers[f].status.SuspendSignaled?
  {
    ReachableHoldsInv(s);
    assert FiberOk(s.fibers[f], f, s.events, s.mutex, s.waiters, s.completers);
  }

  /** The fiber whose task the action puts into a run queue. */
  function Requeues(s: State, a: Action): Option<nat>
    requires a.ResumeStep? ==> a.c < |s.completers|
    requires FiberAction(a) ==> a.f < |s.fibers|
  {
    if a.ResumeStep? && s.completers[a.c].Resuming? && s.completers[a.c].r.Requeueing? then Some(s.completers[a.c].f)
    else if a.SelfResumeStep? && PlaceOf(s, a.f).SelfResuming? && PlaceOf(s, a.f).r.Requeueing? then Some(a.f)
    else if a.RequeueSelf? then Some(a.f)
    else None
  }

  /** Nobody is in a position to signal, resume or requeue the fiber. */
  predicate Settled(s: State, f: nat)
    requires f < |s.fibers| && InWait(s.fibers[f])
  {
    && s.fibers[f].place.e !in s.waiters
    && forall c :: 0 <= c < |s.completers| ==> !Attends(s.completers[c], f, s.fibers[f].place.e)
  }

  lemma PrivateIsSettled(s: State, f: nat)
    requires Inv(s) && f < |s.fibers| && Private(s.fibers[f].place)
    ensures Settled(s, f)
  {
    OwnEventUnlisted(s, f);
    assert forall c :: 0 <= c < |s.completers| ==> CompleterOk(s.events, s.fibers, s.completers[c]);
  }

  /** A suspended task is requeued only once its context is saved, and then nobody is left who could
      requeue it again before it has run. */
  lemma RequeuedOnceAfterSave(s: State, a: Action)
    requires Runs.Reachable(Start, Next, s) && Enabled(s, a) && Requeues(s, a).Some?
    ensures var f := Requeues(s, a).value;
      && f < |s.fibers| && s.fibers[f].status.Ready?
      && (s.fibers[f].place.Parked? || s.fibers[f].place.Rewoken?)
      && Apply(s, a).fibers[f].place.Queued? && Settled(Apply(s, a), f)
  {
    ReachableHoldsInv(s);
    var f := Requeues(s, a).value;
    if a.ResumeStep? { assert CompleterOk(s.events, s.fibers, s.completers[a.c]); }
    assert FiberOk(s.fibers[f], f, s.events, s.mutex, s.waiters, s.completers);
    StepKeepsInv(s, a);
    PrivateIsSettled(Apply(s, a), f);
  }

  /** The worker's park step always meets one of the two statuses it handles, and an event goes back to
      the pool only when no signaler can reach it any more. */
  lemma ParkAndReleaseAreSafe(s: State, f: nat)
    requires Runs.Reachable(Start, Next, s) && f < |s.fibers|
    ensures s.fibers[f].place.AtPark? ==> s.fibers[f].status.WantsSuspend? || s.fibers[f].status.SuspendSignaled?
    ensures s.fibers[f].place.Returned? ==> Settled(s, f) && s.fibers[f].place.e !in s.free
  {
    ReachableHoldsInv(s);
    assert FiberOk(s.fibers[f], f, s.events, s.mutex, s.waiters, s.completers);
    if s.fibers[f].place.Returned? { PrivateIsSettled(s, f); }
  }
}
