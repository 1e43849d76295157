/** One worker's way from its own deques through stealing to its inboxes: why the drain may ignore what
    push_bottom_batch answers. Thieves are at work on both deques all the while. */
module WorkerDrain {
  import D = DequeProtocol
  import Runs

  const BATCH_SIZE: nat := 64

  datatype Worker =
    | Busy                                    // with a task, which may push to the worker's deques
    | PoppingHi | PoppingLo | Stealing
    | DrainingHi | PushingHi | TakingBackHi   // inbox popped, batch pushed, one task popped back
    | DrainingLo | PushingLo | TakingBackLo
    | Asleep

  /** The tasks meant for a deque so far: `drained` from its inbox, and `own` pushed by a task that ran. */
  datatype Meant = Meant(drained: seq<D.Task>, own: seq<D.Task>)

  /** `dropped` lists the tasks of batches that a deque has refused; `looked` says which inboxes, true for the
      high one, have been drained since the worker last turned to its deques. */
  datatype State = State(
    hi: D.State, lo: D.State, worker: Worker, dropped: seq<D.Task>, forHi: Meant, forLo: Meant, looked: set<bool>)

  datatype Action =
    | Thief(high: bool, a: D.Action)
    | Own(high: bool, a: D.Action)            // the worker's next access to a deque of its own
    | Search                                  // without a task: the worker turns to its deques
    | StealEnds(found: bool)
    | Drained(items: seq<D.Task>)             // a drain loop has ended with these tasks
    | Wake

  function Deque(s: State, high: bool): D.State
  {
    if high then s.hi else s.lo
  }

  function WithDeque(s: State, high: bool, d: D.State): State
  {
    if high then s.(hi := d) else s.(lo := d)
  }

  function For(s: State, high: bool): Meant
  {
    if high then s.forHi else s.forLo
  }

  function WithMeant(s: State, high: bool, m: Meant): State
  {
    if high then s.(forHi := m) else s.(forLo := m)
  }

  predicate PushAction(a: D.Action)
  {
    a.CheckRoom? || a.WriteSlot? || a.Publish?
  }

  predicate PopAction(a: D.Action)
  {
    !D.ThiefAction(a) && !a.BeginPush? && !PushAction(a)
  }

  predicate Pops(w: Worker, high: bool)
  {
    if high then w.PoppingHi? || w.TakingBackHi? else w.PoppingLo? || w.TakingBackLo?
  }

  predicate Pushes(w: Worker, high: bool)
  {
    if high then w.PushingHi? else w.PushingLo?
  }

  predicate Enabled(s: State, a: Action)
  {
    match a
    case Thief(high, step) => D.ThiefAction(step) && D.Enabled(Deque(s, high), step)
    case Own(high, step) =>
      && D.Enabled(Deque(s, high), step)
      && ((s.worker.Busy? && (step.BeginPush? || PushAction(step)))
          || (Pops(s.worker, high) && PopAction(step)) || (Pushes(s.worker, high) && PushAction(step)))
    case Search => s.worker.Busy? && s.hi.owner.Idle? && s.lo.owner.Idle?
    case StealEnds(_) => s.worker.Stealing?
    case Drained(items) =>
      && |items| <= BATCH_SIZE
      && ((s.worker.DrainingHi? && s.hi.owner.Idle?) || (s.worker.DrainingLo? && s.lo.owner.Idle?))
    case Wake => s.worker.Asleep?
  }

  /** Where the worker goes when an operation on a deque is over: `got` a task, or the batch `published`. */
  function AfterOwn(w: Worker, got: bool, published: bool): Worker
  {
    match w
    case PoppingHi => if got then Busy else PoppingLo
    case PoppingLo => if got then Busy else Stealing
    case PushingHi => if published then TakingBackHi else DrainingLo
    case TakingBackHi => if got then Busy else DrainingLo
    case PushingLo => if published then TakingBackLo else Asleep
    case TakingBackLo => if got then Busy else Asleep
    case _ => w
  }

  function OwnStep(s: State, high: bool, step: D.Action): State
    requires Enabled(s, Own(high, step))
  {
    var d := Deque(s, high);
    var d' := D.Apply(d, step);
    var s' := WithDeque(s, high, d');
    if !d'.owner.Idle? then s'
    else
      var m := For(s, high);
      var s'' := if s.worker.Busy? && step.Publish? then WithMeant(s', high, m.(own := m.own + d.owner.items)) else s';
      s''.(
        worker := AfterOwn(s.worker, d'.popped != d.popped, step.Publish?),
        dropped := if step.CheckRoom? && !s.worker.Busy? then s.dropped + d.owner.items else s.dropped)
  }

  /** The worker begins to push what it has drained; it does not look at the answer. */
  function PushDrained(s: State, high: bool, items: seq<D.Task>): State
    requires Deque(s, high).owner.Idle?
  {
    WithDeque(s, high, D.Apply(Deque(s, high), D.BeginPush(items)))
  }

  function Apply(s: State, a: Action): State
    requires Enabled(s, a)
  {
    match a
    case Thief(high, step) => WithDeque(s, high, D.Apply(Deque(s, high), step))
    case Own(high, step) => OwnStep(s, high, step)
    case Search => s.(worker := PoppingHi, looked := {})
    case StealEnds(found) => s.(worker := if found then Busy else DrainingHi)
    case Drained(items) =>
      var high := s.worker.DrainingHi?;
      var s' := WithMeant(s, high, For(s, high).(drained := For(s, high).drained + items))
                .(looked := s.looked + {high});
      if items == [] then s'.(worker := if high then DrainingLo else Asleep)
      else PushDrained(s', high, items).(worker := if high then PushingHi else PushingLo)
    case Wake => s.(worker := Busy)
  }

  ghost predicate Next(s: State, a: Action, s': State)
  {
    Enabled(s, a) && s' == Apply(s, a)
  }

  ghost predicate Init(s: State)
  {
    && D.Init(s.hi) && D.Init(s.lo) && s.worker == Busy && s.dropped == []
    && s.forHi == s.forLo == Meant([], [])
    && |s.hi.buffer| >= BATCH_SIZE && |s.lo.buffer| >= BATCH_SIZE
  }

  // ---------------------------------------------------------------- the invariant

  /** The worker has found the deque empty and pushed nothing to it since. */
  predicate FoundEmpty(w: Worker, high: bool)
  {
    || w.Stealing? || w.DrainingHi? || w.DrainingLo? || w.Asleep?
    || if high then w.PoppingLo? || w.PushingLo? || w.TakingBackLo? else w.PushingHi? || w.TakingBackHi?
  }

  predicate OwnerFits(w: Worker, high: bool, owner: D.Owner)
  {
    if w.Busy? then owner.Idle? || owner.Pushing? || owner.Writing?
    else if Pops(w, high) then !owner.Pushing? && !owner.Writing?
    else if Pushes(w, high) then (owner.Pushing? && |owner.items| <= BATCH_SIZE) || owner.Writing?
    else owner.Idle?
  }

  ghost predicate DequeOk(w: Worker, high: bool, d: D.State)
  {
    && D.Shaped(d) && |d.buffer| >= BATCH_SIZE && OwnerFits(w, high, d.owner)
    && (FoundEmpty(w, high) ==> D.Contents(d) == [])
    && (Pushes(w, high) && d.owner.Pushing? ==> D.Contents(d) == [])
  }

  ghost predicate Inv(s: State)
  {
    DequeOk(s.worker, true, s.hi) && DequeOk(s.worker, false, s.lo) && s.dropped == []
  }

  lemma ThiefKeepsDeque(w: Worker, high: bool, d: D.State, step: D.Action)
    requires DequeOk(w, high, d) && D.ThiefAction(step) && D.Enabled(d, step)
    ensures DequeOk(w, high, D.Apply(d, step))
  {
    D.ThiefStepOnlyTakes(d, step);
  }

  /** A pop that ends without a task leaves the deque empty. */
  lemma PopEndsEmpty(d: D.State, step: D.Action)
    requires D.Shaped(d) && D.Enabled(d, step) && PopAction(step)
    ensures var d' := D.Apply(d, step);
      && D.Shaped(d') && |d'.buffer| == |d.buffer| && !d'.owner.Pushing? && !d'.owner.Writing?
      && (d'.owner.Idle? && d'.popped == d.popped ==> D.Contents(d') == [])
  {
    D.StepRefinesDeque(d, step);
    if D.OwnerGivesUp(d, step) {
      D.EmptyPopMeansEmpty(d, step);
    }
  }

  /** A batch for an empty deque is accepted, and then goes in. */
  lemma BatchGoesIn(d: D.State, step: D.Action)
    requires D.Shaped(d) && D.Enabled(d, step) && PushAction(step) && |d.buffer| >= BATCH_SIZE
    requires d.owner.Pushing? ==> D.Contents(d) == [] && |d.owner.items| <= BATCH_SIZE
    ensures var d' := D.Apply(d, step);
      && D.Shaped(d') && |d'.buffer| == |d.buffer|
      && (d'.owner.Idle? <==> step.Publish?) && (!d'.owner.Idle? ==> d'.owner.Writing?)
  {
    D.StepRefinesDeque(d, step);
    if step.CheckRoom? {
      D.PushRefusedIffFull(d);
    }
  }

  /** What an access of the owner leaves of a deque in each phase of the worker. */
  lemma PopKeepsDeque(w: Worker, high: bool, d: D.State, step: D.Action)
    requires DequeOk(w, high, d) && Pops(w, high) && PopAction(step) && D.Enabled(d, step)
    ensures var d' := D.Apply(d, step);
      DequeOk(if d'.owner.Idle? then AfterOwn(w, d'.popped != d.popped, step.Publish?) else w, high, d')
  {
    PopEndsEmpty(d, step);
  }

  lemma PushKeepsDeque(w: Worker, high: bool, d: D.State, step: D.Action)
    requires DequeOk(w, high, d) && Pushes(w, high) && PushAction(step) && D.Enabled(d, step)
    ensures var d' := D.Apply(d, step);
      && (d'.owner.Idle? ==> !step.CheckRoom?)
      && DequeOk(if d'.owner.Idle? then AfterOwn(w, d'.popped != d.popped, step.Publish?) else w, high, d')
  {
    BatchGoesIn(d, step);
  }

  lemma BusyKeepsDeque(high: bool, d: D.State, step: D.Action)
    requires DequeOk(Busy, high, d) && (step.BeginPush? || PushAction(step)) && D.Enabled(d, step)
    ensures DequeOk(Busy, high, D.Apply(d, step))
  {
    D.StepRefinesDeque(d, step);
  }

  lemma OwnStepKeepsDeque(s: State, high: bool, step: D.Action)
    requires Inv(s) && Enabled(s, Own(high, step))
    ensures var s' := Apply(s, Own(high, step));
      DequeOk(s'.worker, high, Deque(s', high)) && s'.dropped == []
  {
    var d := Deque(s, high);
    if Pops(s.worker, high) {
      PopKeepsDeque(s.worker, high, d, step);
    } else if Pushes(s.worker, high) {
      PushKeepsDeque(s.worker, high, d, step);
    } else {
      BusyKeepsDeque(high, d, step);
    }
  }

  /** The other deque is as it was, and what was known of it is still known. */
  lemma OwnStepKeepsOther(s: State, high: bool, step: D.Action)
    requires Inv(s) && Enabled(s, Own(high, step))
    ensures var s' := Apply(s, Own(high, step));
      Deque(s', !high) == Deque(s, !high) && DequeOk(s'.worker, !high, Deque(s', !high))
  {
  }

  lemma DrainedKeepsInv(s: State, items: seq<D.Task>)
    requires Inv(s) && Enabled(s, Drained(items))
    ensures Inv(Apply(s, Drained(items)))
  {
    D.StepRefinesDeque(if s.worker.DrainingHi? then s.hi else s.lo, D.BeginPush(items));
  }

  lemma StepKeepsInv(s: State, a: Action)
    requires Inv(s) && Enabled(s, a)
    ensures Inv(Apply(s, a))
  {
    match a
    case Thief(high, step) => ThiefKeepsDeque(s.worker, high, Deque(s, high), step);
    case Own(high, step) =>
      OwnStepKeepsDeque(s, high, step);
      OwnStepKeepsOther(s, high, step);
    case Drained(items) => DrainedKeepsInv(s, items);
    case _ =>
  }

  lemma ReachableHoldsInv(s: State)
    requires Runs.Reachable(Init, Next, s)
    ensures Inv(s)
  {
    forall r: State, a, r' | Inv(r) && Next(r, a, r')
      ensures Inv(r')
    {
      StepKeepsInv(r, a);
    }
    Runs.ReachableKeepsInvariant(Init, Next, Inv, s);
  }

  // ---------------------------------------------------------------- every drained task goes in, once

  /** The drained batch that is on its way into the deque. */
  function Underway(w: Worker, high: bool, d: D.State): seq<D.Task>
  {
    if Pushes(w, high) && (d.owner.Pushing? || d.owner.Writing?) then d.owner.items else []
  }

  /** What went into the deque, and is going in, is what was meant for it. */
  ghost predicate AllGoesIn(w: Worker, high: bool, d: D.State, m: Meant)
  {
    multiset(d.pushed) + multiset(Underway(w, high, d)) == multiset(m.drained) + multiset(m.own)
  }

  ghost predicate LogsOk(s: State)
  {
    AllGoesIn(s.worker, true, s.hi, s.forHi) && AllGoesIn(s.worker, false, s.lo, s.forLo)
  }

  ghost predicate InvWithLogs(s: State)
  {
    Inv(s) && LogsOk(s)
  }

  /** Thieves and pops push nothing. */
  lemma PushedStays(d: D.State, step: D.Action)
    requires D.Enabled(d, step) && !step.Publish?
    ensures D.Apply(d, step).pushed == d.pushed
    ensures D.ThiefAction(step) ==> D.Apply(d, step).owner == d.owner
  {
  }

  lemma PushKeepsLog(w: Worker, high: bool, d: D.State, m: Meant, step: D.Action)
    requires DequeOk(w, high, d) && AllGoesIn(w, high, d, m)
    requires Pushes(w, high) && PushAction(step) && D.Enabled(d, step)
    ensures var d' := D.Apply(d, step);
      AllGoesIn(if d'.owner.Idle? then AfterOwn(w, d'.popped != d.popped, step.Publish?) else w, high, d', m)
  {
    BatchGoesIn(d, step);
    if step.Publish? {
      assert multiset(d.pushed + d.owner.items) == multiset(d.pushed) + multiset(d.owner.items);
    }
  }

  lemma PopKeepsLog(w: Worker, high: bool, d: D.State, m: Meant, step: D.Action)
    requires AllGoesIn(w, high, d, m) && Pops(w, high) && PopAction(step) && D.Enabled(d, step)
    ensures var d' := D.Apply(d, step);
      AllGoesIn(if d'.owner.Idle? then AfterOwn(w, d'.popped != d.popped, step.Publish?) else w, high, d', m)
  {
    PushedStays(d, step);
    var d' := D.Apply(d, step);
    var w' := if d'.owner.Idle? then AfterOwn(w, d'.popped != d.popped, step.Publish?) else w;
    assert Underway(w, high, d) == [] && Underway(w', high, d') == [];
  }

  lemma BusyKeepsLog(high: bool, d: D.State, m: Meant, step: D.Action)
    requires AllGoesIn(Busy, high, d, m) && (step.BeginPush? || PushAction(step)) && D.Enabled(d, step)
    ensures var d' := D.Apply(d, step);
      AllGoesIn(Busy, high, d', if step.Publish? then m.(own := m.own + d.owner.items) else m)
  {
    var d' := D.Apply(d, step);
    assert Underway(Busy, high, d) == [] && Underway(Busy, high, d') == [];
    assert multiset(d.pushed) == multiset(m.drained) + multiset(m.own);
    if step.Publish? {
      var items := multiset(d.owner.items);
      assert multiset(d.pushed + d.owner.items) == multiset(d.pushed) + items;
      assert multiset(m.own + d.owner.items) == multiset(m.own) + items;
      assert multiset(d'.pushed) == multiset(m.drained) + (multiset(m.own) + items);
    } else {
      PushedStays(d, step);
    }
  }

  lemma OwnStepKeepsLogs(s: State, high: bool, step: D.Action)
    requires InvWithLogs(s) && Enabled(s, Own(high, step))
    ensures var s' := Apply(s, Own(high, step));
      AllGoesIn(s'.worker, high, Deque(s', high), For(s', high))
  {
    var d, m := Deque(s, high), For(s, high);
    assert DequeOk(s.worker, high, d) && AllGoesIn(s.worker, high, d, m);
    if Pops(s.worker, high) {
      PopKeepsLog(s.worker, high, d, m, step);
    } else if Pushes(s.worker, high) {
      PushKeepsLog(s.worker, high, d, m, step);
    } else {
      BusyKeepsLog(high, d, m, step);
    }
  }

  lemma OwnStepKeepsOtherLog(s: State, high: bool, step: D.Action)
    requires InvWithLogs(s) && Enabled(s, Own(high, step))
    ensures var s' := Apply(s, Own(high, step));
      AllGoesIn(s'.worker, !high, Deque(s', !high), For(s', !high))
  {
    OwnStepKeepsOther(s, high, step);
    assert DequeOk(s.worker, !high, Deque(s, !high));
  }

  lemma ThiefKeepsLogs(s: State, high: bool, step: D.Action)
    requires InvWithLogs(s) && Enabled(s, Thief(high, step))
    ensures LogsOk(Apply(s, Thief(high, step)))
  {
    var d := Deque(s, high);
    PushedStays(d, step);
    assert Underway(s.worker, high, D.Apply(d, step)) == Underway(s.worker, high, d);
    if high {
      assert AllGoesIn(s.worker, true, s.hi, s.forHi);
    } else {
      assert AllGoesIn(s.worker, false, s.lo, s.forLo);
    }
  }

  /** A batch is on its way as soon as it is drained. */
  lemma DrainedGoesUnder(w: Worker, w': Worker, high: bool, d: D.State, m: Meant, items: seq<D.Task>)
    requires AllGoesIn(w, high, d, m) && !Pushes(w, high) && d.owner.Idle?
    requires Pushes(w', high) <==> items != []
    ensures var d' := if items == [] then d else D.Apply(d, D.BeginPush(items));
      AllGoesIn(w', high, d', m.(drained := m.drained + items))
  {
    assert multiset(d.pushed) == multiset(m.drained) + multiset(m.own);
    assert multiset(m.drained + items) == multiset(m.drained) + multiset(items);
    assert multiset(d.pushed) + multiset(items) == multiset(m.drained + items) + multiset(m.own);
  }

  lemma DrainedKeepsLogs(s: State, items: seq<D.Task>)
    requires InvWithLogs(s) && Enabled(s, Drained(items))
    ensures LogsOk(Apply(s, Drained(items)))
  {
    var s', high := Apply(s, Drained(items)), s.worker.DrainingHi?;
    DrainedGoesUnder(s.worker, s'.worker, high, Deque(s, high), For(s, high), items);
    assert Underway(s.worker, !high, Deque(s, !high)) == Underway(s'.worker, !high, Deque(s', !high)) == [];
    if high {
      assert AllGoesIn(s.worker, false, s.lo, s.forLo);
    } else {
      assert AllGoesIn(s.worker, true, s.hi, s.forHi);
    }
  }

  lemma OwnStepKeepsBothLogs(s: State, high: bool, step: D.Action)
    requires InvWithLogs(s) && Enabled(s, Own(high, step))
    ensures LogsOk(Apply(s, Own(high, step)))
  {
    OwnStepKeepsLogs(s, high, step);
    OwnStepKeepsOtherLog(s, high, step);
    if high {
      assert LogsOk(Apply(s, Own(true, step)));
    } else {
      assert LogsOk(Apply(s, Own(false, step)));
    }
  }

  lemma TurnKeepsLogs(s: State, a: Action)
    requires InvWithLogs(s) && Enabled(s, a) && (a.Search? || a.StealEnds? || a.Wake?)
    ensures LogsOk(Apply(s, a))
  {
    assert Underway(s.worker, true, s.hi) == [] && Underway(s.worker, false, s.lo) == [];
    var s' := Apply(s, a);
    assert Underway(s'.worker, true, s.hi) == [] && Underway(s'.worker, false, s.lo) == [];
  }

  lemma StepKeepsLogs(s: State, a: Action)
    requires InvWithLogs(s) && Enabled(s, a)
    ensures InvWithLogs(Apply(s, a))
  {
    StepKeepsInv(s, a);
    match a
    case Thief(high, step) => ThiefKeepsLogs(s, high, step);
    case Own(high, step) => OwnStepKeepsBothLogs(s, high, step);
    case Drained(items) => DrainedKeepsLogs(s, items);
    case _ => TurnKeepsLogs(s, a);
  }

  lemma ReachableHoldsLogs(s: State)
    requires Runs.Reachable(Init, Next, s)
    ensures InvWithLogs(s)
  {
    forall r: State, a, r' | InvWithLogs(r) && Next(r, a, r')
      ensures InvWithLogs(r')
    {
      StepKeepsLogs(r, a);
    }
    Runs.ReachableKeepsInvariant(Init, Next, InvWithLogs, s);
  }

  /** The inboxes the worker must have drained to be where it is. */
  predicate HasLooked(s: State)
  {
    var w := s.worker;
    && (w.PushingHi? || w.TakingBackHi? || w.DrainingLo? || w.PushingLo? || w.TakingBackLo? || w.Asleep? ==> true in s.looked)
    && (w.PushingLo? || w.TakingBackLo? || w.Asleep? ==> false in s.looked)
  }

  lemma ReachableHasLooked(s: State)
    requires Runs.Reachable(Init, Next, s)
    ensures HasLooked(s)
  {
    forall r: State, a, r' | HasLooked(r) && Next(r, a, r')
      ensures HasLooked(r')
    {
    }
    Runs.ReachableKeepsInvariant(Init, Next, HasLooked, s);
  }

  /** A worker never goes to sleep on tasks of its own, nor without having drained both inboxes: both its deques
      are empty then. */
  lemma AsleepMeansEmpty(s: State, high: bool)
    requires Runs.Reachable(Init, Next, s) && s.worker.Asleep?
    ensures D.Contents(Deque(s, high)) == [] && high in s.looked
  {
    ReachableHoldsInv(s);
    ReachableHasLooked(s);
  }

  /** Every task drained from an inbox is in the batch being pushed or has been pushed to the deque of that
      priority, as often as it was drained, and nothing else has but what running tasks pushed; when the
      worker is not pushing, all of it is in. */
  lemma DrainedTasksGoIn(s: State, high: bool, x: D.Task)
    requires Runs.Reachable(Init, Next, s)
    ensures var d, m := Deque(s, high), For(s, high);
      && multiset(d.pushed)[x] + multiset(Underway(s.worker, high, d))[x] == multiset(m.drained)[x] + multiset(m.own)[x]
      && (!Pushes(s.worker, high) ==> multiset(d.pushed)[x] == multiset(m.drained)[x] + multiset(m.own)[x])
  {
    ReachableHoldsLogs(s);
    var d, m := Deque(s, high), For(s, high);
    assert AllGoesIn(s.worker, high, d, m);
    assert (multiset(d.pushed) + multiset(Underway(s.worker, high, d)))[x] == (multiset(m.drained) + multiset(m.own))[x];
  }

  /** What a drain hands over is logged, and only that. */
  lemma DrainIsLogged(s: State, a: Action, high: bool)
    requires Enabled(s, a)
    ensures For(Apply(s, a), high).drained == For(s, high).drained +
              if a.Drained? && s.worker.DrainingHi? == high then a.items else []
  {
  }

  /** Whenever the worker has drained an inbox, its deque of that priority is empty, however far thieves
      and the push have got: the room check passes, and no batch is ever dropped. */
  lemma DrainNeverDrops(s: State, high: bool)
    requires Runs.Reachable(Init, Next, s)
    ensures s.dropped == []
    ensures (if high then s.worker.DrainingHi? else s.worker.DrainingLo?) ==> D.Contents(Deque(s, high)) == []
    ensures Pushes(s.worker, high) && Deque(s, high).owner.Pushing? ==>
              D.Apply(Deque(s, high), D.CheckRoom).owner.Writing?
  {
    ReachableHoldsInv(s);
    if Pushes(s.worker, high) && Deque(s, high).owner.Pushing? {
      BatchGoesIn(Deque(s, high), D.CheckRoom);
    }
  }
}
