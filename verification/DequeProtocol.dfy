/** The Chase-Lev deque, one action per load, store or compare-and-swap.
    One owner pushes and pops at the bottom; any number of thieves take from the top. */
module DequeProtocol {
  import opened Sequences
  import Runs

  /** A task is known by its address. */
  type Task = nat

  datatype Owner =
    | Idle
    | Pushing(items: seq<Task>, b: nat)             // bottom loaded, top not yet
    | Writing(items: seq<Task>, b: nat, i: nat)     // room was found, i items are in the ring
    | PopStarted(b: nat)                            // bottom loaded, top not yet
    | Lowering(b: nat)                              // about to store b, one below the loaded bottom
    | Reloading(b: nat)                             // bottom is lowered, top to be loaded again
    | Reading(b: nat, t: nat)                       // t <= b, the slot of b to be read
    | Racing(b: nat, item: Task)                    // last item, about to compare-and-swap top
    | Restoring(b: nat, won: bool, item: Task)      // race decided, bottom to be put back
    | Resetting(b: nat, t: nat)                     // found empty, bottom to be set to t

  datatype Thief =
    | Resting
    | TopLoaded(t: nat)
    | Looking(t: nat)                               // saw t below bottom, slot to be read
    | Claiming(t: nat, item: Task)                  // about to compare-and-swap top

  /** Thief i took a task. */
  datatype Theft = Theft(i: nat, task: Task)

  /** `log` lists, by absolute index, the tasks pushed and not taken back from the bottom;
      `pushed`, `popped` and `thefts` record what went in and what came out on each side. */
  datatype State = State(
    buffer: seq<Task>, top: nat, bottom: nat, owner: Owner, thieves: seq<Thief>,
    log: seq<Task>, pushed: seq<Task>, popped: seq<Task>, thefts: seq<Theft>)

  datatype Action =
    | BeginPush(items: seq<Task>) | CheckRoom | WriteSlot | Publish
    | BeginPop | CheckEmpty | LowerBottom | ReloadTop | ReadSlot | RaceForLast | RestoreBottom | ResetBottom
    | LoadTop(i: nat) | LoadBottom(i: nat) | LookAtSlot(i: nat) | Claim(i: nat)

  predicate ThiefAction(a: Action)
  {
    a.LoadTop? || a.LoadBottom? || a.LookAtSlot? || a.Claim?
  }

  predicate Enabled(s: State, a: Action)
  {
    match a
    case BeginPush(items) => s.owner.Idle?
    case CheckRoom => s.owner.Pushing?
    case WriteSlot => s.owner.Writing? && s.owner.i < |s.owner.items| && |s.buffer| > 0
    case Publish => s.owner.Writing? && s.owner.i == |s.owner.items|
    case BeginPop => s.owner.Idle?
    case CheckEmpty => s.owner.PopStarted?
    case LowerBottom => s.owner.Lowering?
    case ReloadTop => s.owner.Reloading?
    case ReadSlot => s.owner.Reading? && |s.buffer| > 0
    case RaceForLast => s.owner.Racing?
    case RestoreBottom => s.owner.Restoring?
    case ResetBottom => s.owner.Resetting?
    case LoadTop(i) => i < |s.thieves| && s.thieves[i].Resting?
    case LoadBottom(i) => i < |s.thieves| && s.thieves[i].TopLoaded?
    case LookAtSlot(i) => i < |s.thieves| && s.thieves[i].Looking? && |s.buffer| > 0
    case Claim(i) => i < |s.thieves| && s.thieves[i].Claiming?
  }

  function Apply(s: State, a: Action): State
    requires Enabled(s, a)
  {
    match a
    case BeginPush(items) => s.(owner := Pushing(items, s.bottom))
    case CheckRoom =>
      if s.owner.b + |s.owner.items| - s.top > |s.buffer| then s.(owner := Idle)
      else s.(owner := Writing(s.owner.items, s.owner.b, 0))
    case WriteSlot =>
      var o := s.owner;
      s.(buffer := s.buffer[(o.b + o.i) % |s.buffer| := o.items[o.i]], owner := o.(i := o.i + 1))
    case Publish =>
      var o := s.owner;
      s.(bottom := o.b + |o.items|, owner := Idle, log := s.log + o.items, pushed := s.pushed + o.items)
    case BeginPop => s.(owner := PopStarted(s.bottom))
    case CheckEmpty =>
      if s.top >= s.owner.b then s.(owner := Idle) else s.(owner := Lowering(s.owner.b - 1))
    case LowerBottom => s.(bottom := s.owner.b, owner := Reloading(s.owner.b))
    case ReloadTop =>
      var b := s.owner.b;
      if s.top < b then s.(owner := Reading(b, s.top), log := if b <= |s.log| then s.log[..b] else s.log)
      else if s.top == b then s.(owner := Reading(b, s.top))
      else s.(owner := Resetting(b, s.top))
    case ReadSlot =>
      var b := s.owner.b;
      var item := s.buffer[b % |s.buffer|];
      if s.owner.t == b then s.(owner := Racing(b, item))
      else s.(owner := Idle, popped := s.popped + [item])
    case RaceForLast =>
      if s.top == s.owner.b then s.(top := s.top + 1, owner := Restoring(s.owner.b, true, s.owner.item))
      else s.(owner := Restoring(s.owner.b, false, s.owner.item))
    case RestoreBottom =>
      s.(bottom := s.owner.b + 1, owner := Idle,
         popped := if s.owner.won then s.popped + [s.owner.item] else s.popped)
    case ResetBottom => s.(bottom := s.owner.t, owner := Idle)
    case LoadTop(i) => s.(thieves := s.thieves[i := TopLoaded(s.top)])
    case LoadBottom(i) =>
      s.(thieves := s.thieves[i := if s.thieves[i].t < s.bottom then Looking(s.thieves[i].t) else Resting])
    case LookAtSlot(i) =>
      var t := s.thieves[i].t;
      s.(thieves := s.thieves[i := Claiming(t, s.buffer[t % |s.buffer|])])
    case Claim(i) =>
      var th := s.thieves[i];
      if s.top == th.t
      then s.(top := s.top + 1, thieves := s.thieves[i := Resting], thefts := s.thefts + [Theft(i, th.item)])
      else s.(thieves := s.thieves[i := Resting])
  }

  ghost predicate Next(s: State, a: Action, s': State)
  {
    Enabled(s, a) && s' == Apply(s, a)
  }

  ghost predicate Init(s: State)
  {
    && |s.buffer| > 0 && s.top == 0 && s.bottom == 0 && s.owner == Idle
    && (forall i :: 0 <= i < |s.thieves| ==> s.thieves[i] == Resting)
    && s.log == [] && s.pushed == [] && s.popped == [] && s.thefts == []
  }

  // ---------------------------------------------------------------- the abstract deque

  /** What a client sees: the tasks between top and the end of the log, oldest first. */
  function Contents(s: State): seq<Task>
  {
    if s.top <= |s.log| then s.log[s.top..] else []
  }

  /** The task the owner has secured but not yet returned. */
  function InFlight(s: State): seq<Task>
  {
    if s.owner.Reading? && s.owner.t < s.owner.b && |s.buffer| > 0 then [s.buffer[s.owner.b % |s.buffer|]]
    else if s.owner.Restoring? && s.owner.won then [s.owner.item]
    else []
  }

  // ---------------------------------------------------------------- the invariant

  /** Every index between top and the end of the log still has its task in the ring. */
  ghost predicate RingHolds(buffer: seq<Task>, top: nat, log: seq<Task>)
  {
    && |buffer| > 0
    && top <= |log| <= top + |buffer|
    && forall k :: top <= k < |log| ==> SlotHas(buffer, k, log[k])
  }

  /** The slot of absolute index k holds item. */
  ghost predicate SlotHas(buffer: seq<Task>, k: nat, item: Task)
  {
    |buffer| > 0 && buffer[k % |buffer|] == item
  }

  ghost predicate OwnerOk(owner: Owner, buffer: seq<Task>, top: nat, bottom: nat, log: seq<Task>)
  {
    match owner
    case Idle => bottom == |log|
    case Pushing(_, b) => b == bottom == |log|
    case Writing(items, b, i) =>
      && b == bottom == |log| && i <= |items| && b + |items| <= top + |buffer|
      && forall j :: 0 <= j < i ==> SlotHas(buffer, b + j, items[j])
    case PopStarted(b) => b == bottom == |log|
    case Lowering(b) => b + 1 == bottom == |log|
    case Reloading(b) => b == bottom && |log| == b + 1
    case Reading(b, t) =>
      b == bottom && if t < b then |log| == b && b < top + |buffer| else t == b <= top && |log| == b + 1
    case Racing(b, item) => b == bottom && |log| == b + 1 && b <= top && (top == b ==> item == log[b])
    case Restoring(b, won, item) => b == bottom && top == |log| == b + 1
    case Resetting(b, t) => b == bottom && t == top == |log| == b + 1
  }

  /** A thief whose view of top is still current is looking at a task that is really there. */
  ghost predicate ThiefOk(th: Thief, top: nat, log: seq<Task>)
  {
    match th
    case Resting => true
    case TopLoaded(t) => t <= top
    case Looking(t) => t <= top && (t == top ==> t < |log|)
    case Claiming(t, item) => t <= top && (t == top ==> t < |log| && item == log[t])
  }

  ghost predicate ThievesOk(thieves: seq<Thief>, top: nat, log: seq<Task>)
  {
    forall i :: 0 <= i < |thieves| ==> ThiefOk(thieves[i], top, log)
  }

  /** The tasks taken from the top, in order. */
  function Stolen(thefts: seq<Theft>): seq<Task>
  {
    if thefts == [] then [] else Stolen(thefts[..|thefts| - 1]) + [thefts[|thefts| - 1].task]
  }

  /** Those that thief i took. */
  function TakenBy(thefts: seq<Theft>, i: nat): seq<Task>
  {
    if thefts == [] then []
    else
      var last := thefts[|thefts| - 1];
      TakenBy(thefts[..|thefts| - 1], i) + if last.i == i then [last.task] else []
  }

  lemma OneMoreTheft(thefts: seq<Theft>, t: Theft, i: nat)
    ensures Stolen(thefts + [t]) == Stolen(thefts) + [t.task]
    ensures TakenBy(thefts + [t], i) == TakenBy(thefts, i) + if t.i == i then [t.task] else []
  {
    assert (thefts + [t])[..|thefts|] == thefts;
  }

  ghost predicate Conserved(s: State)
  {
    multiset(s.pushed) == multiset(s.popped) + multiset(Stolen(s.thefts)) + multiset(Contents(s)) + multiset(InFlight(s))
  }

  ghost predicate Shaped(s: State)
  {
    && RingHolds(s.buffer, s.top, s.log)
    && OwnerOk(s.owner, s.buffer, s.top, s.bottom, s.log)
    && ThievesOk(s.thieves, s.top, s.log)
  }

  ghost predicate Inv(s: State)
  {
    Shaped(s) && Conserved(s)
  }

  // ---------------------------------------------------------------- every action keeps it

  lemma WholeLap(d: int, n: nat)
    ensures d >= 1 ==> d * n >= n
  {
  }

  lemma RemainderIs(k: nat, q: nat, r: nat, n: nat)
    requires r < n && k == q * n + r
    ensures k % n == r
  {
    assert k == (k / n) * n + k % n;
    WholeLap(q - k / n, n);
    WholeLap(k / n - q, n);
    assert (q - k / n) * n == q * n - (k / n) * n;
    assert (k / n - q) * n == (k / n) * n - q * n;
  }

  /** Two absolute indices less than one lap apart never share a slot. */
  lemma SlotsDiffer(j: nat, k: nat, n: nat)
    requires 0 < n && j < k < j + n
    ensures j % n != k % n
  {
    var q, r := j / n, j % n + (k - j);
    if r < n {
      RemainderIs(k, q, r, n);
    } else {
      assert (q + 1) * n == q * n + n;
      RemainderIs(k, q + 1, r - n, n);
    }
  }

  /** Writing the slot of one index leaves every index less than a lap below it alone. */
  lemma WriteSpares(buffer: seq<Task>, k: nat, item: Task, j: nat, was: Task)
    requires SlotHas(buffer, j, was) && j < k < j + |buffer|
    ensures SlotHas(buffer[k % |buffer| := item], j, was)
  {
    SlotsDiffer(j, k, |buffer|);
  }

  lemma WriteSlotKeepsShape(s: State)
    requires Shaped(s) && Enabled(s, WriteSlot)
    ensures Shaped(Apply(s, WriteSlot))
  {
    var s' := Apply(s, WriteSlot);
    var o := s.owner;
    forall k | s.top <= k < |s.log|
      ensures SlotHas(s'.buffer, k, s.log[k])
    {
      WriteSpares(s.buffer, o.b + o.i, o.items[o.i], k, s.log[k]);
    }
    forall j | 0 <= j < o.i
      ensures SlotHas(s'.buffer, o.b + j, o.items[j])
    {
      WriteSpares(s.buffer, o.b + o.i, o.items[o.i], o.b + j, o.items[j]);
    }
  }

  /** Publishing makes the whole batch visible at once, behind what was there. */
  lemma PublishAppends(s: State)
    requires Shaped(s) && Enabled(s, Publish)
    ensures Shaped(Apply(s, Publish))
    ensures Contents(Apply(s, Publish)) == Contents(s) + s.owner.items
  {
    var s' := Apply(s, Publish);
    var o := s.owner;
    forall k | s.top <= k < |s'.log|
      ensures SlotHas(s'.buffer, k, s'.log[k])
    {
      if k >= |s.log| {
        assert SlotHas(s.buffer, o.b + (k - o.b), o.items[k - o.b]);
      }
    }
    assert ThievesOk(s'.thieves, s'.top, s'.log) by { LogMayGrow(s.thieves, s.top, s.log, o.items); }
  }

  lemma LogMayGrow(thieves: seq<Thief>, top: nat, log: seq<Task>, more: seq<Task>)
    requires ThievesOk(thieves, top, log)
    ensures ThievesOk(thieves, top, log + more)
  {
  }

  /** Reloading top takes the last task off the deque, unless it may be contested. */
  lemma ReloadTopTakesLast(s: State)
    requires Shaped(s) && Enabled(s, ReloadTop)
    ensures Shaped(Apply(s, ReloadTop))
    ensures Contents(s) == Contents(Apply(s, ReloadTop)) + InFlight(Apply(s, ReloadTop))
  {
    var s' := Apply(s, ReloadTop);
    var b := s.owner.b;
    if s.top < b {
      assert SlotHas(s.buffer, b, s.log[b]);
      assert s.log == s'.log + [s.log[b]];
      assert forall k :: s.top <= k < b ==> SlotHas(s.buffer, k, s.log[k]);
    }
  }

  lemma RaceForLastTakesLast(s: State)
    requires Shaped(s) && Enabled(s, RaceForLast)
    ensures Shaped(Apply(s, RaceForLast))
    ensures Contents(s) == Contents(Apply(s, RaceForLast)) + InFlight(Apply(s, RaceForLast))
  {
    var s' := Apply(s, RaceForLast);
    var b := s.owner.b;
    if s.top == b {
      assert Contents(s) == [s.owner.item] && Contents(s') == [];
    } else {
      assert s'.top == s.top == b + 1;
    }
  }

  lemma OwnerReturns(s: State, a: Action)
    requires Shaped(s) && Enabled(s, a) && (a.ReadSlot? || a.RestoreBottom?)
    ensures Shaped(Apply(s, a))
    ensures Contents(Apply(s, a)) == Contents(s)
    ensures Apply(s, a).popped + InFlight(Apply(s, a)) == s.popped + InFlight(s)
  {
    if a.ReadSlot? && s.owner.t == s.owner.b && s.top <= s.owner.b {
      assert SlotHas(s.buffer, s.owner.b, s.log[s.owner.b]);
    }
  }

  /** A claim that succeeds takes the oldest task, the one pushed at that very index. */
  lemma ClaimTakesFirst(s: State, i: nat)
    requires Shaped(s) && Enabled(s, Claim(i))
    ensures Shaped(Apply(s, Claim(i)))
    ensures InFlight(Apply(s, Claim(i))) == InFlight(s)
    ensures s.top == s.thieves[i].t ==> Contents(s) == [s.thieves[i].item] + Contents(Apply(s, Claim(i)))
    ensures s.top != s.thieves[i].t ==> Contents(s) == Contents(Apply(s, Claim(i)))
  {
    ClaimKeepsShape(s, i);
    var th := s.thieves[i];
    assert ThiefOk(th, s.top, s.log);
    if s.top == th.t {
      assert s.log[s.top..] == [th.item] + s.log[s.top + 1..];
    }
  }

  lemma ClaimKeepsShape(s: State, i: nat)
    requires Shaped(s) && Enabled(s, Claim(i))
    ensures Shaped(Apply(s, Claim(i)))
  {
    var s' := Apply(s, Claim(i));
    var th := s.thieves[i];
    assert ThiefOk(th, s.top, s.log);
    if s.top == th.t {
      assert OwnerOk(s'.owner, s'.buffer, s'.top, s'.bottom, s'.log);
      assert RingHolds(s'.buffer, s'.top, s'.log);
    }
  }

  lemma ThiefLooks(s: State, a: Action)
    requires Shaped(s) && Enabled(s, a) && ThiefAction(a) && !a.Claim?
    ensures Shaped(Apply(s, a))
  {
    assert ThiefOk(s.thieves[a.i], s.top, s.log);
    if a.LookAtSlot? && s.thieves[a.i].t == s.top {
      assert SlotHas(s.buffer, s.top, s.log[s.top]);
    }
  }

  lemma OtherOwnerSteps(s: State, a: Action)
    requires Shaped(s) && Enabled(s, a)
    requires a.BeginPush? || a.CheckRoom? || a.BeginPop? || a.CheckEmpty? || a.LowerBottom? || a.ResetBottom?
    ensures Shaped(Apply(s, a))
    ensures Contents(Apply(s, a)) == Contents(s)
    ensures InFlight(Apply(s, a)) == InFlight(s) == []
  {
  }

  // ---------------------------------------------------------------- refinement of a plain deque

  /** What an action does to the plain deque behind the protocol. */
  datatype Effect = Nothing | PushesAll(items: seq<Task>) | TakesLast(last: Task) | TakesFirst(first: Task)

  ghost predicate Performs(before: seq<Task>, e: Effect, after: seq<Task>)
  {
    match e
    case Nothing => after == before
    case PushesAll(items) => after == before + items
    case TakesLast(last) => before == after + [last]
    case TakesFirst(first) => before == [first] + after
  }

  function EffectOf(s: State, a: Action): Effect
    requires Enabled(s, a)
  {
    match a
    case Publish => PushesAll(s.owner.items)
    case ReloadTop => if s.top < s.owner.b && |s.buffer| > 0 then TakesLast(s.buffer[s.owner.b % |s.buffer|]) else Nothing
    case RaceForLast => if s.top == s.owner.b then TakesLast(s.owner.item) else Nothing
    case Claim(i) => if s.top == s.thieves[i].t then TakesFirst(s.thieves[i].item) else Nothing
    case _ => Nothing
  }

  /** Every action leaves the plain deque alone or performs exactly one of its operations: a whole
      push at the end, a pop from the end, or a steal from the front. */
  lemma StepRefinesDeque(s: State, a: Action)
    requires Shaped(s) && Enabled(s, a)
    ensures Shaped(Apply(s, a))
    ensures Performs(Contents(s), EffectOf(s, a), Contents(Apply(s, a)))
  {
    match a
    case WriteSlot => WriteSlotKeepsShape(s);
    case Publish => PublishAppends(s);
    case ReloadTop => ReloadTopTakesLast(s);
    case RaceForLast => RaceForLastTakesLast(s);
    case ReadSlot => OwnerReturns(s, a);
    case RestoreBottom => OwnerReturns(s, a);
    case Claim(i) => ClaimTakesFirst(s, i);
    case LoadTop(_) => ThiefLooks(s, a);
    case LoadBottom(_) => ThiefLooks(s, a);
    case LookAtSlot(_) => ThiefLooks(s, a);
    case _ => OtherOwnerSteps(s, a);
  }

  /** The owner's secured task is the one it returns, and thieves never disturb it. */
  lemma StepCarriesInFlight(s: State, a: Action)
    requires Shaped(s) && Enabled(s, a)
    ensures Apply(s, a).popped + InFlight(Apply(s, a))
         == s.popped + InFlight(s) + (if EffectOf(s, a).TakesLast? then [EffectOf(s, a).last] else [])
    ensures Stolen(Apply(s, a).thefts) == Stolen(s.thefts) + (if EffectOf(s, a).TakesFirst? then [EffectOf(s, a).first] else [])
    ensures Apply(s, a).pushed == s.pushed + (if EffectOf(s, a).PushesAll? then EffectOf(s, a).items else [])
  {
    match a
    case ReadSlot => OwnerReturns(s, a);
    case RestoreBottom => OwnerReturns(s, a);
    case Claim(i) =>
      ClaimTakesFirst(s, i);
      OneMoreTheft(s.thefts, Theft(i, s.thieves[i].item), i);
    case _ =>
  }

  lemma StepKeepsInv(s: State, a: Action)
    requires Inv(s) && Enabled(s, a)
    ensures Inv(Apply(s, a))
  {
    var s' := Apply(s, a);
    StepRefinesDeque(s, a);
    StepCarriesInFlight(s, a);
    OutsAdd(s);
    EffectConserves(EffectOf(s, a), s.pushed, s.popped + InFlight(s), Stolen(s.thefts), Contents(s), Contents(s'));
    BooksAgree(s');
  }

  lemma OutsAdd(s: State)
    requires Conserved(s)
    ensures multiset(s.pushed) == multiset(s.popped + InFlight(s)) + multiset(Stolen(s.thefts)) + multiset(Contents(s))
  {
    assert multiset(s.popped + InFlight(s)) == multiset(s.popped) + multiset(InFlight(s));
  }

  lemma BooksAgree(s: State)
    requires multiset(s.pushed) == multiset(s.popped + InFlight(s)) + multiset(Stolen(s.thefts)) + multiset(Contents(s))
    ensures Conserved(s)
  {
    assert multiset(s.popped + InFlight(s)) == multiset(s.popped) + multiset(InFlight(s));
  }

  /** The bookkeeping of one effect on what went in, came out at either end, and is left. */
  lemma EffectConserves(e: Effect, into: seq<Task>, last: seq<Task>, first: seq<Task>, left: seq<Task>, left': seq<Task>)
    requires multiset(into) == multiset(last) + multiset(first) + multiset(left) && Performs(left, e, left')
    ensures multiset(into + if e.PushesAll? then e.items else [])
         == multiset(last + if e.TakesLast? then [e.last] else [])
          + multiset(first + if e.TakesFirst? then [e.first] else []) + multiset(left')
  {
    match e
    case Nothing => assert into + [] == into && last + [] == last && first + [] == first;
    case PushesAll(items) => assert last + [] == last && first + [] == first;
    case TakesLast(x) => assert into + [] == into && first + [] == first;
    case TakesFirst(x) => assert into + [] == into && last + [] == last;
  }

  // ---------------------------------------------------------------- whole runs

  lemma RunsKeepInv(states: seq<State>, actions: seq<Action>)
    requires Runs.IsRun(Init, Next, states, actions)
    ensures forall i :: 0 <= i < |states| ==> Inv(states[i])
  {
    forall s: State, a, s' | Inv(s) && Next(s, a, s')
      ensures Inv(s')
    {
      StepKeepsInv(s, a);
    }
    Runs.InvariantOfRun(Init, Next, Inv, states, actions);
  }

  lemma ReachableHoldsInv(s: State)
    requires Runs.Reachable(Init, Next, s)
    ensures Inv(s)
  {
    forall r: State, a, r' | Inv(r) && Next(r, a, r')
      ensures Inv(r')
    {
      StepKeepsInv(r, a);
    }
    Runs.ReachableKeepsInvariant(Init, Next, Inv, s);
  }

  lemma {:induction false} NoRepeatsCounts(q: seq<Task>, x: Task)
    requires NoRepeats(q)
    ensures multiset(q)[x] <= 1
  {
    if q != [] {
      var n := |q| - 1;
      assert q == q[..n] + [q[n]];
      NoRepeatsCounts(q[..n], x);
      assert x == q[n] ==> x !in q[..n];
    }
  }

  /** However the owner and any number of thieves interleave, a task pushed once comes out at most
      once, on one side only, and what has not come out is still in the deque or on its way out. */
  lemma ExactlyOnce(states: seq<State>, actions: seq<Action>, i: nat, x: Task)
    requires Runs.IsRun(Init, Next, states, actions) && i < |states|
    requires NoRepeats(states[i].pushed)
    ensures var s := states[i];
      multiset(s.popped)[x] + multiset(Stolen(s.thefts))[x] + multiset(Contents(s))[x] + multiset(InFlight(s))[x]
        == if x in s.pushed then 1 else 0
  {
    var s := states[i];
    RunsKeepInv(states, actions);
    assert Inv(s);
    NoRepeatsCounts(s.pushed, x);
    assert multiset(s.pushed)[x] > 0 <==> x in s.pushed;
  }

  // ---------------------------------------------------------------- answers of none and full

  /** The owner's operation ends without a task, or without room. */
  predicate OwnerGivesUp(s: State, a: Action)
    requires Enabled(s, a)
  {
    || (a.CheckEmpty? && s.top >= s.owner.b)
    || (a.RestoreBottom? && !s.owner.won)
    || a.ResetBottom?
  }

  /** A pop that returns nothing found the deque empty, and leaves bottom as the pop first saw it. */
  lemma EmptyPopMeansEmpty(s: State, a: Action)
    requires Shaped(s) && Enabled(s, a) && OwnerGivesUp(s, a)
    ensures Contents(s) == Contents(Apply(s, a)) == []
    ensures Apply(s, a).owner == Idle && Apply(s, a).popped == s.popped
    ensures a.ResetBottom? ==> s.owner.t == s.owner.b + 1
    ensures Apply(s, a).bottom == Apply(s, a).top == |s.log|
  {
  }

  /** A push is refused exactly when the deque, at the moment top is loaded, has no room for it. */
  lemma PushRefusedIffFull(s: State)
    requires Shaped(s) && Enabled(s, CheckRoom)
    ensures Apply(s, CheckRoom).owner == Idle <==> |Contents(s)| + |s.owner.items| > |s.buffer|
  {
  }

  ghost predicate ThiefNext(s: State, a: Action, s': State)
  {
    Next(s, a, s') && ThiefAction(a)
  }

  ghost predicate ThiefRun(states: seq<State>, actions: seq<Action>)
  {
    |states| == |actions| + 1 && forall i :: 0 <= i < |actions| ==> ThiefNext(states[i], actions[i], states[i + 1])
  }

  /** Some number of thief steps lead from s to s'. */
  ghost predicate ThievesLead(s: State, s': State)
  {
    exists states, actions :: ThiefRun(states, actions) && states[0] == s && states[|actions|] == s'
  }

  lemma ThiefStepOnlyTakes(s: State, a: Action)
    requires Shaped(s) && Enabled(s, a) && ThiefAction(a)
    ensures var s' := Apply(s, a);
      && Shaped(s') && s'.owner == s.owner && s'.buffer == s.buffer && s'.bottom == s.bottom
      && s'.pushed == s.pushed && s'.popped == s.popped && |Contents(s')| <= |Contents(s)|
  {
    StepRefinesDeque(s, a);
  }

  /** Thieves only ever shorten the deque, from the front, and touch nothing of the owner's. */
  lemma {:induction false} ThievesOnlyTake(states: seq<State>, actions: seq<Action>)
    requires ThiefRun(states, actions) && Shaped(states[0])
    ensures var s, s' := states[0], states[|actions|];
      && Shaped(s') && s'.owner == s.owner && s'.buffer == s.buffer && s'.bottom == s.bottom
      && s'.pushed == s.pushed && s'.popped == s.popped && |Contents(s')| <= |Contents(s)|
    decreases |actions|
  {
    if actions != [] {
      var n := |actions| - 1;
      ThievesOnlyTake(states[..n + 1], actions[..n]);
      assert ThiefNext(states[n], actions[n], states[n + 1]);
      ThiefStepOnlyTakes(states[n], actions[n]);
    }
  }

  // ---------------------------------------------------------------- what a thief relies on

  /** The step of another thread than thief i. */
  ghost predicate OtherNext(i: nat, s: State, a: Action, s': State)
  {
    Next(s, a, s') && !(ThiefAction(a) && a.i == i)
  }

  ghost predicate OtherRun(i: nat, states: seq<State>, actions: seq<Action>)
  {
    |states| == |actions| + 1 && forall k :: 0 <= k < |actions| ==> OtherNext(i, states[k], actions[k], states[k + 1])
  }

  /** Some number of steps of the owner and the thieves other than i lead from s to s'. */
  ghost predicate OthersLead(i: nat, s: State, s': State)
  {
    exists states, actions :: OtherRun(i, states, actions) && states[0] == s && states[|actions|] == s'
  }

  /** Whatever the others do, a thief's own place and takings stay, and top never goes back. */
  lemma {:induction false} OthersNeverRewind(i: nat, states: seq<State>, actions: seq<Action>)
    requires OtherRun(i, states, actions) && i < |states[0].thieves|
    ensures var s, s' := states[0], states[|actions|];
      && i < |s'.thieves| == |s.thieves| && s'.thieves[i] == s.thieves[i] && |s'.buffer| == |s.buffer|
      && s.top <= s'.top && s.thefts <= s'.thefts && TakenBy(s'.thefts, i) == TakenBy(s.thefts, i)
    decreases |actions|
  {
    if actions != [] {
      var n := |actions| - 1;
      OthersNeverRewind(i, states[..n + 1], actions[..n]);
      assert OtherNext(i, states[n], actions[n], states[n + 1]);
      if actions[n].Claim? {
        OneMoreTheft(states[n].thefts, Theft(actions[n].i, states[n].thieves[actions[n].i].item), i);
      }
    }
  }

  /** The owner is popping the one task there is. */
  ghost predicate LastBeingPopped(s: State)
  {
    (s.owner.Reloading? || s.owner.Reading? || s.owner.Racing?) && s.owner.b == s.top && |Contents(s)| == 1
  }

  /** How often top was moved by the owner or a thief other than i. */
  ghost function MovedByOthers(s: State, i: nat): int
  {
    s.top - |TakenBy(s.thefts, i)|
  }

  /** Top moves by one with each theft and each last task won by the owner, and only then. */
  lemma TopMovesIff(s: State, a: Action, i: nat)
    requires Enabled(s, a)
    ensures var s' := Apply(s, a); var mine := a.Claim? && a.i == i;
      && s.top <= s'.top <= s.top + 1
      && (s'.top > s.top <==> (a.Claim? || a.RaceForLast?) && EffectOf(s, a) != Nothing)
      && TakenBy(s'.thefts, i) == TakenBy(s.thefts, i) + (if mine && s'.top > s.top then [s.thieves[i].item] else [])
      && MovedByOthers(s', i) == MovedByOthers(s, i) + if mine then 0 else s'.top - s.top
  {
    if a.Claim? { OneMoreTheft(s.thefts, Theft(a.i, s.thieves[a.i].item), i); }
  }

  /** A thief comes away with nothing: it saw the deque empty or the owner at its last task, or top has
      moved since it looked. */
  lemma StealFailsOnlyIf(s: State, a: Action)
    requires Shaped(s) && Enabled(s, a) && (a.LoadBottom? || a.Claim?)
    requires Apply(s, a).thieves[a.i].Resting? && Apply(s, a).thefts == s.thefts
    ensures a.LoadBottom? ==> Contents(s) == [] || LastBeingPopped(s)
    ensures a.Claim? ==> s.top > s.thieves[a.i].t
  {
  }

  /** The inbox drain relies on this: once a pop has returned nothing, whatever the thieves do before
      and during the owner's next push, a batch of no more than the capacity is accepted. */
  lemma BatchFitsAfterEmptyPop(s: State, a: Action, items: seq<Task>,
    states: seq<State>, actions: seq<Action>, states': seq<State>, actions': seq<Action>)
    requires Shaped(s) && Enabled(s, a) && OwnerGivesUp(s, a)
    requires ThiefRun(states, actions) && states[0] == Apply(s, a)
    requires ThiefRun(states', actions')
    requires Enabled(states[|actions|], BeginPush(items)) ==> states'[0] == Apply(states[|actions|], BeginPush(items))
    requires |items| <= |s.buffer|
    ensures Enabled(states[|actions|], BeginPush(items))
    ensures Enabled(states'[|actions'|], CheckRoom) && Apply(states'[|actions'|], CheckRoom).owner.Writing?
  {
    EmptyPopMeansEmpty(s, a);
    StepRefinesDeque(s, a);
    ThievesOnlyTake(states, actions);
    StepRefinesDeque(states[|actions|], BeginPush(items));
    ThievesOnlyTake(states', actions');
    PushRefusedIffFull(states'[|actions'|]);
  }
}
