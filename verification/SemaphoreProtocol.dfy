/** The lightweight semaphore: a counter that goes below zero while threads sleep on a kernel semaphore,
    waits for one or for many units, with timeouts, and signals that post to the kernel one by one. */
module SemaphoreProtocol {
  import Runs
  import opened Sums

  datatype Thread =
    | Idle
    | Seen(max: nat, seen: int)            // tryWait has a positive count, the exchange is next
    | Spinning(max: nat)                   // tryWait has failed, the wait goes on
    | SpinSeen(max: nat, seen: int)        // the same for an attempt while spinning
    | Sleeping                            // count decremented, waiting on the kernel semaphore
    | Adjusting                           // timed out, count still decremented
    | AdjustSeen(seen: int)                // timed out and count reloaded
    | Posting(left: nat)                  // a signaller with wake-ups not yet posted

  /** `supplied` and `acquired` record the units put in and taken out so far. */
  datatype State = State(count: int, tokens: nat, threads: seq<Thread>, supplied: nat, acquired: nat)

  datatype Action =
    | Load(i: nat, max: nat) | Exchange(i: nat) | ExchangeFails(i: nat)        // tryWait, tryWaitMany
    | BeginSpin(i: nat, max: nat) | SpinLoad(i: nat) | SpinExchange(i: nat) | FetchSub(i: nat)
    | KernelWait(i: nat) | TimeOut(i: nat) | AdjustLoad(i: nat) | AdjustTryWait(i: nat) | AdjustExchange(i: nat)
    | Signal(i: nat, n: nat) | Post(i: nat)

  predicate Enabled(s: State, a: Action)
  {
    a.i < |s.threads| &&
    var t := s.threads[a.i];
    match a
    case Load(_, _) => t.Idle?
    case Exchange(_) => t.Seen?
    case ExchangeFails(_) => t.Seen?
    case BeginSpin(_, max) => t.Idle? && max > 0
    case SpinLoad(_) => t.Spinning?
    case SpinExchange(_) => t.SpinSeen?
    case FetchSub(_) => t.Spinning?
    case KernelWait(_) => t.Sleeping? && s.tokens > 0
    case TimeOut(_) => t.Sleeping?
    case AdjustLoad(_) => t.Adjusting?
    case AdjustTryWait(_) => t.AdjustSeen? && t.seen >= 0
    case AdjustExchange(_) => t.AdjustSeen? && t.seen < 0
    case Signal(_, _) => t.Idle?
    case Post(_) => t.Posting?
  }

  function Max(a: int, b: int): int { if a < b then b else a }

  function Min(a: int, b: int): int { if a < b then a else b }

  /** tryWait with the count it has just loaded, or been given by a failed exchange. */
  function TryAgain(s: State, i: nat, max: nat): State
    requires i < |s.threads|
  {
    s.(threads := s.threads[i := if s.count > 0 then Seen(max, s.count) else Idle])
  }

  /** The exchange of a count of seen for what max leaves of it works. */
  function Acquire(s: State, i: nat, seen: int, max: nat): State
    requires i < |s.threads|
  {
    var left := if seen > max then seen - max else 0;
    s.(count := left, acquired := s.acquired + Max(0, seen - left), threads := s.threads[i := Idle])
  }

  function Apply(s: State, a: Action): State
    requires Enabled(s, a)
  {
    var i := a.i;
    match a
    case Load(_, max) => TryAgain(s, i, max)
    case Exchange(_) =>
      var t := s.threads[i];
      if s.count == t.seen then Acquire(s, i, t.seen, t.max) else TryAgain(s, i, t.max)
    case ExchangeFails(_) => TryAgain(s, i, s.threads[i].max)
    case BeginSpin(_, max) => s.(threads := s.threads[i := Spinning(max)])
    case SpinLoad(_) =>
      var max := s.threads[i].max;
      s.(threads := s.threads[i := if s.count > 0 then SpinSeen(max, s.count) else Spinning(max)])
    case SpinExchange(_) =>
      var t := s.threads[i];
      if s.count == t.seen then Acquire(s, i, t.seen, t.max) else s.(threads := s.threads[i := Spinning(t.max)])
    case FetchSub(_) =>
      if s.count > 0 then
        s.(count := s.count - 1, acquired := s.acquired + 1, threads := s.threads[i := Idle])
      else
        s.(count := s.count - 1, threads := s.threads[i := Sleeping])
    case KernelWait(_) => s.(tokens := s.tokens - 1, acquired := s.acquired + 1, threads := s.threads[i := Idle])
    case TimeOut(_) => s.(threads := s.threads[i := Adjusting])
    case AdjustLoad(_) => s.(threads := s.threads[i := AdjustSeen(s.count)])
    case AdjustTryWait(_) =>
      if s.tokens > 0 then
        s.(tokens := s.tokens - 1, acquired := s.acquired + 1, threads := s.threads[i := Idle])
      else
        s.(threads := s.threads[i := Adjusting])
    case AdjustExchange(_) =>
      if s.count == s.threads[i].seen then
        s.(count := s.count + 1, threads := s.threads[i := Idle])
      else
        s.(threads := s.threads[i := Adjusting])
    case Signal(_, n) =>
      var toRelease := Min(-s.count, n);
      s.(count := s.count + n, supplied := s.supplied + n,
         threads := s.threads[i := if toRelease > 0 then Posting(toRelease) else Idle])
    case Post(_) =>
      var left := s.threads[i].left;
      if left > 0 then
        s.(tokens := s.tokens + 1, threads := s.threads[i := if left > 1 then Posting(left - 1) else Idle])
      else
        s.(threads := s.threads[i := Idle])
  }

  ghost predicate Next(s: State, a: Action, s': State)
  {
    Enabled(s, a) && s' == Apply(s, a)
  }

  ghost predicate Init(s: State)
  {
    && s.count >= 0 && s.supplied == s.count && s.acquired == 0 && s.tokens == 0
    && forall i :: 0 <= i < |s.threads| ==> s.threads[i] == Idle
  }

  // ---------------------------------------------------------------- conservation

  /** 1 for a thread whose decrement is still to be matched by a kernel token or undone. */
  function SlowOf(t: Thread): nat { if t.Sleeping? || t.Adjusting? || t.AdjustSeen? then 1 else 0 }

  function UnpostedOf(t: Thread): nat { if t.Posting? then t.left else 0 }

  function Slow(s: State): nat { Sum(s.threads, SlowOf) }

  function Unposted(s: State): nat { Sum(s.threads, UnpostedOf) }

  /** The units that can still be acquired: in the counter, in the kernel, or on their way there. */
  function Value(s: State): nat
  {
    Max(0, s.count) + s.tokens + Unposted(s)
  }

  /** An exchange is tried only on a positive count. */
  ghost predicate SeenPositive(s: State)
  {
    forall i :: 0 <= i < |s.threads| ==>
      (s.threads[i].Seen? || s.threads[i].SpinSeen? ==> s.threads[i].seen > 0) &&
      (s.threads[i].Spinning? || s.threads[i].SpinSeen? ==> s.threads[i].max > 0)
  }

  predicate Balanced(s: State)
  {
    && s.supplied == s.count + s.acquired + Slow(s)
    && Slow(s) == s.tokens + Unposted(s) + Max(0, -s.count)
  }

  ghost predicate Inv(s: State)
  {
    SeenPositive(s) && Balanced(s)
  }

  lemma MoveSums(ts: seq<Thread>, i: nat, t: Thread)
    requires i < |ts|
    ensures Sum(ts[i := t], SlowOf) + SlowOf(ts[i]) == Sum(ts, SlowOf) + SlowOf(t)
    ensures Sum(ts[i := t], UnpostedOf) + UnpostedOf(ts[i]) == Sum(ts, UnpostedOf) + UnpostedOf(t)
  {
    SumAfter(ts, i, t, SlowOf);
    SumAfter(ts, i, t, UnpostedOf);
  }

  /** One thread's move keeps the balance if it keeps it locally. */
  lemma MoveKeepsBalance(s: State, s': State, i: nat)
    requires Balanced(s) && i < |s.threads| == |s'.threads| && s'.threads == s.threads[i := s'.threads[i]]
    requires var t, t' := s.threads[i], s'.threads[i];
      && s'.supplied - s.supplied == s'.count - s.count + s'.acquired - s.acquired + SlowOf(t') - SlowOf(t)
      && SlowOf(t') - SlowOf(t) ==
         s'.tokens - s.tokens + UnpostedOf(t') - UnpostedOf(t) + Max(0, -s'.count) - Max(0, -s.count)
    ensures Balanced(s')
  {
    MoveSums(s.threads, i, s'.threads[i]);
  }

  lemma StepKeepsBalance(s: State, a: Action)
    requires Balanced(s) && Enabled(s, a) && (a.Exchange? || a.SpinExchange? ==> s.threads[a.i].seen > 0)
    ensures Balanced(Apply(s, a))
  {
    var s' := Apply(s, a);
    assert s'.threads == s.threads[a.i := s'.threads[a.i]];
    MoveKeepsBalance(s, s', a.i);
  }

  lemma StepKeepsInv(s: State, a: Action)
    requires Inv(s) && Enabled(s, a)
    ensures Inv(Apply(s, a))
  {
    StepKeepsBalance(s, a);
  }

  lemma ReachableHoldsInv(s: State)
    requires Runs.Reachable(Init, Next, s)
    ensures Inv(s)
  {
    forall r | Init(r)
      ensures Inv(r)
    {
      SumOfZeros(r.threads, SlowOf);
      SumOfZeros(r.threads, UnpostedOf);
    }
    forall r: State, a, r' | Inv(r) && Next(r, a, r')
      ensures Inv(r')
    {
      StepKeepsInv(r, a);
    }
    Runs.ReachableKeepsInvariant(Init, Next, Inv, s);
  }

  /** Every unit supplied is in the counter, acquired, or owed to a slow waiter; slow waiters match kernel
      tokens, releases not yet posted, and the part of the counter below zero. */
  lemma TokensAreConserved(s: State)
    requires Runs.Reachable(Init, Next, s)
    ensures s.supplied == s.count + s.acquired + Slow(s)
    ensures Slow(s) == s.tokens + Unposted(s) + Max(0, -s.count)
    ensures s.supplied == s.acquired + Value(s)
    ensures s.acquired <= s.supplied
  {
    ReachableHoldsInv(s);
  }

  // ---------------------------------------------------------------- what users see

  /** The units a step hands to its thread; AdjustExchange, the timed-out return, hands out none. */
  function Got(s: State, a: Action): nat
    requires Enabled(s, a)
  {
    match a
    case Exchange(i) => if s.count == s.threads[i].seen then Max(0, Min(s.count, s.threads[i].max)) else 0
    case SpinExchange(i) => if s.count == s.threads[i].seen then Max(0, Min(s.count, s.threads[i].max)) else 0
    case FetchSub(_) => if s.count > 0 then 1 else 0
    case KernelWait(_) => 1
    case AdjustTryWait(_) => Min(1, s.tokens)
    case _ => 0
  }

  function Added(a: Action): nat { if a.Signal? then a.n else 0 }

  /** Step by step this is a counting semaphore of value Value: signals add, waiters take what is there,
      and every other step, a time-out included, leaves the value alone. */
  lemma StepRefinesSemaphore(s: State, a: Action)
    requires Runs.Reachable(Init, Next, s) && Enabled(s, a)
    ensures Got(s, a) <= Value(s)
    ensures Value(Apply(s, a)) == Value(s) + Added(a) - Got(s, a)
    ensures Apply(s, a).acquired == s.acquired + Got(s, a)
  {
    ReachableHoldsInv(s);
    TokensAreConserved(s);
    StepKeepsInv(s, a);
  }

  predicate InTry(t: Thread) { t.Seen? }

  predicate InWait(t: Thread)
  {
    t.Spinning? || t.SpinSeen? || t.Sleeping? || t.Adjusting? || t.AdjustSeen?
  }

  /** A tryWait for at least one comes back with nothing exactly if its last look found no unit, and with no
      more than it asked for; otherwise it goes on trying. */
  lemma TryWaitFailsIff(s: State, a: Action)
    requires Runs.Reachable(Init, Next, s) && Enabled(s, a)
    requires a.Load? || InTry(s.threads[a.i])
    ensures var max := if a.Load? then a.max else s.threads[a.i].max;
      && Got(s, a) <= max && (Got(s, a) > 0 ==> Apply(s, a).threads[a.i].Idle?)
      && (max > 0 ==> (Apply(s, a).threads[a.i].Idle? && Got(s, a) == 0 <==> s.count <= 0))
      && (!Apply(s, a).threads[a.i].Idle? ==> Apply(s, a).threads[a.i] == Seen(max, s.count))
  {
    ReachableHoldsInv(s);
  }

  /** A wait ends with a unit, or by a time-out that has undone its decrement; it takes a unit itself whenever
      it looks and finds the count positive. */
  lemma WaitEndsWithUnit(s: State, a: Action)
    requires Runs.Reachable(Init, Next, s) && Enabled(s, a) && InWait(s.threads[a.i])
    ensures Apply(s, a).threads[a.i].Idle? || InWait(Apply(s, a).threads[a.i])
    ensures a.SpinLoad? ==> (Apply(s, a).threads[a.i].SpinSeen? <==> s.count > 0)
    ensures a.FetchSub? ==> (Apply(s, a).threads[a.i].Idle? <==> s.count > 0)
    ensures Apply(s, a).threads[a.i].Idle? ==>
              Got(s, a) > 0 || (a.AdjustExchange? && Apply(s, a).count == s.count + 1 && s.count < 0)
  {
    ReachableHoldsInv(s);
  }

  /** With nobody waiting slowly, no token is stranded in the kernel and all that is left is in the counter. */
  lemma NoTokenStranded(s: State)
    requires Runs.Reachable(Init, Next, s)
    requires forall i :: 0 <= i < |s.threads| ==> SlowOf(s.threads[i]) == 0
    ensures s.tokens == 0 && Unposted(s) == 0
    ensures s.count == s.supplied - s.acquired
  {
    TokensAreConserved(s);
    SumOfZeros(s.threads, SlowOf);
  }

  lemma {:induction false} SomeWeight(ts: seq<Thread>) returns (i: nat)
    requires Sum(ts, UnpostedOf) > 0
    ensures i < |ts| && ts[i].Posting? && ts[i].left > 0
  {
    if UnpostedOf(ts[|ts| - 1]) > 0 {
      i := |ts| - 1;
    } else {
      i := SomeWeight(ts[..|ts| - 1]);
    }
  }

  /** A timed-out waiter can always get out of its loop: undo the decrement, take a token, or take one
      that some signaller is about to post. */
  lemma TimedOutWaiterCanLeave(s: State, i: nat) returns (j: nat)
    requires Runs.Reachable(Init, Next, s) && i < |s.threads|
    requires s.threads[i].Sleeping? || s.threads[i].Adjusting? || s.threads[i].AdjustSeen?
    ensures s.count < 0 || s.tokens > 0 || (j < |s.threads| && s.threads[j].Posting? && s.threads[j].left > 0)
  {
    j := 0;
    TokensAreConserved(s);
    WeightWithinSum(s.threads, i, SlowOf);
    if s.count >= 0 && s.tokens == 0 {
      j := SomeWeight(s.threads);
    }
  }

  /** Once the counter is back at zero or above, there is a wake-up for every slow waiter. */
  lemma EveryWaiterIsReleased(s: State)
    requires Runs.Reachable(Init, Next, s) && s.count >= 0
    ensures s.tokens + Unposted(s) == Slow(s)
  {
    TokensAreConserved(s);
  }
}
