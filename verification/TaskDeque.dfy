/** The deque's own code. Between any two accesses to shared memory the other threads may run for
    as long as they like: Interfere stands for that, and its callers know only its contract.
    The ghost field `m` follows the code access by access through the protocol of DequeProtocol. */
module TaskDeques {
  import opened Options
  import opened DequeProtocol
  import Runs

  predicate PowerOfTwo(n: nat)
  {
    n == 1 || (n > 1 && n % 2 == 0 && PowerOfTwo(n / 2))
  }

  class TaskDeque {
    const buffer: array<Task>
    var top: nat
    var bottom: nat
    ghost var m: State

    /** The fields are those of a state some run of the protocol leads to. */
    ghost predicate Valid()
      reads this, buffer
    {
      && buffer.Length > 0 && m.buffer == buffer[..] && m.top == top && m.bottom == bottom
      && Runs.Reachable(Init, Next, m)
    }

    /** The capacity is a power of two, so that masking an index is taking a remainder. */
    constructor (capacity: nat, ghost thieves: nat)
      requires PowerOfTwo(capacity)
      ensures Valid() && fresh(buffer) && Init(m) && buffer.Length == capacity && |m.thieves| == thieves
    {
      buffer := new Task[capacity](_ => 0);
      top, bottom := 0, 0;
      new;
      m := State(buffer[..], 0, 0, Idle, seq(thieves, _ => Resting), [], [], [], []);
      assert Runs.IsRun(Init, Next, [m], []);
    }

    /** Any number of steps of the thieves. */
    method ThievesInterfere()
      requires Valid()
      modifies this`top, this`m
      ensures Valid()
      ensures ThievesLead(old(m), m)
      ensures m.owner == old(m.owner) && m.pushed == old(m.pushed) && m.popped == old(m.popped)
      ensures |m.thieves| == old(|m.thieves|)
    {
      assert ThiefRun([m], []);
    }

    /** Any number of steps of the owner and of the thieves other than i. */
    method OthersInterfere(ghost i: nat)
      requires Valid() && i < |m.thieves|
      modifies this, buffer
      ensures Valid() && OthersLead(i, old(m), m)
      ensures i < |m.thieves| == |old(m.thieves)| && m.thieves[i] == old(m.thieves[i])
      ensures old(m.thefts) <= m.thefts && TakenBy(m.thefts, i) == TakenBy(old(m.thefts), i) && old(m.top) <= m.top
    {
      assert OtherRun(i, [m], []);
    }

    /** The owner's next access, as the protocol sees it. */
    ghost method Advance(a: Action)
      requires Runs.Reachable(Init, Next, m) && Enabled(m, a)
      modifies this`m
      ensures m == Apply(old(m), a) && Runs.Reachable(Init, Next, m)
    {
      Runs.StepStaysReachable(Init, Next, m, a, Apply(m, a));
      m := Apply(m, a);
    }

    /** The owner's next write to the ring. */
    method StoreSlot(k: nat, item: Task)
      requires Valid() && Enabled(m, WriteSlot)
      requires k == m.owner.b + m.owner.i && item == m.owner.items[m.owner.i]
      modifies this`m, buffer
      ensures Valid() && m.owner == old(m.owner).(i := old(m.owner.i) + 1)
      ensures m.pushed == old(m.pushed) && m.popped == old(m.popped)
    {
      buffer[k % buffer.Length] := item;
      Advance(WriteSlot);
    }

    /** The owner's read of the slot it pops; without a race to settle, the pop is over. */
    method LoadSlot(b: nat) returns (item: Task)
      requires Valid() && m.owner.Reading? && m.owner.b == b
      modifies this`m
      ensures Valid()
      ensures if old(m.owner.t) == b then m.owner == Racing(b, item) else m.owner == Idle
      ensures m.popped == old(m.popped) + if old(m.owner.t) == b then [] else [item]
      ensures m.pushed == old(m.pushed)
    {
      item := buffer[b % buffer.Length];
      Advance(ReadSlot);
    }

    method PushBottom(item: Option<Task>) returns (ok: bool)
      requires Valid() && m.owner.Idle?
      modifies this, buffer
      ensures Valid() && m.owner.Idle?
      ensures m.pushed == old(m.pushed) + if ok && item.Some? then [item.value] else []
      ensures ok ==> item.Some?
      ensures !ok && item.Some? ==> |old(Contents(m))| >= buffer.Length
      ensures m.popped == old(m.popped)
    {
      if item.None? {
        return false;
      }
      var b := bottom;
      Advance(BeginPush([item.value]));
      ThievesInterfere();
      var t := top;
      ghost var before := m;
      Advance(CheckRoom);
      if b - t >= buffer.Length {
        RefusalMeansFull(old(m), before);
        return false;
      }
      ThievesInterfere();
      StoreSlot(b, item.value);
      ThievesInterfere();
      bottom := b + 1;
      Advance(Publish);
      return true;
    }

    method PushBottomBatch(items: seq<Task>) returns (ok: bool)
      requires Valid() && m.owner.Idle?
      modifies this, buffer
      ensures Valid() && m.owner.Idle?
      ensures m.pushed == old(m.pushed) + if ok then items else []
      ensures |old(Contents(m))| + |items| <= buffer.Length ==> ok
      ensures m.popped == old(m.popped)
    {
      var b := bottom;
      Advance(BeginPush(items));
      ThievesInterfere();
      var t := top;
      ghost var before := m;
      Advance(CheckRoom);
      if b + |items| - t > buffer.Length {
        RefusalMeansFull(old(m), before);
        return false;
      }
      WriteItems(items, b);
      ThievesInterfere();
      bottom := b + |items|;
      Advance(Publish);
      return true;
    }

    /** The writing loop of the batch push. */
    method WriteItems(items: seq<Task>, b: nat)
      requires Valid() && m.owner == Writing(items, b, 0)
      modifies this`top, this`m, buffer
      ensures Valid() && m.owner == Writing(items, b, |items|)
      ensures m.pushed == old(m.pushed) && m.popped == old(m.popped)
    {
      var i := 0;
      while i < |items|
        invariant i <= |items| && Valid() && m.owner == Writing(items, b, i)
        invariant m.pushed == old(m.pushed) && m.popped == old(m.popped)
      {
        ThievesInterfere();
        StoreSlot(b + i, items[i]);
        i := i + 1;
      }
    }

    method PopBottom() returns (r: Option<Task>)
      requires Valid() && m.owner.Idle?
      modifies this
      ensures Valid() && m.owner.Idle?
      ensures m.popped == old(m.popped) + match r case Some(x) => [x] case None => []
      ensures r.None? ==> Contents(m) == []
      ensures m.pushed == old(m.pushed)
    {
      var b := bottom;
      Advance(BeginPop);
      ThievesInterfere();
      var t := top;
      GiveUp(CheckEmpty);
      if t >= b {
        return None;
      }
      b := b - 1;
      ThievesInterfere();
      bottom := b;
      Advance(LowerBottom);
      r := PopLowered(b);
    }

    /** The rest of a pop, once bottom is lowered to b. */
    method PopLowered(b: nat) returns (r: Option<Task>)
      requires Valid() && m.owner == Reloading(b)
      modifies this
      ensures Valid() && m.owner.Idle?
      ensures m.popped == old(m.popped) + match r case Some(x) => [x] case None => []
      ensures r.None? ==> Contents(m) == []
      ensures m.pushed == old(m.pushed)
    {
      ThievesInterfere();
      var t := top;
      Advance(ReloadTop);
      if t <= b {
        ThievesInterfere();
        var item := LoadSlot(b);
        if t == b {
          var won := SettleRace(b);
          if !won {
            return None;
          }
        }
        return Some(item);
      } else {
        ThievesInterfere();
        bottom := t;
        GiveUp(ResetBottom);
        return None;
      }
    }

    /** The compare-and-swap on top for the last item, and the store that puts bottom back. */
    method SettleRace(b: nat) returns (won: bool)
      requires Valid() && m.owner.Racing? && m.owner.b == b
      modifies this
      ensures Valid() && m.owner.Idle?
      ensures m.popped == old(m.popped) + if won then [old(m.owner.item)] else []
      ensures !won ==> Contents(m) == []
      ensures m.pushed == old(m.pushed)
    {
      ThievesInterfere();
      won := top == b;
      if won {
        top := b + 1;
      }
      Advance(RaceForLast);
      ThievesInterfere();
      bottom := b + 1;
      GiveUp(RestoreBottom);
    }

    /** An access after which the owner may come back with nothing. */
    ghost method GiveUp(a: Action)
      requires Runs.Reachable(Init, Next, m) && Enabled(m, a)
      modifies this`m
      ensures m == Apply(old(m), a) && Runs.Reachable(Init, Next, m)
      ensures OwnerGivesUp(old(m), a) ==> Contents(m) == []
    {
      ReachableHoldsInv(m);
      if OwnerGivesUp(m, a) {
        EmptyPopMeansEmpty(m, a);
      }
      Advance(a);
    }

    /** A refused push started on a deque without room for it. */
    lemma RefusalMeansFull(start: State, checked: State)
      requires checked.owner.Pushing?
      requires Runs.Reachable(Init, Next, start) && Enabled(start, BeginPush(checked.owner.items))
      requires ThievesLead(Apply(start, BeginPush(checked.owner.items)), checked)
      requires Apply(checked, CheckRoom).owner == Idle
      ensures |Contents(start)| + |checked.owner.items| > |start.buffer|
    {
      ReachableHoldsInv(start);
      var s1 := Apply(start, BeginPush(checked.owner.items));
      StepRefinesDeque(start, BeginPush(checked.owner.items));
      var states, actions :| ThiefRun(states, actions) && states[0] == s1 && states[|actions|] == checked;
      ThievesOnlyTake(states, actions);
      PushRefusedIffFull(checked);
    }

    /** Thief i's next access, as the protocol sees it. */
    ghost method AdvanceThief(a: Action)
      requires Runs.Reachable(Init, Next, m) && Enabled(m, a) && ThiefAction(a)
      modifies this`m
      ensures Runs.Reachable(Init, Next, m) && m.buffer == old(m.buffer) && m.bottom == old(m.bottom)
      ensures |m.thieves| == |old(m.thieves)| && m.thieves[a.i] == Apply(old(m), a).thieves[a.i]
      ensures m.top == Apply(old(m), a).top && m.thefts == Apply(old(m), a).thefts
    {
      Advance(a);
    }

    /** Thief i. A task it returns was the oldest one in the deque when it took it. If it returns nothing,
        then at some moment of the call, `saw`, the deque was empty or the owner was popping its last task,
        or the owner or another thief has moved top since the call began. */
    method Steal(ghost i: nat) returns (r: Option<Task>, ghost saw: State)
      requires Valid() && i < |m.thieves| && m.thieves[i].Resting?
      modifies this, buffer
      ensures Valid() && i < |m.thieves| && m.thieves[i].Resting?
      ensures old(m.thefts) <= m.thefts && old(m.top) <= m.top
      ensures TakenBy(m.thefts, i) == TakenBy(old(m.thefts), i) + match r case Some(x) => [x] case None => []
      ensures r.Some? ==> |m.thefts| > |old(m.thefts)| && m.thefts[|m.thefts| - 1] == Theft(i, r.value)
      ensures Runs.Reachable(Init, Next, saw) && old(m.top) <= saw.top <= m.top
      ensures r.None? ==> Contents(saw) == [] || LastBeingPopped(saw) || MovedByOthers(old(m), i) < MovedByOthers(m, i)
    {
      var t := top;
      AdvanceThief(LoadTop(i));
      var b;
      b, saw := SeeBottom(i, t);
      r := None;
      if t < b {
        r := TakeAt(i, t);
      }
    }

    /** Loads bottom, a while after top. */
    method SeeBottom(ghost i: nat, t: nat) returns (b: nat, ghost saw: State)
      requires Valid() && i < |m.thieves| && m.thieves[i] == TopLoaded(t) && t <= m.top
      modifies this, buffer
      ensures Valid() && i < |m.thieves| && m.thieves[i] == if t < b then Looking(t) else Resting
      ensures old(m.thefts) <= m.thefts && TakenBy(m.thefts, i) == TakenBy(old(m.thefts), i)
      ensures old(m.top) <= saw.top == m.top && Runs.Reachable(Init, Next, saw)
      ensures t >= b ==> Contents(saw) == [] || LastBeingPopped(saw)
    {
      OthersInterfere(i);
      saw := m;
      b := bottom;
      if t >= b {
        SawNothing(saw, i);
      }
      AdvanceThief(LoadBottom(i));
    }

    /** Bottom was not behind the top loaded before. */
    lemma SawNothing(s: State, i: nat)
      requires Runs.Reachable(Init, Next, s) && Enabled(s, LoadBottom(i)) && s.thieves[i].t >= s.bottom
      ensures Contents(s) == [] || LastBeingPopped(s)
    {
      ReachableHoldsInv(s);
      StealFailsOnlyIf(s, LoadBottom(i));
    }

    lemma ClaimLost(s: State, i: nat)
      requires Runs.Reachable(Init, Next, s) && Enabled(s, Claim(i)) && s.top != s.thieves[i].t
      ensures s.thieves[i].t < s.top
    {
      ReachableHoldsInv(s);
      StealFailsOnlyIf(s, Claim(i));
    }

    lemma ClaimRecorded(s: State, i: nat)
      requires Enabled(s, Claim(i))
      ensures var won := s.top == s.thieves[i].t;
        TakenBy(Apply(s, Claim(i)).thefts, i) == TakenBy(s.thefts, i) + if won then [s.thieves[i].item] else []
    {
      TopMovesIff(s, Claim(i), i);
    }

    /** The read of the slot and the compare-and-swap on top. */
    method TakeAt(ghost i: nat, t: nat) returns (r: Option<Task>)
      requires Valid() && i < |m.thieves| && m.thieves[i] == Looking(t)
      modifies this, buffer
      ensures Valid() && i < |m.thieves| && m.thieves[i].Resting?
      ensures old(m.thefts) <= m.thefts && old(m.top) <= m.top
      ensures TakenBy(m.thefts, i) == TakenBy(old(m.thefts), i) + match r case Some(x) => [x] case None => []
      ensures r.Some? ==> |m.thefts| > |old(m.thefts)| && m.thefts[|m.thefts| - 1] == Theft(i, r.value)
      ensures r.None? ==> t < m.top
    {
      OthersInterfere(i);
      var item := buffer[t % buffer.Length];
      AdvanceThief(LookAtSlot(i));
      r := ClaimSlot(i, t, item);
    }

    method ClaimSlot(ghost i: nat, t: nat, item: Task) returns (r: Option<Task>)
      requires Valid() && i < |m.thieves| && m.thieves[i] == Claiming(t, item)
      modifies this, buffer
      ensures Valid() && i < |m.thieves| && m.thieves[i].Resting?
      ensures old(m.thefts) <= m.thefts && old(m.top) <= m.top
      ensures TakenBy(m.thefts, i) == TakenBy(old(m.thefts), i) + match r case Some(x) => [x] case None => []
      ensures r.Some? ==> |m.thefts| > |old(m.thefts)| && m.thefts[|m.thefts| - 1] == Theft(i, r.value)
      ensures r.None? ==> t < m.top
    {
      OthersInterfere(i);
      var won := top == t;
      if won {
        top := t + 1;
      } else {
        ClaimLost(m, i);
      }
      ClaimRecorded(m, i);
      AdvanceThief(Claim(i));
      r := if won then Some(item) else None;
    }
  }
}
