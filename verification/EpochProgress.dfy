/** What one reclamation gets done when the readers and clients pause: it frees everything that need not wait,
    and nothing else. */
module EpochProgress {
  import opened EpochProtocol
  import opened Options
  import Runs

  predicate ReclaimerAction(a: Action)
  {
    a.BeginReclaim? || a.Drain? || a.EndDrain? || a.ScanSlot? || a.EndScan? || a.Sweep? || a.EndSweep?
  }

  ghost predicate ReclaimerNext(s: State, a: Action, s': State)
  {
    Next(s, a, s') && ReclaimerAction(a)
  }

  /** Some number of the reclaimer's steps lead from s0 to s, which is as any state of a run. */
  ghost predicate Reached(s0: State, s: State)
  {
    Runs.Reachable((r: State) => r == s0, ReclaimerNext, s) && Inv(s)
  }

  lemma Step(s0: State, s: State, a: Action) returns (s': State)
    requires Reached(s0, s) && Enabled(s, a) && ReclaimerAction(a)
    ensures s' == Apply(s, a) && Reached(s0, s')
  {
    s' := Apply(s, a);
    Runs.StepStaysReachable((r: State) => r == s0, ReclaimerNext, s, a, s');
    StepKeepsInv(s, a);
  }

  // ---------------------------------------------------------------- draining

  function AfterDrain(x: Object): Object
  {
    match x case Incoming(e) => Pending(e) case _ => x
  }

  lemma {:induction false} DrainAll(s0: State, s: State) returns (s': State)
    requires Reached(s0, s) && s.reclaimer.Draining?
    ensures Reached(s0, s') && s'.reclaimer.Draining? && s'.incoming == []
    ensures s'.epoch == s.epoch && s'.slots == s.slots && |s'.objects| == |s.objects|
    ensures forall o :: 0 <= o < |s.objects| ==> s'.objects[o] == AfterDrain(s.objects[o])
    decreases |s.incoming|
  {
    if s.incoming == [] {
      s' := s;
      NothingIncoming(s);
    } else {
      assert s.objects[s.incoming[0].obj] == Incoming(s.incoming[0].epoch);
      var s1 := Step(s0, s, Drain(0));
      s' := DrainAll(s0, s1);
    }
  }

  lemma NothingIncoming(s: State)
    requires Inv(s) && s.incoming == []
    ensures forall o :: 0 <= o < |s.objects| ==> s.objects[o] == AfterDrain(s.objects[o])
  {
    assert forall o :: 0 <= o < |s.objects| && s.objects[o].Incoming? ==> Retired(o, s.objects[o].epoch) in s.incoming;
  }

  // ---------------------------------------------------------------- scanning

  /** The least of m and what the slots from k on publish. */
  function Least(slots: seq<Option<nat>>, k: nat, m: nat): nat
    requires k <= |slots|
    decreases |slots| - k
  {
    if k == |slots| then m
    else Least(slots, k + 1, if slots[k].Some? && slots[k].value < m then slots[k].value else m)
  }

  lemma {:induction false} LeastIsLeast(slots: seq<Option<nat>>, k: nat, m: nat)
    requires k <= |slots|
    ensures Least(slots, k, m) <= m
    ensures forall r :: k <= r < |slots| && slots[r].Some? ==> Least(slots, k, m) <= slots[r].value
    ensures Least(slots, k, m) == m || Some(Least(slots, k, m)) in slots
    decreases |slots| - k
  {
    if k < |slots| {
      LeastIsLeast(slots, k + 1, if slots[k].Some? && slots[k].value < m then slots[k].value else m);
      assert slots[k] in slots;
    }
  }

  lemma {:induction false} ScanAll(s0: State, s: State) returns (s': State)
    requires Reached(s0, s) && s.reclaimer.Scanning? && s.reclaimer.k <= |s.slots|
    ensures Reached(s0, s')
    ensures s' == s.(reclaimer := Scanning(|s.slots|, Least(s.slots, s.reclaimer.k, s.reclaimer.min)))
    decreases |s.slots| - s.reclaimer.k
  {
    s' := s;
    if s.reclaimer.k < |s.slots| {
      s' := Step(s0, s, ScanSlot);
      s' := ScanAll(s0, s');
    }
  }

  // ---------------------------------------------------------------- sweeping

  /** What is pending is as it was, or was older than safe and is freed. */
  ghost predicate Swept(was: seq<Object>, now: seq<Object>, safe: nat)
  {
    && |now| == |was|
    && forall o :: 0 <= o < |was| ==>
         now[o] == was[o] || (was[o].Pending? && was[o].epoch < safe && now[o].Freed?)
  }

  ghost predicate KeptMustWait(s: State)
  {
    s.reclaimer.Sweeping? && s.reclaimer.kept <= |s.pending| &&
    forall j :: 0 <= j < s.reclaimer.kept ==> s.pending[j].epoch >= s.reclaimer.safe
  }

  lemma SweepOneMore(s: State)
    requires Inv(s) && KeptMustWait(s) && Enabled(s, Sweep)
    ensures KeptMustWait(Apply(s, Sweep)) && Swept(s.objects, Apply(s, Sweep).objects, s.reclaimer.safe)
  {
    var item := s.pending[s.reclaimer.i];
    assert Held(s)[s.reclaimer.kept] == item;
  }

  lemma CanSweep(s: State)
    requires Inv(s) && s.reclaimer.Sweeping? && s.reclaimer.i < |s.pending|
    ensures Enabled(s, Sweep)
  {
    assert Held(s)[s.reclaimer.kept] == s.pending[s.reclaimer.i];
  }

  lemma {:induction false} SweepAll(s0: State, s: State) returns (s': State)
    requires Reached(s0, s) && KeptMustWait(s)
    ensures Reached(s0, s') && KeptMustWait(s') && s'.reclaimer.safe == s.reclaimer.safe
    ensures s'.reclaimer.i >= |s'.pending|
    ensures Swept(s.objects, s'.objects, s.reclaimer.safe) && s'.epoch == s.epoch && s'.slots == s.slots
    ensures s'.incoming == s.incoming
    decreases if s.reclaimer.Sweeping? && s.reclaimer.i < |s.pending| then |s.pending| - s.reclaimer.i else 0
  {
    s' := s;
    if s.reclaimer.i < |s.pending| {
      CanSweep(s);
      SweepOneMore(s);
      s' := Step(s0, s, Sweep);
      s' := SweepAll(s0, s');
    }
  }

  /** After the sweep only what must wait is left. */
  lemma LeftMustWait(s: State)
    requires Inv(s) && KeptMustWait(s) && s.reclaimer.i >= |s.pending|
    ensures forall o :: 0 <= o < |s.objects| && s.objects[o].Pending? ==> s.objects[o].epoch >= s.reclaimer.safe
  {
    forall o | 0 <= o < |s.objects| && s.objects[o].Pending?
      ensures s.objects[o].epoch >= s.reclaimer.safe
    {
      assert Retired(o, s.objects[o].epoch) in Held(s);
      assert Held(s) == s.pending[..s.reclaimer.kept];
    }
  }

  // ---------------------------------------------------------------- a reclamation

  /** What a reclamation does to an object. */
  function Outcome(x: Object, s: State): Object
  {
    if x.Incoming? || x.Pending? then (if MustWait(x.epoch, s.epoch, s.slots) then Pending(x.epoch) else Freed) else x
  }

  /** The drain and the scan, up to the sweep. */
  lemma ReclaimToSweep(s: State) returns (s': State)
    requires Runs.Reachable(Init, Next, s) && s.reclaimer.Off?
    ensures Reached(s, s') && KeptMustWait(s') && s'.reclaimer.i == 0 && s'.incoming == []
    ensures s'.epoch == s.epoch && s'.slots == s.slots && |s'.objects| == |s.objects|
    ensures forall o :: 0 <= o < |s.objects| ==> s'.objects[o] == AfterDrain(s.objects[o])
    ensures forall e: nat :: e >= s'.reclaimer.safe <==> MustWait(e, s.epoch, s.slots)
  {
    ReachableHoldsInv(s);
    assert Runs.IsRun((r: State) => r == s, ReclaimerNext, [s], []);
    var s1 := Step(s, s, BeginReclaim);
    var s2 := DrainAll(s, s1);
    var s3 := Step(s, s2, EndDrain);
    var s4 := ScanAll(s, s3);
    LeastIsLeast(s.slots, 0, s.epoch);
    s' := Step(s, s4, EndScan);
    SafeIsExact(s, s'.reclaimer.safe);
  }

  lemma SafeIsExact(s: State, safe: nat)
    requires safe <= s.epoch && (safe == s.epoch || Some(safe) in s.slots)
    requires forall r :: 0 <= r < |s.slots| && s.slots[r].Some? ==> safe <= s.slots[r].value
    ensures forall e: nat :: e >= safe <==> MustWait(e, s.epoch, s.slots)
  {
    forall e: nat
      ensures e >= safe <==> MustWait(e, s.epoch, s.slots)
    {
      if e >= safe && e < s.epoch {
        var r :| 0 <= r < |s.slots| && s.slots[r] == Some(safe);
      }
    }
  }

  /** A reclamation during which nobody else moves frees exactly what was retired before the present epoch
      and before every guard that is open, and keeps the rest. */
  lemma ReclaimFreesExactly(s: State) returns (s': State)
    requires Runs.Reachable(Init, Next, s) && s.reclaimer.Off?
    ensures Reached(s, s') && s'.reclaimer.Off? && s'.incoming == [] && |s'.objects| == |s.objects|
    ensures forall o :: 0 <= o < |s.objects| ==> s'.objects[o] == Outcome(s.objects[o], s)
  {
    var s1 := ReclaimToSweep(s);
    var s2 := SweepAll(s, s1);
    LeftMustWait(s2);
    s' := Step(s, s2, EndSweep);
    forall o | 0 <= o < |s.objects|
      ensures s'.objects[o] == Outcome(s.objects[o], s)
    {
      assert s1.objects[o] == AfterDrain(s.objects[o]);
    }
  }

  /** When no guard is open, advancing the epoch and reclaiming frees everything that has been retired. */
  lemma TickFreesAll(s: State) returns (s': State)
    requires Runs.Reachable(Init, Next, s) && s.reclaimer.Off? && forall r :: 0 <= r < |s.slots| ==> s.slots[r].None?
    ensures Reached(Apply(s, Advance), s') && s'.reclaimer.Off? && s'.incoming == [] && |s'.objects| == |s.objects|
    ensures forall o :: 0 <= o < |s.objects| && (s.objects[o].Incoming? || s.objects[o].Pending?) ==> s'.objects[o].Freed?
  {
    ReachableHoldsInv(s);
    Runs.StepStaysReachable(Init, Next, s, Advance, Apply(s, Advance));
    s' := ReclaimFreesExactly(Apply(s, Advance));
    forall o | 0 <= o < |s.objects| && (s.objects[o].Incoming? || s.objects[o].Pending?)
      ensures !MustWait(s.objects[o].epoch, s.epoch + 1, s.slots)
    {
      assert ObjectOk(s.epoch, s.slots, s.objects[o], s.watchers[o], s.frees[o]);
    }
  }

  // ---------------------------------------------------------------- what a guard holds up

  /** entered[r]: the global epoch when reader r last loaded it. */
  datatype Watched = Watched(s: State, entered: seq<nat>)

  ghost predicate WatchedInit(w: Watched)
  {
    Init(w.s) && |w.entered| == |w.s.readers|
  }

  ghost predicate WatchedNext(w: Watched, a: Action, w': Watched)
  {
    && Next(w.s, a, w'.s) && |w'.entered| == |w.entered|
    && forall r :: 0 <= r < |w.entered| ==> w'.entered[r] == if a == LoadEpoch(r) then w.s.epoch else w.entered[r]
  }

  ghost predicate PublishesEntry(w: Watched)
  {
    && |w.entered| == |w.s.slots| == |w.s.readers|
    && forall r :: 0 <= r < |w.entered| ==>
         && (w.s.slots[r].Some? ==> w.s.slots[r].value == w.entered[r])
         && (w.s.readers[r].Entering? ==> w.s.readers[r].e == w.entered[r] && w.s.slots[r].None?)
         && (w.s.readers[r].Away? ==> w.s.slots[r].None?)
  }

  /** An open guard publishes the epoch in which it was entered, and holds up nothing retired before that. */
  lemma GuardHoldsUpOnlyLater(w: Watched, epoch: nat)
    requires Runs.Reachable(WatchedInit, WatchedNext, w)
    ensures PublishesEntry(w)
    ensures MustWait(epoch, w.s.epoch, w.s.slots) <==>
              epoch >= w.s.epoch || exists r :: 0 <= r < |w.entered| && w.s.slots[r].Some? && w.entered[r] <= epoch
  {
    forall u: Watched, a, u' | PublishesEntry(u) && WatchedNext(u, a, u')
      ensures PublishesEntry(u')
    {
    }
    Runs.ReachableKeepsInvariant(WatchedInit, WatchedNext, PublishesEntry, w);
  }
}
