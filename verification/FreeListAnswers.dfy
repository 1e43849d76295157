/** What the free list answers: null only if it was empty at some moment of the call, and its first node to a
    thread that gets it undisturbed. */
module FreeListAnswers {
  import opened FreeListProtocol
  import opened Options
  import Runs
  import opened Sums

  /** seen[i]: the list has been empty at some moment since thread i last began a try_get. */
  datatype Watched = Watched(s: State, seen: seq<bool>)

  ghost predicate WatchedInit(w: Watched)
  {
    Init(w.s) && |w.seen| == |w.s.threads|
  }

  function Watch(seen: seq<bool>, a: Action, s': State): seq<bool>
  {
    seq(|seen|, i requires 0 <= i < |seen| => s'.list == [] || (seen[i] && a != BeginGet(i)))
  }

  ghost predicate WatchedNext(w: Watched, a: Action, w': Watched)
  {
    Next(w.s, a, w'.s) && w'.seen == Watch(w.seen, a, w'.s)
  }

  /** The thread is in try_get, or puts a node back for it, before it goes on with the head it saw. */
  predicate InGet(t: Thread)
  {
    if AddsNode(t) then t.k.Retry? else !t.Idle?
  }

  /** The thread has found no head to go on with. */
  predicate FoundNoHead(t: Thread)
  {
    (t.GetDropping? && t.head.None?) || (AddsNode(t) && t.k.Retry? && t.k.head.None?)
  }

  ghost predicate WatchedInv(w: Watched)
  {
    && Inv(w.s) && |w.seen| == |w.s.threads|
    && forall i :: 0 <= i < |w.seen| && FoundNoHead(w.s.threads[i]) ==> w.seen[i]
  }

  lemma HeadIsFirst(s: State)
    requires Inv(s)
    ensures s.head.None? <==> s.list == []
  {
  }

  /** No head is found only by the exchange that saw the list empty. */
  lemma GetStepFinds(s: State, i: nat)
    requires Enabled(s, Step(i)) && !AddsNode(s.threads[i]) && (s.head.None? <==> s.list == [])
    ensures FoundNoHead(GetStep(s, i, s.threads[i]).threads[i]) ==>
              FoundNoHead(s.threads[i]) || GetStep(s, i, s.threads[i]).list == []
  {
  }

  lemma AddStepFinds(s: State, i: nat)
    requires Enabled(s, Step(i)) && AddsNode(s.threads[i])
    ensures FoundNoHead(AddStep(s, i, s.threads[i]).threads[i]) ==> FoundNoHead(s.threads[i])
  {
  }

  lemma OthersStay(s: State, a: Action, i: nat)
    requires Enabled(s, a) && i < |s.threads| && a.i != i
    ensures |Apply(s, a).threads| == |s.threads| && Apply(s, a).threads[i] == s.threads[i]
  {
  }

  lemma NoHeadIsSeen(s: State, a: Action, i: nat)
    requires Enabled(s, a) && i < |s.threads| && (s.head.None? <==> s.list == [])
    requires FoundNoHead(Apply(s, a).threads[i])
    ensures Apply(s, a).list == [] || (FoundNoHead(s.threads[i]) && a != BeginGet(i))
  {
    if a.i != i {
      OthersStay(s, a, i);
    } else if a.Step? {
      if AddsNode(s.threads[i]) {
        AddStepFinds(s, i);
      } else {
        GetStepFinds(s, i);
      }
    }
  }

  lemma WatchedStepKeepsInv(w: Watched, a: Action, w': Watched)
    requires WatchedInv(w) && WatchedNext(w, a, w')
    ensures WatchedInv(w')
  {
    StepKeepsInv(w.s, a);
    HeadIsFirst(w.s);
    ThreadsStayMany(w.s, a);
    forall i | 0 <= i < |w'.seen| && FoundNoHead(w'.s.threads[i])
      ensures w'.seen[i]
    {
      NoHeadIsSeen(w.s, a, i);
    }
  }

  lemma ThreadsStayMany(s: State, a: Action)
    requires Enabled(s, a)
    ensures |Apply(s, a).threads| == |s.threads|
  {
  }

  lemma ReachableHoldsWatchedInv(w: Watched)
    requires Runs.Reachable(WatchedInit, WatchedNext, w)
    ensures WatchedInv(w)
  {
    forall r | WatchedInit(r)
      ensures WatchedInv(r)
    {
      assert Runs.IsRun(Init, Next, [r.s], []);
      ReachableHoldsInv(r.s);
    }
    forall r: Watched, a, r' | WatchedInv(r) && WatchedNext(r, a, r')
      ensures WatchedInv(r')
    {
      WatchedStepKeepsInv(r, a, r');
    }
    Runs.ReachableKeepsInvariant(WatchedInit, WatchedNext, WatchedInv, w);
  }

  /** A try_get that ends without a node has seen a moment at which the list was empty. */
  lemma NullOnlyIfEmptySeen(w: Watched, i: nat, w': Watched)
    requires Runs.Reachable(WatchedInit, WatchedNext, w) && WatchedNext(w, Step(i), w')
    requires InGet(w.s.threads[i]) && !w.s.threads[i].GetTaking? && w'.s.threads[i].Idle?
    ensures i < |w'.seen| && w'.seen[i]
  {
    ReachableHoldsWatchedInv(w);
    HeadIsFirst(w.s);
    assert w'.seen[i] == (w'.s.list == [] || w.seen[i]);
  }

  // ---------------------------------------------------------------- undisturbed

  /** These steps of thread i and no others lead from s to s'. */
  ghost predicate StepsLead(i: nat, states: seq<State>, s: State, s': State)
  {
    && states != [] && states[0] == s && states[|states| - 1] == s'
    && forall k, l :: 0 <= k && l == k + 1 && l < |states| ==>
         Next(states[k], if k == 0 then BeginGet(i) else Step(i), states[l])
  }

  lemma ListedIsCounted(s: State, n: Node)
    requires Inv(s) && s.head == Some(n)
    ensures Known(s, n) && s.refs[n].count > 0 && s.list != [] && s.list[0] == n && n < |s.adds|
    ensures s.next[n] == if |s.list| > 1 then Some(s.list[1]) else None
  {
    assert s.place[s.list[0]].Listed?;
    assert NodeOk(n, s.refs[n], s.place[n], Holders(s.threads, n), s.adds[n], s.gets[n]);
    RestChained(s.next, s.list);
  }

  /** A try_get during which the other threads pause takes the first node of the list, if there is one. */
  lemma GetAlone(s: State, i: nat) returns (states: seq<State>, s': State)
    requires Runs.Reachable(Init, Next, s) && i < |s.threads| && s.threads[i].Idle?
    ensures StepsLead(i, states, s, s') && i < |s'.threads| && s'.threads[i].Idle?
    ensures s.list == [] ==> s' == s
    ensures s.list != [] ==> s'.list == s.list[1..] && s.list[0] < |s.gets| && s'.gets == s.gets[s.list[0] := s.gets[s.list[0]] + 1]
  {
    ReachableHoldsInv(s);
    HeadIsFirst(s);
    if s.list == [] {
      states, s' := FindsNothing(s, i);
    } else {
      var n := s.head.value;
      ListedIsCounted(s, n);
      states, s' := GetsFirst(s, i, n);
    }
  }

  lemma GetsFirst(s: State, i: nat, n: Node) returns (states: seq<State>, s': State)
    requires i < |s.threads| && s.threads[i].Idle? && s.head == Some(n) && Known(s, n) && s.refs[n].count > 0
    requires s.list != []
    ensures StepsLead(i, states, s, s') && i < |s'.threads| && s'.threads[i].Idle?
    ensures s'.list == s.list[1..] && s'.gets == s.gets[n := s.gets[n] + 1]
  {
    var s1, s2, s3 := FindsHead(s, i, n);
    var s4, s5, s6 := TakesHead(s3, i, n);
    s' := Returns(s6, i, n);
    states := Begins(i, s, s1);
    states := LeadOn(i, states, s, s1, s2);
    states := LeadOn(i, states, s, s2, s3);
    states := LeadOn(i, states, s, s3, s4);
    states := LeadOn(i, states, s, s4, s5);
    states := LeadOn(i, states, s, s5, s6);
    states := LeadOn(i, states, s, s6, s');
  }

  lemma Begins(i: nat, s: State, s1: State) returns (states: seq<State>)
    requires Next(s, BeginGet(i), s1)
    ensures StepsLead(i, states, s, s1) && |states| > 1
  {
    states := [s, s1];
  }

  lemma LeadOn(i: nat, states: seq<State>, s: State, s': State, s'': State) returns (states': seq<State>)
    requires StepsLead(i, states, s, s') && |states| > 1 && Next(s', Step(i), s'')
    ensures StepsLead(i, states', s, s'') && |states'| > 1
  {
    states' := states + [s''];
  }

  lemma FindsNothing(s: State, i: nat) returns (states: seq<State>, s': State)
    requires i < |s.threads| && s.threads[i].Idle? && s.head == None
    ensures StepsLead(i, states, s, s') && s' == s
  {
    var s1 := Apply(s, BeginGet(i));
    s' := Apply(s1, Step(i));
    assert s'.threads == s.threads;
    states := [s, s1, s'];
  }

  lemma Returns(s: State, i: nat, n: Node) returns (s': State)
    requires i < |s.threads| && s.threads[i] == GetTaking(n) && Known(s, n)
    ensures Next(s, Step(i), s') && i < |s'.threads| && s'.threads[i].Idle?
    ensures s'.list == s.list && s'.gets == s.gets[n := s.gets[n] + 1]
  {
    s' := Apply(s, Step(i));
  }

  /** The loads of the head and its count. */
  lemma FindsHead(s: State, i: nat, n: Node) returns (s1: State, s2: State, s3: State)
    requires i < |s.threads| && s.threads[i].Idle? && s.head == Some(n) && Known(s, n) && s.refs[n].count > 0
    ensures Next(s, BeginGet(i), s1) && Next(s1, Step(i), s2) && Next(s2, Step(i), s3)
    ensures s3 == Go(s, i, GetRefing(n, s.refs[n]))
  {
    s1 := Apply(s, BeginGet(i));
    s2 := Apply(s1, Step(i));
    s3 := Apply(s2, Step(i));
  }

  /** The reference, the load of the next node and the exchange. */
  lemma TakesHead(s: State, i: nat, n: Node) returns (s4: State, s5: State, s6: State)
    requires i < |s.threads| && s.head == Some(n) && Known(s, n) && s.threads[i] == GetRefing(n, s.refs[n])
    requires s.list != []
    ensures Next(s, Step(i), s4) && Next(s4, Step(i), s5) && Next(s5, Step(i), s6)
    ensures i < |s6.threads| && s6.threads[i] == GetTaking(n) && Known(s6, n)
    ensures s6.list == s.list[1..] && s6.gets == s.gets
  {
    s4 := Apply(s, Step(i));
    s5 := Apply(s4, Step(i));
    s6 := Apply(s5, Step(i));
  }
}
