/** The optimistic ticket counters by which consumers of one sub-queue claim element indices, one
    action per atomic access. A single dequeue is a bulk dequeue of at most one. */
module TicketProtocol {
  import Runs
  import opened Sums

  /** Every unit added to the optimistic counter is a ticket; it is later found to win an element or not. */
  datatype Ticket = Open | Won | Lost

  datatype Consumer =
    | Idle
    | TailLoaded(max: nat, tail: nat)
    | OverLoaded(max: nat, tail: nat, oc: nat)      // overcommit loaded
    | Wanting(d: nat, oc: nat)                      // d > 0 tickets to be drawn
    | Drawn(d: nat, oc: nat, my: nat)               // tickets my .. my + d, tail to be reloaded
    | Returning(over: nat, a: nat)                  // over lost tickets to be added to overcommit
    | Claiming(a: nat)                              // a indices to be taken from head

  /** The indices from `from` on, up to but not including `to`, that one consumer took from head. */
  datatype Claimed = Claimed(from: nat, to: nat)

  /** opt, over, head and tail are the four counters; `tickets` has one entry per unit of opt, and `claims`
      lists what was taken from head, in that order. */
  datatype State = State(
    tail: nat, opt: nat, over: nat, head: nat,
    tickets: seq<Ticket>, consumers: seq<Consumer>, claims: seq<Claimed>)

  datatype Action =
    | Enqueue(k: nat)
    | LoadTail(i: nat, max: nat) | LoadOver(i: nat) | LoadOpt(i: nat) | Draw(i: nat) | Decide(i: nat)
    | GiveBack(i: nat) | Claim(i: nat)

  predicate Enabled(s: State, a: Action)
  {
    (!a.Enqueue? ==> a.i < |s.consumers|) &&
    match a
    case Enqueue(_) => true
    case LoadTail(i, max) => s.consumers[i].Idle? && max > 0
    case LoadOver(i) => s.consumers[i].TailLoaded?
    case LoadOpt(i) => s.consumers[i].OverLoaded?
    case Draw(i) => s.consumers[i].Wanting?
    case Decide(i) => s.consumers[i].Drawn? && s.consumers[i].my + s.consumers[i].d <= |s.tickets|
    case GiveBack(i) => s.consumers[i].Returning?
    case Claim(i) => s.consumers[i].Claiming?
  }

  function Min(a: nat, b: nat): nat
  {
    if a < b then a else b
  }

  function Repeat(x: Ticket, n: nat): seq<Ticket>
  {
    seq(n, _ => x)
  }

  /** How many of d tickets from my on win, seen from overcommit oc and the reloaded tail. */
  function Winners(d: nat, oc: nat, my: nat, tail: nat): nat
  {
    if my < tail + oc then Min(d, tail + oc - my) else 0
  }

  function Apply(s: State, a: Action): State
    requires Enabled(s, a)
  {
    match a
    case Enqueue(k) => s.(tail := s.tail + k)
    case LoadTail(i, max) => s.(consumers := s.consumers[i := TailLoaded(max, s.tail)])
    case LoadOver(i) =>
      s.(consumers := s.consumers[i := OverLoaded(s.consumers[i].max, s.consumers[i].tail, s.over)])
    case LoadOpt(i) =>
      var c := s.consumers[i];
      var desired := Winners(c.max, c.oc, s.opt, c.tail);
      s.(consumers := s.consumers[i := if desired > 0 then Wanting(desired, c.oc) else Idle])
    case Draw(i) =>
      var c := s.consumers[i];
      s.(opt := s.opt + c.d, tickets := s.tickets + Repeat(Open, c.d),
         consumers := s.consumers[i := Drawn(c.d, c.oc, s.opt)])
    case Decide(i) =>
      var c := s.consumers[i];
      var w := Winners(c.d, c.oc, c.my, s.tail);
      s.(tickets := Decided(s.tickets, c.my, w, c.d - w),
         consumers := s.consumers[i := if w == c.d then Claiming(w) else Returning(c.d - w, w)])
    case GiveBack(i) =>
      var c := s.consumers[i];
      s.(over := s.over + c.over, consumers := s.consumers[i := if c.a > 0 then Claiming(c.a) else Idle])
    case Claim(i) =>
      s.(head := s.head + s.consumers[i].a, consumers := s.consumers[i := Idle],
         claims := s.claims + [Claimed(s.head, s.head + s.consumers[i].a)])
  }

  function Decided(tickets: seq<Ticket>, my: nat, won: nat, lost: nat): seq<Ticket>
    requires my + won + lost <= |tickets|
  {
    tickets[..my] + Repeat(Won, won) + Repeat(Lost, lost) + tickets[my + won + lost..]
  }

  ghost predicate Next(s: State, a: Action, s': State)
  {
    Enabled(s, a) && s' == Apply(s, a)
  }

  ghost predicate Init(s: State)
  {
    && s.tail == 0 && s.opt == 0 && s.over == 0 && s.head == 0 && s.tickets == [] && s.claims == []
    && forall i :: 0 <= i < |s.consumers| ==> s.consumers[i] == Idle
  }

  // ---------------------------------------------------------------- counting tickets

  function Count(ts: seq<Ticket>, x: Ticket): nat
  {
    if ts == [] then 0 else Count(ts[..|ts| - 1], x) + if ts[|ts| - 1] == x then 1 else 0
  }

  lemma {:induction false} CountAppend(a: seq<Ticket>, b: seq<Ticket>, x: Ticket)
    ensures Count(a + b, x) == Count(a, x) + Count(b, x)
  {
    if b == [] {
      assert a + b == a;
    } else {
      assert (a + b)[..|a + b| - 1] == a + b[..|b| - 1];
      CountAppend(a, b[..|b| - 1], x);
    }
  }

  lemma {:induction false} CountRepeat(y: Ticket, n: nat, x: Ticket)
    ensures Count(Repeat(y, n), x) == if x == y then n else 0
  {
    if n > 0 {
      assert Repeat(y, n)[..n - 1] == Repeat(y, n - 1);
      CountRepeat(y, n - 1, x);
    }
  }

  /** Where every x stays x, no prefix loses any. */
  lemma {:induction false} CountGrows(a: seq<Ticket>, b: seq<Ticket>, x: Ticket)
    requires |a| == |b| && forall k :: 0 <= k < |a| && a[k] == x ==> b[k] == x
    ensures Count(a, x) <= Count(b, x)
  {
    if a != [] {
      CountGrows(a[..|a| - 1], b[..|b| - 1], x);
    }
  }

  lemma {:induction false} CountAll(ts: seq<Ticket>)
    ensures Count(ts, Open) + Count(ts, Won) + Count(ts, Lost) == |ts|
  {
    if ts != [] {
      CountAll(ts[..|ts| - 1]);
    }
  }

  // ---------------------------------------------------------------- the invariant

  function LostBelow(ts: seq<Ticket>, k: nat): nat
    requires k <= |ts|
  {
    Count(ts[..k], Lost)
  }

  /** Even if every ticket up to a winning one had won, there would be an element for each. */
  predicate WinnersCovered(ts: seq<Ticket>, tail: nat)
  {
    forall k :: 0 <= k < |ts| && ts[k].Won? ==> k + 1 <= tail + LostBelow(ts, k + 1)
  }

  predicate ConsumerOk(c: Consumer, ts: seq<Ticket>)
  {
    match c
    case TailLoaded(max, _) => max > 0
    case OverLoaded(max, _, oc) => max > 0 && oc <= Count(ts, Lost)
    case Wanting(d, oc) => d > 0 && oc <= Count(ts, Lost)
    case Drawn(d, oc, my) =>
      && my + d <= |ts| && oc <= LostBelow(ts, my)
      && forall k :: my <= k < my + d ==> ts[k].Open?
    case _ => true
  }

  predicate Disjoint(c: Consumer, e: Consumer)
  {
    c.Drawn? && e.Drawn? ==> c.my + c.d <= e.my || e.my + e.d <= c.my
  }

  function OpenOf(c: Consumer): nat { if c.Drawn? then c.d else 0 }

  function OverOf(c: Consumer): nat { if c.Returning? then c.over else 0 }

  function ClaimOf(c: Consumer): nat { if c.Claiming? || c.Returning? then c.a else 0 }

  /** Open tickets are with consumers, lost ones in overcommit or owed to it, winners in head or owed to it. */
  predicate Balanced(s: State)
  {
    && |s.tickets| == s.opt
    && Count(s.tickets, Open) == Sum(s.consumers, OpenOf)
    && Count(s.tickets, Lost) == s.over + Sum(s.consumers, OverOf)
    && Count(s.tickets, Won) == s.head + Sum(s.consumers, ClaimOf)
  }

  ghost predicate Inv(s: State)
  {
    && Balanced(s)
    && WinnersCovered(s.tickets, s.tail)
    && (forall i :: 0 <= i < |s.consumers| ==> ConsumerOk(s.consumers[i], s.tickets))
    && (forall i, j :: 0 <= i < |s.consumers| && 0 <= j < |s.consumers| && i != j ==> Disjoint(s.consumers[i], s.consumers[j]))
  }

  lemma MoveSums(s: State, i: nat, c: Consumer)
    requires i < |s.consumers|
    ensures Sum(s.consumers[i := c], OpenOf) + OpenOf(s.consumers[i]) == Sum(s.consumers, OpenOf) + OpenOf(c)
    ensures Sum(s.consumers[i := c], OverOf) + OverOf(s.consumers[i]) == Sum(s.consumers, OverOf) + OverOf(c)
    ensures Sum(s.consumers[i := c], ClaimOf) + ClaimOf(s.consumers[i]) == Sum(s.consumers, ClaimOf) + ClaimOf(c)
  {
    SumAfter(s.consumers, i, c, OpenOf);
    SumAfter(s.consumers, i, c, OverOf);
    SumAfter(s.consumers, i, c, ClaimOf);
  }

  lemma EasyStepKeepsInv(s: State, a: Action)
    requires Inv(s) && Enabled(s, a) && !a.Enqueue? && !a.Draw? && !a.Decide?
    ensures Inv(Apply(s, a))
  {
    MoveSums(s, a.i, Apply(s, a).consumers[a.i]);
    if a.LoadOpt? { assert ConsumerOk(s.consumers[a.i], s.tickets); }
  }

  lemma EnqueueKeepsInv(s: State, k: nat)
    requires Inv(s)
    ensures Inv(Apply(s, Enqueue(k)))
  {
  }

  lemma DrawKeepsInv(s: State, i: nat)
    requires Inv(s) && Enabled(s, Draw(i))
    ensures Inv(Apply(s, Draw(i)))
  {
    var s' := Apply(s, Draw(i));
    var d := s.consumers[i].d;
    MoveSums(s, i, s'.consumers[i]);
    forall x ensures Count(s'.tickets, x) == Count(s.tickets, x) + (if x == Open then d else 0)
    {
      CountAppend(s.tickets, Repeat(Open, d), x);
      CountRepeat(Open, d, x);
    }
    forall k | 0 <= k <= |s.tickets|
      ensures s'.tickets[..k] == s.tickets[..k]
    {
    }
    assert s.tickets[..|s.tickets|] == s.tickets;
    assert ConsumerOk(s.consumers[i], s.tickets);
    forall j | 0 <= j < |s.consumers| && j != i
      ensures ConsumerOk(s.consumers[j], s'.tickets)
      ensures Disjoint(s'.consumers[i], s.consumers[j]) && Disjoint(s.consumers[j], s'.consumers[i])
    {
      assert ConsumerOk(s.consumers[j], s.tickets);
    }
  }

  /** Deciding tickets only turns open ones into won or lost ones. */
  lemma DecidedCounts(ts: seq<Ticket>, my: nat, won: nat, lost: nat)
    requires my + won + lost <= |ts| && forall k :: my <= k < my + won + lost ==> ts[k].Open?
    ensures var ts' := Decided(ts, my, won, lost);
      && |ts'| == |ts|
      && Count(ts', Open) + won + lost == Count(ts, Open)
      && Count(ts', Won) == Count(ts, Won) + won
      && Count(ts', Lost) == Count(ts, Lost) + lost
  {
    var a, b := ts[..my], ts[my + won + lost..];
    assert ts == a + Repeat(Open, won + lost) + b;
    forall x ensures Count(ts, x) == Count(a, x) + (if x == Open then won + lost else 0) + Count(b, x)
    {
      CountAppend(a + Repeat(Open, won + lost), b, x);
      CountAppend(a, Repeat(Open, won + lost), x);
      CountRepeat(Open, won + lost, x);
    }
    forall x
      ensures Count(Decided(ts, my, won, lost), x)
           == Count(a, x) + (if x == Won then won else 0) + (if x == Lost then lost else 0) + Count(b, x)
    {
      CountAppend(a + Repeat(Won, won) + Repeat(Lost, lost), b, x);
      CountAppend(a + Repeat(Won, won), Repeat(Lost, lost), x);
      CountAppend(a, Repeat(Won, won), x);
      CountRepeat(Won, won, x);
      CountRepeat(Lost, lost, x);
    }
  }

  lemma LostBelowGrows(ts: seq<Ticket>, my: nat, won: nat, lost: nat, k: nat)
    requires my + won + lost <= |ts| && k <= |ts|
    requires forall j :: my <= j < my + won + lost ==> ts[j].Open?
    ensures LostBelow(Decided(ts, my, won, lost), k) >= LostBelow(ts, k)
    ensures k <= my ==> LostBelow(Decided(ts, my, won, lost), k) == LostBelow(ts, k)
  {
    var ts' := Decided(ts, my, won, lost);
    assert forall j :: 0 <= j < k && ts[..k][j] == Lost ==> ts'[..k][j] == Lost;
    CountGrows(ts[..k], ts'[..k], Lost);
    if k <= my { assert ts'[..k] == ts[..k]; }
  }

  /** The heart of the argument: the overcommit a consumer read before drawing counts only lost tickets
      below its own. */
  lemma DecidedIsCovered(ts: seq<Ticket>, tail: nat, c: Consumer, k: nat)
    requires WinnersCovered(ts, tail) && c.Drawn? && ConsumerOk(c, ts) && k < |ts|
    requires var w := Winners(c.d, c.oc, c.my, tail); Decided(ts, c.my, w, c.d - w)[k].Won?
    ensures var w := Winners(c.d, c.oc, c.my, tail);
      k + 1 <= tail + LostBelow(Decided(ts, c.my, w, c.d - w), k + 1)
  {
    var w := Winners(c.d, c.oc, c.my, tail);
    LostBelowGrows(ts, c.my, w, c.d - w, k + 1);
    if c.my <= k < c.my + w {
      LostBelowGrows(ts, c.my, w, c.d - w, c.my);
      LongerPrefixLosesNone(Decided(ts, c.my, w, c.d - w), c.my, k + 1);
    } else {
      assert ts[k] == Decided(ts, c.my, w, c.d - w)[k];
    }
  }

  /** Deciding a batch of tickets keeps every winner covered. */
  lemma DecideCoversWinners(s: State, i: nat)
    requires Inv(s) && Enabled(s, Decide(i))
    ensures WinnersCovered(Apply(s, Decide(i)).tickets, s.tail)
  {
    var ts' := Apply(s, Decide(i)).tickets;
    assert ConsumerOk(s.consumers[i], s.tickets);
    forall k | 0 <= k < |ts'| && ts'[k].Won?
      ensures k + 1 <= s.tail + LostBelow(ts', k + 1)
    {
      DecidedIsCovered(s.tickets, s.tail, s.consumers[i], k);
    }
  }

  lemma LongerPrefixLosesNone(ts: seq<Ticket>, j: nat, k: nat)
    requires j <= k <= |ts|
    ensures LostBelow(ts, j) <= LostBelow(ts, k)
  {
    assert ts[..k] == ts[..j] + ts[j..k];
    CountAppend(ts[..j], ts[j..k], Lost);
  }

  /** A consumer's own tickets are still open when another has decided. */
  lemma DecideLeavesDrawn(ts: seq<Ticket>, c: Consumer, w: nat, e: Consumer)
    requires ConsumerOk(c, ts) && c.Drawn? && w <= c.d
    requires ConsumerOk(e, ts) && Disjoint(c, e) && e.Drawn?
    ensures ConsumerOk(e, Decided(ts, c.my, w, c.d - w))
  {
    LostBelowGrows(ts, c.my, w, c.d - w, e.my);
    var ts' := Decided(ts, c.my, w, c.d - w);
    forall k | e.my <= k < e.my + e.d
      ensures k < |ts'| && ts'[k].Open?
    {
      assert ts'[k] == ts[k];
    }
  }

  lemma DecideLeavesOthersOk(ts: seq<Ticket>, c: Consumer, w: nat, e: Consumer)
    requires ConsumerOk(c, ts) && c.Drawn? && w <= c.d
    requires ConsumerOk(e, ts) && Disjoint(c, e)
    ensures ConsumerOk(e, Decided(ts, c.my, w, c.d - w))
  {
    if e.Drawn? {
      DecideLeavesDrawn(ts, c, w, e);
    } else {
      DecidedCounts(ts, c.my, w, c.d - w);
    }
  }

  lemma DecideKeepsConsumers(s: State, i: nat)
    requires Inv(s) && Enabled(s, Decide(i))
    ensures var s' := Apply(s, Decide(i));
      && (forall j :: 0 <= j < |s'.consumers| ==> ConsumerOk(s'.consumers[j], s'.tickets))
      && forall j, k :: 0 <= j < |s'.consumers| && 0 <= k < |s'.consumers| && j != k ==>
           Disjoint(s'.consumers[j], s'.consumers[k])
  {
    var s' := Apply(s, Decide(i));
    var c := s.consumers[i];
    assert ConsumerOk(c, s.tickets);
    forall j | 0 <= j < |s.consumers| && j != i
      ensures ConsumerOk(s.consumers[j], s'.tickets)
    {
      assert ConsumerOk(s.consumers[j], s.tickets) && Disjoint(s.consumers[i], s.consumers[j]);
      DecideLeavesOthersOk(s.tickets, c, Winners(c.d, c.oc, c.my, s.tail), s.consumers[j]);
    }
  }

  /** A consumer that has decided passes its tickets on to its claim and its debt. */
  lemma DecideMovesSums(cs: seq<Consumer>, i: nat, w: nat)
    requires i < |cs| && cs[i].Drawn? && w <= cs[i].d
    ensures var d := cs[i].d;
      var cs' := cs[i := if w == d then Claiming(w) else Returning(d - w, w)];
      && Sum(cs', OpenOf) + d == Sum(cs, OpenOf)
      && Sum(cs', OverOf) == Sum(cs, OverOf) + d - w && Sum(cs', ClaimOf) == Sum(cs, ClaimOf) + w
  {
    var c := if w == cs[i].d then Claiming(w) else Returning(cs[i].d - w, w);
    SumAfter(cs, i, c, OpenOf);
    SumAfter(cs, i, c, OverOf);
    SumAfter(cs, i, c, ClaimOf);
  }

  lemma DecideKeepsBalance(s: State, i: nat)
    requires Balanced(s) && Enabled(s, Decide(i)) && ConsumerOk(s.consumers[i], s.tickets)
    ensures Balanced(Apply(s, Decide(i)))
  {
    var c := s.consumers[i];
    var w := Winners(c.d, c.oc, c.my, s.tail);
    DecidedCounts(s.tickets, c.my, w, c.d - w);
    DecideMovesSums(s.consumers, i, w);
  }

  lemma DecideKeepsInv(s: State, i: nat)
    requires Inv(s) && Enabled(s, Decide(i))
    ensures Inv(Apply(s, Decide(i)))
  {
    DecideCoversWinners(s, i);
    DecideKeepsConsumers(s, i);
    assert ConsumerOk(s.consumers[i], s.tickets);
    DecideKeepsBalance(s, i);
  }

  lemma StepKeepsInv(s: State, a: Action)
    requires Inv(s) && Enabled(s, a)
    ensures Inv(Apply(s, a))
  {
    match a
    case Enqueue(k) => EnqueueKeepsInv(s, k);
    case Draw(i) => DrawKeepsInv(s, i);
    case Decide(i) => DecideKeepsInv(s, i);
    case _ => EasyStepKeepsInv(s, a);
  }

  lemma ReachableHoldsInv(s: State)
    requires Runs.Reachable(Init, Next, s)
    ensures Inv(s)
  {
    forall r | Init(r)
      ensures Inv(r)
    {
      SumOfZeros(r.consumers, OpenOf);
      SumOfZeros(r.consumers, OverOf);
      SumOfZeros(r.consumers, ClaimOf);
    }
    forall r: State, a, r' | Inv(r) && Next(r, a, r')
      ensures Inv(r')
    {
      StepKeepsInv(r, a);
    }
    Runs.ReachableKeepsInvariant(Init, Next, Inv, s);
  }

  // ---------------------------------------------------------------- what the tickets guarantee

  /** Winning tickets never outnumber the elements. */
  lemma {:induction false} WinnersFit(ts: seq<Ticket>, tail: nat, k: nat)
    requires WinnersCovered(ts, tail) && k <= |ts|
    ensures Count(ts[..k], Won) <= tail
  {
    if k > 0 {
      WinnersFit(ts, tail, k - 1);
      assert ts[..k][..k - 1] == ts[..k - 1];
      if ts[k - 1].Won? {
        CountAll(ts[..k]);
      }
    }
  }

  /** Every index taken from head, now or by a claim already decided, is below tail. */
  lemma ClaimsStayBelowTail(s: State, i: nat)
    requires Runs.Reachable(Init, Next, s) && i < |s.consumers|
    ensures s.head + ClaimOf(s.consumers[i]) <= s.head + Sum(s.consumers, ClaimOf) <= s.tail
  {
    ReachableHoldsInv(s);
    assert s.tickets[..|s.tickets|] == s.tickets;
    WinnersFit(s.tickets, s.tail, |s.tickets|);
    WeightWithinSum(s.consumers, i, ClaimOf);
  }

  /** The claims follow one another from index 0 to head. */
  ghost predicate ClaimsInOrder(s: State)
  {
    && (if s.claims == [] then s.head == 0 else s.claims[0].from == 0 && s.claims[|s.claims| - 1].to == s.head)
    && (forall i :: 0 <= i < |s.claims| ==> s.claims[i].from <= s.claims[i].to)
    && forall i, j :: 0 <= i && j == i + 1 && j < |s.claims| ==> s.claims[i].to == s.claims[j].from
  }

  lemma ReachableClaimsInOrder(s: State)
    requires Runs.Reachable(Init, Next, s)
    ensures ClaimsInOrder(s)
  {
    Runs.ReachableKeepsInvariant(Init, Next, ClaimsInOrder, s);
  }

  /** Of claims in order, exactly one holds index x. */
  lemma {:induction false} OneClaimHolds(claims: seq<Claimed>, x: nat) returns (i: nat)
    requires claims != [] && claims[0].from <= x < claims[|claims| - 1].to
    requires forall i :: 0 <= i < |claims| ==> claims[i].from <= claims[i].to
    requires forall i, j :: 0 <= i && j == i + 1 && j < |claims| ==> claims[i].to == claims[j].from
    ensures i < |claims| && claims[i].from <= x < claims[i].to
    ensures forall j :: 0 <= j < |claims| && j != i ==> !(claims[j].from <= x < claims[j].to)
  {
    var m := |claims| - 1;
    AllEndBefore(claims);
    if x >= claims[m].from {
      i := m;
    } else {
      assert m > 0 ==> claims[m - 1].to == claims[m].from;
      i := OneClaimHolds(claims[..m], x);
      assert forall j :: 0 <= j < m ==> claims[..m][j] == claims[j];
    }
  }

  lemma {:induction false} AllEndBefore(claims: seq<Claimed>)
    requires claims != []
    requires forall i :: 0 <= i < |claims| ==> claims[i].from <= claims[i].to
    requires forall i, j :: 0 <= i && j == i + 1 && j < |claims| ==> claims[i].to == claims[j].from
    ensures forall j :: 0 <= j < |claims| - 1 ==> claims[j].to <= claims[|claims| - 1].from
  {
    var m := |claims| - 1;
    if m > 0 {
      AllEndBefore(claims[..m]);
      assert claims[m - 1].to == claims[m].from;
      forall j | 0 <= j < m
        ensures claims[j].to <= claims[m].from
      {
        assert claims[..m][j] == claims[j] && claims[..m][m - 1] == claims[m - 1];
      }
    }
  }

  /** Every index up to head has been taken by exactly one claim, and no other index by any. */
  lemma EachIndexClaimedOnce(s: State, x: nat) returns (i: nat)
    requires Runs.Reachable(Init, Next, s) && x < s.head
    ensures i < |s.claims| && s.claims[i].from <= x < s.claims[i].to <= s.head
    ensures forall j :: 0 <= j < |s.claims| && j != i ==> !(s.claims[j].from <= x < s.claims[j].to)
    ensures forall j :: 0 <= j < |s.claims| ==> s.claims[j].to <= s.head
  {
    ReachableClaimsInOrder(s);
    i := OneClaimHolds(s.claims, x);
    AllEndBefore(s.claims);
  }

  /** At rest the counters agree, so that the next dequeue finds an element exactly when there is one. */
  lemma CountersAgreeAtRest(s: State, i: nat, max: nat)
    requires Runs.Reachable(Init, Next, s) && i < |s.consumers| && max > 0
    requires forall j :: 0 <= j < |s.consumers| ==> s.consumers[j].Idle?
    ensures s.opt == s.head + s.over && s.head <= s.tail
    ensures Winners(max, s.over, s.opt, s.tail) == Min(max, s.tail - s.head)
  {
    ReachableHoldsInv(s);
    ClaimsStayBelowTail(s, i);
    SumOfZeros(s.consumers, OpenOf);
    SumOfZeros(s.consumers, OverOf);
    SumOfZeros(s.consumers, ClaimOf);
    CountAll(s.tickets);
  }

  /** A dequeue turns back exactly if the optimistic count, less the overcommit it read, has reached the tail
      it read. Then every element there was when it read the tail is taken, or is as good as taken: claimed, or
      behind an open ticket, or behind a lost one that is still to be, or has just been, given back. */
  lemma TurnsBackIff(s: State, i: nat)
    requires Runs.Reachable(Init, Next, s) && Enabled(s, LoadOpt(i))
    ensures var c := s.consumers[i];
      && (Apply(s, LoadOpt(i)).consumers[i].Idle? <==> c.tail + c.oc <= s.opt)
      && (Apply(s, LoadOpt(i)).consumers[i].Idle? ==>
            c.tail <= s.head + Sum(s.consumers, ClaimOf) + Sum(s.consumers, OpenOf) + Sum(s.consumers, OverOf) + s.over - c.oc)
  {
    ReachableHoldsInv(s);
    CountAll(s.tickets);
    assert ConsumerOk(s.consumers[i], s.tickets);
    assert s.consumers[i].max > 0;
  }

  // ---------------------------------------------------------------- a dequeue that runs alone

  ghost predicate AtRest(s: State)
  {
    forall j :: 0 <= j < |s.consumers| ==> s.consumers[j].Idle?
  }

  /** These accesses and no others lead from s to s'. */
  ghost predicate RanAlone(s: State, actions: seq<Action>, s': State)
  {
    exists states: seq<State> :: StepsLead(s, states, actions) && states[|actions|] == s'
  }

  ghost predicate StepsLead(s: State, states: seq<State>, actions: seq<Action>)
  {
    && |states| == |actions| + 1 && states[0] == s
    && forall k :: 0 <= k < |actions| ==> Next(states[k], actions[k], states[k + 1])
  }

  /** At rest a dequeue of up to max elements takes as many as there are, up to max, and the next one
      will find things in order too. */
  lemma DequeueAtRest(s: State, i: nat, max: nat) returns (actions: seq<Action>, s': State)
    requires Runs.Reachable(Init, Next, s) && AtRest(s) && i < |s.consumers| && max > 0
    ensures RanAlone(s, actions, s') && AtRest(s') && |s'.consumers| == |s.consumers|
    ensures s.head <= s.tail == s'.tail
    ensures s'.head == if s.head + max <= s.tail then s.head + max else s.tail
    ensures s'.opt - s'.over == s'.head
    ensures actions == if s.head == s.tail then [LoadTail(i, max), LoadOver(i), LoadOpt(i)]
                       else [LoadTail(i, max), LoadOver(i), LoadOpt(i), Draw(i), Decide(i), Claim(i)]
  {
    CountersAgreeAtRest(s, i, max);
    var a1 := LoadTail(i, max);
    var s1 := Apply(s, a1);
    var s2 := Apply(s1, LoadOver(i));
    var s3 := Apply(s2, LoadOpt(i));
    if s.head == s.tail {
      actions, s' := [a1, LoadOver(i), LoadOpt(i)], s3;
      assert StepsLead(s, [s, s1, s2, s3], actions);
    } else {
      var s4 := Apply(s3, Draw(i));
      ReachableHoldsInv(s);
      var s5 := Apply(s4, Decide(i));
      s' := Apply(s5, Claim(i));
      actions := [a1, LoadOver(i), LoadOpt(i), Draw(i), Decide(i), Claim(i)];
      assert StepsLead(s, [s, s1, s2, s3, s4, s5, s'], actions);
    }
  }

  /** And so after elements have been added to a queue at rest. */
  lemma EnqueuedIsFound(s: State, k: nat, i: nat, max: nat) returns (actions: seq<Action>, s': State)
    requires Runs.Reachable(Init, Next, s) && AtRest(s) && i < |s.consumers| && max > 0
    ensures RanAlone(s, [Enqueue(k)] + actions, s') && AtRest(s')
    ensures s.head <= s.tail && s'.head == if s.head + max <= s.tail + k then s.head + max else s.tail + k
  {
    var s1 := Apply(s, Enqueue(k));
    Runs.StepStaysReachable(Init, Next, s, Enqueue(k), s1);
    actions, s' := DequeueAtRest(s1, i, max);
    var states :| StepsLead(s1, states, actions) && states[|actions|] == s';
    assert StepsLead(s, [s] + states, [Enqueue(k)] + actions);
    ReachableHoldsInv(s);
    CountersAgreeAtRest(s, i, max);
  }

  /** The assertion in the code: the overcommit read is no more than the tickets drawn before one's own. */
  lemma OvercommitBelowOwnTicket(s: State, i: nat)
    requires Runs.Reachable(Init, Next, s) && i < |s.consumers| && s.consumers[i].Drawn?
    ensures s.consumers[i].oc <= s.consumers[i].my
  {
    ReachableHoldsInv(s);
    assert ConsumerOk(s.consumers[i], s.tickets);
    CountAll(s.tickets[..s.consumers[i].my]);
  }
}
