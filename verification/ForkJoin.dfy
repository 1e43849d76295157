/** ParallelForFJ at work: the caller and any number of workers split ranges, spawn right halves as tasks and
    run leaves; one wait group counts the tasks. One action per atomic access or call. */
module ForkJoin {
  import Runs
  import opened Sums

  /** A piece of the range. Counted: the group has been bumped for the right half, which is about to be
      pushed. Inline: no task was to be had and the right half is being run on the spot. Owed: the work is
      done, the group is still to be counted down. */
  datatype Phase = Pending | Running | Counted | Inline | Owed | Done(split: bool)

  /** `task` says that finishing the piece counts the group down. */
  datatype Piece = Piece(lo: int, hi: int, phase: Phase, task: bool)

  /** The pieces in order of position, the group's count, and the calls of func in the order they were made. */
  datatype State = State(start: int, end: int, grain: int, pieces: seq<Piece>, count: int, calls: seq<Call>)

  datatype Call = Call(lo: int, hi: int)

  datatype Action =
    | Take(k: nat)        // a worker starts a pushed task
    | Bump(k: nat)        // CreateTask worked, the group is bumped
    | Push(k: nat)        // the right half becomes a task, the splitter goes on with the left half
    | NoTask(k: nat)      // CreateTask failed
    | RanInline(k: nat)
    | RanLeaf(k: nat)
    | CountDown(k: nat)

  function Size(p: Piece): int { p.hi - p.lo }

  predicate Enabled(s: State, a: Action)
  {
    a.k < |s.pieces| &&
    var p := s.pieces[a.k];
    match a
    case Take(_) => p.phase.Pending?
    case Bump(_) => p.phase.Running? && Size(p) > s.grain
    case Push(_) => p.phase.Counted?
    case NoTask(_) => p.phase.Running? && Size(p) > s.grain
    case RanInline(_) => p.phase.Inline?
    case RanLeaf(_) => p.phase.Running? && Size(p) <= s.grain
    case CountDown(_) => p.phase.Owed?
  }

  function Mid(p: Piece): int { p.lo + Size(p) / 2 }

  /** Piece k is replaced by p and, behind it, q. */
  function Split(ps: seq<Piece>, k: nat, p: Piece, q: Piece): seq<Piece>
    requires k < |ps|
  {
    ps[..k] + [p, q] + ps[k + 1..]
  }

  function Apply(s: State, a: Action): State
    requires Enabled(s, a)
  {
    var k, p := a.k, s.pieces[a.k];
    match a
    case Take(_) => s.(pieces := s.pieces[k := p.(phase := Running)])
    case Bump(_) => s.(count := s.count + 1, pieces := s.pieces[k := p.(phase := Counted)])
    case Push(_) =>
      s.(pieces := Split(s.pieces, k, p.(hi := Mid(p), phase := Running), Piece(Mid(p), p.hi, Pending, true)))
    case NoTask(_) => s.(pieces := s.pieces[k := p.(phase := Inline)])
    case RanInline(_) =>
      s.(pieces := Split(s.pieces, k, p.(hi := Mid(p), phase := Running), Piece(Mid(p), p.hi, Done(false), false)),
         calls := s.calls + [Call(Mid(p), p.hi)])
    case RanLeaf(_) =>
      s.(pieces := s.pieces[k := p.(phase := if p.task then Owed else Done(true))], calls := s.calls + [Call(p.lo, p.hi)])
    case CountDown(_) => s.(count := s.count - 1, pieces := s.pieces[k := p.(phase := Done(true))])
  }

  ghost predicate Next(s: State, a: Action, s': State)
  {
    Enabled(s, a) && s' == Apply(s, a)
  }

  /** Ranges no longer than the grain are run without splitting and never get here. */
  ghost predicate Init(s: State)
  {
    && s.grain >= 1 && s.end - s.start > s.grain && s.count == 0
    && s.pieces == [Piece(s.start, s.end, Running, false)] && s.calls == []
  }

  // ---------------------------------------------------------------- the invariant

  ghost predicate Tiles(ps: seq<Piece>, lo: int, hi: int)
  {
    && ps != [] && ps[0].lo == lo && ps[|ps| - 1].hi == hi
    && (forall k :: 0 <= k < |ps| ==> ps[k].lo < ps[k].hi)
    && forall j, k :: 0 <= j && k == j + 1 && k < |ps| ==> ps[j].hi == ps[k].lo
  }

  /** What a piece stands for in the group's count. */
  function Weight(p: Piece): nat
  {
    (if p.task && !p.phase.Done? then 1 else 0) + if p.phase.Counted? then 1 else 0
  }

  predicate PieceOk(p: Piece, grain: int)
  {
    && Size(p) >= (grain + 1) / 2
    && (p.phase.Counted? || p.phase.Inline? ==> Size(p) > grain)
    && (p.phase.Owed? ==> p.task) && (p.phase.Pending? ==> p.task)
    && (p.phase.Owed? || p.phase == Done(true) ==> Size(p) <= grain)
  }

  /** Only the first piece can be the caller's. */
  ghost predicate Inv(s: State)
  {
    && s.grain >= 1
    && Tiles(s.pieces, s.start, s.end)
    && s.count == Sum(s.pieces, Weight)
    && (forall k :: 0 <= k < |s.pieces| ==> PieceOk(s.pieces[k], s.grain))
    && forall k :: 1 <= k < |s.pieces| ==> NotCallers(s.pieces[k])
  }

  lemma {:induction false} SumOfTwo<T>(a: seq<T>, b: seq<T>, weight: T -> nat)
    ensures Sum(a + b, weight) == Sum(a, weight) + Sum(b, weight)
  {
    if b == [] {
      assert a + b == a;
    } else {
      assert (a + b)[..|a + b| - 1] == a + b[..|b| - 1];
      SumOfTwo(a, b[..|b| - 1], weight);
    }
  }

  lemma SplitSum(ps: seq<Piece>, k: nat, p: Piece, q: Piece, weight: Piece -> nat)
    requires k < |ps|
    ensures Sum(Split(ps, k, p, q), weight) + weight(ps[k]) == Sum(ps, weight) + weight(p) + weight(q)
  {
    var a, b := ps[..k], ps[k + 1..];
    assert ps == a + [ps[k]] + b;
    SumOfTwo(a + [ps[k]], b, weight);
    SumOfTwo(a, [ps[k]], weight);
    SumOfTwo(a + [p, q], b, weight);
    SumOfTwo(a, [p, q], weight);
    assert [p, q][..1] == [p];
    assert Sum([p, q], weight) == weight(p) + weight(q);
  }

  lemma SplitTiles(ps: seq<Piece>, k: nat, p: Piece, q: Piece, lo: int, hi: int)
    requires Tiles(ps, lo, hi) && k < |ps|
    requires p.lo == ps[k].lo && q.hi == ps[k].hi && p.lo < p.hi == q.lo < q.hi
    ensures Tiles(Split(ps, k, p, q), lo, hi)
  {
    var ps' := Split(ps, k, p, q);
    assert forall j :: 0 <= j < |ps'| ==>
      ps'[j] == if j < k then ps[j] else if j == k then p else if j == k + 1 then q else ps[j - 1];
    forall i, j | 0 <= i && j == i + 1 && j < |ps'|
      ensures ps'[i].hi == ps'[j].lo
    {
      if i < k {
        assert ps[i].hi == ps[i + 1].lo;
      } else if i > k {
        assert ps[i - 1].hi == ps[i].lo;
      }
    }
  }

  lemma HalvesOk(p: Piece, grain: int)
    requires grain >= 1 && PieceOk(p, grain) && (p.phase.Counted? || p.phase.Inline?)
    ensures p.lo < Mid(p) < p.hi
    ensures Mid(p) - p.lo >= (grain + 1) / 2 && p.hi - Mid(p) >= (grain + 1) / 2
  {
  }

  function LeftHalf(p: Piece): Piece { p.(hi := Mid(p), phase := Running) }

  function RightHalf(p: Piece): Piece
  {
    if p.phase.Counted? then Piece(Mid(p), p.hi, Pending, true) else Piece(Mid(p), p.hi, Done(false), false)
  }

  predicate NotCallers(p: Piece) { p.task || p.phase.Done? }

  lemma SplitKeepsPieces(ps: seq<Piece>, k: nat, grain: int)
    requires k < |ps| && grain >= 1 && (ps[k].phase.Counted? || ps[k].phase.Inline?)
    requires forall j :: 0 <= j < |ps| ==> PieceOk(ps[j], grain)
    requires forall j :: 1 <= j < |ps| ==> NotCallers(ps[j])
    ensures var ps' := Split(ps, k, LeftHalf(ps[k]), RightHalf(ps[k]));
      && (forall j :: 0 <= j < |ps'| ==> PieceOk(ps'[j], grain))
      && forall j :: 1 <= j < |ps'| ==> NotCallers(ps'[j])
  {
    HalvesOk(ps[k], grain);
    var ps' := Split(ps, k, LeftHalf(ps[k]), RightHalf(ps[k]));
    assert forall j :: 0 <= j < |ps'| ==>
      ps'[j] == if j < k then ps[j] else if j == k then LeftHalf(ps[k]) else if j == k + 1 then RightHalf(ps[k]) else ps[j - 1];
    assert PieceOk(LeftHalf(ps[k]), grain) && PieceOk(RightHalf(ps[k]), grain);
  }

  lemma SplitKeepsInv(s: State, a: Action)
    requires Inv(s) && Enabled(s, a) && (a.Push? || a.RanInline?)
    ensures Inv(Apply(s, a))
  {
    var p := s.pieces[a.k];
    assert PieceOk(p, s.grain);
    SplitStays(s, a.k);
    assert Apply(s, a).pieces == Split(s.pieces, a.k, LeftHalf(p), RightHalf(p));
  }

  lemma SplitStays(s: State, k: nat)
    requires Inv(s) && k < |s.pieces| && (s.pieces[k].phase.Counted? || s.pieces[k].phase.Inline?)
    ensures Inv(s.(pieces := Split(s.pieces, k, LeftHalf(s.pieces[k]), RightHalf(s.pieces[k]))))
  {
    var p := s.pieces[k];
    HalvesOk(p, s.grain);
    SplitKeepsPieces(s.pieces, k, s.grain);
    SplitTiles(s.pieces, k, LeftHalf(p), RightHalf(p), s.start, s.end);
    SplitSum(s.pieces, k, LeftHalf(p), RightHalf(p), Weight);
  }

  lemma ReplaceTiles(ps: seq<Piece>, k: nat, p: Piece, lo: int, hi: int)
    requires Tiles(ps, lo, hi) && k < |ps| && p.lo == ps[k].lo && p.hi == ps[k].hi
    ensures Tiles(ps[k := p], lo, hi)
  {
  }

  lemma StepKeepsInv(s: State, a: Action)
    requires Inv(s) && Enabled(s, a)
    ensures Inv(Apply(s, a))
  {
    if a.Push? || a.RanInline? {
      SplitKeepsInv(s, a);
    } else {
      PlainStepKeepsInv(s, a);
    }
  }

  lemma ReplaceStays(s: State, k: nat, p: Piece, count: int)
    requires Inv(s) && k < |s.pieces| && p.lo == s.pieces[k].lo && p.hi == s.pieces[k].hi
    requires PieceOk(p, s.grain) && (k >= 1 ==> NotCallers(p))
    requires count == s.count + Weight(p) - Weight(s.pieces[k])
    ensures Inv(s.(pieces := s.pieces[k := p], count := count))
  {
    SumAfter(s.pieces, k, p, Weight);
    ReplaceTiles(s.pieces, k, p, s.start, s.end);
  }

  lemma PlainStepKeepsInv(s: State, a: Action)
    requires Inv(s) && Enabled(s, a) && !a.Push? && !a.RanInline?
    ensures Inv(Apply(s, a))
  {
    var s' := Apply(s, a);
    assert PieceOk(s.pieces[a.k], s.grain) && (a.k >= 1 ==> NotCallers(s.pieces[a.k]));
    ReplaceStays(s, a.k, s'.pieces[a.k], s'.count);
    assert s'.pieces == s.pieces[a.k := s'.pieces[a.k]];
  }

  lemma InitHoldsInv(s: State)
    requires Init(s)
    ensures Inv(s)
  {
    assert s.pieces[..0] == [];
    assert Sum(s.pieces, Weight) == Sum(s.pieces[..0], Weight) + Weight(s.pieces[0]);
  }

  lemma ReachableHoldsInv(s: State)
    requires Runs.Reachable(Init, Next, s)
    ensures Inv(s)
  {
    forall r | Init(r)
      ensures Inv(r)
    {
      InitHoldsInv(r);
    }
    forall r: State, a, r' | Inv(r) && Next(r, a, r')
      ensures Inv(r')
    {
      StepKeepsInv(r, a);
    }
    Runs.ReachableKeepsInvariant(Init, Next, Inv, s);
  }

  // ---------------------------------------------------------------- coverage

  /** Open pieces, waiting tasks and finished leaves always partition the range, and the group counts the
      tasks that have been counted in and not yet counted down. */
  lemma PiecesPartition(s: State)
    requires Runs.Reachable(Init, Next, s)
    ensures Tiles(s.pieces, s.start, s.end) && s.count == Sum(s.pieces, Weight)
  {
    ReachableHoldsInv(s);
  }

  predicate AllDone(s: State)
  {
    forall k :: 0 <= k < |s.pieces| ==> s.pieces[k].phase.Done?
  }

  /** When the caller has finished its own part and reads a count of zero, everything is done; and the
      count will not rise again. */
  lemma ZeroMeansDone(s: State)
    requires Runs.Reachable(Init, Next, s) && s.pieces != [] && s.pieces[0].phase.Done? && s.count == 0
    ensures AllDone(s) && Tiles(s.pieces, s.start, s.end)
    ensures forall a :: !Enabled(s, a)
  {
    ReachableHoldsInv(s);
    forall k | 0 <= k < |s.pieces|
      ensures s.pieces[k].phase.Done?
    {
      WeightWithinSum(s.pieces, k, Weight);
    }
  }

  /** The one piece an item is in. */
  lemma {:induction false} ItemInOnePiece(ps: seq<Piece>, lo: int, hi: int, x: int) returns (k: nat)
    requires Tiles(ps, lo, hi) && lo <= x < hi
    ensures k < |ps| && ps[k].lo <= x < ps[k].hi
    ensures forall j :: 0 <= j < |ps| && j != k ==> !(ps[j].lo <= x < ps[j].hi)
  {
    var m := |ps| - 1;
    PiecesInOrder(ps, lo, hi);
    if x >= ps[m].lo {
      k := m;
    } else {
      assert Tiles(ps[..m], lo, ps[m].lo) by { assert m > 0 ==> ps[m - 1].hi == ps[m].lo; }
      k := ItemInOnePiece(ps[..m], lo, ps[m].lo, x);
      assert forall j :: 0 <= j < m ==> ps[..m][j] == ps[j];
    }
  }

  lemma {:induction false} PiecesInOrder(ps: seq<Piece>, lo: int, hi: int)
    requires Tiles(ps, lo, hi)
    ensures forall j, k :: 0 <= j < k < |ps| ==> ps[j].hi <= ps[k].lo
  {
    var m := |ps| - 1;
    if m > 0 {
      assert ps[m - 1].hi == ps[m].lo;
      PiecesInOrder(ps[..m], lo, ps[m].lo);
      forall j, k | 0 <= j < k < |ps|
        ensures ps[j].hi <= ps[k].lo
      {
        if k < m { assert ps[..m][j].hi <= ps[..m][k].lo; }
        if k == m && j < m - 1 { assert ps[..m][j].hi <= ps[..m][m - 1].lo; }
      }
    }
  }

  // ---------------------------------------------------------------- the calls of func

  /** 1 for a piece on which func has been called and whose bounds are those of c. */
  function CalledAs(c: Call): Piece -> nat
  {
    (p: Piece) => if (p.phase.Owed? || p.phase.Done?) && Call(p.lo, p.hi) == c then 1 else 0
  }

  /** The calls made are the pieces done, one for one. */
  ghost predicate CallsMatch(s: State)
  {
    forall c :: multiset(s.calls)[c] == Sum(s.pieces, CalledAs(c))
  }

  lemma OneMoreCall(calls: seq<Call>, c: Call, d: Call)
    ensures multiset(calls + [d])[c] == multiset(calls)[c] + if c == d then 1 else 0
  {
  }

  lemma SplitKeepsCalls(s: State, a: Action, c: Call)
    requires CallsMatch(s) && Enabled(s, a) && (a.Push? || a.RanInline?)
    ensures multiset(Apply(s, a).calls)[c] == Sum(Apply(s, a).pieces, CalledAs(c))
  {
    var p := s.pieces[a.k];
    var l, r := LeftHalf(p), RightHalf(p);
    SplitSum(s.pieces, a.k, l, r, CalledAs(c));
    assert Apply(s, a).pieces == Split(s.pieces, a.k, l, r);
    assert CalledAs(c)(l) == 0 && CalledAs(c)(p) == 0;
    OneMoreCall(s.calls, c, Call(r.lo, r.hi));
  }

  lemma PlainStepKeepsCalls(s: State, a: Action, c: Call)
    requires CallsMatch(s) && Enabled(s, a) && !a.Push? && !a.RanInline?
    ensures multiset(Apply(s, a).calls)[c] == Sum(Apply(s, a).pieces, CalledAs(c))
  {
    var p, p' := s.pieces[a.k], Apply(s, a).pieces[a.k];
    SumAfter(s.pieces, a.k, p', CalledAs(c));
    assert Apply(s, a).pieces == s.pieces[a.k := p'];
    OneMoreCall(s.calls, c, Call(p.lo, p.hi));
  }

  lemma StepKeepsCalls(s: State, a: Action)
    requires CallsMatch(s) && Enabled(s, a)
    ensures CallsMatch(Apply(s, a))
  {
    forall c
      ensures multiset(Apply(s, a).calls)[c] == Sum(Apply(s, a).pieces, CalledAs(c))
    {
      if a.Push? || a.RanInline? {
        SplitKeepsCalls(s, a, c);
      } else {
        PlainStepKeepsCalls(s, a, c);
      }
    }
  }

  ghost predicate InvWithCalls(s: State) { Inv(s) && CallsMatch(s) }

  lemma ReachableCallsMatch(s: State)
    requires Runs.Reachable(Init, Next, s)
    ensures CallsMatch(s)
  {
    forall r | Init(r)
      ensures InvWithCalls(r)
    {
      InitHoldsInv(r);
      forall c
        ensures Sum(r.pieces, CalledAs(c)) == 0
      {
        SumOfZeros(r.pieces, CalledAs(c));
      }
    }
    forall r: State, a, r' | InvWithCalls(r) && Next(r, a, r')
      ensures InvWithCalls(r')
    {
      StepKeepsInv(r, a);
      StepKeepsCalls(r, a);
    }
    Runs.ReachableKeepsInvariant(Init, Next, InvWithCalls, s);
  }

  /** Pieces with the bounds of c, of which there is only piece k. */
  lemma {:induction false} OnlyOnce(ps: seq<Piece>, k: nat, c: Call)
    requires k < |ps| && forall j :: 0 <= j < |ps| && j != k ==> Call(ps[j].lo, ps[j].hi) != c
    ensures Sum(ps, CalledAs(c)) == CalledAs(c)(ps[k])
  {
    var m := |ps| - 1;
    if k < m {
      OnlyOnce(ps[..m], k, c);
    } else {
      SumOfZeros(ps[..m], CalledAs(c));
    }
  }

  lemma {:induction false} SomePiece(ps: seq<Piece>, c: Call) returns (k: nat)
    requires Sum(ps, CalledAs(c)) > 0
    ensures k < |ps| && Call(ps[k].lo, ps[k].hi) == c
  {
    var m := |ps| - 1;
    if CalledAs(c)(ps[m]) > 0 {
      k := m;
    } else {
      k := SomePiece(ps[..m], c);
    }
  }

  /** An element that occurs once is at one place. */
  lemma OccursOnce(calls: seq<Call>, i: nat, j: nat)
    requires i < |calls| && j < |calls| && i != j && calls[i] == calls[j]
    ensures multiset(calls)[calls[i]] >= 2
  {
    var lo, hi := if i < j then i else j, if i < j then j else i;
    assert calls == calls[..hi] + calls[hi..];
    assert calls[..hi][lo] == calls[i] && calls[hi..][0] == calls[i];
    assert calls[i] in calls[..hi] && calls[i] in calls[hi..];
  }

  /** After the wait, exactly one of the calls made covers the item. */
  lemma EachItemRunOnce(s: State, x: int) returns (i: nat)
    requires Runs.Reachable(Init, Next, s) && s.pieces != [] && s.pieces[0].phase.Done? && s.count == 0
    requires s.start <= x < s.end
    ensures i < |s.calls| && s.calls[i].lo <= x < s.calls[i].hi
    ensures forall j :: 0 <= j < |s.calls| && j != i ==> !(s.calls[j].lo <= x < s.calls[j].hi)
  {
    ZeroMeansDone(s);
    ReachableCallsMatch(s);
    var k := ItemInOnePiece(s.pieces, s.start, s.end, x);
    var c := Call(s.pieces[k].lo, s.pieces[k].hi);
    OnlyOnce(s.pieces, k, c);
    assert multiset(s.calls)[c] == 1;
    i :| 0 <= i < |s.calls| && s.calls[i] == c;
    forall j | 0 <= j < |s.calls| && s.calls[j].lo <= x < s.calls[j].hi
      ensures j == i
    {
      assert multiset(s.calls)[s.calls[j]] > 0;
      var l := SomePiece(s.pieces, s.calls[j]);
      if j != i { OccursOnce(s.calls, i, j); }
    }
  }

  /** A leaf that splitting led to is no longer than the grain and at least half as long, rounded; only
      pieces run inline for want of a task can be longer. */
  lemma LeafSizes(s: State, k: nat)
    requires Runs.Reachable(Init, Next, s) && k < |s.pieces| && s.pieces[k].phase.Done?
    ensures Size(s.pieces[k]) >= (s.grain + 1) / 2
    ensures s.pieces[k].phase.split ==> Size(s.pieces[k]) <= s.grain
  {
    ReachableHoldsInv(s);
    assert PieceOk(s.pieces[k], s.grain);
  }

  // ---------------------------------------------------------------- every run ends

  function Effort(p: Piece): nat
  {
    if Size(p) <= 0 then 0
    else match p.phase
      case Pending => 8 * Size(p) - 3
      case Running => 8 * Size(p) - 4
      case Counted => 8 * Size(p) - 5
      case Inline => 8 * Size(p) - 5
      case Owed => 1
      case Done(_) => 0
  }

  lemma SplitDecreasesEffort(p: Piece, grain: int)
    requires grain >= 1 && PieceOk(p, grain) && (p.phase.Counted? || p.phase.Inline?)
    ensures Effort(LeftHalf(p)) + Effort(RightHalf(p)) < Effort(p)
  {
    HalvesOk(p, grain);
  }

  lemma StepDecreasesEffort(s: State, a: Action)
    requires Inv(s) && Enabled(s, a)
    ensures Sum(Apply(s, a).pieces, Effort) < Sum(s.pieces, Effort)
  {
    var p := s.pieces[a.k];
    assert PieceOk(p, s.grain);
    if a.Push? || a.RanInline? {
      SplitDecreasesEffort(p, s.grain);
      SplitSum(s.pieces, a.k, LeftHalf(p), RightHalf(p), Effort);
      assert Apply(s, a).pieces == Split(s.pieces, a.k, LeftHalf(p), RightHalf(p));
    } else {
      var p' := Apply(s, a).pieces[a.k];
      assert Effort(p') < Effort(p);
      SumAfter(s.pieces, a.k, p', Effort);
    }
  }

  /** No run takes more than eight steps an item, and one that cannot go on has done everything. */
  lemma {:induction false} RunsEnd(states: seq<State>, actions: seq<Action>)
    requires Runs.IsRun(Init, Next, states, actions)
    ensures |actions| + Sum(states[|actions|].pieces, Effort) <= 8 * (states[0].end - states[0].start)
    decreases |actions|
  {
    if actions == [] {
      var s := states[0];
      assert Sum(s.pieces, Effort) == Effort(s.pieces[0]);
    } else {
      var n := |actions| - 1;
      var states', actions' := states[..n + 1], actions[..n];
      assert Runs.IsRun(Init, Next, states', actions') && states'[n] == states[n];
      RunsEnd(states', actions');
      assert Next(states[n], actions[n], states[n + 1]);
      ReachableHoldsInv(states[n]);
      StepDecreasesEffort(states[n], actions[n]);
    }
  }

  lemma StuckIsDone(s: State)
    requires Runs.Reachable(Init, Next, s) && forall a :: !Enabled(s, a)
    ensures AllDone(s) && s.count == 0
  {
    ReachableHoldsInv(s);
    forall k | 0 <= k < |s.pieces|
      ensures s.pieces[k].phase.Done?
    {
      assert !Enabled(s, Take(k)) && !Enabled(s, Bump(k)) && !Enabled(s, Push(k)) && !Enabled(s, RanInline(k));
      assert !Enabled(s, RanLeaf(k)) && !Enabled(s, CountDown(k));
    }
    SumOfZeros(s.pieces, Weight);
  }
}
