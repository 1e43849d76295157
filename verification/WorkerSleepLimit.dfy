/** Why NoSleepOnVisibleWork asks how the drain loops ended: a run in which one pusher pushes one task
    more than a drain takes, thieves empty the worker's deque, and the worker goes to sleep. */
module WorkerSleepLimit {
  import opened Options
  import opened WorkerSleep
  import I = InboxProtocol
  import Runs

  const N: nat := BATCH_SIZE + 1

  /** An inbox after n pushes and k pops; the stub is node 0 and task j is node j. */
  function Queue(n: nat, k: nat): I.State
    requires k == 0 || k < n
  {
    var first := if k == 0 then 0 else k + 1;
    I.State(0, seq(N + 1, j => if j < n then Some(j + 1) else None), n, first,
      [I.Idle], I.Resting, seq(n + 1 - first, j requires j >= 0 => first + j), seq(n, j => j + 1), seq(k, j => j + 1),
      n > 0 && k == 0)
  }

  /** The other inbox, which nobody uses. */
  const UNUSED: Inbox := Inbox(I.State(0, [None], 0, 0, [], I.Resting, [0], [], [], false), [])

  /** The pushes go to the inbox b, of high priority or not. */
  function Lane(high: bool, b: Inbox, flag: bool, worker: Worker, hiDrained: bool, loDrained: bool): State
  {
    if high then State(b, UNUSED, flag, worker, hiDrained, loDrained)
    else State(UNUSED, b, flag, worker, hiDrained, loDrained)
  }

  function Pushed(high: bool, n: nat): State
  {
    Lane(high, Inbox(Queue(n, 0), [Unmarked]), n > 0, Starting, false, false)
  }

  /** The inbox is being drained; the other one, if it comes first, was found empty. */
  function Drained(high: bool, k: nat): State
    requires k < N
  {
    Lane(high, Inbox(Queue(N, k), [Unmarked]), false, if high then DrainingHi(k) else DrainingLo(k), !high, false)
  }

  ghost predicate Reached(s: State)
  {
    Runs.Reachable(Init, Next, s)
  }

  lemma Go(s: State, a: Action, s': State)
    requires Reached(s) && Enabled(s, a) && s' == Apply(s, a)
    ensures Reached(s')
  {
    Runs.StepStaysReachable(Init, Next, s, a, s');
  }

  lemma StartReached(high: bool)
    ensures Reached(Pushed(high, 0))
  {
    assert Queue(0, 0).q == [0];
    assert Init(Pushed(high, 0));
    assert Runs.IsRun(Init, Next, [Pushed(high, 0)], []);
  }

  // The inbox while task n + 1 is being pushed.

  function Begun(n: nat): I.State
  {
    Queue(n, 0).(producers := [I.Chaining([n + 1], 0)])
  }

  function Written(n: nat): I.State
  {
    Queue(n, 0).(producers := [I.Swapping([n + 1])])
  }

  function Swapped(n: nat): I.State
  {
    Queue(n + 1, 0).(next := Queue(n, 0).next, producers := [I.Linking(n, n + 1)])
  }

  function Joined(n: nat): I.State
  {
    Queue(n + 1, 0).(producers := [I.Linked])
  }

  lemma InnerBegin(n: nat)
    requires n < N
    ensures I.Enabled(Queue(n, 0), I.Begin(0, [n + 1])) && I.Apply(Queue(n, 0), I.Begin(0, [n + 1])) == Begun(n)
  {
    var q := Queue(n, 0);
    assert I.Held(I.Idle) == [];
    assert I.MayPush(q, [n + 1]);
    assert q.producers[0 := I.Chaining([n + 1], 0)] == Begun(n).producers;
  }

  lemma InnerWrite(n: nat)
    requires n < N
    ensures I.Enabled(Begun(n), I.WriteOwn(0)) && I.Apply(Begun(n), I.WriteOwn(0)) == Written(n)
  {
    var q := Begun(n);
    assert q.next[n + 1 := None] == q.next;
    assert q.producers[0 := I.Swapping([n + 1])] == Written(n).producers;
  }

  lemma InnerSwap(n: nat)
    requires n < N
    ensures I.Enabled(Written(n), I.Swap(0)) && I.Apply(Written(n), I.Swap(0)) == Swapped(n)
  {
    var q, q' := Written(n), Swapped(n);
    assert q.q + [n + 1] == q'.q && q.sent + [n + 1] == q'.sent;
    assert q.producers[0 := I.Linking(n, n + 1)] == q'.producers;
    assert q'.producers[0].Linking?;
  }

  lemma InnerLink(n: nat)
    requires n < N
    ensures I.Enabled(Swapped(n), I.Link(0)) && I.Apply(Swapped(n), I.Link(0)) == Joined(n)
  {
    var q, q' := Swapped(n), Joined(n);
    assert q.next[n := Some(n + 1)] == q'.next;
    assert q.producers[0 := I.Linked] == q'.producers;
  }

  lemma InnerReturn(n: nat)
    requires n < N
    ensures I.Enabled(Joined(n), I.Return(0)) && I.Apply(Joined(n), I.Return(0)) == Queue(n + 1, 0)
  {
    assert Joined(n).producers[0 := I.Idle] == [I.Idle];
  }

  function Pushing(high: bool, q: I.State, phase: Phase, flag: bool): State
  {
    Lane(high, Inbox(q, [phase]), flag, Starting, false, false)
  }

  lemma PushStep(high: bool, q: I.State, a: I.Action, q': I.State, flag: bool)
    requires Reached(Pushing(high, q, Unmarked, flag))
    requires I.ProducerAction(a) && !a.Return? && I.Enabled(q, a) && I.Apply(q, a) == q'
    ensures Reached(Pushing(high, q', Unmarked, flag))
  {
    Go(Pushing(high, q, Unmarked, flag), Push(high, a), Pushing(high, q', Unmarked, flag));
  }

  lemma LinkTask(high: bool, n: nat)
    requires n < N && Reached(Pushed(high, n))
    ensures Reached(Pushing(high, Joined(n), Unmarked, n > 0))
  {
    InnerBegin(n);
    PushStep(high, Queue(n, 0), I.Begin(0, [n + 1]), Begun(n), n > 0);
    InnerWrite(n);
    PushStep(high, Begun(n), I.WriteOwn(0), Written(n), n > 0);
    InnerSwap(n);
    PushStep(high, Written(n), I.Swap(0), Swapped(n), n > 0);
    InnerLink(n);
    PushStep(high, Swapped(n), I.Link(0), Joined(n), n > 0);
  }

  lemma OnePush(high: bool, n: nat)
    requires n < N && Reached(Pushed(high, n))
    ensures Reached(Pushed(high, n + 1))
  {
    LinkTask(high, n);
    assert [Unmarked][0 := Marked] == [Marked] && [Marked][0 := PastMutex] == [PastMutex];
    Go(Pushing(high, Joined(n), Unmarked, n > 0), Mark(high, 0), Pushing(high, Joined(n), Marked, true));
    Go(Pushing(high, Joined(n), Marked, true), PassMutex(high, 0), Pushing(high, Joined(n), PastMutex, true));
    InnerReturn(n);
    assert [PastMutex][0 := Unmarked] == [Unmarked];
    Go(Pushing(high, Joined(n), PastMutex, true), Notify(high, 0), Pushed(high, n + 1));
  }

  lemma {:induction false} ManyPushes(high: bool, n: nat)
    requires n <= N
    ensures Reached(Pushed(high, n))
  {
    if n == 0 {
      StartReached(high);
    } else {
      ManyPushes(high, n - 1);
      OnePush(high, n - 1);
    }
  }

  lemma UnusedIsEmpty()
    ensures I.PopFails(UNUSED.queue, I.LoadNext) && I.Apply(UNUSED.queue, I.LoadNext) == UNUSED.queue
  {
  }

  lemma DrainStarts(high: bool)
    ensures Reached(Drained(high, 0))
  {
    ManyPushes(high, N);
    var s0 := Pushed(high, N);
    var s1 := s0.(flag := false, worker := Searching);
    Go(s0, Clear, s1);
    var s2 := s1.(worker := DrainingHi(0));
    Go(s1, Search(false), s2);
    if !high {
      UnusedIsEmpty();
      Go(s2, Pop(true, I.LoadNext), Drained(high, 0));
    }
  }

  lemma InnerPop(k: nat)
    requires 0 < k < BATCH_SIZE
    ensures I.Enabled(Queue(N, k), I.LoadNext) && I.Apply(Queue(N, k), I.LoadNext) == Queue(N, k + 1)
    ensures !I.PopFails(Queue(N, k), I.LoadNext) && Queue(N, k + 1).taken != Queue(N, k).taken
  {
    var q, q' := Queue(N, k), Queue(N, k + 1);
    assert q'.taken == q.taken + [k + 1] && q'.taken != q.taken;
    assert q.q[1..] == q'.q;
  }

  /** The first pop skips the stub. */
  function Skipped(): I.State
  {
    Queue(N, 0).(tail := 1, consumer := I.PastStub(1), q := Queue(N, 0).q[1..], gapSeen := false)
  }

  lemma InnerFirstPop()
    ensures I.Enabled(Queue(N, 0), I.LoadNext) && I.Apply(Queue(N, 0), I.LoadNext) == Skipped()
    ensures !I.PopFails(Queue(N, 0), I.LoadNext) && Skipped().taken == Queue(N, 0).taken
    ensures I.Enabled(Skipped(), I.LoadNextAgain) && I.Apply(Skipped(), I.LoadNextAgain) == Queue(N, 1)
    ensures Queue(N, 1).taken != Skipped().taken
  {
    var q, q' := Skipped(), Queue(N, 1);
    assert q'.taken == q.taken + [1] && q'.taken != q.taken;
    assert q.q[1..] == q'.q;
  }

  lemma FirstPop(high: bool)
    requires Reached(Drained(high, 0))
    ensures Reached(Drained(high, 1))
  {
    InnerFirstPop();
    var s0, s2 := Drained(high, 0), Drained(high, 1);
    var s1 := WithBox(s0, high, Inbox(Skipped(), [Unmarked]));
    Go(s0, Pop(high, I.LoadNext), s1);
    Go(s1, Pop(high, I.LoadNextAgain), s2);
  }

  lemma OnePop(high: bool, k: nat)
    requires 0 < k < BATCH_SIZE && Reached(Drained(high, k))
    ensures Reached(Drained(high, k + 1))
  {
    InnerPop(k);
    Go(Drained(high, k), Pop(high, I.LoadNext), Drained(high, k + 1));
  }

  lemma {:induction false} ManyPops(high: bool, k: nat)
    requires k <= BATCH_SIZE
    ensures Reached(Drained(high, k))
  {
    if k == 0 {
      DrainStarts(high);
    } else if k == 1 {
      DrainStarts(high);
      FirstPop(high);
    } else {
      ManyPops(high, k - 1);
      OnePop(high, k - 1);
    }
  }

  /** The batch is in the deque and stolen; the worker goes on towards sleep. */
  function Robbed(high: bool, worker: Worker): State
  {
    Drained(high, BATCH_SIZE).(worker := worker, loDrained := high)
  }

  lemma RobbedIsReached(high: bool)
    ensures Reached(Robbed(high, Locking))
  {
    ManyPops(high, BATCH_SIZE);
    var s0 := Drained(high, BATCH_SIZE);
    if high {
      Go(s0, StopHi, s0.(worker := HoldingHi));
      Go(s0.(worker := HoldingHi), UseHi(false), s0.(worker := DrainingLo(0)));
      UnusedIsEmpty();
      Go(s0.(worker := DrainingLo(0)), Pop(false, I.LoadNext), Robbed(high, Locking));
    } else {
      Go(s0, StopLo, s0.(worker := HoldingLo));
      Go(s0.(worker := HoldingLo), UseLo(false), Robbed(high, Locking));
    }
  }

  lemma BlockedIsReached(high: bool)
    ensures Reached(Robbed(high, Blocked))
  {
    RobbedIsReached(high);
    Go(Robbed(high, Locking), Lock, Robbed(high, Checking));
    Go(Robbed(high, Checking), Check, Robbed(high, Parking));
    Go(Robbed(high, Parking), Park, Robbed(high, Blocked));
  }

  /** A drain of either inbox cut short at BATCH_SIZE whose batch is all stolen lets the worker sleep on a
      task that nobody will wake it for, although the drain of the other one ended on a failed pop: the
      condition in NoSleepOnVisibleWork cannot be dropped for either. */
  lemma SleepsOnWorkAfterFullBatch(high: bool) returns (s: State)
    ensures Reached(s) && s.worker.Blocked? && !NotifyToCome(s) && Waiting(Box(s, high)) == [N]
    ensures s.hiDrained == !high && s.loDrained == high
  {
    BlockedIsReached(high);
    s := Robbed(high, Blocked);
    var q: seq<I.Node> := [N];
    assert Box(s, high).queue.q == q;
    I.TasksOfChain(q, 0);
  }
}
