/** ParallelFor and the splitter of ParallelForFJ as one thread runs them: which calls and which tasks a range
    becomes. Whether CreateTask finds a slot is up to `gets`, attempt by attempt. */
module ParallelLoops {

  /** A range for func: pushed as a task, or run by the thread itself. */
  datatype Job = Job(lo: int, hi: int, task: bool)

  function Size(j: Job): int { j.hi - j.lo }

  ghost predicate Tiles(jobs: seq<Job>, lo: int, hi: int)
  {
    && jobs != [] && jobs[0].lo == lo && jobs[|jobs| - 1].hi == hi
    && (forall k :: 0 <= k < |jobs| ==> jobs[k].lo < jobs[k].hi)
    && forall j, k :: 0 <= j && k == j + 1 && k < |jobs| ==> jobs[j].hi == jobs[k].lo
  }

  function Tasks(jobs: seq<Job>): nat
  {
    if jobs == [] then 0 else Tasks(jobs[..|jobs| - 1]) + if jobs[|jobs| - 1].task then 1 else 0
  }

  lemma {:induction false} TasksInFront(j: Job, jobs: seq<Job>)
    ensures Tasks([j] + jobs) == Tasks(jobs) + if j.task then 1 else 0
  {
    if jobs == [] {
      assert [j] + jobs == [j] && [j][..0] == [];
    } else {
      assert ([j] + jobs)[..|jobs|] == [j] + jobs[..|jobs| - 1];
      TasksInFront(j, jobs[..|jobs| - 1]);
    }
  }

  lemma JobInFront(j: Job, jobs: seq<Job>, hi: int)
    requires j.lo < j.hi && (jobs == [] ==> j.hi == hi) && (jobs != [] ==> Tiles(jobs, j.hi, hi))
    ensures Tiles([j] + jobs, j.lo, hi)
  {
    var all := [j] + jobs;
    forall i, k | 0 <= i && k == i + 1 && k < |all|
      ensures all[i].hi == all[k].lo
    {
      if i > 0 { assert all[i] == jobs[i - 1] && all[k] == jobs[k - 1]; }
    }
  }

  // ---------------------------------------------------------------- ParallelForFJ

  /** The splitting loop: right halves go to tasks, or are run on the spot, while the left half shrinks to a
      leaf. `jobs` lists the pieces in order of position, the leaf first; `n` is what the group is bumped by. */
  method Splitter(a: int, b0: int, grain: int, gets: nat -> bool) returns (jobs: seq<Job>, n: nat)
    requires grain >= 1 && a < b0
    ensures Tiles(jobs, a, b0) && n == Tasks(jobs)
    ensures !jobs[0].task && Size(jobs[0]) <= grain
    ensures b0 - a >= (grain + 1) / 2 ==> forall k :: 0 <= k < |jobs| ==> Size(jobs[k]) >= (grain + 1) / 2
    ensures (forall i :: gets(i)) ==> n == |jobs| - 1
  {
    var b := b0;
    n := 0;
    jobs := [];
    while b - a > grain
      invariant a < b <= b0
      invariant if jobs == [] then b == b0 else Tiles(jobs, b, b0)
      invariant b0 - a >= (grain + 1) / 2 ==> b - a >= (grain + 1) / 2
      invariant forall k :: 0 <= k < |jobs| ==> Size(jobs[k]) >= (grain + 1) / 2
      invariant n == Tasks(jobs) && ((forall i :: gets(i)) ==> n == |jobs|)
      decreases b - a
    {
      var mid := a + (b - a) / 2;
      var right := Job(mid, b, gets(|jobs|));
      if right.task {
        n := n + 1;
      }
      JobInFront(right, jobs, b0);
      TasksInFront(right, jobs);
      jobs := [right] + jobs;
      b := mid;
    }
    var leaf := Job(a, b, false);
    JobInFront(leaf, jobs, b0);
    TasksInFront(leaf, jobs);
    jobs := [leaf] + jobs;
  }

  method ParallelForFJ(start: int, end: int, grain0: int, gets: nat -> bool) returns (jobs: seq<Job>, n: nat)
    ensures if end <= start then jobs == [] else Tiles(jobs, start, end)
    ensures n == Tasks(jobs) && (jobs != [] ==> !jobs[0].task)
    ensures jobs != [] ==> Size(jobs[0]) <= Max(1, grain0)
    ensures end - start <= Max(1, grain0) ==> n == 0
  {
    var grain := Max(1, grain0);
    if end - start <= 0 {
      return [], 0;
    }
    if end - start <= grain {
      jobs, n := [Job(start, end, false)], 0;
      assert jobs[..0] == [];
      return;
    }
    jobs, n := Splitter(start, end, grain, gets);
  }

  function Max(a: int, b: int): int { if a < b then b else a }

  function Min(a: int, b: int): int { if b < a then b else a }

  // ---------------------------------------------------------------- ParallelFor

  const SMALL := 10000

  /** The number of chunks is the least that covers the range. */
  lemma ChunksCover(total: int, chunk: int)
    requires total > 0 && chunk >= 1
    ensures var n := (total + chunk - 1) / chunk; n >= 1 && (n - 1) * chunk < total <= n * chunk
  {
    var n := (total + chunk - 1) / chunk;
    var r := (total + chunk - 1) % chunk;
    assert total + chunk - 1 == n * chunk + r;
    assert (n - 1) * chunk == n * chunk - chunk;
    PositiveFactor(n, chunk);
  }

  lemma PositiveFactor(n: int, chunk: int)
    requires chunk >= 1 && n * chunk > 0
    ensures n >= 1
  {
    NoProductAboveZero(n, chunk);
  }

  lemma NoProductAboveZero(n: int, chunk: int)
    requires chunk >= 1
    ensures n <= 0 ==> n * chunk <= 0
  {
  }

  lemma ChunkBefore(i: int, n: int, chunk: int)
    requires 0 <= i < n && chunk >= 1
    ensures i * chunk <= (n - 1) * chunk && (i + 1) * chunk == i * chunk + chunk
  {
    assert (n - 1) * chunk == i * chunk + (n - 1 - i) * chunk;
    assert (n - 1 - i) * chunk >= 0;
  }

  /** Chunk i of the flat path. */
  function Chunk(start: int, end: int, chunk: int, i: int, task: bool): Job
  {
    Job(start + i * chunk, Min(start + i * chunk + chunk, end), task)
  }

  predicate AreChunks(jobs: seq<Job>, start: int, end: int, chunk: int)
  {
    forall i :: 0 <= i < |jobs| ==> jobs[i] == Chunk(start, end, chunk, i, jobs[i].task)
  }

  /** Every chunk but the last is full, and the next one begins where it ends. */
  lemma ChunkBounds(start: int, end: int, chunk: int, i: int, n: int)
    requires chunk >= 1 && 0 <= i < n && (n - 1) * chunk < end - start <= n * chunk
    ensures start + i * chunk < end
    ensures i < n - 1 ==> start + i * chunk + chunk == start + (i + 1) * chunk < end
    ensures i == n - 1 ==> end <= start + i * chunk + chunk
  {
    ChunkBefore(i, n, chunk);
    if i < n - 1 {
      ChunkBefore(i + 1, n, chunk);
    }
  }

  /** Job i is a full chunk that leads to the next one, or the last. */
  predicate LeadsOn(jobs: seq<Job>, end: int, chunk: int, i: int)
    requires 0 <= i < |jobs|
  {
    && jobs[i].lo < jobs[i].hi && Size(jobs[i]) <= chunk
    && if i < |jobs| - 1 then Size(jobs[i]) == chunk && jobs[i].hi == jobs[i + 1].lo else jobs[i].hi == end
  }

  lemma ChunkLeadsOn(jobs: seq<Job>, start: int, end: int, chunk: int, i: int)
    requires chunk >= 1 && 0 <= i < |jobs| && (|jobs| - 1) * chunk < end - start <= |jobs| * chunk
    requires jobs[i] == Chunk(start, end, chunk, i, jobs[i].task)
    requires i < |jobs| - 1 ==> jobs[i + 1] == Chunk(start, end, chunk, i + 1, jobs[i + 1].task)
    ensures LeadsOn(jobs, end, chunk, i)
  {
    ChunkBounds(start, end, chunk, i, |jobs|);
  }

  lemma LeadingJobsTile(jobs: seq<Job>, start: int, end: int, chunk: int)
    requires jobs != [] && jobs[0].lo == start && forall i :: 0 <= i < |jobs| ==> LeadsOn(jobs, end, chunk, i)
    ensures Tiles(jobs, start, end)
  {
    assert LeadsOn(jobs, end, chunk, |jobs| - 1);
    forall k | 0 <= k < |jobs| ensures jobs[k].lo < jobs[k].hi { assert LeadsOn(jobs, end, chunk, k); }
    forall j, k | 0 <= j && k == j + 1 && k < |jobs|
      ensures jobs[j].hi == jobs[k].lo
    {
      assert LeadsOn(jobs, end, chunk, j);
    }
  }

  lemma ChunksTile(jobs: seq<Job>, start: int, end: int, chunk: int)
    requires chunk >= 1 && start < end && |jobs| == (end - start + chunk - 1) / chunk
    requires AreChunks(jobs, start, end, chunk)
    ensures Tiles(jobs, start, end)
    ensures forall i :: 0 <= i < |jobs| ==> LeadsOn(jobs, end, chunk, i)
  {
    ChunksCover(end - start, chunk);
    forall i | 0 <= i < |jobs|
      ensures LeadsOn(jobs, end, chunk, i)
    {
      ChunkLeadsOn(jobs, start, end, chunk, i);
    }
    assert jobs[0] == Chunk(start, end, chunk, 0, jobs[0].task);
    LeadingJobsTile(jobs, start, end, chunk);
  }

  /** Small ranges are one call; a range of many chunks is split by fork and join; one of few is dealt out
      chunk by chunk, the first for the caller itself. Whichever it is, the jobs tile the range. */
  method ParallelFor(start: int, end: int, chunkSize0: int, workers: nat, gets: nat -> bool)
    returns (jobs: seq<Job>, n: nat)
    ensures if end <= start then jobs == [] else Tiles(jobs, start, end)
    ensures n == Tasks(jobs) && (jobs != [] ==> !jobs[0].task)
    ensures 0 < end - start <= SMALL ==> jobs == [Job(start, end, false)]
    ensures var chunk := Max(1, chunkSize0);
      end - start > SMALL && (end - start + chunk - 1) / chunk <= 2 * workers ==>
        && |jobs| == (end - start + chunk - 1) / chunk
        && forall i :: 0 <= i < |jobs| ==> LeadsOn(jobs, end, chunk, i)
  {
    var chunkSize := Max(1, chunkSize0);
    var totalItems := end - start;
    if totalItems <= 0 {
      return [], 0;
    }
    if totalItems <= SMALL {
      jobs, n := [Job(start, end, false)], 0;
      assert jobs[..0] == [];
      return;
    }
    ChunksCover(totalItems, chunkSize);
    var numTasks := (totalItems + chunkSize - 1) / chunkSize;
    if numTasks > 2 * workers {
      jobs, n := ParallelForFJ(start, end, chunkSize, gets);
      return;
    }
    jobs, n := [Job(start, Min(start + chunkSize, end), false)], 0;
    assert jobs[..0] == [];
    for i := 1 to numTasks
      invariant |jobs| == i && !jobs[0].task && AreChunks(jobs, start, end, chunkSize) && n == Tasks(jobs)
    {
      var chunkStart := start + i * chunkSize;
      var chunkEnd := Min(chunkStart + chunkSize, end);
      var job := Job(chunkStart, chunkEnd, gets(i));
      if job.task {
        n := n + 1;
      }
      assert (jobs + [job])[..i] == jobs;
      jobs := jobs + [job];
    }
    ChunksTile(jobs, start, end, chunkSize);
  }
}
