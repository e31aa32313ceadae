/** The records that the CPU scheduler reads and updates (client/cpu_sched.C), and sums over
    them. A pointer to a record is its position in the vector that holds it. */
module CpuTypes {
  import opened Sequences
  import opened Options

  datatype Project = Project(
    nonCpuIntensive: bool,
    share: real,                  // resource_share
    shortTermDebt: real,
    anticipatedDebt: real,
    deadlinesMissed: int,
    next: Option<nat>             // next_runnable_result
  )

  datatype Result = Result(
    project: nat,
    runnable: bool,
    deadline: real,               // report_deadline
    remaining: real,              // estimated_cpu_time_remaining()
    avgNcpus: real,               // avp->avg_ncpus
    selected: bool,               // already_selected
    edf: bool                     // edf_scheduled
  )

  datatype Task = Task(
    result: nat,
    intensive: bool,              // the project of its result is CPU-intensive
    ncpus: real,                  // app_version->avg_ncpus
    wss: real,                    // procinfo.working_set_size_smoothed
    attached: bool,               // app_client_shm.shm != NULL
    runnable: bool,               // ACTIVE_TASK::runnable()
    started: bool,                // task_state() != PROCESS_UNINITIALIZED
    process: bool,                // process_exists()
    scheduled: bool,              // scheduler_state == CPU_SCHED_SCHEDULED
    preempted: bool,              // scheduler_state == CPU_SCHED_PREEMPTED; neither for a task that never ran
    next: bool,                   // next_scheduler_state == CPU_SCHED_SCHEDULED
    tooLarge: bool,
    needsShmem: bool,
    intervalStart: real,          // run_interval_start_wall_time
    checkpoint: real              // checkpoint_wall_time
  )

  /** What both scheduling functions read and do not change. */
  datatype Env = Env(ncpus: nat, now: real, period: real, retryShmem: real, ram: real)

  function Avg(r: Result): real { r.avgNcpus }
  function Cpus(t: Task): real { t.ncpus }
  function Ram(t: Task): real { t.wss }

  /** Vectors whose pointers are good: results point at projects, tasks at results; no two
      tasks run the same result, and a task agrees with its result. */
  ghost predicate Wired(ps: seq<Project>, rs: seq<Result>, ts: seq<Task>) {
    && (forall i :: 0 <= i < |rs| ==> rs[i].project < |ps|)
    && (forall i :: 0 <= i < |ts| ==> ts[i].result < |rs| && ts[i].ncpus == rs[ts[i].result].avgNcpus
                                      && ts[i].intensive == !ps[rs[ts[i].result].project].nonCpuIntensive)
    && (forall i, j :: 0 <= i < j < |ts| ==> ts[i].result != ts[j].result)
  }

  ghost predicate HasTask(ts: seq<Task>, r: nat) { exists i :: 0 <= i < |ts| && ts[i].result == r }

  /** lookup_active_task_by_result. */
  method LookupTask(ts: seq<Task>, r: nat) returns (o: Option<nat>)
    ensures o.None? <==> !HasTask(ts, r)
    ensures o.Some? ==> o.value < |ts| && ts[o.value].result == r
  {
    for i := 0 to |ts|
      invariant forall j :: 0 <= j < i ==> ts[j].result != r
    {
      if ts[i].result == r { return Some(i); }
    }
    o := None;
  }

  /** The vectors of the client that the scheduler works on; `ordered` is ordered_scheduled_results. */
  class CpuState {
    var ps: seq<Project>
    var rs: seq<Result>
    var ts: seq<Task>
    var ordered: seq<nat>
  }

  // ---- Sums over tasks ----------------------------------------------------------

  ghost predicate Inside(idx: seq<nat>, n: nat) { forall k :: 0 <= k < |idx| ==> idx[k] < n }

  lemma InsideBound(idx: seq<nat>, n: nat)
    requires Inside(idx, n)
    ensures idx != [] ==> n > 0
  {
    if idx != [] { assert idx[0] < n; }
  }

  /** The sum of `f` over the listed records. */
  ghost function SumAt<T>(ts: seq<T>, idx: seq<nat>, f: T -> real): real
    requires Inside(idx, |ts|)
  {
    if idx == [] then 0.0 else SumAt(ts, idx[..|idx| - 1], f) + f(ts[idx[|idx| - 1]])
  }

  /** The sum of `f` over the tasks that satisfy `p`. */
  ghost function Total(ts: seq<Task>, p: Task -> bool, f: Task -> real): real {
    if ts == [] then 0.0
    else Total(ts[..|ts| - 1], p, f) + if p(ts[|ts| - 1]) then f(ts[|ts| - 1]) else 0.0
  }

  ghost function Count(ts: seq<Task>, p: Task -> bool): nat {
    if ts == [] then 0 else Count(ts[..|ts| - 1], p) + if p(ts[|ts| - 1]) then 1 else 0
  }

  /** How many of the listed results belong to project `p`. */
  ghost function CountOf(rs: seq<Result>, idx: seq<nat>, p: nat): nat {
    if idx == [] then 0
    else CountOf(rs, idx[..|idx| - 1], p) + if idx[|idx| - 1] < |rs| && rs[idx[|idx| - 1]].project == p then 1 else 0
  }

  lemma {:induction false} SumErase<T>(ts: seq<T>, idx: seq<nat>, k: nat, f: T -> real)
    requires Inside(idx, |ts|) && k < |idx|
    ensures Inside(Erase(idx, k), |ts|)
    ensures SumAt(ts, Erase(idx, k), f) + f(ts[idx[k]]) == SumAt(ts, idx, f)
  {
    var n := |idx| - 1;
    InsideErase(idx, k, |ts|);
    if k == n {
      assert Erase(idx, k) == idx[..n];
    } else {
      SumErase(ts, idx[..n], k, f);
      EraseFront(idx, k);
      hide Erase;
    }
  }

  lemma InsideErase(idx: seq<nat>, k: nat, n: nat)
    requires Inside(idx, n) && k < |idx|
    ensures Inside(Erase(idx, k), n)
  {
  }

  lemma EraseFront(idx: seq<nat>, k: nat)
    requires k < |idx| - 1
    ensures Erase(idx, k) != [] && Erase(idx, k)[..|Erase(idx, k)| - 1] == Erase(idx[..|idx| - 1], k)
    ensures Erase(idx, k)[|Erase(idx, k)| - 1] == idx[|idx| - 1]
  {
  }

  lemma {:induction false} SumSame<T>(ts: seq<T>, us: seq<T>, idx: seq<nat>, f: T -> real)
    requires Inside(idx, |ts|) && |ts| <= |us|
    requires forall k :: 0 <= k < |idx| ==> f(ts[idx[k]]) == f(us[idx[k]])
    ensures Inside(idx, |us|) && SumAt(ts, idx, f) == SumAt(us, idx, f)
  {
    if idx != [] { SumSame(ts, us, idx[..|idx| - 1], f); }
  }

  lemma SumNone<T>(ts: seq<T>, idx: seq<nat>, f: T -> real)
    ensures idx == [] ==> SumAt(ts, idx, f) == 0.0
  {
  }

  lemma SumPush<T>(ts: seq<T>, idx: seq<nat>, i: nat, f: T -> real)
    requires Inside(idx, |ts|) && i < |ts|
    ensures Inside(idx + [i], |ts|) && SumAt(ts, idx + [i], f) == SumAt(ts, idx, f) + f(ts[i])
  {
    assert (idx + [i])[..|idx|] == idx;
  }

  lemma {:induction false} SumUnit(ts: seq<Task>, idx: seq<nat>)
    requires Inside(idx, |ts|) && forall k :: 0 <= k < |idx| ==> ts[idx[k]].ncpus == 1.0
    ensures SumAt(ts, idx, Cpus) == |idx| as real
  {
    if idx != [] { SumUnit(ts, idx[..|idx| - 1]); }
  }

  /** The list holds exactly the tasks that satisfy `p`, once each. */
  ghost predicate Lists(ts: seq<Task>, idx: seq<nat>, p: Task -> bool) {
    Inside(idx, |ts|) && Distinct(idx) && (forall i :: 0 <= i < |ts| ==> (p(ts[i]) <==> i in idx))
  }

  /** Without the last task, the list without its position. */
  lemma ListsFront(ts: seq<Task>, idx: seq<nat>, p: Task -> bool) returns (rest: seq<nat>)
    requires ts != [] && Lists(ts, idx, p)
    ensures Lists(ts[..|ts| - 1], rest, p)
    ensures if p(ts[|ts| - 1])
            then exists k :: 0 <= k < |idx| && idx[k] == |ts| - 1 && rest == Erase(idx, k)
            else rest == idx
  {
    var n := |ts| - 1;
    rest := idx;
    if p(ts[n]) {
      var k :| 0 <= k < |idx| && idx[k] == n;
      rest := Erase(idx, k);
      EraseMembers(idx, k);
    }
    forall k | 0 <= k < |rest| ensures rest[k] < n { assert rest[k] in rest; }
  }

  /** Then the sum over the list is the sum over the vector. */
  lemma {:induction false} SumIsTotal(ts: seq<Task>, idx: seq<nat>, p: Task -> bool, f: Task -> real)
    requires Lists(ts, idx, p)
    ensures SumAt(ts, idx, f) == Total(ts, p, f)
  {
    if ts == [] {
      InsideBound(idx, |ts|);
    } else {
      var n := |ts| - 1;
      var rest := ListsFront(ts, idx, p);
      SumIsTotal(ts[..n], rest, p, f);
      SumSame(ts[..n], ts, rest, f);
      assert SumAt(ts, rest, f) == Total(ts[..n], p, f);
      if p(ts[n]) {
        var k :| 0 <= k < |idx| && idx[k] == n && rest == Erase(idx, k);
        SumErase(ts, idx, k, f);
      }
    }
  }

  /** And the length of the list is their number. */
  lemma {:induction false} LengthIsCount(ts: seq<Task>, idx: seq<nat>, p: Task -> bool)
    requires Lists(ts, idx, p)
    ensures |idx| == Count(ts, p)
  {
    if ts == [] {
      InsideBound(idx, |ts|);
    } else {
      var rest := ListsFront(ts, idx, p);
      LengthIsCount(ts[..|ts| - 1], rest, p);
    }
  }

  lemma EraseMembers(idx: seq<nat>, k: nat)
    requires k < |idx| && Distinct(idx)
    ensures Distinct(Erase(idx, k))
    ensures forall i :: i in Erase(idx, k) <==> i in idx && i != idx[k]
  {
    var rest := Erase(idx, k);
    forall i | i in idx && i != idx[k] ensures i in rest {
      var j :| 0 <= j < |idx| && idx[j] == i;
      assert rest[if j < k then j else j - 1] == i;
    }
  }
}
