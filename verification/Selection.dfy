/** What the schedule of schedule_cpus (client/cpu_sched.C) means: which results are in it, in which
    order, what the flags of the tasks say, and what the projects pay. Each lemma draws its
    conclusion from the contract of `Scheduler.ScheduleCpus`. */
module Selection {
  import opened Options
  import opened CpuTypes
  import opened Deadlines
  import opened EdfPhase
  import opened Scheduler

  /** The results are picked by deadline; at a tie those that have a task first, then those with less
      CPU time to go, then by position. Only runnable results of CPU-intensive projects are picked. */
  lemma ByDeadline(env: Env, ps: seq<Project>, rs: seq<Result>, ts: seq<Task>, us: seq<Task>, ordered: seq<nat>)
    requires Wired(ps, rs, ts) && Inside(ordered, |rs|) && Planned(env, ps, rs, ts, us, ordered)
    ensures forall r :: r in ordered ==> r < |rs| && rs[r].runnable && !ps[rs[r].project].nonCpuIntensive
    ensures forall j, k :: 0 <= j < k < |ordered| ==>
            var a, b := rs[ordered[j]], rs[ordered[k]];
            || a.deadline < b.deadline
            || (&& a.deadline == b.deadline
                && (HasTask(ts, ordered[k]) ==> HasTask(ts, ordered[j]))
                && (HasTask(ts, ordered[j]) == HasTask(ts, ordered[k]) ==>
                    a.remaining < b.remaining || (a.remaining == b.remaining && ordered[j] < ordered[k])))
  {
    hide HasTask, WssSum, SumAt, TurnedDown;
  }

  /** The loop has come to `r`: a CPU is left free at the end, or a result with a later deadline is
      in the schedule. */
  ghost predicate CameTo(env: Env, rs: seq<Result>, ordered: seq<nat>, r: nat) {
    && r < |rs| && Inside(ordered, |rs|)
    && (|| SumAt(rs, ordered, Avg) < env.ncpus as real
        || exists q :: q in ordered && rs[q].deadline > rs[r].deadline)
  }

  lemma Reached(env: Env, ps: seq<Project>, rs: seq<Result>, ts: seq<Task>, us: seq<Task>, ordered: seq<nat>, r: nat)
      returns (k: nat)
    requires FlagsRight(env, ps, rs, ts, us, ordered) && r < |rs| && Runnable(ps, rs, r)
    requires r in ordered || CameTo(env, rs, ordered, r)
    ensures Verdict(env, rs, ts, us, ordered, r, k)
  {
    assert Decided(env, ps, rs, ts, us, ordered, r);
    assert TooLate(env, rs, ts, ordered, r) ==> !CameTo(env, rs, ordered, r) by {
      hide HasTask, SumAt, Decided, Verdict, FlagsRight, Runnable;
    }
    hide TooLate, CameTo, Runnable, Verdict, FlagsRight;
    k :| Verdict(env, rs, ts, us, ordered, r, k);
  }

  /** A runnable result that the loop came to is left out only if its working set exceeds what is left
      of the RAM in the end, or if there is no shared memory to be had before `retryShmem` and its task
      has none. The flags of its task say which. */
  lemma LeftOut(env: Env, ps: seq<Project>, rs: seq<Result>, ts: seq<Task>, us: seq<Task>, ordered: seq<nat>, r: nat)
    requires Wired(ps, rs, ts) && FlagsRight(env, ps, rs, ts, us, ordered)
    requires forall i :: 0 <= i < |ts| ==> ts[i].wss >= 0.0
    requires r < |rs| && rs[r].runnable && !ps[rs[r].project].nonCpuIntensive
    requires r !in ordered && CameTo(env, rs, ordered, r)
    ensures |us| == |ts|
    ensures exists i :: 0 <= i < |ts| && ts[i].result == r
                        && (|| (us[i].tooLarge && ts[i].wss > env.ram - WssSum(ts, ordered))
                            || (&& env.retryShmem > env.now && !ts[i].attached
                                && us[i].needsShmem && !us[i].tooLarge))
  {
    var k := Reached(env, ps, rs, ts, us, ordered, r);
    SumFalls(ts, ordered, k);
    var left := Left(env, ts, ordered, k);
    var i :| 0 <= i < |ts| && ts[i].result == r && !CanRun(env, left, ts[i]);
    assert us[i] == Flagged(env, left, ts[i]);
    assert left >= env.ram - WssSum(ts, ordered);
    hide WssSum, Wired, FlagsRight, CameTo, HasTask, SumAt, Left, Verdict;
  }

  /** With shared memory to be had, nobody's lack of it is recorded. */
  lemma SharedMemoryFree(env: Env, ps: seq<Project>, rs: seq<Result>, ts: seq<Task>, us: seq<Task>,
                         ordered: seq<nat>, i: nat)
    requires Wired(ps, rs, ts) && FlagsRight(env, ps, rs, ts, us, ordered) && i < |ts|
    requires env.retryShmem <= env.now
    ensures |us| == |ts| && us[i].needsShmem == ts[i].needsShmem
  {
    var r := ts[i].result;
    assert Decided(env, ps, rs, ts, us, ordered, r);
    hide FlagsRight, Verdict, TooLate, Runnable, Wired;
    if us[i] != ResetTask(ts[i]) {
      var k: nat :| Verdict(env, rs, ts, us, ordered, r, k);
      VerdictFlags(env, rs, ts, us, ordered, i, k);
    }
  }

  lemma VerdictFlags(env: Env, rs: seq<Result>, ts: seq<Task>, us: seq<Task>, ordered: seq<nat>, i: nat, k: nat)
    requires i < |ts| && Verdict(env, rs, ts, us, ordered, ts[i].result, k)
    ensures |us| == |ts| && k <= |ordered| && us[i] == Flagged(env, Left(env, ts, ordered, k), ts[i])
    ensures ts[i].result in ordered ==> CanRun(env, Left(env, ts, ordered, k), ts[i])
  {
    hide WssSum, SumAt, Precedes, Flagged, CanRun, Left;
  }

  /** Without, the tasks that the loop came to and that fit are flagged exactly if they have none. */
  lemma SharedMemoryShort(env: Env, ps: seq<Project>, rs: seq<Result>, ts: seq<Task>, us: seq<Task>,
                          ordered: seq<nat>, i: nat)
    requires Wired(ps, rs, ts) && FlagsRight(env, ps, rs, ts, us, ordered) && i < |ts|
    requires rs[ts[i].result].runnable && !ps[rs[ts[i].result].project].nonCpuIntensive
    requires ts[i].result in ordered || CameTo(env, rs, ordered, ts[i].result)
    requires env.retryShmem > env.now
    ensures |us| == |ts| && (us[i].tooLarge || us[i].needsShmem == !ts[i].attached)
  {
    var k := Reached(env, ps, rs, ts, us, ordered, ts[i].result);
    hide FlagsRight, WssSum, HasTask, SumAt, Runnable;
  }

  /** The task of a picked result fits, and has its shared memory if there is none to be had. */
  lemma TaskOfPick(env: Env, ps: seq<Project>, rs: seq<Result>, ts: seq<Task>, us: seq<Task>, ordered: seq<nat>, i: nat)
    requires Wired(ps, rs, ts) && FlagsRight(env, ps, rs, ts, us, ordered) && i < |ts|
    requires forall j :: 0 <= j < |ts| ==> ts[j].wss >= 0.0
    requires ts[i].result in ordered
    ensures |us| == |ts| && !us[i].tooLarge && ts[i].wss <= env.ram
    ensures env.retryShmem > env.now ==> ts[i].attached && !us[i].needsShmem
  {
    var r := ts[i].result;
    assert Decided(env, ps, rs, ts, us, ordered, r);
    hide FlagsRight, HasTask, SumAt, TooLate, Runnable;
    var k: nat :| Verdict(env, rs, ts, us, ordered, r, k);
    VerdictFlags(env, rs, ts, us, ordered, i, k);
    SumFalls(ts, ordered[..k], 0);
  }

  /** A task whose result the loop cannot have come to only loses its flag. */
  lemma NotLookedAt(env: Env, ps: seq<Project>, rs: seq<Result>, ts: seq<Task>, us: seq<Task>, ordered: seq<nat>,
                    i: nat)
    requires Wired(ps, rs, ts) && FlagsRight(env, ps, rs, ts, us, ordered) && i < |ts|
    requires !rs[ts[i].result].runnable || ps[rs[ts[i].result].project].nonCpuIntensive
    ensures |us| == |ts| && us[i] == ts[i].(tooLarge := false)
  {
    assert Decided(env, ps, rs, ts, us, ordered, ts[i].result);
    hide FlagsRight, Verdict, TooLate;
  }

  function PickCost(rrs: real, share: real, period: real): real {
    if rrs == 0.0 then 0.0 else share / rrs * period
  }

  function Times(n: nat, x: real): real { n as real * x }

  /** Each pick costs its project its share of the scheduling period. */
  lemma Cost(env: Env, rrs: real, ps: seq<Project>, rs: seq<Result>, missed: seq<int>, ordered: seq<nat>, p: nat)
    requires |missed| == |ps| && Marked(env, rrs, ps, rs, missed, ordered) && p < |ps|
    ensures ps[p].deadlinesMissed == missed[p] - CountOf(rs, ordered, p)
    ensures ps[p].anticipatedDebt == ps[p].shortTermDebt
            - Times(CountOf(rs, ordered, p), PickCost(rrs, ps[p].share, env.period))
  {
    var n := CountOf(rs, ordered, p);
    assert ps[p].deadlinesMissed == missed[p] - n;
    assert ps[p].anticipatedDebt == ps[p].shortTermDebt - Fees(env, rrs, ps[p].share, n);
    hide Marked, CountOf, Fees, Times, PickCost;
    FeesAre(env, rrs, ps[p].share, n);
  }

  lemma FeesAre(env: Env, rrs: real, share: real, n: nat)
    ensures Fees(env, rrs, share, n) == Times(n, PickCost(rrs, share, env.period))
  {
    assert Fee(env, rrs, share) == PickCost(rrs, share, env.period);
    hide Fee, PickCost;
  }
}
