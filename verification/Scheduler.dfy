/** CLIENT_STATE::schedule_cpus (client/cpu_sched.C) after the simulation and the debt
    adjustment: which results it wants to run, and what enforce_schedule makes of them. */
module Scheduler {
  import opened Sequences
  import opened Options
  import opened CpuTypes
  import opened Deadlines
  import opened EdfPhase
  import opened DebtPhase
  import Enforcer
  import Placement
  import Fairness

  // ---- The temporary variables, lines 488-507 ---------------------------------------------

  function ResetResult(r: Result): Result { r.(selected := false, edf := false) }

  function ResetProject(p: Project, missed: int): Project {
    p.(next := None, anticipatedDebt := p.shortTermDebt, deadlinesMissed := missed)
  }

  function ResetTask(t: Task): Task { t.(tooLarge := false) }

  ghost predicate Reset(env: Env, ps: seq<Project>, rs: seq<Result>, ts: seq<Task>, missed: seq<int>, s: Sched)
    requires |missed| == |ps|
  {
    && |s.ps| == |ps| && (forall p :: 0 <= p < |ps| ==> s.ps[p] == ResetProject(ps[p], missed[p]))
    && |s.rs| == |rs| && (forall r :: 0 <= r < |rs| ==> s.rs[r] == ResetResult(rs[r]))
    && |s.ts| == |ts| && (forall i :: 0 <= i < |ts| ==> s.ts[i] == ResetTask(ts[i]))
    && s.ordered == [] && s.used == 0.0 && s.ram == env.ram
  }

  method ResetAll(env: Env, ps: seq<Project>, rs: seq<Result>, ts: seq<Task>, missed: seq<int>) returns (s: Sched)
    requires |missed| == |ps|
    ensures Reset(env, ps, rs, ts, missed, s)
  {
    var qs, zs, us := ps, rs, ts;
    for r := 0 to |rs|
      invariant |zs| == |rs| && forall q :: 0 <= q < |rs| ==> zs[q] == if q < r then ResetResult(rs[q]) else rs[q]
    {
      zs := zs[r := ResetResult(zs[r])];
    }
    for p := 0 to |ps|
      invariant |qs| == |ps| && forall q :: 0 <= q < |ps| ==>
          qs[q] == if q < p then ResetProject(ps[q], missed[q]) else ps[q]
    {
      qs := qs[p := ResetProject(qs[p], missed[p])];
    }
    for i := 0 to |ts|
      invariant |us| == |ts| && forall j :: 0 <= j < |ts| ==> us[j] == if j < i then ResetTask(ts[j]) else ts[j]
    {
      us := us[i := ResetTask(us[i])];
    }
    s := Sched(qs, zs, us, [], 0.0, env.ram);
  }

  lemma ResetFresh(env: Env, ps: seq<Project>, rs: seq<Result>, ts: seq<Task>, missed: seq<int>, s: Sched)
    requires |missed| == |ps| && Reset(env, ps, rs, ts, missed, s)
    requires Wired(ps, rs, ts) && env.ram >= 0.0 && forall i :: 0 <= i < |ts| ==> ts[i].wss >= 0.0
    ensures Fresh(env, s)
    ensures forall p :: 0 <= p < |s.ps| ==> s.ps[p].next.None?
  {
  }

  // ---- The two loops together --------------------------------------------------------------

  /** When the first loop stops with a CPU free, it has looked at everything the second loop
      could pick. */
  lemma EdfLeavesNothing(env: Env, rrs: real, a: Sched, s: Sched)
    requires Fresh(env, a) && Phase(env, rrs, a, s)
    requires forall p :: 0 <= p < |a.ps| ==> a.ps[p].next.None?
    requires forall r: nat :: r < |a.rs| ==> !Open(s.ps, s.rs, r)
    ensures Idle(s)
  {
    hide InOrder, Picked, Totals, Charged, FlagsKept;
    forall p | 0 <= p < |s.ps| ensures s.ps[p].next.None? { ChargedChoices(env, rrs, a.ps, a.rs, s.ordered, p); }
  }

  lemma EdfIsDebt(env: Env, rrs: real, a: Sched, s: Sched)
    requires Fresh(env, a) && Phase(env, rrs, a, s)
    requires forall p :: 0 <= p < |a.ps| ==> a.ps[p].next.None?
    ensures Debt(env, a, s)
  {
    FrameStays(a, s);
    hide Frame, Totals, Charged, Precedes, HasTask, Runnable, FlagsKept;
    forall p | 0 <= p < |s.ps| ensures s.ps[p].next.None? { ChargedChoices(env, rrs, a.ps, a.rs, s.ordered, p); }
    OrderedOnce(a, s);
    hide Fresh, InOrder;
  }

  lemma OrderedOnce(a: Sched, s: Sched)
    requires |s.rs| == |a.rs| && Inside(s.ordered, |a.rs|) && InOrder(a, s)
    ensures Distinct(s.ordered)
  {
    hide Precedes;
    forall j, k | 0 <= j < k < |s.ordered| ensures s.ordered[j] != s.ordered[k] {
      PrecedesIrreflexive(a.rs, a.ts, s.ordered[j]);
    }
  }

  lemma PrecedesIrreflexive(rs: seq<Result>, ts: seq<Task>, r: nat)
    ensures r < |rs| ==> !Precedes(rs, ts, r, r)
  {
  }

  // ---- What the schedule promises ------------------------------------------------------------

  /** The schedule is sorted by deadline, fits in the RAM, and passes over a runnable result only
      if its task could not run beside the picks: either a later result has been picked, or a CPU
      is left free. `us` are the tasks with the flags that say so. */
  ghost predicate Planned(env: Env, ps: seq<Project>, rs: seq<Result>, ts: seq<Task>, us: seq<Task>, ordered: seq<nat>)
    requires Inside(ordered, |rs|)
  {
    && (forall r :: r in ordered ==> Runnable(ps, rs, r))
    && (forall j, k :: 0 <= j < k < |ordered| ==> Precedes(rs, ts, ordered[j], ordered[k]))
    && WssSum(ts, ordered) <= env.ram
    && (forall r :: 0 <= r < |rs| && Runnable(ps, rs, r) && r !in ordered
                    && (|| SumAt(rs, ordered, Avg) < env.ncpus as real
                        || exists q :: q in ordered && Precedes(rs, ts, r, q))
                    ==> TurnedDown(env, us, env.ram - WssSum(ts, ordered), r))
  }

  lemma {:induction false} WssSumSame(ts: seq<Task>, us: seq<Task>, idx: seq<nat>)
    requires |us| == |ts| && forall i :: 0 <= i < |ts| ==> us[i].result == ts[i].result && us[i].wss == ts[i].wss
    ensures WssSum(us, idx) == WssSum(ts, idx)
  {
    if idx != [] {
      WssSumSame(ts, us, idx[..|idx| - 1]);
      WssSame(ts, us, idx[|idx| - 1]);
    }
  }

  lemma PrecedesAsymmetric(rs: seq<Result>, ts: seq<Task>, q: nat, r: nat)
    requires q < |rs| && r < |rs| && Precedes(rs, ts, r, q)
    ensures !Precedes(rs, ts, q, r)
  {
    hide HasTask;
  }

  lemma PassedOver(env: Env, rrs: real, a: Sched, s: Sched, r: nat)
    requires Fresh(env, a) && Phase(env, rrs, a, s)
    requires s.used < env.ncpus as real ==> forall q: nat :: q < |a.rs| ==> !Open(s.ps, s.rs, q)
    requires r < |a.rs| && Runnable(a.ps, a.rs, r) && r !in s.ordered
    requires s.used < env.ncpus as real || exists q :: q in s.ordered && Precedes(a.rs, a.ts, r, q)
    ensures TurnedDown(env, s.ts, s.ram, r)
  {
    PhaseReady(env, rrs, a, s);
    hide Wired, HasTask, Totals, Charged, TurnedDown, Runnable, Open, FlagsKept;
    forall q | q in s.ordered && Precedes(a.rs, a.ts, r, q) ensures s.rs[r].selected {
      PrecedesAsymmetric(a.rs, a.ts, q, r);
    }
  }

  lemma PlanFromPhase(env: Env, rrs: real, a: Sched, s: Sched)
    requires Fresh(env, a) && Phase(env, rrs, a, s)
    requires s.used < env.ncpus as real ==> forall r: nat :: r < |a.rs| ==> !Open(s.ps, s.rs, r)
    ensures Planned(env, a.ps, a.rs, a.ts, s.ts, s.ordered)
  {
    assert s.ram == env.ram - WssSum(a.ts, s.ordered) && s.ram >= 0.0 && s.used == SumAt(a.rs, s.ordered, Avg);
    forall r: nat | r < |a.rs| && Runnable(a.ps, a.rs, r) && r !in s.ordered
               && (s.used < env.ncpus as real || exists q :: q in s.ordered && Precedes(a.rs, a.ts, r, q))
      ensures TurnedDown(env, s.ts, s.ram, r)
    {
      PassedOver(env, rrs, a, s, r);
    }
    hide Fresh, HasTask, SumAt, WssSum, Charged, Frame, TurnedDown, Precedes, Runnable, Totals, FlagsKept;
  }

  lemma PlanStays(env: Env, a: Sched, us: seq<Task>, d: Sched)
    requires Frame(a, d) && Inside(d.ordered, |a.rs|) && Planned(env, a.ps, a.rs, a.ts, us, d.ordered)
    ensures Planned(env, d.ps, d.rs, d.ts, us, d.ordered)
  {
    FrameStays(a, d);
    WssSumSame(a.ts, d.ts, d.ordered);
    SumSame(a.rs, d.rs, d.ordered, Avg);
    hide HasTask, SumAt, WssSum, Frame, TurnedDown, Precedes, Runnable;
  }

  /** The marks that the scheduler leaves on results and projects: each pick uses up a missed
      deadline of its project and costs it its share of the scheduling period. */
  ghost predicate Marked(env: Env, rrs: real, ps: seq<Project>, rs: seq<Result>, missed: seq<int>, ordered: seq<nat>)
    requires |missed| == |ps|
  {
    && (forall r :: 0 <= r < |rs| ==> (rs[r].edf <==> r in ordered))
    && (forall p :: 0 <= p < |ps| ==>
          && ps[p].deadlinesMissed == missed[p] - CountOf(rs, ordered, p)
          && ps[p].anticipatedDebt == ps[p].shortTermDebt - Fees(env, rrs, ps[p].share, CountOf(rs, ordered, p)))
  }

  /** Every result has been decided on, in the order of `Precedes`. */
  ghost predicate FlagsRight(env: Env, ps: seq<Project>, rs: seq<Result>, ts: seq<Task>, us: seq<Task>,
                             ordered: seq<nat>) {
    |us| == |ts| && forall r :: 0 <= r < |rs| ==> Decided(env, ps, rs, ts, us, ordered, r)
  }

  /** Either the result has its verdict, or its task is only reset; a runnable result has no verdict
      only if the picks, which then all come before it, use up the CPUs. */
  ghost predicate Decided(env: Env, ps: seq<Project>, rs: seq<Result>, ts: seq<Task>, us: seq<Task>,
                          ordered: seq<nat>, r: nat)
    requires |us| == |ts|
  {
    || (Runnable(ps, rs, r) && exists k :: Verdict(env, rs, ts, us, ordered, r, k))
    || (&& r !in ordered && (forall i :: 0 <= i < |ts| && ts[i].result == r ==> us[i] == ResetTask(ts[i]))
        && (Runnable(ps, rs, r) ==> TooLate(env, rs, ts, ordered, r)))
  }

  ghost predicate TooLate(env: Env, rs: seq<Result>, ts: seq<Task>, ordered: seq<nat>, r: nat) {
    && r < |rs| && Inside(ordered, |rs|) && SumAt(rs, ordered, Avg) >= env.ncpus as real
    && forall k :: 0 <= k < |ordered| ==> Precedes(rs, ts, ordered[k], r)
  }

  /** Only what the scheduler sets differs. */
  ghost predicate Untouched(ps: seq<Project>, rs: seq<Result>, ts: seq<Task>, qs: seq<Project>, zs: seq<Result>,
                            us: seq<Task>) {
    && |zs| == |rs| && (forall r :: 0 <= r < |rs| ==> zs[r] == rs[r].(selected := zs[r].selected, edf := zs[r].edf))
    && |us| == |ts| && (forall i :: 0 <= i < |ts| ==>
        us[i] == ts[i].(tooLarge := us[i].tooLarge, needsShmem := us[i].needsShmem))
    && |qs| == |ps| && (forall p :: 0 <= p < |ps| ==>
          qs[p] == ps[p].(anticipatedDebt := qs[p].anticipatedDebt, deadlinesMissed := qs[p].deadlinesMissed,
              next := qs[p].next))
  }

  /** The state after both loops. */
  ghost predicate Done(env: Env, rrs: real, a: Sched, s: Sched, d: Sched) {
    && Fresh(env, a) && Phase(env, rrs, a, s) && Debt(env, a, d)
    && (forall p :: 0 <= p < |a.ps| ==> a.ps[p].next.None?)
    && OnlyChoices(s, d)
    && (s.used < env.ncpus as real ==> forall r: nat :: r < |a.rs| ==> !Open(s.ps, s.rs, r))
  }

  /** The two loops: the second one picks nothing. */
  method TwoLoops(env: Env, rrs: real, a: Sched) returns (s: Sched, d: Sched)
    requires Fresh(env, a) && forall p :: 0 <= p < |a.ps| ==> a.ps[p].next.None?
    ensures Done(env, rrs, a, s, d)
  {
    s := Edf(env, rrs, a);
    assert Wired(a.ps, a.rs, a.ts);
    hide Fresh, Phase, Debt, Idle, Open, Wired, OnlyChoices, Exhausted;
    EdfIsDebt(env, rrs, a, s);
    PhaseReady(env, rrs, a, s);
    if s.used < env.ncpus as real { EdfLeavesNothing(env, rrs, a, s); }
    d := PickByDebt(env, rrs, a, s);
  }

  lemma DoneFrame(env: Env, rrs: real, ps: seq<Project>, rs: seq<Result>, ts: seq<Task>, missed: seq<int>, a: Sched,
                  s: Sched, d: Sched)
    requires |missed| == |ps| && Reset(env, ps, rs, ts, missed, a) && Done(env, rrs, a, s, d)
    ensures Untouched(ps, rs, ts, d.ps, d.rs, d.ts) && Inside(d.ordered, |d.rs|)
  {
    hide Phase, Totals, Chosen, Picks, Fresh, Open;
  }

  lemma DoneGood(env: Env, rrs: real, a: Sched, s: Sched, d: Sched)
    requires Done(env, rrs, a, s, d) && forall r :: 0 <= r < |a.rs| ==> a.rs[r].avgNcpus >= 0.0
    ensures Wired(d.ps, d.rs, d.ts) && Enforcer.GoodSchedule(env.ncpus, d.ps, d.rs, d.ordered)
  {
    hide Phase, Chosen, SumAt, WssSum, Open, Distinct;
    forall k | 0 <= k < |d.ordered| ensures SumAt(d.rs, d.ordered[..k], Avg) < env.ncpus as real {
      SumSame(a.rs, d.rs, d.ordered[..k], Avg);
    }
  }

  lemma DonePlanned(env: Env, rrs: real, a: Sched, s: Sched, d: Sched)
    requires Done(env, rrs, a, s, d)
    ensures Inside(d.ordered, |d.rs|) && Planned(env, d.ps, d.rs, d.ts, d.ts, d.ordered)
  {
    assert Frame(a, d) && Inside(d.ordered, |a.rs|) && |d.rs| == |a.rs|;
    hide Fresh, Phase, Debt, Planned, Open;
    PlanFromPhase(env, rrs, a, s);
    PlanStays(env, a, d.ts, d);
  }

  lemma DoneMarked(env: Env, rrs: real, ps: seq<Project>, rs: seq<Result>, ts: seq<Task>, missed: seq<int>, a: Sched,
                   s: Sched, d: Sched)
    requires |missed| == |ps| && Reset(env, ps, rs, ts, missed, a) && Done(env, rrs, a, s, d)
    ensures |missed| == |d.ps| && Marked(env, rrs, d.ps, d.rs, missed, d.ordered)
  {
    hide Totals, Chosen, Picks, Fresh, Open, InOrder, FlagsKept, Fees, Debt;
    forall p | 0 <= p < |d.ps|
      ensures d.ps[p].deadlinesMissed == missed[p] - CountOf(d.rs, d.ordered, p)
      ensures d.ps[p].anticipatedDebt == d.ps[p].shortTermDebt - Fees(env, rrs, d.ps[p].share,
              CountOf(d.rs, d.ordered, p))
    {
      PicksUseDeadlines(env, rrs, a.ps, a.rs, s.ordered, p);
      PicksCost(env, rrs, a.ps, a.rs, s.ordered, p);
      CountSame(a.rs, d.rs, d.ordered, p);
    }
  }

  /** What the first loop knows about a result when it ends. */
  lemma PhaseFlags(env: Env, rrs: real, a: Sched, s: Sched, r: nat)
    requires Fresh(env, a) && Phase(env, rrs, a, s) && r < |a.rs|
    requires s.used < env.ncpus as real ==> forall r: nat :: r < |a.rs| ==> !Open(s.ps, s.rs, r)
    ensures |s.ts| == |a.ts|
    ensures || (Runnable(a.ps, a.rs, r) && exists k :: Verdict(env, a.rs, a.ts, s.ts, s.ordered, r, k))
            || (&& r !in s.ordered && (forall i :: 0 <= i < |a.ts| && a.ts[i].result == r ==> s.ts[i] == a.ts[i])
                && (Runnable(a.ps, a.rs, r) ==> TooLate(env, a.rs, a.ts, s.ordered, r)))
  {
    PhaseReady(env, rrs, a, s);
    hide Frame, Fresh, Open, Verdict, TurnedDown, Runnable, Precedes, Charged, SumAt, WssSum;
  }

  /** The verdict is the same on the vectors before and after, which agree in all that it reads. */
  lemma VerdictSame(env: Env, a: Sched, d: Sched, ts: seq<Task>, r: nat, k: nat)
    requires Frame(a, d) && |ts| == |a.ts| && forall i :: 0 <= i < |ts| ==> a.ts[i] == ResetTask(ts[i])
    requires Verdict(env, a.rs, a.ts, d.ts, d.ordered, r, k)
    ensures Verdict(env, d.rs, ts, d.ts, d.ordered, r, k)
  {
    OrderSame(a, d, ts);
    SumSame(a.rs, d.rs, d.ordered[..k], Avg);
    WssSumSame(a.ts, ts, d.ordered[..k]);
    var left := Left(env, ts, d.ordered, k);
    assert forall i :: 0 <= i < |ts| ==> Flagged(env, left, ts[i]) == Flagged(env, left, a.ts[i]);
    assert forall i :: 0 <= i < |ts| ==> CanRun(env, left, ts[i]) == CanRun(env, left, a.ts[i]);
    assert Left(env, ts, d.ordered, k) == Left(env, a.ts, d.ordered, k);
    hide Precedes, SumAt, WssSum, Flagged, CanRun, Left, Frame;
  }

  lemma OrderSame(a: Sched, d: Sched, ts: seq<Task>)
    requires Frame(a, d) && |ts| == |a.ts| && forall i :: 0 <= i < |ts| ==> a.ts[i] == ResetTask(ts[i])
    ensures forall q: nat, r: nat :: q < |a.rs| && r < |a.rs| ==>
            (Precedes(d.rs, ts, q, r) <==> Precedes(a.rs, a.ts, q, r))
    ensures forall r: nat :: r < |a.rs| ==> (Runnable(d.ps, d.rs, r) <==> Runnable(a.ps, a.rs, r))
  {
    SameTasks(a.ts, ts);
    SameTasks(ts, a.ts);
    hide HasTask;
  }

  lemma TooLateSame(env: Env, a: Sched, d: Sched, ts: seq<Task>, r: nat)
    requires Frame(a, d) && |ts| == |a.ts| && forall i :: 0 <= i < |ts| ==> a.ts[i] == ResetTask(ts[i])
    requires TooLate(env, a.rs, a.ts, d.ordered, r)
    ensures TooLate(env, d.rs, ts, d.ordered, r)
  {
    OrderSame(a, d, ts);
    SumSame(a.rs, d.rs, d.ordered, Avg);
    hide Precedes, SumAt;
  }

  lemma DoneParts(env: Env, rrs: real, ps: seq<Project>, rs: seq<Result>, ts: seq<Task>, missed: seq<int>, a: Sched,
                  s: Sched, d: Sched)
    requires |missed| == |ps| && Reset(env, ps, rs, ts, missed, a) && Done(env, rrs, a, s, d)
    ensures Frame(a, d) && d.ts == s.ts && d.ordered == s.ordered && |a.ts| == |ts| == |d.ts| && |d.rs| == |a.rs|
    ensures Fresh(env, a) && Phase(env, rrs, a, s)
    ensures s.used < env.ncpus as real ==> forall r: nat :: r < |a.rs| ==> !Open(s.ps, s.rs, r)
    ensures forall i :: 0 <= i < |ts| ==> a.ts[i] == ResetTask(ts[i])
  {
    hide Fresh, Phase, Open, Totals, Chosen, Picks;
  }

  lemma DoneDecided(env: Env, rrs: real, a: Sched, s: Sched, d: Sched, ts: seq<Task>, r: nat)
    requires Frame(a, d) && |ts| == |a.ts| && forall i :: 0 <= i < |ts| ==> a.ts[i] == ResetTask(ts[i])
    requires Fresh(env, a) && Phase(env, rrs, a, s) && r < |a.rs| && d.ts == s.ts && d.ordered == s.ordered
    requires s.used < env.ncpus as real ==> forall r: nat :: r < |a.rs| ==> !Open(s.ps, s.rs, r)
    ensures |d.ts| == |ts| && Decided(env, d.ps, d.rs, ts, d.ts, d.ordered, r)
  {
    hide Frame, Fresh, Phase, Open, Verdict, TooLate, Runnable, Precedes;
    PhaseFlags(env, rrs, a, s, r);
    OrderSame(a, d, ts);
    if k :| Verdict(env, a.rs, a.ts, s.ts, s.ordered, r, k) {
      VerdictSame(env, a, d, ts, r, k);
    } else if Runnable(a.ps, a.rs, r) {
      TooLateSame(env, a, d, ts, r);
    }
  }

  lemma DoneFlags(env: Env, rrs: real, ps: seq<Project>, rs: seq<Result>, ts: seq<Task>, missed: seq<int>, a: Sched,
                  s: Sched, d: Sched)
    requires |missed| == |ps| && Reset(env, ps, rs, ts, missed, a) && Done(env, rrs, a, s, d)
    ensures FlagsRight(env, d.ps, d.rs, ts, d.ts, d.ordered)
  {
    DoneParts(env, rrs, ps, rs, ts, missed, a, s, d);
    hide Reset, Done, Frame, Fresh, Phase, Open, Decided;
    forall r: nat | r < |d.rs| ensures Decided(env, d.ps, d.rs, ts, d.ts, d.ordered, r) {
      DoneDecided(env, rrs, a, s, d, ts, r);
    }
  }

  lemma {:induction false} CountSame(rs: seq<Result>, zs: seq<Result>, idx: seq<nat>, p: nat)
    requires |rs| == |zs| && forall r :: 0 <= r < |rs| ==> zs[r].project == rs[r].project
    ensures CountOf(zs, idx, p) == CountOf(rs, idx, p)
  {
    if idx != [] { CountSame(rs, zs, idx[..|idx| - 1], p); }
  }

  /** schedule_cpus, on values. */
  method Plan(env: Env, rrs: real, ps: seq<Project>, rs: seq<Result>, ts: seq<Task>, missed: seq<int>)
      returns (d: Sched)
    requires Wired(ps, rs, ts) && |missed| == |ps| && env.ram >= 0.0
    requires forall i :: 0 <= i < |ts| ==> ts[i].wss >= 0.0
    requires forall r :: 0 <= r < |rs| ==> rs[r].avgNcpus >= 0.0
    ensures Untouched(ps, rs, ts, d.ps, d.rs, d.ts)
    ensures Wired(d.ps, d.rs, d.ts) && Inside(d.ordered, |d.rs|)
    ensures Enforcer.GoodSchedule(env.ncpus, d.ps, d.rs, d.ordered)
    ensures Planned(env, d.ps, d.rs, d.ts, d.ts, d.ordered)
    ensures |missed| == |d.ps| && Marked(env, rrs, d.ps, d.rs, missed, d.ordered)
    ensures FlagsRight(env, d.ps, d.rs, ts, d.ts, d.ordered)
  {
    var a := ResetAll(env, ps, rs, ts, missed);
    ResetFresh(env, ps, rs, ts, missed, a);
    assert forall r :: 0 <= r < |a.rs| ==> a.rs[r].avgNcpus >= 0.0;
    hide *;
    var s;
    s, d := TwoLoops(env, rrs, a);
    DoneFrame(env, rrs, ps, rs, ts, missed, a, s, d);
    DoneGood(env, rrs, a, s, d);
    DonePlanned(env, rrs, a, s, d);
    DoneMarked(env, rrs, ps, rs, ts, missed, a, s, d);
    DoneFlags(env, rrs, ps, rs, ts, missed, a, s, d);
  }

  /** schedule_cpus. */
  method ScheduleCpus(c: CpuState, env: Env, rrs: real, missed: seq<int>)
    requires Wired(c.ps, c.rs, c.ts) && |missed| == |c.ps| && env.ram >= 0.0
    requires forall i :: 0 <= i < |c.ts| ==> c.ts[i].wss >= 0.0
    requires forall r :: 0 <= r < |c.rs| ==> c.rs[r].avgNcpus >= 0.0
    modifies c
    ensures Untouched(old(c.ps), old(c.rs), old(c.ts), c.ps, c.rs, c.ts)
    ensures Wired(c.ps, c.rs, c.ts) && Inside(c.ordered, |c.rs|)
    ensures Enforcer.GoodSchedule(env.ncpus, c.ps, c.rs, c.ordered)
    ensures Planned(env, c.ps, c.rs, c.ts, c.ts, c.ordered)
    ensures |missed| == |c.ps| && Marked(env, rrs, c.ps, c.rs, missed, c.ordered)
    ensures FlagsRight(env, c.ps, c.rs, old(c.ts), c.ts, c.ordered)
  {
    hide *;
    var d := Plan(env, rrs, c.ps, c.rs, c.ts, missed);
    c.ps, c.rs, c.ts, c.ordered := d.ps, d.rs, d.ts, d.ordered;
  }

  /** The results of the schedule that have no task, and whose project misses more deadlines than
      results of it come before, run. */
  ghost predicate UrgentRun(rs: seq<Result>, ts: seq<Task>, ordered: seq<nat>, missed: seq<int>, us: seq<Task>) {
    forall k :: 0 <= k < |ordered| && ordered[k] < |rs| && rs[ordered[k]].project < |missed| && !HasTask(ts, ordered[k])
                && missed[rs[ordered[k]].project] > CountOf(rs, ordered[..k], rs[ordered[k]].project)
                ==> Placement.Runs(us, ordered[k])
  }

  lemma EnforcedUrgent(env: Env, ps: seq<Project>, rs: seq<Result>, was: seq<Task>, ts: seq<Task>, ordered: seq<nat>,
                       missed: seq<int>, us: seq<Task>)
    requires Wired(ps, rs, ts) && Enforcer.GoodSchedule(env.ncpus, ps, rs, ordered) && |missed| == |ps|
    requires Enforcer.Enforced(env, ps, rs, ts, ordered, missed, us)
    requires |was| == |ts| && forall i :: 0 <= i < |was| ==> ts[i].result == was[i].result
    ensures UrgentRun(rs, was, ordered, missed, us)
  {
    assert forall r :: HasTask(ts, r) ==> HasTask(was, r) by { SameTasks(was, ts); }
    hide Wired, Enforcer.GoodSchedule, Enforcer.Enforced, HasTask, CountOf, Placement.Runs;
    forall k: nat | k < |ordered| && ordered[k] < |rs| && rs[ordered[k]].project < |missed| && !HasTask(was, ordered[k])
                    && missed[rs[ordered[k]].project] > CountOf(rs, ordered[..k], rs[ordered[k]].project)
      ensures Placement.Runs(us, ordered[k])
    {
      Enforcer.UrgentResultRuns(env, ps, rs, ts, ordered, missed, us, k);
    }
  }

  lemma SameTasks(was: seq<Task>, ts: seq<Task>)
    requires |was| == |ts| && forall i :: 0 <= i < |was| ==> ts[i].result == was[i].result
    ensures forall r :: HasTask(ts, r) ==> HasTask(was, r)
  {
    forall r | HasTask(ts, r) ensures HasTask(was, r) {
      var i :| 0 <= i < |ts| && ts[i].result == r;
      assert was[i].result == r;
    }
  }

  /** Every CPU-intensive task that runs has had its time slice and has checkpointed lately. */
  ghost predicate SlicesOver(env: Env, rs: seq<Result>, ts: seq<Task>) {
    forall i :: 0 <= i < |ts| && ts[i].intensive && ts[i].scheduled && ts[i].result < |rs| && rs[ts[i].result].runnable
      ==> env.now - ts[i].intervalStart >= env.period && env.now - ts[i].checkpoint < 10.0
  }

  ghost predicate AllRun(ordered: seq<nat>, us: seq<Task>) {
    forall k :: 0 <= k < |ordered| ==> Placement.Runs(us, ordered[k])
  }

  lemma EnforcedAll(env: Env, ps: seq<Project>, rs: seq<Result>, ts: seq<Task>, ordered: seq<nat>, missed: seq<int>,
                    us: seq<Task>)
    requires Wired(ps, rs, ts) && Enforcer.GoodSchedule(env.ncpus, ps, rs, ordered) && |missed| == |ps|
    requires Enforcer.Enforced(env, ps, rs, ts, ordered, missed, us) && SlicesOver(env, rs, ts)
    requires forall i :: 0 <= i < |ts| ==> ts[i].wss >= 0.0
    requires WssSum(ts, ordered) <= env.ram
    ensures AllRun(ordered, us)
  {
    assert forall i :: 0 <= i < |ts| ==> ts[i].result < |rs|;
    hide Wired, Enforcer.GoodSchedule, Enforcer.Enforced, WssSum, Placement.Runs;
    forall k | 0 <= k < |ordered| ensures Placement.Runs(us, ordered[k]) {
      Fairness.AllOfItRuns(env, ps, rs, ts, ordered, missed, us, k);
    }
  }

  lemma SlicesSame(env: Env, ps: seq<Project>, rs: seq<Result>, ts: seq<Task>, qs: seq<Project>, zs: seq<Result>,
                   us: seq<Task>)
    requires Untouched(ps, rs, ts, qs, zs, us) && Wired(ps, rs, ts)
    ensures SlicesOver(env, rs, ts) ==> SlicesOver(env, zs, us)
    ensures |us| == |ts| && forall i :: 0 <= i < |ts| ==> us[i].result == ts[i].result && us[i].wss == ts[i].wss
  {
  }

  lemma PlannedRam(env: Env, ps: seq<Project>, rs: seq<Result>, ts: seq<Task>, ordered: seq<nat>)
    requires Inside(ordered, |rs|) && Planned(env, ps, rs, ts, ts, ordered)
    ensures WssSum(ts, ordered) <= env.ram
  {
  }

  lemma EnforcedBounds(env: Env, ps: seq<Project>, rs: seq<Result>, ts: seq<Task>, ordered: seq<nat>, missed: seq<int>,
                       us: seq<Task>)
    requires Wired(ps, rs, ts) && |missed| == |ps| && Enforcer.Enforced(env, ps, rs, ts, ordered, missed, us)
    ensures Enforcer.WithinBounds(env, rs, us)
  {
  }

  /** A new schedule and its enforcement: from any state, the tasks marked to run fit in the RAM
      and, with one CPU each, in the CPUs; the most urgent results run; and all of the schedule runs if
      every running task has had its time slice and has checkpointed lately. */
  method Reschedule(c: CpuState, env: Env, rrs: real, missed: seq<int>)
    requires Wired(c.ps, c.rs, c.ts) && |missed| == |c.ps| && env.ram >= 0.0
    requires forall i :: 0 <= i < |c.ts| ==> c.ts[i].wss >= 0.0
    requires forall r :: 0 <= r < |c.rs| ==> c.rs[r].avgNcpus >= 0.0
    modifies c
    ensures Wired(c.ps, c.rs, c.ts) && Enforcer.WithinBounds(env, c.rs, c.ts)
    ensures UrgentRun(c.rs, old(c.ts), c.ordered, missed, c.ts)
    ensures SlicesOver(env, old(c.rs), old(c.ts)) ==> AllRun(c.ordered, c.ts)
  {
    hide *;
    ScheduleCpus(c, env, rrs, missed);
    ghost var ps, ts := c.ps, c.ts;
    SlicesSame(env, old(c.ps), old(c.rs), old(c.ts), c.ps, c.rs, c.ts);
    PlannedRam(env, c.ps, c.rs, c.ts, c.ordered);
    Enforcer.EnforceSchedule(c, env, missed);
    EnforcedBounds(env, ps, c.rs, ts, c.ordered, missed, c.ts);
    EnforcedUrgent(env, ps, c.rs, old(c.ts), ts, c.ordered, missed, c.ts);
    if SlicesOver(env, c.rs, ts) { EnforcedAll(env, ps, c.rs, ts, c.ordered, missed, c.ts); }
  }
}
