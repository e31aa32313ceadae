/** The first loop of CLIENT_STATE::schedule_cpus (client/cpu_sched.C): results by deadline,
    and schedule_if_possible, which both loops use. */
module Deadlines {
  import opened Options
  import opened CpuTypes

  /** The local state of schedule_cpus. */
  datatype Sched = Sched(ps: seq<Project>, rs: seq<Result>, ts: seq<Task>, ordered: seq<nat>, used: real, ram: real)

  /** A result that the scheduler can run: runnable, of a CPU-intensive project. */
  predicate Runnable(ps: seq<Project>, rs: seq<Result>, r: nat) {
    r < |rs| && rs[r].project < |ps| && rs[r].runnable && !ps[rs[r].project].nonCpuIntensive
  }

  // ---- earliest_deadline_result -----------------------------------------------------

  /** Earlier deadline; at a tie, started before not started, then less CPU time remaining. */
  ghost predicate Before(rs: seq<Result>, ts: seq<Task>, a: nat, b: nat)
    requires a < |rs| && b < |rs|
  {
    || rs[a].deadline < rs[b].deadline
    || (rs[a].deadline == rs[b].deadline && HasTask(ts, a) && !HasTask(ts, b))
    || (rs[a].deadline == rs[b].deadline && HasTask(ts, a) == HasTask(ts, b) && rs[a].remaining < rs[b].remaining)
  }

  /** The order in which the loop takes the results: by `Before`, then by position. */
  ghost predicate Precedes(rs: seq<Result>, ts: seq<Task>, a: nat, b: nat)
    requires a < |rs| && b < |rs|
  {
    Before(rs, ts, a, b) || (!Before(rs, ts, b, a) && a < b)
  }

  lemma PrecedesTrans(rs: seq<Result>, ts: seq<Task>, a: nat, b: nat, c: nat)
    requires a < |rs| && b < |rs| && c < |rs| && Precedes(rs, ts, a, b) && Precedes(rs, ts, b, c)
    ensures Precedes(rs, ts, a, c)
  {
    hide HasTask;
  }

  /** Still to be considered. */
  predicate Open(ps: seq<Project>, rs: seq<Result>, r: nat) { Runnable(ps, rs, r) && !rs[r].selected }

  method EarliestDeadline(ps: seq<Project>, rs: seq<Result>, ts: seq<Task>) returns (best: Option<nat>)
    requires forall r :: 0 <= r < |rs| ==> rs[r].project < |ps|
    ensures best.None? ==> forall r :: 0 <= r < |rs| ==> !Open(ps, rs, r)
    ensures best.Some? ==> Open(ps, rs, best.value)
    ensures best.Some? ==> forall r :: 0 <= r < |rs| && Open(ps, rs, r) && r != best.value ==>
            Precedes(rs, ts, best.value, r)
  {
    best := None;
    var bestTask: Option<nat> := None;
    for r := 0 to |rs|
      invariant best.None? ==> forall q :: 0 <= q < r ==> !Open(ps, rs, q)
      invariant best.Some? ==>
          best.value < r && Open(ps, rs, best.value) && (bestTask.Some? <==> HasTask(ts, best.value))
      invariant best.Some? ==> forall q :: 0 <= q < r && Open(ps, rs, q) && q != best.value ==>
          Precedes(rs, ts, best.value, q)
    {
      if !rs[r].runnable || ps[rs[r].project].nonCpuIntensive || rs[r].selected { continue; }
      var task := LookupTask(ts, r);
      if best.None? || Beats(rs, r, task.Some?, best.value, bestTask.Some?) {
        if best.Some? { NewBest(ps, rs, ts, r, best.value); }
        best, bestTask := Some(r), task;
      }
    }
  }

  /** Lines 208-236: the comparison of the scan. */
  predicate Beats(rs: seq<Result>, r: nat, started: bool, best: nat, bestStarted: bool)
    requires r < |rs| && best < |rs|
  {
    if rs[r].deadline < rs[best].deadline then true
    else if rs[r].deadline > rs[best].deadline then false
    else if bestStarted && !started then false
    else rs[r].remaining < rs[best].remaining || (!bestStarted && started)
  }

  lemma NewBest(ps: seq<Project>, rs: seq<Result>, ts: seq<Task>, r: nat, best: nat)
    requires best < r < |rs| && Before(rs, ts, r, best)
    requires forall q :: 0 <= q < r && Open(ps, rs, q) && q != best ==> Precedes(rs, ts, best, q)
    ensures forall q :: 0 <= q < r && Open(ps, rs, q) ==> Precedes(rs, ts, r, q)
  {
    hide HasTask, Open;
    forall q | 0 <= q < r && Open(ps, rs, q) ensures Precedes(rs, ts, r, q) {
      if q != best { PrecedesTrans(rs, ts, r, best, q); }
    }
  }

  // ---- schedule_if_possible ----------------------------------------------------------

  /** No new shared memory segments for now. */
  predicate ShmemShort(env: Env) { env.retryShmem > env.now }

  /** The task can run beside what has been picked before. */
  predicate CanRun(env: Env, ram: real, t: Task) { t.wss <= ram && (ShmemShort(env) ==> t.attached) }

  /** The flags of the task after it has been looked at, lines 433-455. */
  function Flagged(env: Env, ram: real, t: Task): Task {
    t.(tooLarge := t.wss > ram, needsShmem := if t.wss <= ram && ShmemShort(env) then !t.attached else t.needsShmem)
  }

  /** The working set of the task of a result; nothing without a task. */
  ghost function WssOf(ts: seq<Task>, r: nat): real {
    if ts == [] then 0.0
    else if ts[|ts| - 1].result == r then ts[|ts| - 1].wss
    else WssOf(ts[..|ts| - 1], r)
  }

  ghost predicate OneEach(ts: seq<Task>) { forall i, j :: 0 <= i < j < |ts| ==> ts[i].result != ts[j].result }

  lemma {:induction false} WssAt(ts: seq<Task>, i: nat)
    requires OneEach(ts) && i < |ts|
    ensures WssOf(ts, ts[i].result) == ts[i].wss
  {
    if i < |ts| - 1 {
      assert ts[i].result != ts[|ts| - 1].result;
      WssAt(ts[..|ts| - 1], i);
    }
  }

  lemma {:induction false} WssNone(ts: seq<Task>, r: nat)
    requires !HasTask(ts, r)
    ensures WssOf(ts, r) == 0.0
  {
    if ts != [] {
      assert ts[|ts| - 1].result != r;
      WssNone(ts[..|ts| - 1], r);
    }
  }

  /** Every task of the result can run. */
  ghost predicate Admissible(env: Env, ram: real, ts: seq<Task>, r: nat) {
    forall i :: 0 <= i < |ts| && ts[i].result == r ==> CanRun(env, ram, ts[i])
  }

  /** What a project is charged for a picked result, line 462. A share of 0 among runnable shares
      of 0 is not charged. */
  function Fee(env: Env, rrs: real, share: real): real { if rrs == 0.0 then 0.0 else share / rrs * env.period }

  function Charge(env: Env, rrs: real, ps: seq<Project>, p: nat): seq<Project>
    requires p < |ps|
  {
    ps[p := ps[p].(anticipatedDebt := ps[p].anticipatedDebt - Fee(env, rrs, ps[p].share))]
  }

  /** The outcome of looking at a result: it is taken exactly if its task, if any, can run. */
  ghost predicate Tried(env: Env, rrs: real, s: Sched, r: nat, z: Sched, ok: bool)
    requires r < |s.rs| && s.rs[r].project < |s.ps|
  {
    && ok == Admissible(env, s.ram, s.ts, r)
    && z.rs == s.rs && z.ordered == s.ordered && |z.ts| == |s.ts|
    && (forall i :: 0 <= i < |s.ts| ==>
        z.ts[i] == if s.ts[i].result == r then Flagged(env, s.ram, s.ts[i]) else s.ts[i])
    && z.ps == (if ok then Charge(env, rrs, s.ps, s.rs[r].project) else s.ps)
    && z.used == s.used + (if ok then s.rs[r].avgNcpus else 0.0)
    && z.ram == s.ram - (if ok then WssOf(s.ts, r) else 0.0)
    && (s.ram >= 0.0 ==> z.ram >= 0.0)
  }

  lemma TriedFrame(env: Env, rrs: real, s: Sched, r: nat, z: Sched, ok: bool)
    requires r < |s.rs| && s.rs[r].project < |s.ps| && Tried(env, rrs, s, r, z, ok)
    ensures z.rs == s.rs && z.ordered == s.ordered && |z.ts| == |s.ts| && |z.ps| == |s.ps|
    ensures forall i :: 0 <= i < |s.ts| ==>
            z.ts[i] == s.ts[i].(tooLarge := z.ts[i].tooLarge, needsShmem := z.ts[i].needsShmem)
    ensures forall p :: 0 <= p < |s.ps| ==> z.ps[p] == s.ps[p].(anticipatedDebt := z.ps[p].anticipatedDebt)
    ensures forall p :: 0 <= p < |s.ps| && p != s.rs[r].project ==> z.ps[p] == s.ps[p]
  {
    hide Admissible, WssOf, Flagged, Charge;
    ChargeFrame(env, rrs, s.ps, s.rs[r].project);
    forall i | 0 <= i < |s.ts| ensures z.ts[i]
        == s.ts[i].(tooLarge := z.ts[i].tooLarge, needsShmem := z.ts[i].needsShmem) {
      FlaggedFrame(env, s.ram, s.ts[i]);
    }
  }

  lemma FlaggedFrame(env: Env, ram: real, t: Task)
    ensures Flagged(env, ram, t) == t.(tooLarge := Flagged(env, ram, t).tooLarge,
            needsShmem := Flagged(env, ram, t).needsShmem)
  {
  }

  lemma ChargeFrame(env: Env, rrs: real, ps: seq<Project>, p: nat)
    requires p < |ps|
    ensures |Charge(env, rrs, ps, p)| == |ps|
    ensures forall q :: 0 <= q < |ps| ==>
            Charge(env, rrs, ps, p)[q] == ps[q].(anticipatedDebt := Charge(env, rrs, ps, p)[q].anticipatedDebt)
    ensures forall q :: 0 <= q < |ps| && q != p ==> Charge(env, rrs, ps, p)[q] == ps[q]
  {
  }

  method ScheduleIfPossible(env: Env, rrs: real, s: Sched, r: nat) returns (z: Sched, ok: bool)
    requires r < |s.rs| && s.rs[r].project < |s.ps| && OneEach(s.ts)
    ensures Tried(env, rrs, s, r, z, ok)
  {
    z := s;
    var o := LookupTask(s.ts, r);
    if o.Some? {
      var i := o.value;
      WssAt(s.ts, i);
      z := s.(ts := s.ts[i := Flagged(env, s.ram, s.ts[i])]);
      if s.ts[i].wss > s.ram { return z, false; }
      if ShmemShort(env) && !s.ts[i].attached { return z, false; }
      z := z.(ram := z.ram - s.ts[i].wss);
    } else {
      WssNone(s.ts, r);
    }
    z := z.(used := z.used + s.rs[r].avgNcpus, ps := Charge(env, rrs, s.ps, s.rs[r].project));
    ok := true;
  }
}
