/** Who is preempted and who has to wait: what the marking of CLIENT_STATE::enforce_schedule
    (client/cpu_sched.C) means for single tasks, in terms of the time slices, the last checkpoints,
    the CPUs and the RAM. */
module Fairness {
  import opened Sequences
  import opened Options
  import opened CpuTypes
  import opened MarkLedger
  import opened Placement
  import opened Turns
  import opened Enforcer
  import opened Deadlines
  import EdfPhase

  /** The task has had its time slice and has checkpointed lately. */
  predicate SliceOver(env: Env, t: Task) { env.now - t.intervalStart >= env.period && env.now - t.checkpoint < 10.0 }

  // ---- Preemption -------------------------------------------------------------------------------

  /** What a turn of a result in no deadline trouble does to a task. */
  lemma TurnTask(env: Env, rs: seq<Result>, s: State, done: seq<nat>, r: nat, front: Option<nat>, z: State, i: nat)
    requires Turn(env, rs, s, done, r, front, z) && i < |s.ts| && r !in done
    requires s.ps[rs[r].project].deadlinesMissed == 0 && s.ts[i].next && s.ts[i].intensive
    ensures i < |z.ts| && (z.ts[i].next || SliceOver(env, s.ts[i]) || (s.ts[i].result == r && z.ts[i].tooLarge))
  {
    if s.ts[i].result == r {
      TurnOwn(env, rs, s, done, r, front, z, i);
    } else {
      hide Fits, Runs, Running, HasTask, SpendOne, NewTask, Tallied, Spent;
    }
  }

  /** A running task is marked at the turn of its result, or flagged. */
  lemma TurnOwn(env: Env, rs: seq<Result>, s: State, done: seq<nat>, r: nat, front: Option<nat>, z: State, i: nat)
    requires Turn(env, rs, s, done, r, front, z) && i < |s.ts| && r !in done
    requires s.ts[i].result == r && s.ts[i].next && s.ts[i].intensive
    ensures i < |z.ts| && (z.ts[i].next || z.ts[i].tooLarge)
  {
    StillRunning(env, rs, s, done, r, i);
    TurnUnique(env, rs, s, done, r, front, z, i);
    hide Tallied, GivesWay, HasTask, SpendOne, NewTask, Spent, Running, Turn;
    assert Runs(z.ts, r) <==> Fits(s, r) by { hide Fits, Runs; }
  }

  lemma StillRunning(env: Env, rs: seq<Result>, s: State, done: seq<nat>, r: nat, i: nat)
    requires Tallied(env, rs, s, done) && Inside(s.heap, |s.ts|) && i < |s.ts| && r !in done
    requires s.ts[i].result == r && s.ts[i].next && s.ts[i].intensive
    ensures Running(s, r)
  {
    var kept :| Ledger(env, rs, s, kept) && KeptFor(s, kept, done);
    hide Wired, Sums;
    assert i in kept + s.heap && i !in kept;
    var k :| 0 <= k < |s.heap| && s.heap[k] == i;
  }

  /** A result has one task at most. */
  lemma TurnUnique(env: Env, rs: seq<Result>, s: State, done: seq<nat>, r: nat, front: Option<nat>, z: State, i: nat)
    requires Turn(env, rs, s, done, r, front, z) && i < |s.ts| && s.ts[i].result == r
    ensures Effect(env, rs, s, r, front, z) && i < |z.ts| && |s.ts| <= |z.ts|
    ensures forall j :: 0 <= j < |z.ts| && z.ts[j].result == r ==> j == i
    ensures forall j :: 0 <= j < |s.ts| && s.ts[j].result == r ==> j == i
    ensures z.ts[i].tooLarge <==> s.ts[i].wss > s.ram
  {
    var kept :| Ledger(env, rs, s, kept) && KeptFor(s, kept, done);
    hide Sums, Lists, KeptFor, Fits, Runs, Running, GivesWay, SpendOne, NewTask, Spent;
    assert HasTask(s.ts, r);
    hide HasTask;
  }

  /** Whoever was running still runs, has had its time slice, or was too large at its turn. */
  ghost predicate Spared(env: Env, ts: seq<Task>, done: seq<nat>, us: seq<Task>) {
    |ts| <= |us| && forall i :: 0 <= i < |ts| && ts[i].intensive && ts[i].next ==>
      us[i].next || SliceOver(env, ts[i]) || (ts[i].result in done && us[i].tooLarge)
  }

  ghost predicate NoneMissed(rs: seq<Result>, ps: seq<Project>, ordered: seq<nat>) {
    forall k :: 0 <= k < |ordered| && ordered[k] < |rs| && rs[ordered[k]].project < |ps| ==>
      ps[rs[ordered[k]].project].deadlinesMissed == 0
  }

  lemma SparedNext(env: Env, rs: seq<Result>, ts: seq<Task>, s: State, done: seq<nat>, r: nat, front: Option<nat>,
                   z: State)
    requires Spared(env, ts, done, s.ts) && OnlyRemarks(ts, s.ts) && r !in done
    requires Turn(env, rs, s, done, r, front, z) && s.ps[rs[r].project].deadlinesMissed == 0
    ensures Spared(env, ts, done + [r], z.ts) && OnlyRemarks(ts, z.ts)
  {
    TurnFlags(env, rs, s, done, r, front, z);
    hide Turn;
    forall i | 0 <= i < |ts| && ts[i].intensive && ts[i].next
      ensures z.ts[i].next || SliceOver(env, ts[i]) || (ts[i].result in done + [r] && z.ts[i].tooLarge)
    {
      if s.ts[i].next { TurnTask(env, rs, s, done, r, front, z, i); }
    }
  }

  /** A turn spends no deadline of a project that misses none. */
  lemma ZeroStays(env: Env, rs: seq<Result>, s: State, done: seq<nat>, r: nat, front: Option<nat>, z: State)
    requires Turn(env, rs, s, done, r, front, z)
    ensures |z.ps| == |s.ps| && forall p :: 0 <= p < |s.ps| && s.ps[p].deadlinesMissed == 0 ==>
            z.ps[p].deadlinesMissed == 0
  {
    hide Turn;
    TurnProjects(env, rs, s, done, r, front, z);
  }

  /** Over the whole loop, when no project of the schedule misses a deadline. */
  lemma {:induction false} LoopSpares(env: Env, rs: seq<Result>, s: State, ordered: seq<nat>, z: State)
    requires Follows(env, rs, s, ordered, z) && Distinct(ordered) && NoneMissed(rs, s.ps, ordered)
    ensures Spared(env, s.ts, ordered, z.ts) && OnlyRemarks(s.ts, z.ts)
    ensures |z.ps| == |s.ps| && forall p :: 0 <= p < |s.ps| && s.ps[p].deadlinesMissed == 0 ==>
            z.ps[p].deadlinesMissed == 0
    decreases |ordered|
  {
    hide Follows, Turn, Spared, OnlyRemarks;
    if ordered == [] {
      FollowsNone(env, rs, s, z);
      assert Spared(env, s.ts, [], s.ts) && OnlyRemarks(s.ts, s.ts) by { SparedStart(env, s.ts); }
    } else {
      var n := |ordered| - 1;
      var rest := ordered[..n];
      var y, front := FollowsLast(env, rs, s, ordered, z);
      LoopSpares(env, rs, s, rest, y);
      ZeroStays(env, rs, y, rest, ordered[n], front, z);
      TurnProjects(env, rs, y, rest, ordered[n], front, z);
      SparedNext(env, rs, s.ts, y, rest, ordered[n], front, z);
      assert ordered == rest + [ordered[n]];
    }
  }

  lemma SparedStart(env: Env, ts: seq<Task>)
    ensures Spared(env, ts, [], ts) && OnlyRemarks(ts, ts)
  {
  }

  /** The CPUs of the CPU-intensive tasks that were running and still can be. */
  ghost function CpusInUse(rs: seq<Result>, ts: seq<Task>): real {
    if ts == [] then 0.0
    else
      var t := ts[|ts| - 1];
      CpusInUse(rs, ts[..|ts| - 1])
      + if t.result < |rs| && t.intensive && t.scheduled && rs[t.result].runnable then t.ncpus else 0.0
  }

  lemma {:induction false} FewerCpus(rs: seq<Result>, ts: seq<Task>, us: seq<Task>, i: nat)
    requires |us| == |ts| && forall j :: 0 <= j < |ts| ==> us[j].ncpus == ts[j].ncpus >= 0.0
    requires forall j :: 0 <= j < |ts| && Marked(us[j]) ==> Ran(rs, ts[j])
    requires i < |ts| ==> Ran(rs, ts[i]) && !Marked(us[i])
    ensures Total(us, Marked, Cpus) + (if i < |ts| then ts[i].ncpus else 0.0) <= CpusInUse(rs, ts)
  {
    if ts != [] {
      var n := |ts| - 1;
      hide Marked, Ran;
      FewerCpus(rs, ts[..n], us[..n], i);
      assert Ran(rs, ts[n]) <==>
        ts[n].result < |rs| && ts[n].intensive && ts[n].scheduled && rs[ts[n].result].runnable
        by { LastRan(rs, ts[n]); }
    }
  }

  lemma LastRan(rs: seq<Result>, t: Task)
    ensures Ran(rs, t) <==> t.result < |rs| && t.intensive && t.scheduled && rs[t.result].runnable
  {
  }

  /** When there are CPUs for all, nobody is left out of the heap. */
  lemma NoExtras(env: Env, ps: seq<Project>, rs: seq<Result>, ts: seq<Task>, missed: seq<int>, s: State)
    requires |missed| == |ps| && Begun(env, ps, rs, ts, missed, s) && CpusInUse(rs, ts) <= env.ncpus as real
    requires Wired(ps, rs, ts) && forall r :: 0 <= r < |rs| ==> rs[r].avgNcpus >= 0.0
    ensures AllIn(rs, ts, s)
  {
    HeapExact(env, rs, s);
    LedgerTotals(env, rs, s, []);
    SumNone(s.ts, [], Cpus);
    hide Ledger, Marked, Ran;
    if OneOut(env, rs, ts, s) {
      var i :| 0 <= i < |ts| && Ran(rs, ts[i]) && i !in s.heap && s.used + ts[i].ncpus > env.ncpus as real;
      FewerCpus(rs, ts, s.ts, i);
    }
  }

  /** Of the tasks that were running, with CPUs for all of them and no deadline trouble in the schedule,
      one that is not too large is preempted only after its time slice and close to a checkpoint. */
  lemma PreemptedAfterSlice(env: Env, ps: seq<Project>, rs: seq<Result>, ts: seq<Task>, ordered: seq<nat>,
                            missed: seq<int>, us: seq<Task>, i: nat)
    requires Wired(ps, rs, ts) && GoodSchedule(env.ncpus, ps, rs, ordered) && |missed| == |ps|
    requires Enforced(env, ps, rs, ts, ordered, missed, us)
    requires forall k :: 0 <= k < |ordered| ==> missed[rs[ordered[k]].project] == 0
    requires CpusInUse(rs, ts) <= env.ncpus as real
    requires i < |ts| && ts[i].intensive && ts[i].scheduled && rs[ts[i].result].runnable
    ensures |ts| <= |us|
    ensures || us[i].next || us[i].tooLarge
            || (env.now - ts[i].intervalStart >= env.period && env.now - ts[i].checkpoint < 10.0)
  {
    var s, z := Loop(env, ps, rs, ts, ordered, missed, us);
    assert Ran(rs, ts[i]) && NoneMissed(rs, s.ps, ordered) by { Zeroes(rs, s.ps, ordered, missed); }
    assert forall r :: 0 <= r < |rs| ==> rs[r].avgNcpus >= 0.0;
    hide *;
    NoExtras(env, ps, rs, ts, missed, s);
    LoopSpares(env, rs, s, ordered, z);
    InHeap(env, rs, ts, s, i);
    SparedAtEnd(env, ts, ordered, s, z, us, i);
  }

  lemma Zeroes(rs: seq<Result>, ps: seq<Project>, ordered: seq<nat>, missed: seq<int>)
    requires |missed| == |ps| && forall p :: 0 <= p < |ps| ==> ps[p].deadlinesMissed == missed[p]
    requires forall k :: 0 <= k < |ordered| ==>
            ordered[k] < |rs| && rs[ordered[k]].project < |ps| && missed[rs[ordered[k]].project] == 0
    ensures NoneMissed(rs, ps, ordered)
  {
  }

  lemma InHeap(env: Env, rs: seq<Result>, ts: seq<Task>, s: State, i: nat)
    requires Ledger(env, rs, s, []) && AllIn(rs, ts, s) && i < |ts| && Ran(rs, ts[i])
    ensures i < |s.ts| && s.ts[i].next
  {
    HeapMarked(env, rs, s, []);
  }

  lemma SparedAtEnd(env: Env, ts: seq<Task>, ordered: seq<nat>, s: State, z: State, us: seq<Task>, i: nat)
    requires |s.ts| == |ts| && OnlyRemarks(ts, s.ts) && OnlyRemarks(s.ts, z.ts)
    requires Spared(env, s.ts, ordered, z.ts) && RestTrimmed(env, ordered, z, us)
    requires i < |ts| && ts[i].intensive && s.ts[i].next
    ensures i < |us|
    ensures || us[i].next || us[i].tooLarge
            || (env.now - ts[i].intervalStart >= env.period && env.now - ts[i].checkpoint < 10.0)
  {
    hide Greedy, Total, Marked, Inside;
    assert SameTask(ts[i], s.ts[i]) && SameTask(s.ts[i], z.ts[i]);
  }

  /** The loop over the schedule that the marks come from. */
  lemma Loop(env: Env, ps: seq<Project>, rs: seq<Result>, ts: seq<Task>, ordered: seq<nat>, missed: seq<int>,
             us: seq<Task>) returns (s: State, z: State)
    requires Wired(ps, rs, ts) && |missed| == |ps| && Enforced(env, ps, rs, ts, ordered, missed, us)
    ensures Begun(env, ps, rs, ts, missed, s) && Follows(env, rs, s, ordered, z)
    ensures AgreeOn(ordered, z.ts, us) && RestTrimmed(env, ordered, z, us)
    ensures Ledger(env, rs, s, []) && Inside(s.heap, |s.ts|) && s.ram == env.ram && OneEach(s.ts)
    ensures |s.ts| == |ts| <= |us| && OnlyRemarks(ts, s.ts) && FlagsStay(ts, s.ts) && |s.ps| == |ps|
    ensures forall p :: 0 <= p < |ps| ==> s.ps[p].deadlinesMissed == missed[p]
  {
    assert OnlyRemarks(ts, us) && ScheduleMet(env, ps, rs, ts, ordered, missed, us);
    hide Enforced, Follows, Ledger, Greedy, AgreeOn, Total, RestTrimmed;
    s, z :| Begun(env, ps, rs, ts, missed, s) && Follows(env, rs, s, ordered, z)
        && AgreeOn(ordered, z.ts, us) && RestTrimmed(env, ordered, z, us);
    hide AllIn, OneOut;
    LedgerStart(env, rs, s);
  }

  lemma LedgerStart(env: Env, rs: seq<Result>, s: State)
    requires Ledger(env, rs, s, [])
    ensures Inside(s.heap, |s.ts|) && s.ram == env.ram && OneEach(s.ts)
  {
    SumNone(s.ts, [], Ram);
  }

  // ---- Deadline trouble ---------------------------------------------------------------------------

  /** The deadlines that the projects miss, all together. */
  ghost function AllMissed(ps: seq<Project>): int {
    if ps == [] then 0 else AllMissed(ps[..|ps| - 1]) + ps[|ps| - 1].deadlinesMissed
  }

  lemma {:induction false} MissedUpdate(ps: seq<Project>, p: nat, q: Project)
    requires p < |ps|
    ensures AllMissed(ps[p := q]) == AllMissed(ps) - ps[p].deadlinesMissed + q.deadlinesMissed
  {
    var n := |ps| - 1;
    if p == n {
      assert ps[p := q][..n] == ps[..n];
    } else {
      MissedUpdate(ps[..n], p, q);
      assert ps[p := q][..n] == ps[..n][p := q];
    }
  }

  /** Marked at first and not any more, in the middle of the slice or far from a checkpoint, and not
      found too large at its turn. */
  predicate Interrupted(env: Env, t: Task, u: Task, done: seq<nat>) {
    t.intensive && t.next && !u.next && !SliceOver(env, t) && !(t.result in done && u.tooLarge)
  }

  ghost function Interruptions(env: Env, ts: seq<Task>, us: seq<Task>, done: seq<nat>): nat
    requires |ts| <= |us|
  {
    if ts == [] then 0
    else Interruptions(env, ts[..|ts| - 1], us, done)
         + if Interrupted(env, ts[|ts| - 1], us[|ts| - 1], done) then 1 else 0
  }

  /** If nobody but perhaps `f` is interrupted anew, there is at most one interruption more. */
  lemma {:induction false} OneMore(env: Env, ts: seq<Task>, us: seq<Task>, done: seq<nat>, vs: seq<Task>,
                                   more: seq<nat>, f: Option<nat>)
    requires |ts| <= |us| && |ts| <= |vs|
    requires forall i :: 0 <= i < |ts| && f != Some(i) && Interrupted(env, ts[i], vs[i], more) ==>
            Interrupted(env, ts[i], us[i], done)
    ensures Interruptions(env, ts, vs, more)
            <= Interruptions(env, ts, us, done) + if f.Some? && f.value < |ts| then 1 else 0
  {
    hide Interrupted;
    if ts != [] { OneMore(env, ts[..|ts| - 1], us, done, vs, more, f); }
  }

  /** A turn interrupts at most the task that was looked at, and spends a deadline on it. */
  lemma TurnInterrupts(env: Env, rs: seq<Result>, ts: seq<Task>, s: State, done: seq<nat>, r: nat,
                       front: Option<nat>, z: State, i: nat)
    requires Turn(env, rs, s, done, r, front, z) && r !in done && OnlyRemarks(ts, s.ts) && i < |ts|
    ensures |s.ts| <= |z.ts|
    ensures Interrupted(env, ts[i], z.ts[i], done + [r]) ==>
            || Interrupted(env, ts[i], s.ts[i], done)
            || (front == Some(i) && s.ps[rs[r].project].deadlinesMissed != 0 && z.ps == SpendOne(s, rs[r].project).ps)
  {
    TurnFlags(env, rs, s, done, r, front, z);
    assert SameTask(ts[i], s.ts[i]) && SameTask(s.ts[i], z.ts[i]);
    if s.ts[i].next && ts[i].intensive {
      if ts[i].result == r {
        TurnOwn(env, rs, s, done, r, front, z, i);
      } else {
        hide Fits, Runs, Running, HasTask, SpendOne, NewTask, Tallied, Spent;
      }
    } else {
      hide Turn;
    }
  }

  lemma SpendsOne(env: Env, rs: seq<Result>, s: State, done: seq<nat>, r: nat, front: Option<nat>, z: State)
    requires Turn(env, rs, s, done, r, front, z) && forall p :: 0 <= p < |s.ps| ==> s.ps[p].deadlinesMissed >= 0
    ensures |z.ps| == |s.ps| && forall p :: 0 <= p < |z.ps| ==> z.ps[p].deadlinesMissed >= 0
    ensures AllMissed(z.ps) <= AllMissed(s.ps)
    ensures s.ps[rs[r].project].deadlinesMissed != 0 && z.ps == SpendOne(s, rs[r].project).ps ==>
            AllMissed(z.ps) == AllMissed(s.ps) - 1
  {
    hide Turn, AllMissed;
    TurnProjects(env, rs, s, done, r, front, z);
    SpentMissed(s, rs[r].project);
    hide SpendOne;
  }

  lemma SpentMissed(s: State, p: nat)
    requires p < |s.ps| && forall q :: 0 <= q < |s.ps| ==> s.ps[q].deadlinesMissed >= 0
    ensures var qs := SpendOne(s, p).ps;
            && |qs| == |s.ps| && (forall q :: 0 <= q < |qs| ==> qs[q].deadlinesMissed >= 0)
            && AllMissed(qs) == AllMissed(s.ps) - if s.ps[p].deadlinesMissed != 0 then 1 else 0
  {
    MissedUpdate(s.ps, p, s.ps[p].(deadlinesMissed := s.ps[p].deadlinesMissed - 1));
    hide AllMissed;
  }

  /** Over the whole loop there are no more interruptions than deadlines spent. */
  lemma {:induction false} LoopInterrupts(env: Env, rs: seq<Result>, s: State, ordered: seq<nat>, z: State)
    requires Follows(env, rs, s, ordered, z) && Distinct(ordered)
    requires forall p :: 0 <= p < |s.ps| ==> s.ps[p].deadlinesMissed >= 0
    ensures OnlyRemarks(s.ts, z.ts) && |z.ps| == |s.ps|
    ensures forall p :: 0 <= p < |z.ps| ==> z.ps[p].deadlinesMissed >= 0
    ensures Interruptions(env, s.ts, z.ts, ordered) <= AllMissed(s.ps) - AllMissed(z.ps)
    decreases |ordered|
  {
    hide Follows, Turn, Interruptions, AllMissed, OnlyRemarks;
    if ordered == [] {
      FollowsNone(env, rs, s, z);
      SparedStart(env, s.ts);
      NoneYet(env, s.ts, s.ts);
    } else {
      var n := |ordered| - 1;
      var rest := ordered[..n];
      assert Distinct(rest) && ordered[n] !in rest && ordered == rest + [ordered[n]];
      var y, front := FollowsLast(env, rs, s, ordered, z);
      LoopInterrupts(env, rs, s, rest, y);
      NextInterrupts(env, rs, s.ts, y, rest, ordered[n], front, z);
    }
  }

  lemma {:induction false} NoneYet(env: Env, ts: seq<Task>, us: seq<Task>)
    requires |ts| <= |us| && forall i :: 0 <= i < |ts| ==> us[i] == ts[i]
    ensures Interruptions(env, ts, us, []) == 0
  {
    if ts != [] { NoneYet(env, ts[..|ts| - 1], us); }
  }

  lemma NextInterrupts(env: Env, rs: seq<Result>, ts: seq<Task>, s: State, done: seq<nat>, r: nat,
                       front: Option<nat>, z: State)
    requires Turn(env, rs, s, done, r, front, z) && r !in done && OnlyRemarks(ts, s.ts)
    requires forall p :: 0 <= p < |s.ps| ==> s.ps[p].deadlinesMissed >= 0
    ensures OnlyRemarks(ts, z.ts) && |z.ps| == |s.ps|
    ensures forall p :: 0 <= p < |z.ps| ==> z.ps[p].deadlinesMissed >= 0
    ensures Interruptions(env, ts, z.ts, done + [r]) + AllMissed(z.ps)
            <= Interruptions(env, ts, s.ts, done) + AllMissed(s.ps)
  {
    TurnProjects(env, rs, s, done, r, front, z);
    TurnFlags(env, rs, s, done, r, front, z);
    SpendsOne(env, rs, s, done, r, front, z);
    assert OnlyRemarks(s.ts, z.ts);
    hide Turn, Interruptions, AllMissed, Interrupted, SpendOne, OnlyRemarks;
    RemarksTrans(ts, s.ts, z.ts);
    assert |ts| <= |s.ts| <= |z.ts| by { RemarksLength(ts, s.ts); }
    var spent := s.ps[rs[r].project].deadlinesMissed != 0 && z.ps == SpendOne(s, rs[r].project).ps;
    var f := if spent then front else None;
    forall i | 0 <= i < |ts| && f != Some(i) && Interrupted(env, ts[i], z.ts[i], done + [r])
      ensures Interrupted(env, ts[i], s.ts[i], done)
    {
      TurnInterrupts(env, rs, ts, s, done, r, front, z, i);
    }
    OneMore(env, ts, s.ts, done, z.ts, done + [r], f);
  }

  lemma RemarksLength(ts: seq<Task>, us: seq<Task>)
    requires OnlyRemarks(ts, us)
    ensures |ts| <= |us|
  {
  }

  /** The running tasks that are preempted without being too large, before their time slice is over or
      without a checkpoint lately. */
  ghost function CutShort(env: Env, rs: seq<Result>, ts: seq<Task>, us: seq<Task>): nat
    requires |ts| <= |us|
  {
    if ts == [] then 0
    else
      var t, u := ts[|ts| - 1], us[|ts| - 1];
      CutShort(env, rs, ts[..|ts| - 1], us)
      + if && t.result < |rs| && t.intensive && t.scheduled && rs[t.result].runnable && !u.next && !u.tooLarge
           && (env.now - t.intervalStart < env.period || env.now - t.checkpoint >= 10.0) then 1 else 0
  }

  lemma {:induction false} CutShortIs(env: Env, rs: seq<Result>, ts: seq<Task>, ss: seq<Task>, zs: seq<Task>,
                                      us: seq<Task>, ordered: seq<nat>)
    requires |ts| == |ss| <= |zs| && |ts| <= |us|
    requires forall i :: 0 <= i < |ts| ==>
            && SliceOver(env, ss[i]) == SliceOver(env, ts[i])
            && (Ran(rs, ts[i]) ==> ss[i].intensive && ss[i].next)
            && (Ran(rs, ts[i]) && !us[i].next && !us[i].tooLarge ==> !zs[i].next && !zs[i].tooLarge)
    ensures CutShort(env, rs, ts, us) <= Interruptions(env, ss, zs, ordered)
  {
    if ts != [] { CutShortIs(env, rs, ts[..|ts| - 1], ss[..|ts| - 1], zs, us, ordered); }
  }

  ghost function SumOf(missed: seq<int>): int {
    if missed == [] then 0 else SumOf(missed[..|missed| - 1]) + missed[|missed| - 1]
  }

  lemma {:induction false} MissedIs(ps: seq<Project>, missed: seq<int>)
    requires |ps| == |missed| && forall p :: 0 <= p < |ps| ==> ps[p].deadlinesMissed == missed[p]
    ensures AllMissed(ps) == SumOf(missed)
  {
    if ps != [] { MissedIs(ps[..|ps| - 1], missed[..|ps| - 1]); }
  }

  lemma {:induction false} MissedNonneg(ps: seq<Project>)
    requires forall p :: 0 <= p < |ps| ==> ps[p].deadlinesMissed >= 0
    ensures AllMissed(ps) >= 0
  {
    if ps != [] { MissedNonneg(ps[..|ps| - 1]); }
  }

  /** With CPUs for all that were running, no more of them are cut short than deadlines are missed. */
  lemma CutShortForDeadlines(env: Env, ps: seq<Project>, rs: seq<Result>, ts: seq<Task>, ordered: seq<nat>,
                             missed: seq<int>, us: seq<Task>)
    requires Wired(ps, rs, ts) && GoodSchedule(env.ncpus, ps, rs, ordered) && |missed| == |ps|
    requires Enforced(env, ps, rs, ts, ordered, missed, us)
    requires forall p :: 0 <= p < |missed| ==> missed[p] >= 0
    requires CpusInUse(rs, ts) <= env.ncpus as real
    ensures |ts| <= |us| && CutShort(env, rs, ts, us) <= SumOf(missed)
  {
    var s, z := Loop(env, ps, rs, ts, ordered, missed, us);
    assert Distinct(ordered) && forall r :: 0 <= r < |rs| ==> rs[r].avgNcpus >= 0.0;
    hide *;
    NoExtras(env, ps, rs, ts, missed, s);
    LoopInterrupts(env, rs, s, ordered, z);
    MissedIs(s.ps, missed);
    MissedNonneg(z.ps);
    RemarksLength(s.ts, z.ts);
    forall i | 0 <= i < |ts|
      ensures SliceOver(env, s.ts[i]) == SliceOver(env, ts[i])
      ensures Ran(rs, ts[i]) ==> s.ts[i].intensive && s.ts[i].next
      ensures Ran(rs, ts[i]) && !us[i].next && !us[i].tooLarge ==> !z.ts[i].next && !z.ts[i].tooLarge
    {
      StartAndEnd(env, rs, ts, s, ordered, z, us, i);
    }
    CutShortIs(env, rs, ts, s.ts, z.ts, us, ordered);
  }

  lemma StartAndEnd(env: Env, rs: seq<Result>, ts: seq<Task>, s: State, ordered: seq<nat>, z: State, us: seq<Task>,
                    i: nat)
    requires Ledger(env, rs, s, []) && AllIn(rs, ts, s) && OnlyRemarks(ts, s.ts) && OnlyRemarks(s.ts, z.ts)
    requires RestTrimmed(env, ordered, z, us) && i < |ts| <= |us|
    ensures |ts| <= |s.ts| <= |z.ts| && SliceOver(env, s.ts[i]) == SliceOver(env, ts[i])
    ensures Ran(rs, ts[i]) ==> s.ts[i].intensive && s.ts[i].next
    ensures Ran(rs, ts[i]) && !us[i].next && !us[i].tooLarge ==> !z.ts[i].next && !z.ts[i].tooLarge
  {
    hide Ledger, AllIn, Greedy, Total, Inside, Marked;
    assert SameTask(ts[i], s.ts[i]) && SameTask(s.ts[i], z.ts[i]);
    if Ran(rs, ts[i]) { InHeap(env, rs, ts, s, i); }
  }

  // ---- The RAM --------------------------------------------------------------------------------------

  /** The working sets of those of the listed results that run; a new task has none yet. */
  ghost function TakenRam(ts: seq<Task>, us: seq<Task>, idx: seq<nat>): real {
    if idx == [] then 0.0
    else TakenRam(ts, us, idx[..|idx| - 1]) + if Runs(us, idx[|idx| - 1]) then WssOf(ts, idx[|idx| - 1]) else 0.0
  }

  lemma {:induction false} TakenSame(ts: seq<Task>, us: seq<Task>, vs: seq<Task>, idx: seq<nat>)
    requires forall q :: q in idx ==> (Runs(us, q) <==> Runs(vs, q))
    ensures TakenRam(ts, us, idx) == TakenRam(ts, vs, idx)
  {
    hide Runs;
    if idx != [] { TakenSame(ts, us, vs, idx[..|idx| - 1]); }
  }

  /** A turn takes the working set of the task of its result, if that runs. */
  lemma TurnRam(env: Env, rs: seq<Result>, s: State, done: seq<nat>, r: nat, front: Option<nat>, z: State)
    requires Turn(env, rs, s, done, r, front, z)
    ensures z.ram == s.ram - if Runs(z.ts, r) then WssOf(s.ts, r) else 0.0
  {
    TurnWss(env, rs, s, done, r, front, z);
    hide Effect, Tallied, Runs, WssOf;
  }

  lemma TurnWss(env: Env, rs: seq<Result>, s: State, done: seq<nat>, r: nat, front: Option<nat>, z: State)
    requires Turn(env, rs, s, done, r, front, z)
    ensures forall j :: 0 <= j < |z.ts| && z.ts[j].result == r ==> z.ts[j].wss == WssOf(s.ts, r)
    ensures OneEach(s.ts)
  {
    TalliedEach(env, rs, s, done);
    hide Fits, Runs, Running, GivesWay, SpendOne, Tallied, Spent, WssOf, HasTask;
    forall j | 0 <= j < |z.ts| && z.ts[j].result == r ensures z.ts[j].wss == WssOf(s.ts, r) {
      if j < |s.ts| {
        assert SameTask(s.ts[j], z.ts[j]);
        WssAt(s.ts, j);
      } else {
        WssNone(s.ts, r);
      }
    }
  }

  lemma TalliedEach(env: Env, rs: seq<Result>, s: State, done: seq<nat>)
    requires Tallied(env, rs, s, done)
    ensures OneEach(s.ts) && s.ram >= 0.0
  {
    hide Lists, SumAt;
  }

  /** Until its turn comes, a result keeps the task it had, if any. */
  lemma OldWss(env: Env, rs: seq<Result>, s: State, ordered: seq<nat>, z: State, r: nat)
    requires Follows(env, rs, s, ordered, z) && Inside(ordered, |rs|) && r !in ordered
    requires OneEach(s.ts) && OneEach(z.ts) && OnlyRemarks(s.ts, z.ts) && s.ps != []
    ensures WssOf(z.ts, r) == WssOf(s.ts, r)
  {
    MissedLeft(env, rs, s, ordered, z, 0, r);
    hide Follows, Ledger, WssOf;
    if HasTask(s.ts, r) {
      var i :| 0 <= i < |s.ts| && s.ts[i].result == r;
      assert SameTask(s.ts[i], z.ts[i]);
      WssAt(s.ts, i);
      WssAt(z.ts, i);
    } else {
      WssNone(s.ts, r);
      WssNone(z.ts, r);
    }
  }

  /** Over the whole loop: what is left of the RAM is what the results that run have not taken. */
  lemma {:induction false} LoopRam(env: Env, rs: seq<Result>, s: State, ordered: seq<nat>, z: State)
    requires Follows(env, rs, s, ordered, z) && Inside(ordered, |rs|) && Distinct(ordered)
    requires Inside(s.heap, |s.ts|) && OneEach(s.ts)
    ensures z.ram == s.ram - TakenRam(s.ts, z.ts, ordered) && OnlyRemarks(s.ts, z.ts)
    decreases |ordered|
  {
    hide Follows, Turn, WssOf, OnlyRemarks, OneEach, Runs;
    if ordered == [] {
      FollowsNone(env, rs, s, z);
      assert OnlyRemarks(s.ts, s.ts) by { SparedStart(env, s.ts); }
    } else {
      var n := |ordered| - 1;
      var rest, r := ordered[..n], ordered[n];
      assert Distinct(rest) && Inside(rest, |rs|) && r !in rest;
      var y, front := FollowsLast(env, rs, s, ordered, z);
      LoopRam(env, rs, s, rest, y);
      LoopRamNext(env, rs, s, rest, y, r, front, z);
    }
  }

  lemma LoopRamNext(env: Env, rs: seq<Result>, s: State, rest: seq<nat>, y: State, r: nat, front: Option<nat>, z: State)
    requires Follows(env, rs, s, rest, y) && Turn(env, rs, y, rest, r, front, z) && Inside(rest, |rs|) && r !in rest
    requires Inside(s.heap, |s.ts|) && OneEach(s.ts) && OnlyRemarks(s.ts, y.ts)
    requires y.ram == s.ram - TakenRam(s.ts, y.ts, rest)
    ensures z.ram == s.ram - TakenRam(s.ts, z.ts, rest) - if Runs(z.ts, r) then WssOf(s.ts, r) else 0.0
    ensures OnlyRemarks(s.ts, z.ts)
  {
    TurnRam(env, rs, y, rest, r, front, z);
    TurnHeap(env, rs, y, rest, r, front, z);
    TurnFlags(env, rs, y, rest, r, front, z);
    TurnWss(env, rs, y, rest, r, front, z);
    HeapClear(env, rs, s, rest, y);
    NotEmpty(env, rs, s, rest, y, r, front, z);
    OldWss(env, rs, s, rest, y, r);
    hide Follows, Turn, WssOf, Runs, OneEach, TakenRam;
    assert front.Some? ==> y.ts[front.value].result !in rest;
    AllOthers(env, rs, y, rest, r, front, z);
    TakenSame(s.ts, z.ts, y.ts, rest);
    RemarksTrans(s.ts, y.ts, z.ts);
  }

  lemma NotEmpty(env: Env, rs: seq<Result>, s: State, rest: seq<nat>, y: State, r: nat, front: Option<nat>, z: State)
    requires Follows(env, rs, s, rest, y) && Turn(env, rs, y, rest, r, front, z)
    ensures s.ps != []
  {
    TurnProjects(env, rs, y, rest, r, front, z);
    SamePs(env, rs, s, rest, y);
  }

  lemma {:induction false} SamePs(env: Env, rs: seq<Result>, s: State, ordered: seq<nat>, z: State)
    requires Follows(env, rs, s, ordered, z)
    ensures |z.ps| == |s.ps|
    decreases |ordered|
  {
    hide Follows, Turn;
    if ordered == [] {
      FollowsNone(env, rs, s, z);
    } else {
      var y, front := FollowsLast(env, rs, s, ordered, z);
      SamePs(env, rs, s, ordered[..|ordered| - 1], y);
      ZeroStays(env, rs, y, ordered[..|ordered| - 1], ordered[|ordered| - 1], front, z);
    }
  }

  // ---- Who has to wait ------------------------------------------------------------------------------

  lemma FitsIs(s: State, r: nat)
    requires OneEach(s.ts) && s.ram >= 0.0
    ensures Fits(s, r) <==> WssOf(s.ts, r) <= s.ram
  {
    hide WssOf;
    if HasTask(s.ts, r) {
      var i :| 0 <= i < |s.ts| && s.ts[i].result == r;
      WssAt(s.ts, i);
    } else {
      WssNone(s.ts, r);
    }
  }

  /** The turn of the `k`-th result: what is left of the RAM then, and what its task needs. */
  lemma AtTurn(env: Env, rs: seq<Result>, s: State, ordered: seq<nat>, z: State, k: nat)
    returns (y: State, front: Option<nat>, x: State)
    requires Follows(env, rs, s, ordered, z) && Inside(ordered, |rs|) && Distinct(ordered) && k < |ordered|
    requires Inside(s.heap, |s.ts|) && OneEach(s.ts)
    ensures Follows(env, rs, s, ordered[..k], y) && Turn(env, rs, y, ordered[..k], ordered[k], front, x)
    ensures (front.Some? ==> front.value < |y.ts|)
            && (Runs(z.ts, ordered[k]) <==> Succeeds(env, rs, y, ordered[k], front))
    ensures y.ram == s.ram - TakenRam(s.ts, z.ts, ordered[..k])
    ensures Fits(y, ordered[k]) <==> WssOf(s.ts, ordered[k]) <= y.ram
    ensures |x.ts| <= |z.ts| && forall i :: 0 <= i < |x.ts| ==> z.ts[i].result == x.ts[i].result
    ensures forall i :: 0 <= i < |x.ts| && x.ts[i].result == ordered[k] ==> z.ts[i].tooLarge == x.ts[i].tooLarge
  {
    hide Follows, Turn, WssOf, Runs, OneEach, TakenRam, Fits, OnlyRemarks;
    y, front, x := TurnDecides(env, rs, s, ordered, z, k);
    assert Distinct(ordered[..k]) && Inside(ordered[..k], |rs|) && ordered[k] !in ordered[..k];
    LoopRam(env, rs, s, ordered[..k], y);
    TakenSame(s.ts, y.ts, z.ts, ordered[..k]);
    TurnEach(env, rs, y, ordered[..k], ordered[k], front, x);
    FitsIs(y, ordered[k]);
    NotEmpty(env, rs, s, ordered[..k], y, ordered[k], front, x);
    OldWss(env, rs, s, ordered[..k], y, ordered[k]);
  }

  lemma TurnEach(env: Env, rs: seq<Result>, s: State, done: seq<nat>, r: nat, front: Option<nat>, z: State)
    requires Turn(env, rs, s, done, r, front, z)
    ensures OneEach(s.ts) && s.ram >= 0.0
  {
    TalliedEach(env, rs, s, done);
    hide Effect;
  }

  /** If a result that fits does not run at its turn, a running task is in the middle of its slice, or
      far from a checkpoint. */
  lemma Blocked(env: Env, rs: seq<Result>, s: State, done: seq<nat>, r: nat, front: Option<nat>, z: State)
      returns (i: nat)
    requires Turn(env, rs, s, done, r, front, z) && (front.Some? ==> front.value < |s.ts|)
    requires Fits(s, r) && !Succeeds(env, rs, s, r, front)
    ensures i < |s.ts| && i in s.heap && s.ts[i].result != r && !SliceOver(env, s.ts[i])
    ensures s.ps[rs[r].project].deadlinesMissed == 0 && s.used >= env.ncpus as real
  {
    hide Tallied, Fits, Running, HasTask, SpendOne, NewTask, Spent, Runs;
    i := front.value;
  }

  lemma HeldBackInLoop(env: Env, rs: seq<Result>, s: State, ordered: seq<nat>, z: State, k: nat) returns (i: nat)
    requires Follows(env, rs, s, ordered, z) && Inside(ordered, |rs|) && Distinct(ordered) && k < |ordered|
    requires Inside(s.heap, |s.ts|) && OneEach(s.ts) && !Runs(z.ts, ordered[k])
    requires WssOf(s.ts, ordered[k]) <= s.ram - TakenRam(s.ts, z.ts, ordered[..k])
    requires rs[ordered[k]].project < |s.ps|
    ensures i in s.heap && i < |s.ts| && s.ts[i].result != ordered[k] && !SliceOver(env, s.ts[i])
    ensures s.ps[rs[ordered[k]].project].deadlinesMissed <= CountOf(rs, ordered[..k], rs[ordered[k]].project)
  {
    hide Follows, Turn, WssOf, Runs, TakenRam, Fits, Succeeds, SliceOver;
    var y, front, x := AtTurn(env, rs, s, ordered, z, k);
    i := Blocked(env, rs, y, ordered[..k], ordered[k], front, x);
    assert Distinct(ordered[..k]) && Inside(ordered[..k], |rs|);
    HeapClear(env, rs, s, ordered[..k], y);
    LoopRam(env, rs, s, ordered[..k], y);
    MissedLeft(env, rs, s, ordered[..k], y, rs[ordered[k]].project, 0);
    hide Distinct, OneEach;
    assert SameTask(s.ts[i], y.ts[i]);
    SameSlice(env, s.ts[i], y.ts[i]);
  }

  lemma SameSlice(env: Env, t: Task, u: Task)
    requires SameTask(t, u)
    ensures SliceOver(env, t) == SliceOver(env, u)
  {
  }

  lemma TakenAgrees(ts: seq<Task>, ordered: seq<nat>, k: nat, us: seq<Task>, vs: seq<Task>)
    requires AgreeOn(ordered, us, vs) && k <= |ordered|
    ensures TakenRam(ts, us, ordered[..k]) == TakenRam(ts, vs, ordered[..k])
  {
    hide Runs;
    TakenSame(ts, us, vs, ordered[..k]);
  }

  /** A result of the schedule that fits beside those before it that run, and does not run itself, waits
      for a running task that is in the middle of its time slice or has not checkpointed lately; and
      its project has used up the deadlines it misses on results before. */
  lemma HeldBack(env: Env, ps: seq<Project>, rs: seq<Result>, ts: seq<Task>, ordered: seq<nat>, missed: seq<int>,
                 us: seq<Task>, k: nat)
    requires Wired(ps, rs, ts) && GoodSchedule(env.ncpus, ps, rs, ordered) && |missed| == |ps|
    requires Enforced(env, ps, rs, ts, ordered, missed, us)
    requires k < |ordered| && !Runs(us, ordered[k])
    requires WssOf(ts, ordered[k]) <= env.ram - TakenRam(ts, us, ordered[..k])
    ensures exists i :: 0 <= i < |ts| && ts[i].intensive && ts[i].scheduled && rs[ts[i].result].runnable
                        && ts[i].result != ordered[k]
                        && (env.now - ts[i].intervalStart < env.period || env.now - ts[i].checkpoint >= 10.0)
    ensures missed[rs[ordered[k]].project] <= CountOf(rs, ordered[..k], rs[ordered[k]].project)
  {
    var i := HeldBackBy(env, ps, rs, ts, ordered, missed, us, k);
    hide Wired, GoodSchedule, Enforced, Runs, WssOf, TakenRam, CountOf;
  }

  lemma HeldBackBy(env: Env, ps: seq<Project>, rs: seq<Result>, ts: seq<Task>, ordered: seq<nat>, missed: seq<int>,
                   us: seq<Task>, k: nat) returns (i: nat)
    requires Wired(ps, rs, ts) && GoodSchedule(env.ncpus, ps, rs, ordered) && |missed| == |ps|
    requires Enforced(env, ps, rs, ts, ordered, missed, us)
    requires k < |ordered| && !Runs(us, ordered[k])
    requires WssOf(ts, ordered[k]) <= env.ram - TakenRam(ts, us, ordered[..k])
    ensures i < |ts| && Ran(rs, ts[i]) && ts[i].result != ordered[k] && !SliceOver(env, ts[i])
    ensures missed[rs[ordered[k]].project] <= CountOf(rs, ordered[..k], rs[ordered[k]].project)
  {
    var s, z := Loop(env, ps, rs, ts, ordered, missed, us);
    assert rs[ordered[k]].project < |ps| && Distinct(ordered) && Inside(ordered, |rs|);
    hide *;
    StartTaken(ts, s, ordered, k, us);
    Agrees(ordered, us, z.ts, k);
    TakenAgrees(s.ts, ordered, k, us, z.ts);
    i := HeldBackInLoop(env, rs, s, ordered, z, k);
    HeapTask(env, ps, rs, ts, missed, s, i);
  }

  lemma HeapTask(env: Env, ps: seq<Project>, rs: seq<Result>, ts: seq<Task>, missed: seq<int>, s: State, i: nat)
    requires |missed| == |ps| && Begun(env, ps, rs, ts, missed, s) && i in s.heap && i < |s.ts|
    ensures i < |ts| && Ran(rs, ts[i]) && s.ts[i].result == ts[i].result
    ensures SliceOver(env, s.ts[i]) == SliceOver(env, ts[i])
  {
    hide AllIn, OneOut, Ledger;
    assert SameTask(ts[i], s.ts[i]);
  }

  lemma Agrees(ordered: seq<nat>, us: seq<Task>, vs: seq<Task>, k: nat)
    requires AgreeOn(ordered, vs, us) && k < |ordered|
    ensures AgreeOn(ordered, us, vs) && (Runs(vs, ordered[k]) <==> Runs(us, ordered[k]))
  {
    hide Runs;
  }

  /** Working sets are the same before and after the first marking. */
  lemma StartTaken(ts: seq<Task>, s: State, ordered: seq<nat>, k: nat, us: seq<Task>)
    requires |s.ts| == |ts| && OnlyRemarks(ts, s.ts) && k < |ordered|
    ensures WssOf(s.ts, ordered[k]) == WssOf(ts, ordered[k])
    ensures TakenRam(s.ts, us, ordered[..k]) == TakenRam(ts, us, ordered[..k])
  {
    hide Runs;
    TakenBefore(ts, s.ts, us, ordered[..k]);
    StartWss(ts, s.ts, ordered[k]);
  }

  lemma {:induction false} StartWss(ts: seq<Task>, vs: seq<Task>, r: nat)
    requires |vs| == |ts| && OnlyRemarks(ts, vs)
    ensures WssOf(vs, r) == WssOf(ts, r)
  {
    if ts != [] {
      assert SameTask(ts[|ts| - 1], vs[|ts| - 1]);
      StartWss(ts[..|ts| - 1], vs[..|ts| - 1], r);
    }
  }

  lemma {:induction false} TakenBefore(ts: seq<Task>, vs: seq<Task>, us: seq<Task>, idx: seq<nat>)
    requires |vs| == |ts| && OnlyRemarks(ts, vs)
    ensures TakenRam(vs, us, idx) == TakenRam(ts, us, idx)
  {
    hide Runs;
    if idx != [] {
      TakenBefore(ts, vs, us, idx[..|idx| - 1]);
      StartWss(ts, vs, idx[|idx| - 1]);
    }
  }

  /** A result of the schedule that runs fits beside those before it that run; and its task, if it had
      one, is flagged as too large exactly if it does not fit. */
  lemma FlagOfScheduled(env: Env, ps: seq<Project>, rs: seq<Result>, ts: seq<Task>, ordered: seq<nat>,
                        missed: seq<int>, us: seq<Task>, k: nat)
    requires Wired(ps, rs, ts) && GoodSchedule(env.ncpus, ps, rs, ordered) && |missed| == |ps|
    requires Enforced(env, ps, rs, ts, ordered, missed, us) && k < |ordered|
    ensures Runs(us, ordered[k]) ==> WssOf(ts, ordered[k]) <= env.ram - TakenRam(ts, us, ordered[..k])
    ensures |ts| <= |us|
    ensures forall i :: 0 <= i < |ts| && ts[i].result == ordered[k] ==>
            (us[i].tooLarge <==> ts[i].wss > env.ram - TakenRam(ts, us, ordered[..k]))
  {
    var s, z := Loop(env, ps, rs, ts, ordered, missed, us);
    assert Distinct(ordered) && Inside(ordered, |rs|);
    assert OneEach(ts);
    assert forall i :: 0 <= i < |ts| && ts[i].result == ordered[k] ==> ts[i].intensive;
    hide *;
    StartTaken(ts, s, ordered, k, us);
    Agrees(ordered, us, z.ts, k);
    TakenAgrees(s.ts, ordered, k, us, z.ts);
    var y, front, x := AtTurn(env, rs, s, ordered, z, k);
    SucceedsFits(env, rs, y, ordered[k], front, ordered[..k], x);
    HeapClear(env, rs, s, ordered, z);
    LoopRam(env, rs, s, ordered, z);
    PrefixTasks(env, rs, s, ordered, k, y);
    forall i | 0 <= i < |ts| && ts[i].result == ordered[k]
      ensures us[i].tooLarge <==> ts[i].wss > env.ram - TakenRam(ts, us, ordered[..k])
    {
      FlagAtTurn(env, rs, ts, s, ordered, k, y, front, x, z, us, i);
    }
  }

  lemma SucceedsFits(env: Env, rs: seq<Result>, s: State, r: nat, front: Option<nat>, done: seq<nat>, z: State)
    requires Turn(env, rs, s, done, r, front, z) && (front.Some? ==> front.value < |s.ts|)
    ensures Succeeds(env, rs, s, r, front) ==> Fits(s, r)
  {
    hide Effect, Fits, Running, GivesWay, Tallied, Spent;
  }

  lemma PrefixTasks(env: Env, rs: seq<Result>, s: State, ordered: seq<nat>, k: nat, y: State)
    requires k <= |ordered| && Follows(env, rs, s, ordered[..k], y) && Inside(s.heap, |s.ts|) && OneEach(s.ts)
    requires Inside(ordered, |rs|) && Distinct(ordered)
    ensures OnlyRemarks(s.ts, y.ts)
  {
    hide Follows, OneEach, OnlyRemarks;
    LoopRam(env, rs, s, ordered[..k], y);
  }

  lemma FlagAtTurn(env: Env, rs: seq<Result>, ts: seq<Task>, s: State, ordered: seq<nat>, k: nat, y: State,
                   front: Option<nat>, x: State, z: State, us: seq<Task>, i: nat)
    requires k < |ordered| && Turn(env, rs, y, ordered[..k], ordered[k], front, x)
    requires |s.ts| == |ts| && OnlyRemarks(ts, s.ts) && OnlyRemarks(s.ts, y.ts) && OnlyRemarks(s.ts, z.ts)
    requires |x.ts| <= |z.ts| && forall j :: 0 <= j < |x.ts| && x.ts[j].result == ordered[k] ==>
            z.ts[j].tooLarge == x.ts[j].tooLarge
    requires forall j :: j in z.heap ==> j < |z.ts| && z.ts[j].result !in ordered
    requires RestTrimmed(env, ordered, z, us) && i < |ts| && ts[i].result == ordered[k] && ts[i].intensive
    ensures i < |us| && (us[i].tooLarge <==> ts[i].wss > y.ram)
  {
    assert SameTask(ts[i], s.ts[i]) && SameTask(s.ts[i], y.ts[i]) && SameTask(s.ts[i], z.ts[i]);
    assert y.ts[i].wss == ts[i].wss && y.ts[i].result == ordered[k];
    TurnFlags(env, rs, y, ordered[..k], ordered[k], front, x);
    TurnUnique(env, rs, y, ordered[..k], ordered[k], front, x, i);
    assert SameTask(y.ts[i], x.ts[i]) && x.ts[i].result == ordered[k];
    hide Turn, OnlyRemarks, Effect;
    assert i !in z.heap && us[i] == z.ts[i] by { hide Greedy, Total, Marked, SameTask; }
  }

  /** When every running task has had its time slice and has checkpointed lately, the schedule gets what it
      wants: a result of it runs exactly if it fits in the RAM beside those before it that run. */
  lemma NobodyWaits(env: Env, ps: seq<Project>, rs: seq<Result>, ts: seq<Task>, ordered: seq<nat>, missed: seq<int>,
                    us: seq<Task>, k: nat)
    requires Wired(ps, rs, ts) && GoodSchedule(env.ncpus, ps, rs, ordered) && |missed| == |ps|
    requires Enforced(env, ps, rs, ts, ordered, missed, us) && k < |ordered|
    requires forall i :: 0 <= i < |ts| && ts[i].intensive && ts[i].scheduled && rs[ts[i].result].runnable ==>
            env.now - ts[i].intervalStart >= env.period && env.now - ts[i].checkpoint < 10.0
    ensures Runs(us, ordered[k]) <==> WssOf(ts, ordered[k]) <= env.ram - TakenRam(ts, us, ordered[..k])
  {
    hide Enforced, Runs, WssOf, TakenRam, CountOf, GoodSchedule;
    FlagOfScheduled(env, ps, rs, ts, ordered, missed, us, k);
    if !Runs(us, ordered[k]) && WssOf(ts, ordered[k]) <= env.ram - TakenRam(ts, us, ordered[..k]) {
      HeldBack(env, ps, rs, ts, ordered, missed, us, k);
    }
  }

  lemma {:induction false} TakenAtMost(ts: seq<Task>, us: seq<Task>, idx: seq<nat>)
    requires forall i :: 0 <= i < |ts| ==> ts[i].wss >= 0.0
    ensures TakenRam(ts, us, idx) <= EdfPhase.WssSum(ts, idx)
  {
    hide Runs, WssOf;
    if idx != [] {
      TakenAtMost(ts, us, idx[..|idx| - 1]);
      EdfPhase.WssNonneg(ts, idx[|idx| - 1]);
    }
  }

  /** And when the whole schedule fits in the RAM, as schedule_cpus sees to, all of it runs. */
  lemma AllOfItRuns(env: Env, ps: seq<Project>, rs: seq<Result>, ts: seq<Task>, ordered: seq<nat>, missed: seq<int>,
                    us: seq<Task>, k: nat)
    requires Wired(ps, rs, ts) && GoodSchedule(env.ncpus, ps, rs, ordered) && |missed| == |ps|
    requires Enforced(env, ps, rs, ts, ordered, missed, us) && k < |ordered|
    requires forall i :: 0 <= i < |ts| && ts[i].intensive && ts[i].scheduled && rs[ts[i].result].runnable ==>
            env.now - ts[i].intervalStart >= env.period && env.now - ts[i].checkpoint < 10.0
    requires forall i :: 0 <= i < |ts| ==> ts[i].wss >= 0.0
    requires EdfPhase.WssSum(ts, ordered) <= env.ram
    ensures Runs(us, ordered[k])
  {
    hide Enforced, Runs, WssOf, TakenRam, CountOf, GoodSchedule, Wired;
    NobodyWaits(env, ps, rs, ts, ordered, missed, us, k);
    EdfPhase.SumFalls(ts, ordered, k + 1);
    assert ordered[..k + 1][..k] == ordered[..k];
    TakenAtMost(ts, us, ordered[..k]);
  }

  // ---- Tasks outside the schedule -----------------------------------------------------------------------

  lemma {:induction false} OtherFlags(env: Env, rs: seq<Result>, s: State, ordered: seq<nat>, z: State)
    requires Follows(env, rs, s, ordered, z)
    ensures OnlyRemarks(s.ts, z.ts)
    ensures forall i :: 0 <= i < |s.ts| && s.ts[i].result !in ordered ==> z.ts[i].tooLarge == s.ts[i].tooLarge
    decreases |ordered|
  {
    hide Follows, Turn;
    if ordered == [] {
      FollowsNone(env, rs, s, z);
    } else {
      var n := |ordered| - 1;
      var y, front := FollowsLast(env, rs, s, ordered, z);
      OtherFlags(env, rs, s, ordered[..n], y);
      TurnFlags(env, rs, y, ordered[..n], ordered[n], front, z);
      assert ordered == ordered[..n] + [ordered[n]];
    }
  }

  lemma {:induction false} StayedGrows(ts: seq<Task>, idx: seq<nat>, m: nat)
    requires Inside(idx, |ts|) && m <= |idx| && forall i :: 0 <= i < |ts| ==> ts[i].wss >= 0.0
    ensures StayedRam(ts, idx[..m]) <= StayedRam(ts, idx)
  {
    if m < |idx| {
      StayedGrows(ts, idx[..|idx| - 1], m);
      assert idx[..|idx| - 1][..m] == idx[..m];
    } else {
      assert idx[..m] == idx;
    }
  }

  lemma LeftInHeap(heap: seq<nat>, free: real, us: seq<Task>, ram: real, i: nat)
    requires Inside(heap, |us|) && Greedy(heap, free, |heap|, us, ram) && i in heap
    requires forall j :: 0 <= j < |us| ==> us[j].wss >= 0.0
    ensures i < |us| && !us[i].next ==> us[i].wss > ram
  {
    var m :| 0 <= m < |heap| && heap[m] == i;
    StayedGrows(us, heap, m);
    assert heap[..|heap|] == heap;
    hide StayedRam;
  }

  /** A task that was there and is not of the schedule: if it stays marked it is not flagged, unless it is
      not CPU-intensive; and it is newly flagged only if it does not fit beside the marked tasks. */
  lemma FlagOfOthers(env: Env, ps: seq<Project>, rs: seq<Result>, ts: seq<Task>, ordered: seq<nat>, missed: seq<int>,
                     us: seq<Task>, i: nat)
    requires Wired(ps, rs, ts) && |missed| == |ps| && Enforced(env, ps, rs, ts, ordered, missed, us)
    requires forall j :: 0 <= j < |us| ==> us[j].wss >= 0.0
    requires i < |ts| && ts[i].intensive && ts[i].result !in ordered
    ensures |ts| <= |us|
    ensures us[i].next ==> !us[i].tooLarge
    ensures us[i].tooLarge && !ts[i].tooLarge ==> us[i].wss + Total(us, Marked, Ram) > env.ram
  {
    var s, z := Loop(env, ps, rs, ts, ordered, missed, us);
    hide *;
    OtherFlags(env, rs, s, ordered, z);
    OthersAtEnd(env, ts, s, z, ordered, us, i);
  }

  lemma OthersAtEnd(env: Env, ts: seq<Task>, s: State, z: State, ordered: seq<nat>, us: seq<Task>, i: nat)
    requires OnlyRemarks(ts, s.ts) && FlagsStay(ts, s.ts) && OnlyRemarks(s.ts, z.ts)
    requires forall j :: 0 <= j < |s.ts| && s.ts[j].result !in ordered ==> z.ts[j].tooLarge == s.ts[j].tooLarge
    requires RestTrimmed(env, ordered, z, us) && forall j :: 0 <= j < |us| ==> us[j].wss >= 0.0
    requires i < |ts| && ts[i].intensive && ts[i].result !in ordered
    ensures i < |us| && (us[i].next ==> !us[i].tooLarge)
    ensures us[i].tooLarge && !ts[i].tooLarge ==> us[i].wss + Total(us, Marked, Ram) > env.ram
  {
    hide Greedy, Total, Inside;
    assert SameTask(ts[i], s.ts[i]) && SameTask(s.ts[i], z.ts[i]);
    if i in z.heap {
      LeftInHeap(z.heap, z.ram, us, env.ram - Total(us, Marked, Ram), i);
    } else {
      assert us[i] == z.ts[i] && !Marked(us[i]);
    }
  }

  /** The tasks that are made start their time slice now, and count as never checkpointed. */
  lemma NewTasks(env: Env, ps: seq<Project>, rs: seq<Result>, ts: seq<Task>, ordered: seq<nat>, missed: seq<int>,
                 us: seq<Task>, i: nat)
    requires Wired(ps, rs, ts) && |missed| == |ps| && Enforced(env, ps, rs, ts, ordered, missed, us)
    requires |ts| <= i < |us|
    ensures us[i].result in ordered || (us[i].result < |rs| && rs[us[i].result].runnable && !us[i].intensive)
    ensures us[i].result < |rs| && us[i].ncpus == rs[us[i].result].avgNcpus
    ensures us[i].intervalStart == env.now && us[i].checkpoint == 0.0 && us[i].wss == 0.0
    ensures !us[i].scheduled && !us[i].started && !us[i].process && !us[i].attached
  {
    hide ScheduleMet, WithinBounds, MarkedRightly, BackgroundRightly, Wired;
  }

  /** Whatever the schedule, every runnable result of a project that is not CPU-intensive runs. */
  lemma BackgroundResultsRun(env: Env, ps: seq<Project>, rs: seq<Result>, ts: seq<Task>, ordered: seq<nat>,
                             missed: seq<int>, qs: seq<Project>, us: seq<Task>, r: nat)
    requires Wired(ps, rs, ts) && |missed| == |ps| && Enforced(env, ps, rs, ts, ordered, missed, us)
    requires Wired(qs, rs, us) && SameProjects(ps, qs) && r < |rs| && rs[r].runnable
            && ps[rs[r].project].nonCpuIntensive
    ensures Runs(us, r)
  {
    assert Background(ps, rs, r);
    hide ScheduleMet, WithinBounds, MarkedRightly, Background, Enforcer.Fresh;
    var i :| 0 <= i < |us| && us[i].result == r;
    assert us[i].next;
  }
}
