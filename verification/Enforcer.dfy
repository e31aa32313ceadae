/** CLIENT_STATE::enforce_schedule (client/cpu_sched.C), up to the loop that starts and stops
    processes: which tasks it marks to run. */
module Enforcer {
  import opened Sequences
  import opened Options
  import opened CpuTypes
  import opened MarkLedger
  import opened Placement
  import opened Turns

  /** What schedule_cpus leaves in ordered_scheduled_results: CPU-intensive results, each once,
      and all but the last leave a CPU free. */
  ghost predicate GoodSchedule(ncpus: nat, ps: seq<Project>, rs: seq<Result>, ordered: seq<nat>) {
    && Inside(ordered, |rs|) && Distinct(ordered)
    && (forall r :: 0 <= r < |rs| ==> rs[r].avgNcpus >= 0.0)
    && (forall k :: 0 <= k < |ordered| ==> rs[ordered[k]].project < |ps| && !ps[rs[ordered[k]].project].nonCpuIntensive)
    && (forall k :: 0 <= k < |ordered| ==> SumAt(rs, ordered[..k], Avg) < ncpus as real)
  }

  /** The same projects, but for deadlines_missed. */
  ghost predicate SameProjects(ps: seq<Project>, qs: seq<Project>) {
    |ps| == |qs| && forall p :: 0 <= p < |ps| ==> qs[p] == ps[p].(deadlinesMissed := qs[p].deadlinesMissed)
  }

  /** `next` of every task after the first marking, lines 612-619. */
  function FirstMark(rs: seq<Result>, t: Task): Task
    requires t.result < |rs|
  {
    t.(next := rs[t.result].runnable && t.scheduled)
  }

  /** Lines 612-619. */
  method MarkRunning(rs: seq<Result>, ts: seq<Task>) returns (us: seq<Task>)
    requires forall i :: 0 <= i < |ts| ==> ts[i].result < |rs|
    ensures |us| == |ts| && forall i :: 0 <= i < |ts| ==> us[i] == FirstMark(rs, ts[i])
  {
    us := ts;
    for i := 0 to |ts|
      invariant |us| == |ts|
      invariant forall j :: 0 <= j < i ==> us[j] == FirstMark(rs, ts[j])
      invariant forall j :: i <= j < |ts| ==> us[j] == ts[j]
    {
      us := us[i := FirstMark(rs, us[i])];
    }
  }

  lemma ListsPush(ts: seq<Task>, idx: seq<nat>, i: nat)
    requires i < |ts| && Lists(ts[..i], idx, Marked)
    ensures Lists(ts[..i + 1], if Marked(ts[i]) then idx + [i] else idx, Marked)
  {
    var jdx := if Marked(ts[i]) then idx + [i] else idx;
    InsideList(idx, i);
    forall j | 0 <= j < i + 1 ensures Marked(ts[..i + 1][j]) <==> j in jdx {
      if j < i { assert ts[..i][j] == ts[j]; }
    }
  }

  lemma StartLedger(env: Env, ps: seq<Project>, rs: seq<Result>, ts: seq<Task>, heap: seq<nat>)
    requires Wired(ps, rs, ts) && env.ram >= 0.0 && Lists(ts, heap, Marked) && Inside(heap, |ts|)
    ensures Ledger(env, rs, State(ts, ps, heap, SumAt(ts, heap, Cpus), env.ram), [])
  {
    hide Wired, Lists;
    assert [] + heap == heap;
  }

  /** make_running_task_heap. */
  method MakeHeap(env: Env, ps: seq<Project>, rs: seq<Result>, ts: seq<Task>) returns (s: State)
    requires Wired(ps, rs, ts) && env.ram >= 0.0
    requires forall i :: 0 <= i < |ts| ==> ts[i].next == (rs[ts[i].result].runnable && ts[i].scheduled)
    ensures Ledger(env, rs, s, []) && s.ts == ts && s.ps == ps && s.ram == env.ram
  {
    var heap: seq<nat>, used := [], 0.0;
    assert forall i :: 0 <= i < |ts| ==> ts[i].result < |rs|;
    assert HeapOf(ts, 0, heap, used);
    hide *;
    for i := 0 to |ts|
      invariant HeapOf(ts, i, heap, used)
    {
      HeapNext(ts, i, heap, used, rs[ts[i].result].runnable && ts[i].scheduled);
      if ts[i].intensive && rs[ts[i].result].runnable && ts[i].scheduled {
        heap, used := heap + [i], used + ts[i].ncpus;
      }
    }
    HeapDone(ts, heap, used);
    StartLedger(env, ps, rs, ts, heap);
    s := State(ts, ps, heap, used, env.ram);
  }

  /** The heap of the first `n` tasks. */
  ghost predicate HeapOf(ts: seq<Task>, n: nat, heap: seq<nat>, used: real) {
    n <= |ts| && Inside(heap, |ts|) && Lists(ts[..n], heap, Marked) && used == SumAt(ts, heap, Cpus)
  }

  lemma HeapNext(ts: seq<Task>, i: nat, heap: seq<nat>, used: real, next: bool)
    requires i < |ts| && HeapOf(ts, i, heap, used) && ts[i].next == next
    ensures if ts[i].intensive && next then HeapOf(ts, i + 1, heap + [i], used + ts[i].ncpus)
            else HeapOf(ts, i + 1, heap, used)
  {
    hide Lists, SumAt, Inside;
    ListsPush(ts, heap, i);
    SumPush(ts, heap, i, Cpus);
  }

  lemma HeapDone(ts: seq<Task>, heap: seq<nat>, used: real)
    requires HeapOf(ts, |ts|, heap, used)
    ensures Inside(heap, |ts|) && Lists(ts, heap, Marked) && used == SumAt(ts, heap, Cpus)
  {
    assert ts[..|ts|] == ts;
  }

  /** Lines 624-636: while more CPUs are in use than there are, preempt a running task. The heap
      is never empty here. */
  method PreemptExtras(env: Env, rs: seq<Result>, s: State) returns (z: State)
    requires Ledger(env, rs, s, [])
    ensures Ledger(env, rs, z, []) && z.used <= env.ncpus as real && z.ps == s.ps && z.ram == s.ram
    ensures OnlyRemarks(s.ts, z.ts) && OnlyIntensive(s.ts, z.ts) && |z.ts| == |s.ts| && FlagsStay(s.ts, z.ts)
    ensures forall j :: j in z.heap ==> j in s.heap
    ensures z == s || LastNeeded(env, s, z)
    ensures s.used <= env.ncpus as real ==> z == s
  {
    hide Lists, SumAt, Wired;
    z := s;
    while z.used > env.ncpus as real
      invariant Ledger(env, rs, z, []) && z.ps == s.ps && z.ram == s.ram
      invariant OnlyRemarks(s.ts, z.ts) && OnlyIntensive(s.ts, z.ts) && |z.ts| == |s.ts| && FlagsStay(s.ts, z.ts)
      invariant forall j :: j in z.heap ==> j in s.heap
      invariant z == s || LastNeeded(env, s, z)
      invariant s.used <= env.ncpus as real ==> z == s
      decreases |z.heap|
    {
      HeapNotEmpty(env, rs, z);
      var k :| 0 <= k < |z.heap|;
      LedgerHeap(env, rs, z, [], k);
      HeapErase([], z.heap, k);
      PreemptKeeps(env, rs, z, [], k, z.ts[z.heap[k]].tooLarge);
      ghost var i := z.heap[k];
      z := Preempt(z, k, z.ts[z.heap[k]].tooLarge);
      assert i !in z.heap && z.used + s.ts[i].ncpus > env.ncpus as real;
    }
  }

  /** The too-large flags are as before. */
  ghost predicate FlagsStay(ts: seq<Task>, us: seq<Task>) {
    |ts| == |us| && forall i :: 0 <= i < |ts| ==> us[i].tooLarge == ts[i].tooLarge
  }

  /** Without the last preemption more CPUs would be in use than there are. */
  ghost predicate LastNeeded(env: Env, s: State, z: State) {
    exists i :: i in s.heap && i !in z.heap && i < |s.ts| && z.used + s.ts[i].ncpus > env.ncpus as real
  }

  /** Nothing kept yet, so whatever is in use is in the heap. */
  lemma HeapNotEmpty(env: Env, rs: seq<Result>, s: State)
    requires Ledger(env, rs, s, []) && s.used > 0.0
    ensures s.heap != []
  {
    SumNone(s.ts, s.heap, Cpus);
    SumNone(s.ts, [], Cpus);
  }

  /** The old tasks have changed in marks and too-large flags only. */
  ghost predicate OnlyRemarks(ts: seq<Task>, us: seq<Task>) {
    |ts| <= |us| && forall i :: 0 <= i < |ts| ==> SameTask(ts[i], us[i])
  }

  /** And only if they are CPU-intensive. */
  ghost predicate OnlyIntensive(ts: seq<Task>, us: seq<Task>) {
    |ts| <= |us| && forall i :: 0 <= i < |ts| && !ts[i].intensive ==> us[i] == ts[i]
  }

  /** A task made for its result, marked or not since. */
  ghost predicate Fresh(ps: seq<Project>, rs: seq<Result>, now: real, t: Task) {
    t.result < |rs| && rs[t.result].project < |ps| && SameTask(NewTask(ps, rs, t.result, now), t)
  }

  /** After the first `n` results of the schedule. */
  ghost predicate Progress(env: Env, rs: seq<Result>, s: State, ordered: seq<nat>, n: nat, z: State, kept: seq<nat>)
    requires Inside(ordered, |rs|) && n <= |ordered|
  {
    && Ledger(env, rs, z, kept) && SumAt(z.ts, kept, Cpus) <= SumAt(rs, ordered[..n], Avg)
    && Since(env, rs, s, ordered, z) && Follows(env, rs, s, ordered[..n], z)
    && KeptFor(z, kept, ordered[..n])
    && (forall j :: j in z.heap ==> j in s.heap)
    && (OneCpu(rs) && s.used <= env.ncpus as real ==> z.used <= env.ncpus as real)
  }

  /** From `s` to `z` only marks, flags and deadlines_missed have changed, and tasks have been
      made for some of the results `made`. */
  ghost predicate Since(env: Env, rs: seq<Result>, s: State, made: seq<nat>, z: State) {
    && SameProjects(s.ps, z.ps) && OnlyRemarks(s.ts, z.ts) && OnlyIntensive(s.ts, z.ts)
    && (forall i :: |s.ts| <= i < |z.ts| ==> z.ts[i].result in made && Fresh(s.ps, rs, env.now, z.ts[i]))
  }

  lemma SinceTrans(env: Env, rs: seq<Result>, s: State, made: seq<nat>, z: State, w: State)
    requires Since(env, rs, s, made, z) && Since(env, rs, z, made, w)
    ensures Since(env, rs, s, made, w)
  {
  }

  lemma ProgressReady(env: Env, rs: seq<Result>, s: State, ordered: seq<nat>, n: nat, z: State, kept: seq<nat>)
    requires GoodSchedule(env.ncpus, s.ps, rs, ordered) && n < |ordered| && Progress(env, rs, s, ordered, n, z, kept)
    ensures ordered[n] < |rs| && rs[ordered[n]].project < |z.ps| && !z.ps[rs[ordered[n]].project].nonCpuIntensive
    ensures rs[ordered[n]].avgNcpus >= 0.0 && SumAt(z.ts, kept, Cpus) < env.ncpus as real
    ensures forall j :: 0 <= j < |z.ts| && j in kept ==> z.ts[j].result != ordered[n]
  {
    hide Ledger, SumAt, OneCpu, Fresh, OnlyRemarks;
    forall r | r in ordered[..n] ensures r != ordered[n] {
      var k :| 0 <= k < n && ordered[..n][k] == r;
    }
  }

  lemma EffectFrame(env: Env, rs: seq<Result>, s: State, kept: seq<nat>, r: nat, front: Option<nat>, z: State,
                    made: seq<nat>)
    requires Ledger(env, rs, s, kept) && r < |rs| && rs[r].project < |s.ps| && !s.ps[rs[r].project].nonCpuIntensive
    requires Effect(env, rs, s, r, front, z) && r in made
    ensures Since(env, rs, s, made, z)
  {
    HeapMarked(env, rs, s, kept);
    EffectProjects(env, rs, s, r, front, z);
    ResultIntensive(env, rs, s, kept, r);
    hide Ledger, Running, Runs, Fits, HasTask, GivesWay, SpendOne, SameProjects, NewTask;
    EffectMade(env, rs, s, r, front, z, made);
  }

  lemma EffectMade(env: Env, rs: seq<Result>, s: State, r: nat, front: Option<nat>, z: State, made: seq<nat>)
    requires Inside(s.heap, |s.ts|) && r < |rs| && rs[r].project < |s.ps| && Effect(env, rs, s, r, front, z)
            && r in made
    ensures forall i :: |s.ts| <= i < |z.ts| ==> z.ts[i].result in made && Fresh(s.ps, rs, env.now, z.ts[i])
  {
    hide Running, Runs, Fits, HasTask, GivesWay, SpendOne;
  }

  lemma EffectProjects(env: Env, rs: seq<Result>, s: State, r: nat, front: Option<nat>, z: State)
    requires Inside(s.heap, |s.ts|) && r < |rs| && rs[r].project < |s.ps| && Effect(env, rs, s, r, front, z)
    ensures SameProjects(s.ps, z.ps)
  {
    assert z.ps == s.ps || z.ps == SpendOne(s, rs[r].project).ps by {
      hide Running, Runs, Fits, HasTask, GivesWay, NewTask, SpendOne;
    }
    hide Effect;
  }

  lemma ResultIntensive(env: Env, rs: seq<Result>, s: State, kept: seq<nat>, r: nat)
    requires Ledger(env, rs, s, kept) && r < |rs| && rs[r].project < |s.ps| && !s.ps[rs[r].project].nonCpuIntensive
    ensures Inside(s.heap, |s.ts|) && forall i :: 0 <= i < |s.ts| && s.ts[i].result == r ==> s.ts[i].intensive
  {
    hide Lists;
  }

  /** The tasks of the heap are CPU-intensive and marked. */
  lemma HeapMarked(env: Env, rs: seq<Result>, s: State, kept: seq<nat>)
    requires Ledger(env, rs, s, kept)
    ensures forall j :: j in s.heap ==> j < |s.ts| && Marked(s.ts[j])
  {
    hide Ledger;
    forall j | j in s.heap ensures j < |s.ts| && Marked(s.ts[j]) {
      var k :| 0 <= k < |s.heap| && s.heap[k] == j;
      LedgerHeap(env, rs, s, kept, k);
    }
  }

  lemma LedgerInside(env: Env, rs: seq<Result>, s: State, kept: seq<nat>)
    requires Ledger(env, rs, s, kept)
    ensures Inside(kept, |s.ts|) && Inside(s.heap, |s.ts|)
  {
  }

  lemma KeptResults(env: Env, rs: seq<Result>, made: seq<nat>, s: State, z: State, kept: seq<nat>, more: seq<nat>,
                    pre: seq<nat>, r: nat)
    requires Since(env, rs, s, made, z) && Inside(kept, |s.ts|) && Inside(more, |z.ts|)
    requires forall j :: j in kept ==> s.ts[j].result in pre
    requires forall j :: j in more && j !in kept ==> z.ts[j].result == r
    ensures forall j :: j in more ==> z.ts[j].result in pre + [r]
  {
  }

  lemma ProgressStep(env: Env, rs: seq<Result>, s: State, ordered: seq<nat>, n: nat, z: State, kept: seq<nat>,
                     front: Option<nat>, w: State, more: seq<nat>)
    requires Inside(ordered, |rs|) && n < |ordered| && Progress(env, rs, s, ordered, n, z, kept)
    requires Advances(env, rs, z, kept, ordered[n], w, more)
    requires rs[ordered[n]].project < |z.ps| && !z.ps[rs[ordered[n]].project].nonCpuIntensive
    requires Effect(env, rs, z, ordered[n], front, w) && Spent(z, ordered[n], w)
    ensures Progress(env, rs, s, ordered, n + 1, w, more)
  {
    hide Ledger, SumAt, OneCpu, Effect, Since, Follows, Spent;
    LedgerInside(env, rs, z, kept);
    LedgerInside(env, rs, w, more);
    EffectFrame(env, rs, z, kept, ordered[n], front, w, ordered);
    SinceTrans(env, rs, s, ordered, z, w);
    KeptResults(env, rs, ordered, z, w, kept, more, ordered[..n], ordered[n]);
    SumNext(rs, ordered, n);
    FollowsNext(env, rs, s, ordered, n, z, front, w);
    assert ordered[..n + 1] == ordered[..n] + [ordered[n]];
  }

  lemma SumNext(rs: seq<Result>, ordered: seq<nat>, n: nat)
    requires Inside(ordered, |rs|) && n < |ordered|
    ensures SumAt(rs, ordered[..n + 1], Avg) == SumAt(rs, ordered[..n], Avg) + rs[ordered[n]].avgNcpus
  {
    assert ordered[..n + 1][..n] == ordered[..n];
  }

  /** Lines 647-769: the loop over the schedule. */
  method RunSchedule(env: Env, rs: seq<Result>, s: State, ordered: seq<nat>) returns (z: State, ghost kept: seq<nat>)
    requires Ledger(env, rs, s, []) && GoodSchedule(env.ncpus, s.ps, rs, ordered)
    ensures Follows(env, rs, s, ordered, z) && Since(env, rs, s, ordered, z)
    ensures Progress(env, rs, s, ordered, |ordered|, z, kept)
  {
    z, kept := s, [];
    assert Progress(env, rs, s, ordered, 0, z, kept);
    hide Progress, Advances, Effect, Follows, Since, Spent;
    for n := 0 to |ordered|
      invariant Progress(env, rs, s, ordered, n, z, kept)
    {
      ProgressReady(env, rs, s, ordered, n, z, kept);
      var w, front;
      ghost var more;
      w, front, more := Process(env, rs, z, kept, ordered[n]);
      ProgressStep(env, rs, s, ordered, n, z, kept, front, w, more);
      z, kept := w, more;
    }
    FollowsOf(env, rs, s, ordered, z, kept);
  }

  /** After the first `n` tasks left in the heap of `s` have been trimmed. */
  ghost predicate Trimmed(s: State, kept: seq<nat>, n: nat, z: State, more: seq<nat>)
    requires n <= |s.heap|
  {
    && z.heap == s.heap[n..] && z.ps == s.ps && z.used <= s.used
    && |z.ts| == |s.ts| && OnlyRemarks(s.ts, z.ts)
    && (forall j :: j in more ==> j in kept || j in s.heap[..n])
    && (forall i :: 0 <= i < |s.ts| ==>
          if i in s.heap[..n] then z.ts[i].next == !z.ts[i].tooLarge else z.ts[i] == s.ts[i])
  }

  lemma TrimStep(s: State, kept: seq<nat>, n: nat, z: State, more: seq<nat>, t: Task, w: State, most: seq<nat>)
    requires n < |s.heap| && Trimmed(s, kept, n, z, more) && s.heap[n] < |s.ts|
    requires SameTask(z.ts[s.heap[n]], t) && (t.next <==> !t.tooLarge)
    requires w.ts == z.ts[s.heap[n] := t] && w.ps == z.ps && w.heap == Erase(z.heap, 0) && w.used <= z.used
    requires most == more || most == more + [s.heap[n]]
    ensures Trimmed(s, kept, n + 1, w, most)
  {
    assert s.heap[..n + 1] == s.heap[..n] + [s.heap[n]];
    assert Erase(s.heap[n..], 0) == s.heap[n + 1..];
  }

  /** The working sets of the listed tasks that are still marked. */
  ghost function StayedRam(ts: seq<Task>, idx: seq<nat>): real
    requires Inside(idx, |ts|)
  {
    if idx == [] then 0.0
    else StayedRam(ts, idx[..|idx| - 1]) + if ts[idx[|idx| - 1]].next then ts[idx[|idx| - 1]].wss else 0.0
  }

  /** Of the first `n` tasks of the heap exactly those stay marked that fit beside the ones before. */
  ghost predicate Greedy(heap: seq<nat>, free: real, n: nat, ts: seq<Task>, ram: real)
    requires Inside(heap, |ts|) && n <= |heap|
  {
    && ram == free - StayedRam(ts, heap[..n])
    && (forall m :: 0 <= m < n ==> (ts[heap[m]].next <==> ts[heap[m]].wss <= free - StayedRam(ts, heap[..m])))
  }

  lemma {:induction false} StayedSame(ts: seq<Task>, us: seq<Task>, idx: seq<nat>)
    requires Inside(idx, |ts|) && |ts| <= |us|
    requires forall k :: 0 <= k < |idx| ==> us[idx[k]].next == ts[idx[k]].next && us[idx[k]].wss == ts[idx[k]].wss
    ensures StayedRam(us, idx) == StayedRam(ts, idx)
  {
    if idx != [] { StayedSame(ts, us, idx[..|idx| - 1]); }
  }

  lemma GreedyStep(heap: seq<nat>, free: real, n: nat, ts: seq<Task>, ram: real, t: Task)
    requires Inside(heap, |ts|) && n < |heap| && Distinct(heap) && Greedy(heap, free, n, ts, ram)
    requires t.wss == ts[heap[n]].wss && (t.next <==> t.wss <= ram)
    ensures Greedy(heap, free, n + 1, ts[heap[n] := t], ram - if t.next then t.wss else 0.0)
  {
    hide StayedRam;
    var us := ts[heap[n] := t];
    assert forall m :: 0 <= m < n ==> us[heap[m]] == ts[heap[m]];
    hide Distinct;
    forall m | 0 <= m <= n ensures StayedRam(us, heap[..m]) == StayedRam(ts, heap[..m]) {
      StayedPrefix(ts, us, heap, m);
    }
    StayedNext(us, heap, n);
  }

  lemma StayedPrefix(ts: seq<Task>, us: seq<Task>, heap: seq<nat>, m: nat)
    requires Inside(heap, |ts|) && |ts| <= |us| && m <= |heap|
    requires forall k :: 0 <= k < m ==> us[heap[k]].next == ts[heap[k]].next && us[heap[k]].wss == ts[heap[k]].wss
    ensures StayedRam(us, heap[..m]) == StayedRam(ts, heap[..m])
  {
    StayedSame(ts, us, heap[..m]);
  }

  lemma StayedNext(ts: seq<Task>, heap: seq<nat>, n: nat)
    requires Inside(heap, |ts|) && n < |heap|
    ensures StayedRam(ts, heap[..n + 1]) == StayedRam(ts, heap[..n]) + if ts[heap[n]].next then ts[heap[n]].wss else 0.0
  {
    assert heap[..n + 1][..n] == heap[..n];
  }

  lemma LedgerDistinct(env: Env, rs: seq<Result>, s: State, kept: seq<nat>)
    requires Ledger(env, rs, s, kept)
    ensures Distinct(s.heap)
    ensures forall j :: j in s.heap ==> j < |s.ts| && s.ts[j].next
  {
    hide Sums, Wired;
    HeapMarked(env, rs, s, kept);
    forall i, j | 0 <= i < j < |s.heap| ensures s.heap[i] != s.heap[j] {
      assert (kept + s.heap)[|kept| + i] == s.heap[i] && (kept + s.heap)[|kept| + j] == s.heap[j];
    }
  }

  lemma TrimValue(z: State, i: nat, t: Task)
    requires z.heap != [] && z.heap[0] == i && i < |z.ts| && z.ts[i].next && t == Trim(z.ts[i], z.ram)
    ensures z.ts[i].wss > z.ram ==>
            Preempt(z, 0, true) == z.(ts := z.ts[i := t], heap := Erase(z.heap, 0), used := z.used - z.ts[i].ncpus)
    ensures z.ts[i].wss <= z.ram ==>
            Keep(z, 0) == z.(ts := z.ts[i := t], heap := Erase(z.heap, 0), ram := z.ram - t.wss)
    ensures SameTask(z.ts[i], t) && t.wss == z.ts[i].wss && (t.next <==> !t.tooLarge) && (t.next <==> t.wss <= z.ram)
            && (t.next <==> z.ts[i].wss <= z.ram)
  {
    hide Erase;
  }

  lemma TrimMove(env: Env, rs: seq<Result>, z: State, more: seq<nat>, i: nat, t: Task)
      returns (w: State, most: seq<nat>)
    requires Ledger(env, rs, z, more) && z.heap != [] && z.heap[0] == i && i < |z.ts|
    requires z.ts[i].next && z.ts[i].ncpus >= 0.0
    requires t == Trim(z.ts[i], z.ram)
    ensures Ledger(env, rs, w, most) && (most == more || most == more + [i])
    ensures w.ts == z.ts[i := t] && w.ps == z.ps && w.heap == Erase(z.heap, 0) && w.used <= z.used
    ensures w.ram == z.ram - if t.next then t.wss else 0.0
    ensures SameTask(z.ts[i], t) && t.wss == z.ts[i].wss && (t.next <==> !t.tooLarge) && (t.next <==> t.wss <= z.ram)
  {
    TrimValue(z, i, t);
    hide *;
    if z.ts[i].wss > z.ram {
      PreemptKeeps(env, rs, z, more, 0, true);
      w, most := Preempt(z, 0, true), more;
    } else {
      KeepKeeps(env, rs, z, more, 0);
      w, most := Keep(z, 0), more + [i];
    }
  }

  /** Trimming the next task keeps the ledger, and keeps the choice greedy. */
  lemma TrimNext(env: Env, rs: seq<Result>, s: State, kept: seq<nat>, n: nat, z: State, more: seq<nat>, t: Task)
      returns (w: State, most: seq<nat>)
    requires Inside(s.heap, |s.ts|) && Distinct(s.heap) && |z.ts| == |s.ts|
    requires n < |s.heap| && Ledger(env, rs, z, more) && Trimmed(s, kept, n, z, more)
            && Greedy(s.heap, s.ram, n, z.ts, z.ram)
    requires forall r :: 0 <= r < |rs| ==> rs[r].avgNcpus >= 0.0
    requires t == Trim(z.ts[s.heap[n]], z.ram)
    ensures Ledger(env, rs, w, most) && Trimmed(s, kept, n + 1, w, most)
    ensures w.ts == z.ts[s.heap[n] := t] && w.ram == z.ram - if t.next then t.wss else 0.0
    ensures Greedy(s.heap, s.ram, n + 1, w.ts, w.ram)
  {
    hide Ledger, Trimmed, Greedy, OnlyRemarks, Distinct, SameTask, Erase, Trim;
    TrimFirst(env, rs, s, kept, n, z, more);
    w, most := TrimMove(env, rs, z, more, s.heap[n], t);
    hide Inside;
    GreedyStep(s.heap, s.ram, n, z.ts, z.ram, t);
    TrimStep(s, kept, n, z, more, t, w, most);
  }

  /** What the loop does to one task. */
  function Trim(t: Task, ram: real): Task {
    if t.wss > ram then t.(next := false, tooLarge := true) else t.(tooLarge := false)
  }

  /** Lines 777-795: of the running tasks that are not in the schedule, keep those that fit in
      what is left of the RAM. ncpus_used is not adjusted any more; `z` shows what it would be. */
  method TrimToRam(env: Env, rs: seq<Result>, s: State, ghost kept: seq<nat>)
    returns (ts: seq<Task>, ram: real, ghost z: State, ghost more: seq<nat>)
    requires Ledger(env, rs, s, kept) && forall r :: 0 <= r < |rs| ==> rs[r].avgNcpus >= 0.0
    ensures |ts| == |s.ts| && OnlyRemarks(s.ts, ts) && forall i :: 0 <= i < |ts| && i !in s.heap ==> ts[i] == s.ts[i]
    ensures Inside(s.heap, |ts|) && Greedy(s.heap, s.ram, |s.heap|, ts, ram)
    ensures Ledger(env, rs, z, more) && z.ts == ts && z.ram == ram
    ensures Trimmed(s, kept, |s.heap|, z, more)
  {
    hide Ledger, Trimmed, Greedy, Distinct, OnlyRemarks;
    TrimStart(env, rs, s, kept);
    ts, ram := s.ts, s.ram;
    z, more := s, kept;
    for n := 0 to |s.heap|
      invariant |ts| == |s.ts| && z.ts == ts && z.ram == ram
      invariant Ledger(env, rs, z, more) && Trimmed(s, kept, n, z, more) && Greedy(s.heap, s.ram, n, ts, ram)
    {
      var i := s.heap[n];
      TrimFirst(env, rs, s, kept, n, z, more);
      z, more := TrimNext(env, rs, s, kept, n, z, more, Trim(ts[i], ram));
      if ts[i].wss > ram {
        ts := ts[i := ts[i].(next := false, tooLarge := true)];
      } else {
        ram := ram - ts[i].wss;
        ts := ts[i := ts[i].(tooLarge := false)];
      }
    }
    TrimmedAll(s, kept, z, more);
  }

  lemma TrimStart(env: Env, rs: seq<Result>, s: State, kept: seq<nat>)
    requires Ledger(env, rs, s, kept)
    ensures Inside(s.heap, |s.ts|) && Distinct(s.heap)
    ensures Trimmed(s, kept, 0, s, kept) && Greedy(s.heap, s.ram, 0, s.ts, s.ram)
  {
    LedgerInside(env, rs, s, kept);
    LedgerDistinct(env, rs, s, kept);
    hide Ledger;
  }

  lemma TrimmedAll(s: State, kept: seq<nat>, z: State, more: seq<nat>)
    requires Trimmed(s, kept, |s.heap|, z, more)
    ensures |z.ts| == |s.ts| && OnlyRemarks(s.ts, z.ts) && forall i :: 0 <= i < |s.ts| && i !in s.heap ==>
            z.ts[i] == s.ts[i]
  {
    assert s.heap[..|s.heap|] == s.heap;
  }

  lemma TrimFirst(env: Env, rs: seq<Result>, s: State, kept: seq<nat>, n: nat, z: State, more: seq<nat>)
    requires n < |s.heap| && Trimmed(s, kept, n, z, more) && Ledger(env, rs, z, more)
    requires forall r :: 0 <= r < |rs| ==> rs[r].avgNcpus >= 0.0
    ensures z.heap != [] && z.heap[0] == s.heap[n] && s.heap[n] < |z.ts| == |s.ts|
    ensures z.ts[s.heap[n]].next && z.ts[s.heap[n]].ncpus >= 0.0
  {
    hide OnlyRemarks, Ledger;
    LedgerHeap(env, rs, z, more, 0);
  }

  /** A runnable result of a project that is not CPU-intensive. */
  predicate Background(ps: seq<Project>, rs: seq<Result>, r: nat) {
    r < |rs| && rs[r].project < |ps| && ps[rs[r].project].nonCpuIntensive && rs[r].runnable
  }

  /** After the first `n` results have been gone through for background tasks. */
  ghost predicate Launched(env: Env, rs: seq<Result>, s: State, n: nat, z: State) {
    && z.heap == s.heap && z.ps == s.ps && z.ram == s.ram && OnlyRemarks(s.ts, z.ts)
    && (forall i :: 0 <= i < |s.ts| ==> z.ts[i].tooLarge == s.ts[i].tooLarge)
    && (forall i :: |s.ts| <= i < |z.ts| ==> Background(s.ps, rs, z.ts[i].result) && Fresh(s.ps, rs, env.now, z.ts[i]))
    && (forall i :: 0 <= i < |z.ts| ==>
        z.ts[i].next == ((i < |s.ts| && s.ts[i].next) || (Background(s.ps, rs, z.ts[i].result) && z.ts[i].result < n)))
    && (forall r :: 0 <= r < n && Background(s.ps, rs, r) ==> HasTask(z.ts, r))
  }

  lemma LaunchStep(env: Env, rs: seq<Result>, s: State, n: nat, y: State, us: seq<Task>, i: nat)
    requires Launched(env, rs, s, n, y) && Background(s.ps, rs, n) && Distinguished(y.ts, n)
    requires Got(y.ps, rs, env.now, y.ts, n, us, i)
    ensures Launched(env, rs, s, n + 1, y.(ts := us[i := us[i].(next := true)]))
  {
    var ws := us[i := us[i].(next := true)];
    GotTasks(y.ps, rs, env.now, y.ts, n, us, i, ws);
    RemarksTrans(s.ts, y.ts, ws);
    assert ws[i].result == n && ws[i].next;
    hide HasTask, SameTask, Background, NewTask, OnlyRemarks, Got;
  }

  lemma GotTasks(ps: seq<Project>, rs: seq<Result>, now: real, ts: seq<Task>, r: nat, us: seq<Task>, i: nat,
                 ws: seq<Task>)
    requires r < |rs| && rs[r].project < |ps| && Got(ps, rs, now, ts, r, us, i) && ws == us[i := us[i].(next := true)]
    ensures HasTask(ws, r) && OnlyRemarks(ts, ws) && |ws| <= |ts| + 1
    ensures forall j :: 0 <= j < |ws| && j != i ==> j < |ts| && ws[j] == ts[j]
    ensures i == |ts| ==> Fresh(ps, rs, now, ws[i])
    ensures forall q :: HasTask(ts, q) ==> HasTask(ws, q)
  {
    assert ws[i].result == r;
    forall q | HasTask(ts, q) ensures HasTask(ws, q) {
      var j :| 0 <= j < |ts| && ts[j].result == q;
      assert ws[j].result == q;
    }
  }

  lemma LaunchKeeps(env: Env, rs: seq<Result>, s: State, kept: seq<nat>, n: nat, us: seq<Task>, i: nat)
    requires Ledger(env, rs, s, kept) && n < |rs| && rs[n].project < |s.ps| && s.ps[rs[n].project].nonCpuIntensive
    requires Got(s.ps, rs, env.now, s.ts, n, us, i)
    ensures Ledger(env, rs, s.(ts := us[i := us[i].(next := true)]), kept) && Distinguished(s.ts, n)
  {
    assert Distinguished(s.ts, n);
    hide Ledger, SumAt;
    GotKeeps(env, rs, s, kept, n, us, i);
    var z := s.(ts := us);
    TaskOf(env, rs, z, kept, i);
    FlagKeeps(env, rs, z, kept, i, us[i].(next := true));
    assert z.(ts := us[i := us[i].(next := true)]) == s.(ts := us[i := us[i].(next := true)]);
  }

  ghost predicate Distinguished(ts: seq<Task>, r: nat) {
    forall i, j :: 0 <= i < j < |ts| ==> ts[i].result != r || ts[j].result != r
  }

  lemma LaunchSkip(env: Env, rs: seq<Result>, s: State, n: nat, y: State)
    requires Launched(env, rs, s, n, y) && !Background(s.ps, rs, n)
    ensures Launched(env, rs, s, n + 1, y)
  {
  }

  /** Lines 804-811: every runnable result of a project that is not CPU-intensive gets a task and runs. */
  method LaunchBackground(env: Env, rs: seq<Result>, ts: seq<Task>, ps: seq<Project>, ghost s: State,
                          ghost kept: seq<nat>)
    returns (us: seq<Task>, ghost z: State)
    requires Ledger(env, rs, s, kept) && s.ts == ts && s.ps == ps && forall r :: 0 <= r < |rs| ==> rs[r].project < |ps|
    ensures OnlyRemarks(ts, us) && forall r :: Background(ps, rs, r) ==> Runs(us, r)
    ensures forall i :: 0 <= i < |ts| && !Background(ps, rs, ts[i].result) ==> us[i].next == ts[i].next
    ensures Ledger(env, rs, z, kept) && z.ts == us && z.ps == ps && z.used == s.used && Launched(env, rs, s, |rs|, z)
  {
    us, z := ts, s;
    assert Launched(env, rs, s, 0, z);
    hide Ledger, Launched, Got;
    for n := 0 to |rs|
      invariant Ledger(env, rs, z, kept) && z.ts == us && z.ps == ps && z.used == s.used && Launched(env, rs, s, n, z)
    {
      if ps[rs[n].project].nonCpuIntensive && rs[n].runnable {
        var vs, i := GetTask(ps, rs, env.now, us, n);
        LaunchKeeps(env, rs, z, kept, n, vs, i);
        LaunchStep(env, rs, s, n, z, vs, i);
        us := vs[i := vs[i].(next := true)];
        z := z.(ts := us);
      } else {
        LaunchSkip(env, rs, s, n, z);
      }
    }
    LaunchedAll(env, rs, s, z);
  }

  lemma LaunchedAll(env: Env, rs: seq<Result>, s: State, z: State)
    requires Launched(env, rs, s, |rs|, z)
    ensures OnlyRemarks(s.ts, z.ts) && forall r :: Background(s.ps, rs, r) ==> Runs(z.ts, r)
    ensures forall i :: 0 <= i < |s.ts| && !Background(s.ps, rs, s.ts[i].result) ==> z.ts[i].next == s.ts[i].next
  {
    hide Fresh;
    forall r | Background(s.ps, rs, r) ensures Runs(z.ts, r) {
      var i :| 0 <= i < |z.ts| && z.ts[i].result == r;
      assert z.ts[i].next;
    }
  }

  /** Lines 608-610: deadlines_missed is read again from the simulation. */
  method ResetMissed(ps: seq<Project>, missed: seq<int>) returns (qs: seq<Project>)
    requires |missed| == |ps|
    ensures SameProjects(ps, qs)
    ensures forall p :: 0 <= p < |ps| ==> qs[p].deadlinesMissed == missed[p]
  {
    qs := ps;
    for p := 0 to |ps|
      invariant SameProjects(ps, qs)
      invariant forall j :: 0 <= j < p ==> qs[j].deadlinesMissed == missed[j]
    {
      qs := qs[p := qs[p].(deadlinesMissed := missed[p])];
    }
  }

  /** The marked CPU-intensive tasks fit in the RAM, and in the CPUs if each uses one. */
  ghost predicate WithinBounds(env: Env, rs: seq<Result>, us: seq<Task>) {
    Total(us, Marked, Ram) <= env.ram && (OneCpu(rs) ==> Count(us, Marked) <= env.ncpus)
  }

  /** Only results of the schedule, and tasks that were running and still can be, are marked. */
  ghost predicate MarkedRightly(rs: seq<Result>, ts: seq<Task>, ordered: seq<nat>, us: seq<Task>)
    requires forall i :: 0 <= i < |ts| ==> ts[i].result < |rs|
  {
    forall i :: 0 <= i < |us| && Marked(us[i]) ==>
      us[i].result in ordered || (i < |ts| && ts[i].scheduled && rs[ts[i].result].runnable)
  }

  /** Tasks are made for results of the schedule and background results only, and for every one of the latter. */
  ghost predicate MadeRightly(env: Env, ps: seq<Project>, rs: seq<Result>, n: nat, ordered: seq<nat>, us: seq<Task>) {
    && (forall i :: n <= i < |us| ==>
        Fresh(ps, rs, env.now, us[i]) && (us[i].result in ordered || Background(ps, rs, us[i].result)))
    && (forall r :: Background(ps, rs, r) ==> HasTask(us, r))
  }

  /** Tasks that are not CPU-intensive run exactly if they can. */
  ghost predicate BackgroundRightly(rs: seq<Result>, us: seq<Task>) {
    forall i :: 0 <= i < |us| && !us[i].intensive ==> us[i].result < |rs| && us[i].next == rs[us[i].result].runnable
  }

  /** The state at the start of the loop over the schedule: no RAM given out yet, and the heap
      holds running tasks. */
  ghost predicate Begun(env: Env, ps: seq<Project>, rs: seq<Result>, ts: seq<Task>, missed: seq<int>, s: State)
    requires |missed| == |ps|
  {
    && Ledger(env, rs, s, []) && s.used <= env.ncpus as real && SameProjects(ps, s.ps)
    && (forall p :: 0 <= p < |ps| ==> s.ps[p].deadlinesMissed == missed[p])
    && |s.ts| == |ts| && OnlyRemarks(ts, s.ts) && FlagsStay(ts, s.ts)
    && (forall j :: j in s.heap ==> j < |ts| && Ran(rs, ts[j]))
    && (AllIn(rs, ts, s) || OneOut(env, rs, ts, s))
  }

  /** A CPU-intensive task that was running and still can be. */
  predicate Ran(rs: seq<Result>, t: Task) { t.result < |rs| && t.intensive && t.scheduled && rs[t.result].runnable }

  ghost predicate AllIn(rs: seq<Result>, ts: seq<Task>, s: State) {
    forall i :: 0 <= i < |ts| && Ran(rs, ts[i]) ==> i in s.heap
  }

  /** A running task has been preempted, and had to be. */
  ghost predicate OneOut(env: Env, rs: seq<Result>, ts: seq<Task>, s: State) {
    exists i :: 0 <= i < |ts| && Ran(rs, ts[i]) && i !in s.heap && s.used + ts[i].ncpus > env.ncpus as real
  }

  /** Of the CPU-intensive tasks, a task of the schedule ends up marked exactly if its turn marks
      it, the running tasks left over exactly if they fit one after the other, and no others. */
  ghost predicate ScheduleMet(env: Env, ps: seq<Project>, rs: seq<Result>, ts: seq<Task>, ordered: seq<nat>,
                              missed: seq<int>, us: seq<Task>)
    requires |missed| == |ps|
  {
    exists s: State, z: State {:trigger Follows(env, rs, s, ordered, z)} ::
      Begun(env, ps, rs, ts, missed, s) && Follows(env, rs, s, ordered, z) && AgreeOn(ordered, z.ts, us)
          && RestTrimmed(env, ordered, z, us)
  }

  /** The running tasks left in the heap are flagged exactly if they are preempted; the RAM left is
      what the marked tasks leave; other tasks that were there are as the turns have left them. */
  ghost predicate RestTrimmed(env: Env, ordered: seq<nat>, z: State, us: seq<Task>) {
    && Inside(z.heap, |us|) && |z.ts| <= |us|
    && Greedy(z.heap, z.ram, |z.heap|, us, env.ram - Total(us, Marked, Ram))
    && (forall i :: 0 <= i < |us| && Marked(us[i]) ==> us[i].result in ordered || i in z.heap)
    && (forall i :: 0 <= i < |z.ts| && z.ts[i].intensive ==>
          if i in z.heap then us[i].tooLarge == !us[i].next else us[i] == z.ts[i])
  }

  ghost predicate AgreeOn(ordered: seq<nat>, ts: seq<Task>, us: seq<Task>) {
    forall k :: 0 <= k < |ordered| ==> (Runs(us, ordered[k]) <==> Runs(ts, ordered[k]))
  }

  /** What the marking leaves behind. */
  ghost predicate Enforced(env: Env, ps: seq<Project>, rs: seq<Result>, ts: seq<Task>, ordered: seq<nat>,
                           missed: seq<int>, us: seq<Task>)
    requires forall i :: 0 <= i < |ts| ==> ts[i].result < |rs|
    requires |missed| == |ps|
  {
    && ScheduleMet(env, ps, rs, ts, ordered, missed, us) && WithinBounds(env, rs, us) && OnlyRemarks(ts, us)
        && MarkedRightly(rs, ts, ordered, us)
    && MadeRightly(env, ps, rs, |ts|, ordered, us) && BackgroundRightly(rs, us)
  }

  lemma RemarksTrans(ts: seq<Task>, us: seq<Task>, vs: seq<Task>)
    requires OnlyRemarks(ts, us) && OnlyRemarks(us, vs)
    ensures OnlyRemarks(ts, vs)
  {
  }

  /** The bounds, once the heap is empty. */
  lemma Bounds(env: Env, rs: seq<Result>, s: State, kept: seq<nat>)
    requires Ledger(env, rs, s, kept) && s.heap == []
    ensures (OneCpu(rs) ==> s.used <= env.ncpus as real) ==> WithinBounds(env, rs, s.ts)
    ensures forall i :: 0 <= i < |s.ts| && Marked(s.ts[i]) ==> i in kept
    ensures s.ram == env.ram - Total(s.ts, Marked, Ram)
  {
    LedgerTotals(env, rs, s, kept);
    SumNone(s.ts, s.heap, Ram);
    if OneCpu(rs) { LedgerUnit(env, rs, s, kept); }
    hide Sums, Wired;
    assert kept + s.heap == kept;
  }

  lemma MarkedFrom(rs: seq<Result>, ts: seq<Task>, ordered: seq<nat>, s0: State, s2: State, kept: seq<nat>,
                   more: seq<nat>, us: seq<Task>)
    requires |s0.ts| == |ts| && forall i :: 0 <= i < |ts| ==> ts[i].result < |rs| && s0.ts[i] == FirstMark(rs, ts[i])
    requires forall j :: j in s2.heap ==> j < |s0.ts| && Marked(s0.ts[j])
    requires KeptFor(s2, kept, ordered) && OnlyRemarks(s2.ts, us)
    requires forall j :: j in more ==> j in kept || j in s2.heap
    requires forall i :: 0 <= i < |us| && Marked(us[i]) ==> i in more
    ensures MarkedRightly(rs, ts, ordered, us)
  {
  }

  lemma BackgroundRuns(env: Env, ps: seq<Project>, rs: seq<Result>, ts: seq<Task>, ordered: seq<nat>, s0: State,
                       s1: State, s2: State, kept: seq<nat>, s3: State, more: seq<nat>, s4: State)
    requires |s0.ts| == |ts| && forall i :: 0 <= i < |ts| ==> ts[i].result < |rs| && s0.ts[i] == FirstMark(rs, ts[i])
    requires |s1.ts| == |s0.ts| && OnlyRemarks(s0.ts, s1.ts) && OnlyIntensive(s0.ts, s1.ts)
            && Since(env, rs, s1, ordered, s2)
    requires GoodSchedule(env.ncpus, s1.ps, rs, ordered)
    requires Ledger(env, rs, s2, kept) && Trimmed(s2, kept, |s2.heap|, s3, more)
    requires Ledger(env, rs, s4, more) && Launched(env, rs, s3, |rs|, s4)
    ensures BackgroundRightly(rs, s4.ts)
  {
    HeapMarked(env, rs, s2, kept);
    assert s2.heap[..|s2.heap|] == s2.heap;
    hide Ledger, HasTask;
    forall i | 0 <= i < |s4.ts| && !s4.ts[i].intensive
      ensures s4.ts[i].result < |rs| && s4.ts[i].next == rs[s4.ts[i].result].runnable
    {
      TaskOf(env, rs, s4, more, i);
      if i < |s1.ts| {
        assert s3.ts[i] == s2.ts[i] == s1.ts[i] == s0.ts[i];
      } else if i < |s3.ts| {
        OrderedIntensive(env, rs, s1, ordered, s2, s2.ts[i].result);
      }
    }
  }

  lemma OrderedIntensive(env: Env, rs: seq<Result>, s: State, ordered: seq<nat>, z: State, r: nat)
    requires GoodSchedule(env.ncpus, s.ps, rs, ordered) && Since(env, rs, s, ordered, z) && r in ordered
    ensures r < |rs| && rs[r].project < |z.ps| && !z.ps[rs[r].project].nonCpuIntensive
  {
    hide Distinct, OnlyRemarks, OnlyIntensive, Fresh;
    var k :| 0 <= k < |ordered| && ordered[k] == r;
  }

  lemma MadeFor(env: Env, ps: seq<Project>, rs: seq<Result>, ordered: seq<nat>, s1: State, s2: State, kept: seq<nat>,
                s3: State, more: seq<nat>, s4: State)
    requires SameProjects(ps, s1.ps) && Since(env, rs, s1, ordered, s2)
    requires Trimmed(s2, kept, |s2.heap|, s3, more) && Launched(env, rs, s3, |rs|, s4)
    ensures SameProjects(ps, s4.ps) && OnlyRemarks(s1.ts, s4.ts)
    ensures MadeRightly(env, ps, rs, |s1.ts|, ordered, s4.ts)
  {
    hide HasTask;
  }

  lemma FirstMarks(ps: seq<Project>, qs: seq<Project>, rs: seq<Result>, ts: seq<Task>, us: seq<Task>, env: Env,
                   ordered: seq<nat>)
    requires Wired(ps, rs, ts) && SameProjects(ps, qs) && GoodSchedule(env.ncpus, ps, rs, ordered)
    requires |us| == |ts| && forall i :: 0 <= i < |ts| ==> us[i] == FirstMark(rs, ts[i])
    ensures Wired(qs, rs, us) && OnlyRemarks(ts, us) && GoodSchedule(env.ncpus, qs, rs, ordered)
  {
    hide SumAt;
  }

  /** All phases together. */
  lemma Conclude(env: Env, ps: seq<Project>, rs: seq<Result>, ts: seq<Task>, ordered: seq<nat>, missed: seq<int>,
                 s0: State, s1: State, s2: State, kept: seq<nat>, s3: State, more: seq<nat>, s4: State)
    requires Wired(ps, rs, ts) && SameProjects(ps, s1.ps) && GoodSchedule(env.ncpus, s1.ps, rs, ordered)
    requires Ledger(env, rs, s1, []) && |missed| == |ps| && forall p :: 0 <= p < |ps| ==>
            s1.ps[p].deadlinesMissed == missed[p]
    requires |s0.ts| == |ts| && forall i :: 0 <= i < |ts| ==> s0.ts[i] == FirstMark(rs, ts[i])
    requires OnlyRemarks(ts, s0.ts) && Ledger(env, rs, s0, [])
    requires |s1.ts| == |s0.ts| && OnlyRemarks(s0.ts, s1.ts) && OnlyIntensive(s0.ts, s1.ts)
    requires s1.used <= env.ncpus as real && forall j :: j in s1.heap ==> j in s0.heap
    requires FlagsStay(s0.ts, s1.ts)
    requires s1 == s0 || LastNeeded(env, s0, s1)
    requires Progress(env, rs, s1, ordered, |ordered|, s2, kept)
    requires Ledger(env, rs, s3, more) && Trimmed(s2, kept, |s2.heap|, s3, more)
    requires Inside(s2.heap, |s3.ts|) && Greedy(s2.heap, s2.ram, |s2.heap|, s3.ts, s3.ram)
    requires Ledger(env, rs, s4, more) && s4.used == s3.used && Launched(env, rs, s3, |rs|, s4)
    ensures Wired(s4.ps, rs, s4.ts) && SameProjects(ps, s4.ps) && Enforced(env, ps, rs, ts, ordered, missed, s4.ts)
  {
    Facts(env, rs, s1, ordered, s2, kept, s3, more, s4);
    hide Ledger, Since, Launched, SumAt, OnlyIntensive, SameProjects, Total, Count, Fresh, HasTask, Background,
      Progress, Trimmed, GoodSchedule, OneCpu, OnlyRemarks, Wired, FirstMark, Inside, WithinBounds, MarkedRightly,
      MadeRightly, BackgroundRightly, ScheduleMet, Begun, Marked, KeptFor, SameTask, Greedy, FlagsStay;
    Bounds(env, rs, s4, more);
    MadeFor(env, ps, rs, ordered, s1, s2, kept, s3, more, s4);
    BackgroundRuns(env, ps, rs, ts, ordered, s0, s1, s2, kept, s3, more, s4);
    HeapMarked(env, rs, s0, []);
    RemarksTrans(s2.ts, s3.ts, s4.ts);
    MarkedFrom(rs, ts, ordered, s0, s2, kept, more, s4.ts);
    RemarksTrans(ts, s0.ts, s1.ts);
    HasBegun(env, ps, rs, ts, missed, s0, s1);
    MetSchedule(env, ps, rs, ts, ordered, missed, s1, s2, kept, s3, more, s4);
    RemarksTrans(ts, s1.ts, s4.ts);
  }

  lemma HeapRan(env: Env, rs: seq<Result>, ts: seq<Task>, s0: State, s1: State)
    requires |s0.ts| == |ts| && forall i :: 0 <= i < |ts| ==> ts[i].result < |rs| && s0.ts[i] == FirstMark(rs, ts[i])
    requires Ledger(env, rs, s0, []) && (s1 == s0 || LastNeeded(env, s0, s1))
    requires forall j :: j in s1.heap ==> j in s0.heap
    ensures forall j :: j in s1.heap ==> j < |ts| && Ran(rs, ts[j])
    ensures AllIn(rs, ts, s1) || OneOut(env, rs, ts, s1)
  {
    HeapExact(env, rs, s0);
    hide Ledger, Wired;
    if s1 != s0 {
      var i :| i in s0.heap && i !in s1.heap && i < |s0.ts| && s1.used + s0.ts[i].ncpus > env.ncpus as real;
      assert Ran(rs, ts[i]);
    } else {
      forall i | 0 <= i < |ts| && Ran(rs, ts[i]) ensures i in s1.heap { assert Marked(s0.ts[i]); }
    }
  }

  lemma HeapExact(env: Env, rs: seq<Result>, s: State)
    requires Ledger(env, rs, s, [])
    ensures forall i :: i in s.heap <==> 0 <= i < |s.ts| && Marked(s.ts[i])
  {
    hide Wired, Sums;
    assert [] + s.heap == s.heap;
  }

  /** The loops after the one over the schedule leave its results alone. */
  lemma RunsKept(env: Env, rs: seq<Result>, ordered: seq<nat>, s1: State, s2: State, kept: seq<nat>, s3: State,
                 more: seq<nat>, s4: State)
    requires GoodSchedule(env.ncpus, s1.ps, rs, ordered) && Ledger(env, rs, s1, [])
    requires Progress(env, rs, s1, ordered, |ordered|, s2, kept)
    requires Trimmed(s2, kept, |s2.heap|, s3, more) && Launched(env, rs, s3, |rs|, s4)
    ensures Follows(env, rs, s1, ordered, s2) && AgreeOn(ordered, s2.ts, s4.ts)
  {
    assert ordered[..|ordered|] == ordered;
    FollowsOf(env, rs, s1, ordered, s2, kept);
    LedgerInside(env, rs, s1, []);
    HeapClear(env, rs, s1, ordered, s2);
    hide Progress, Follows, Ledger;
    forall k | 0 <= k < |ordered| ensures Runs(s4.ts, ordered[k]) <==> Runs(s2.ts, ordered[k]) {
      OrderedIntensive(env, rs, s1, ordered, s2, ordered[k]);
      RunsTrimmed(s2, kept, s3, more, ordered[k]);
      RunsLaunched(env, rs, s3, s4, ordered[k]);
    }
  }

  lemma FollowsOf(env: Env, rs: seq<Result>, s: State, ordered: seq<nat>, z: State, kept: seq<nat>)
    requires Inside(ordered, |rs|) && Progress(env, rs, s, ordered, |ordered|, z, kept)
    ensures Follows(env, rs, s, ordered, z) && Since(env, rs, s, ordered, z)
  {
    assert ordered[..|ordered|] == ordered;
    hide Follows, Since, Ledger;
  }

  lemma RunsTrimmed(s: State, kept: seq<nat>, z: State, more: seq<nat>, r: nat)
    requires Trimmed(s, kept, |s.heap|, z, more) && forall j :: j in s.heap ==> j < |s.ts| && s.ts[j].result != r
    ensures Runs(z.ts, r) <==> Runs(s.ts, r)
  {
    assert s.heap[..|s.heap|] == s.heap;
    if Runs(s.ts, r) {
      var i :| 0 <= i < |s.ts| && s.ts[i].result == r && s.ts[i].next;
      assert z.ts[i] == s.ts[i];
    }
    if Runs(z.ts, r) {
      var i :| 0 <= i < |z.ts| && z.ts[i].result == r && z.ts[i].next;
      assert z.ts[i] == s.ts[i];
    }
  }

  lemma RunsLaunched(env: Env, rs: seq<Result>, s: State, z: State, r: nat)
    requires Launched(env, rs, s, |rs|, z) && !Background(s.ps, rs, r)
    ensures Runs(z.ts, r) <==> Runs(s.ts, r)
  {
    hide HasTask, Background, Fresh;
    if Runs(s.ts, r) {
      var i :| 0 <= i < |s.ts| && s.ts[i].result == r && s.ts[i].next;
      assert z.ts[i].result == r && z.ts[i].next;
    }
    if Runs(z.ts, r) {
      var i :| 0 <= i < |z.ts| && z.ts[i].result == r && z.ts[i].next;
      assert i < |s.ts| && s.ts[i].next && s.ts[i].result == r;
    }
  }

  lemma HasBegun(env: Env, ps: seq<Project>, rs: seq<Result>, ts: seq<Task>, missed: seq<int>, s0: State, s1: State)
    requires |s0.ts| == |ts| && forall i :: 0 <= i < |ts| ==> ts[i].result < |rs| && s0.ts[i] == FirstMark(rs, ts[i])
    requires Ledger(env, rs, s0, []) && (s1 == s0 || LastNeeded(env, s0, s1))
    requires |s1.ts| == |ts| && OnlyRemarks(ts, s1.ts) && forall j :: j in s1.heap ==> j in s0.heap
    requires FlagsStay(s0.ts, s1.ts)
    requires s1.used <= env.ncpus as real && SameProjects(ps, s1.ps)
    requires Ledger(env, rs, s1, []) && |missed| == |ps| && forall p :: 0 <= p < |ps| ==>
            s1.ps[p].deadlinesMissed == missed[p]
    ensures Begun(env, ps, rs, ts, missed, s1)
  {
    HeapRan(env, rs, ts, s0, s1);
    assert FlagsStay(ts, s1.ts);
    hide FlagsStay, FirstMark, Marked, OnlyRemarks, SameProjects, Ledger, Ran, AllIn, OneOut, LastNeeded;
  }

  /** The later loops on one task of the loop over the schedule. */
  lemma RestFlags(env: Env, rs: seq<Result>, s: State, kept: seq<nat>, z: State, more: seq<nat>, w: State)
    requires Ledger(env, rs, s, kept) && Trimmed(s, kept, |s.heap|, z, more) && Launched(env, rs, z, |rs|, w)
    ensures |s.ts| <= |w.ts|
    ensures forall i :: 0 <= i < |s.ts| && s.ts[i].intensive ==>
            if i in s.heap then w.ts[i].tooLarge == !w.ts[i].next else w.ts[i] == s.ts[i]
  {
    assert s.heap[..|s.heap|] == s.heap;
    hide Ledger, HasTask, Background, Fresh;
    forall i | 0 <= i < |s.ts| && s.ts[i].intensive
      ensures if i in s.heap then w.ts[i].tooLarge == !w.ts[i].next else w.ts[i] == s.ts[i]
    {
      TaskOf(env, rs, s, kept, i);
      NotBackground(s.ps, rs, s.ts[i].result);
      assert SameTask(s.ts[i], z.ts[i]) && SameTask(z.ts[i], w.ts[i]);
    }
  }

  lemma NotBackground(ps: seq<Project>, rs: seq<Result>, r: nat)
    requires r < |rs| && rs[r].project < |ps| && !ps[rs[r].project].nonCpuIntensive
    ensures !Background(ps, rs, r)
  {
  }

  lemma RestAll(env: Env, ordered: seq<nat>, z: State, us: seq<Task>, ram: real)
    requires Inside(z.heap, |us|) && |z.ts| <= |us| && Greedy(z.heap, z.ram, |z.heap|, us, ram)
    requires ram == env.ram - Total(us, Marked, Ram)
    requires forall i :: 0 <= i < |us| && Marked(us[i]) ==> us[i].result in ordered || i in z.heap
    requires forall i :: 0 <= i < |z.ts| && z.ts[i].intensive ==>
            if i in z.heap then us[i].tooLarge == !us[i].next else us[i] == z.ts[i]
    ensures RestTrimmed(env, ordered, z, us)
  {
    hide Greedy, Marked, Inside, Total;
  }

  lemma RestMarked(ordered: seq<nat>, s: State, kept: seq<nat>, more: seq<nat>, us: seq<Task>)
    requires KeptFor(s, kept, ordered) && OnlyRemarks(s.ts, us)
    requires forall j :: j in more ==> j in kept || j in s.heap
    requires forall i :: 0 <= i < |us| && Marked(us[i]) ==> i in more
    ensures forall i :: 0 <= i < |us| && Marked(us[i]) ==> us[i].result in ordered || i in s.heap
  {
  }

  lemma TrimmedPlaces(s: State, kept: seq<nat>, z: State, more: seq<nat>)
    requires Trimmed(s, kept, |s.heap|, z, more)
    ensures |z.ts| == |s.ts| && z.ps == s.ps && OnlyRemarks(s.ts, z.ts)
  {
    hide OnlyRemarks;
  }

  /** Starting background tasks does not touch the running ones. */
  lemma GreedyKept(env: Env, rs: seq<Result>, s: State, kept: seq<nat>, z: State, w: State)
    requires Ledger(env, rs, s, kept) && |z.ts| == |s.ts| && z.ps == s.ps && OnlyRemarks(s.ts, z.ts)
            && Inside(s.heap, |z.ts|)
    requires Launched(env, rs, z, |rs|, w)
    ensures Inside(s.heap, |w.ts|)
    ensures Greedy(s.heap, s.ram, |s.heap|, z.ts, z.ram) ==> Greedy(s.heap, s.ram, |s.heap|, w.ts, z.ram)
  {
    LaunchedPlaces(env, rs, z, w);
    forall k | 0 <= k < |s.heap|
      ensures s.heap[k] < |z.ts| && w.ts[s.heap[k]].next == z.ts[s.heap[k]].next
              && w.ts[s.heap[k]].wss == z.ts[s.heap[k]].wss
    {
      LedgerHeap(env, rs, s, kept, k);
      TaskOf(env, rs, s, kept, s.heap[k]);
      LaunchedMark(env, rs, z, w, s.heap[k]);
    }
    hide Ledger, Launched, OnlyRemarks;
    GreedySame(s.heap, s.ram, z.ts, w.ts, z.ram);
  }

  lemma LaunchedPlaces(env: Env, rs: seq<Result>, s: State, z: State)
    requires Launched(env, rs, s, |rs|, z)
    ensures OnlyRemarks(s.ts, z.ts)
  {
    hide OnlyRemarks;
  }

  lemma LaunchedMark(env: Env, rs: seq<Result>, s: State, z: State, i: nat)
    requires Launched(env, rs, s, |rs|, z) && i < |s.ts| && !Background(s.ps, rs, s.ts[i].result)
    ensures i < |z.ts| && z.ts[i].next == s.ts[i].next && z.ts[i].wss == s.ts[i].wss
  {
    hide HasTask, Fresh, Background;
    assert SameTask(s.ts[i], z.ts[i]);
  }

  lemma GreedySame(heap: seq<nat>, free: real, ts: seq<Task>, us: seq<Task>, ram: real)
    requires Inside(heap, |ts|) && |ts| <= |us|
    requires forall k :: 0 <= k < |heap| ==> us[heap[k]].next == ts[heap[k]].next && us[heap[k]].wss == ts[heap[k]].wss
    ensures Inside(heap, |us|)
    ensures Greedy(heap, free, |heap|, ts, ram) ==> Greedy(heap, free, |heap|, us, ram)
  {
    forall m | 0 <= m <= |heap| ensures StayedRam(us, heap[..m]) == StayedRam(ts, heap[..m]) {
      StayedPrefix(ts, us, heap, m);
    }
  }

  lemma MetSchedule(env: Env, ps: seq<Project>, rs: seq<Result>, ts: seq<Task>, ordered: seq<nat>, missed: seq<int>,
                    s1: State, s2: State, kept: seq<nat>, s3: State, more: seq<nat>, s4: State)
    requires |missed| == |ps| && Begun(env, ps, rs, ts, missed, s1) && Ledger(env, rs, s1, [])
    requires GoodSchedule(env.ncpus, s1.ps, rs, ordered) && Progress(env, rs, s1, ordered, |ordered|, s2, kept)
    requires Trimmed(s2, kept, |s2.heap|, s3, more) && Launched(env, rs, s3, |rs|, s4)
    requires Ledger(env, rs, s2, kept) && Inside(s2.heap, |s3.ts|) && Greedy(s2.heap, s2.ram, |s2.heap|, s3.ts, s3.ram)
    requires KeptFor(s2, kept, ordered) && OnlyRemarks(s2.ts, s4.ts)
    requires forall j :: j in more ==> j in kept || j in s2.heap
    requires forall i :: 0 <= i < |s4.ts| && Marked(s4.ts[i]) ==> i in more
    requires s3.ram == env.ram - Total(s4.ts, Marked, Ram)
    ensures ScheduleMet(env, ps, rs, ts, ordered, missed, s4.ts)
  {
    hide Begun, Ledger, GoodSchedule, Progress, Trimmed, Launched, Follows, AgreeOn, RestTrimmed, OnlyRemarks, KeptFor,
        Inside, Marked, Greedy;
    RunsKept(env, rs, ordered, s1, s2, kept, s3, more, s4);
    RestMarked(ordered, s2, kept, more, s4.ts);
    TrimmedPlaces(s2, kept, s3, more);
    GreedyKept(env, rs, s2, kept, s3, s4);
    RestFlags(env, rs, s2, kept, s3, more, s4);
    RestAll(env, ordered, s2, s4.ts, s3.ram);
  }

  lemma Facts(env: Env, rs: seq<Result>, s1: State, ordered: seq<nat>, s2: State, kept: seq<nat>, s3: State,
              more: seq<nat>, s4: State)
    requires Inside(ordered, |rs|) && Progress(env, rs, s1, ordered, |ordered|, s2, kept)
    requires Trimmed(s2, kept, |s2.heap|, s3, more) && Ledger(env, rs, s4, more) && Launched(env, rs, s3, |rs|, s4)
    ensures Ledger(env, rs, s2, kept) && Since(env, rs, s1, ordered, s2) && OnlyRemarks(s3.ts, s4.ts)
    ensures Wired(s4.ps, rs, s4.ts) && s4.heap == []
    ensures OneCpu(rs) && s1.used <= env.ncpus as real ==> s3.used <= env.ncpus as real
    ensures s4.ram == s3.ram
    ensures KeptFor(s2, kept, ordered) && OnlyRemarks(s2.ts, s3.ts)
    ensures forall j :: j in s2.heap ==> j in s1.heap
    ensures forall j :: j in more ==> j in kept || j in s2.heap
  {
    assert ordered[..|ordered|] == ordered;
    hide Since, SumAt, OneCpu, OnlyRemarks, Wired, Lists, Sums, Follows, KeptFor;
  }

  /** The phases one after the other, on values. */
  method MarkAll(env: Env, ps: seq<Project>, rs: seq<Result>, ts: seq<Task>, ordered: seq<nat>, missed: seq<int>)
    returns (qs: seq<Project>, us: seq<Task>)
    requires Wired(ps, rs, ts) && GoodSchedule(env.ncpus, ps, rs, ordered) && |missed| == |ps| && env.ram >= 0.0
    ensures Wired(qs, rs, us) && SameProjects(ps, qs) && Enforced(env, ps, rs, ts, ordered, missed, us)
  {
    qs := ResetMissed(ps, missed);
    us := MarkRunning(rs, ts);
    FirstMarks(ps, qs, rs, ts, us, env, ordered);
    assert forall r :: 0 <= r < |rs| ==> rs[r].avgNcpus >= 0.0;
    hide *;
    var s0 := MakeHeap(env, qs, rs, us);
    var s1 := PreemptExtras(env, rs, s0);
    ghost var kept, s3, more, s4;
    var s2;
    s2, kept := RunSchedule(env, rs, s1, ordered);
    qs := s2.ps;
    var left;
    us, left, s3, more := TrimToRam(env, rs, s2, kept);
    ProjectsStay(env, rs, s1, ordered, s2, kept, s3, more);
    us, s4 := LaunchBackground(env, rs, us, qs, s3, more);
    Conclude(env, ps, rs, ts, ordered, missed, s0, s1, s2, kept, s3, more, s4);
  }

  /** For the marks after enforce_schedule: a result without a task whose project misses more
      deadlines than results of it come before in the schedule is marked to run. */
  lemma UrgentResultRuns(env: Env, ps: seq<Project>, rs: seq<Result>, ts: seq<Task>, ordered: seq<nat>,
                         missed: seq<int>, us: seq<Task>, k: nat)
    requires Wired(ps, rs, ts) && GoodSchedule(env.ncpus, ps, rs, ordered) && |missed| == |ps|
    requires Enforced(env, ps, rs, ts, ordered, missed, us)
    requires k < |ordered| && !HasTask(ts, ordered[k])
    requires missed[rs[ordered[k]].project] > CountOf(rs, ordered[..k], rs[ordered[k]].project)
    ensures Runs(us, ordered[k])
  {
    hide Follows, Turn, Runs, SumAt, Ledger, Fresh, WithinBounds, MadeRightly, MarkedRightly, BackgroundRightly;
    var s: State, z: State :| Begun(env, ps, rs, ts, missed, s) && Follows(env, rs, s, ordered, z)
        && AgreeOn(ordered, z.ts, us) && RestTrimmed(env, ordered, z, us);
    LedgerInside(env, rs, s, []);
    UrgentRuns(env, rs, s, ordered, z, k);
  }

  /** enforce_schedule, up to line 812. */
  method EnforceSchedule(c: CpuState, env: Env, missed: seq<int>)
    requires Wired(c.ps, c.rs, c.ts) && GoodSchedule(env.ncpus, c.ps, c.rs, c.ordered)
    requires |missed| == |c.ps| && env.ram >= 0.0
    modifies c`ps, c`ts
    ensures Wired(c.ps, c.rs, c.ts) && SameProjects(old(c.ps), c.ps)
    ensures Enforced(env, old(c.ps), c.rs, old(c.ts), c.ordered, missed, c.ts)
  {
    c.ps, c.ts := MarkAll(env, c.ps, c.rs, c.ts, c.ordered, missed);
  }

  lemma ProjectsStay(env: Env, rs: seq<Result>, s1: State, ordered: seq<nat>, s2: State, kept: seq<nat>, s3: State,
                     more: seq<nat>)
    requires Inside(ordered, |rs|) && Trimmed(s2, kept, |s2.heap|, s3, more) && Ledger(env, rs, s3, more)
    ensures s3.ps == s2.ps && forall r :: 0 <= r < |rs| ==> rs[r].project < |s3.ps|
  {
    hide Lists, Sums;
  }
}
