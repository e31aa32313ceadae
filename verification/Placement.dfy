/** What CLIENT_STATE::enforce_schedule (client/cpu_sched.C) does with one result of the
    schedule. */
module Placement {
  import opened Sequences
  import opened Options
  import opened CpuTypes
  import opened MarkLedger

  /** The search of the heap for a running task of the result. */
  method FindRunning(s: State, r: nat) returns (o: Option<nat>)
    requires Inside(s.heap, |s.ts|)
    ensures o.None? <==> !Running(s, r)
    ensures o.Some? ==> o.value < |s.heap| && s.ts[s.heap[o.value]].result == r
  {
    for k := 0 to |s.heap|
      invariant forall j :: 0 <= j < k ==> s.ts[s.heap[j]].result != r
    {
      if s.ts[s.heap[k]].result == r { return Some(k); }
    }
    o := None;
  }

  ghost predicate Running(s: State, r: nat)
    requires Inside(s.heap, |s.ts|)
  {
    exists k :: 0 <= k < |s.heap| && s.ts[s.heap[k]].result == r
  }

  /** The result has no task, or one that fits in the RAM left. */
  ghost predicate Fits(s: State, r: nat) { forall i :: 0 <= i < |s.ts| && s.ts[i].result == r ==> s.ts[i].wss <= s.ram }

  ghost predicate Runs(ts: seq<Task>, r: nat) { exists i :: 0 <= i < |ts| && ts[i].result == r && ts[i].next }

  /** Lines 724-733: the running task gives way to the result. */
  predicate GivesWay(env: Env, rs: seq<Result>, ps: seq<Project>, r: nat, t: Task)
    requires r < |rs| && rs[r].project < |ps|
  {
    || ps[rs[r].project].deadlinesMissed != 0
    || (env.now - t.intervalStart >= env.period && env.now - t.checkpoint < 10.0)
  }

  /** One result of the schedule moves the ledger from `s` and `kept` to `z` and `more`. */
  ghost predicate Advances(env: Env, rs: seq<Result>, s: State, kept: seq<nat>, r: nat, z: State, more: seq<nat>)
    requires Inside(kept, |s.ts|) && r < |rs|
  {
    && Ledger(env, rs, z, more)
    && kept <= more && (forall j :: j in more && j !in kept ==> z.ts[j].result == r)
    && SumAt(z.ts, more, Cpus) <= SumAt(s.ts, kept, Cpus) + rs[r].avgNcpus
    && (forall j :: j in z.heap ==> j in s.heap)
    && (OneCpu(rs) && s.used <= env.ncpus as real ==> z.used <= env.ncpus as real)
  }

  lemma LedgerHeap(env: Env, rs: seq<Result>, s: State, kept: seq<nat>, k: nat)
    requires Ledger(env, rs, s, kept) && k < |s.heap|
    ensures s.heap[k] < |s.ts| && s.ts[s.heap[k]].result < |rs|
    ensures s.heap[k] !in kept && Marked(s.ts[s.heap[k]])
    ensures forall i :: 0 <= i < |rs| ==> rs[i].project < |s.ps|
    ensures Distinct(kept + s.heap)
    ensures s.ts[s.heap[k]].ncpus == rs[s.ts[s.heap[k]].result].avgNcpus
  {
    hide SumAt;
    assert (kept + s.heap)[|kept| + k] == s.heap[k];
    assert s.heap[k] in kept + s.heap;
    forall j | 0 <= j < |kept| ensures kept[j] != s.heap[k] {
      assert (kept + s.heap)[j] == kept[j];
    }
  }

  /** Preempting a running task in favour of a result of project `p`. */
  function Evict(s: State, k: nat, p: nat): State
    requires k < |s.heap| && s.heap[k] < |s.ts| && p < |s.ps|
  {
    Preempt(SpendOne(s, p), k, s.ts[s.heap[k]].tooLarge)
  }

  lemma EvictKeeps(env: Env, rs: seq<Result>, s: State, kept: seq<nat>, k: nat, p: nat)
    requires Ledger(env, rs, s, kept) && k < |s.heap| && p < |s.ps|
    ensures Ledger(env, rs, Evict(s, k, p), kept)
    ensures SumAt(Evict(s, k, p).ts, kept, Cpus) == SumAt(s.ts, kept, Cpus)
  {
    LedgerHeap(env, rs, s, kept, k);
    hide Lists, Sums, Wired, SumAt;
    var t := s.ts[s.heap[k]];
    ProjectKeeps(env, rs, s, kept, p, SpendOne(s, p).ps[p].deadlinesMissed);
    assert SpendOne(s, p).ps == s.ps[p := s.ps[p].(deadlinesMissed := SpendOne(s, p).ps[p].deadlinesMissed)];
    PreemptKeeps(env, rs, SpendOne(s, p), kept, k, t.tooLarge);
  }

  lemma HeapErase(kept: seq<nat>, heap: seq<nat>, k: nat)
    requires Distinct(kept + heap) && k < |heap|
    ensures forall j :: j in Erase(heap, k) <==> j in heap && j != heap[k]
  {
    forall i, j | 0 <= i < j < |heap| ensures heap[i] != heap[j] {
      assert (kept + heap)[|kept| + i] == heap[i] && (kept + heap)[|kept| + j] == heap[j];
    }
    EraseMembers(heap, k);
  }

  /** The outcome of lines 717-762: `front` was looked at, and `run` says that there is a CPU now. */
  ghost predicate Room(env: Env, rs: seq<Result>, s: State, r: nat, z: State, front: Option<nat>, run: bool)
    requires r < |rs| && rs[r].project < |s.ps|
  {
    && |z.ts| == |s.ts| && (forall i :: 0 <= i < |s.ts| && front != Some(i) ==> z.ts[i] == s.ts[i])
    && (front.None? <==> s.used < env.ncpus as real)
    && (front.None? ==> z == s && run)
    && (front.Some? ==> && front.value in s.heap && front.value < |s.ts|
                        && (run <==> GivesWay(env, rs, s.ps, r, s.ts[front.value]))
                        && z.ts[front.value] == s.ts[front.value].(next := !run)
                        && z.used == s.used - if run then s.ts[front.value].ncpus else 0.0)
    && z.ram == s.ram && (forall j :: j in z.heap <==> j in s.heap && (run ==> front != Some(j)))
    && z.ps == if front.Some? && run then SpendOne(s, rs[r].project).ps else s.ps
  }

  lemma EvictFields(s: State, k: nat, p: nat)
    requires k < |s.heap| && s.heap[k] < |s.ts| && p < |s.ps|
    ensures var t := s.ts[s.heap[k]];
            Evict(s, k, p) == State(s.ts[s.heap[k] := t.(next := false)], SpendOne(s, p).ps, Erase(s.heap, k),
                s.used - t.ncpus, s.ram)
  {
    hide Erase;
  }

  lemma RoomEvict(env: Env, rs: seq<Result>, s: State, r: nat, k: nat)
    requires r < |rs| && rs[r].project < |s.ps| && k < |s.heap| && s.heap[k] < |s.ts|
    requires s.used >= env.ncpus as real && GivesWay(env, rs, s.ps, r, s.ts[s.heap[k]])
    requires forall j :: j in Erase(s.heap, k) <==> j in s.heap && j != s.heap[k]
    ensures Room(env, rs, s, r, Evict(s, k, rs[r].project), Some(s.heap[k]), true)
  {
    EvictFields(s, k, rs[r].project);
    hide GivesWay, Erase, Evict, SpendOne;
  }

  /** Lines 717-762: is there a CPU for the result, if need be by preempting a running task? */
  method MakeRoom(env: Env, rs: seq<Result>, s: State, ghost kept: seq<nat>, r: nat)
    returns (z: State, front: Option<nat>, run: bool)
    requires Ledger(env, rs, s, kept) && r < |rs| && rs[r].project < |s.ps|
            && SumAt(s.ts, kept, Cpus) < env.ncpus as real
    ensures Ledger(env, rs, z, kept) && SumAt(z.ts, kept, Cpus) == SumAt(s.ts, kept, Cpus)
    ensures Room(env, rs, s, r, z, front, run)
  {
    GuardRedundant(env, rs, s, kept);
    hide Ledger, Inside, SumAt, GivesWay, Distinct;
    if s.used >= env.ncpus as real && s.heap != [] {
      var k :| 0 <= k < |s.heap|;
      LedgerHeap(env, rs, s, kept, k);
      front := Some(s.heap[k]);
      run := GivesWay(env, rs, s.ps, r, s.ts[s.heap[k]]);
      z := s;
      if run {
        z := Evict(s, k, rs[r].project);
        EvictKeeps(env, rs, s, kept, k, rs[r].project);
        HeapErase(kept, s.heap, k);
        RoomEvict(env, rs, s, r, k);
        hide Room;
      }
    } else {
      z, front, run := s, None, true;
    }
  }

  /** Neither processed nor in the heap. */
  ghost predicate Absent(s: State, kept: seq<nat>, r: nat) {
    forall i :: 0 <= i < |s.ts| && i in kept + s.heap ==> s.ts[i].result != r
  }

  lemma PushAbsent(env: Env, rs: seq<Result>, s: State, kept: seq<nat>, r: nat)
    requires Ledger(env, rs, s, kept) && Absent(s, kept, r)
    ensures |s.ts| !in kept + s.heap
  {
    hide SumAt, Wired;
    InsideList(kept + s.heap, |s.ts|);
  }

  /** The tasks after get_task. */
  ghost predicate Got(ps: seq<Project>, rs: seq<Result>, now: real, ts: seq<Task>, r: nat, us: seq<Task>, i: nat)
    requires r < |rs| && rs[r].project < |ps|
  {
    && us == (if HasTask(ts, r) then ts else ts + [NewTask(ps, rs, r, now)])
    && i < |us| && us[i].result == r && i <= |ts| && (HasTask(ts, r) <==> i < |ts|)
  }

  /** get_task: the task of the result, made if there is none. */
  method GetTask(ps: seq<Project>, rs: seq<Result>, now: real, ts: seq<Task>, r: nat) returns (us: seq<Task>, i: nat)
    requires r < |rs| && rs[r].project < |ps|
    ensures Got(ps, rs, now, ts, r, us, i)
  {
    var o := LookupTask(ts, r);
    if o.Some? {
      us, i := ts, o.value;
    } else {
      us, i := ts + [NewTask(ps, rs, r, now)], |ts|;
    }
  }

  lemma GotKeeps(env: Env, rs: seq<Result>, s: State, kept: seq<nat>, r: nat, us: seq<Task>, i: nat)
    requires Ledger(env, rs, s, kept) && r < |rs| && rs[r].project < |s.ps|
    requires Got(s.ps, rs, env.now, s.ts, r, us, i)
    ensures Ledger(env, rs, s.(ts := us), kept) && SumAt(us, kept, Cpus) == SumAt(s.ts, kept, Cpus)
  {
    hide Lists, Sums, Wired, SumAt, NewTask;
    if !HasTask(s.ts, r) { PushKeeps(env, rs, s, kept, r); }
    assert s.(ts := s.ts) == s;
  }

  /** Task `i` of result `r` was marked, after having been made if need be. */
  ghost predicate Started(env: Env, rs: seq<Result>, s: State, r: nat, z: State, i: nat)
    requires r < |rs| && rs[r].project < |s.ps|
  {
    && i < |z.ts| && z.ts[i].result == r && i <= |s.ts| && (HasTask(s.ts, r) <==> i < |s.ts|)
    && z == Run(if i < |s.ts| then s else s.(ts := s.ts + [NewTask(s.ps, rs, r, env.now)]), i)
  }

  /** Lines 763-768: start a task that is not running, or let it go on. */
  method StartTask(env: Env, rs: seq<Result>, s: State, ghost kept: seq<nat>, r: nat) returns (z: State, i: nat)
    requires Ledger(env, rs, s, kept) && r < |rs| && rs[r].project < |s.ps| && !s.ps[rs[r].project].nonCpuIntensive
    requires Absent(s, kept, r) && Fits(s, r)
    ensures Ledger(env, rs, z, kept + [i])
    ensures SumAt(z.ts, kept + [i], Cpus) == SumAt(s.ts, kept, Cpus) + rs[r].avgNcpus
    ensures Started(env, rs, s, r, z, i) && z.used == s.used + rs[r].avgNcpus
  {
    PushAbsent(env, rs, s, kept, r);
    var us;
    us, i := GetTask(s.ps, rs, env.now, s.ts, r);
    GotKeeps(env, rs, s, kept, r, us, i);
    z := s.(ts := us);
    TaskOf(env, rs, z, kept, i);
    hide Ledger, SumAt, Inside;
    RunKeeps(env, rs, z, kept, i);
    z := Run(z, i);
  }

  lemma TaskOf(env: Env, rs: seq<Result>, s: State, kept: seq<nat>, i: nat)
    requires Ledger(env, rs, s, kept) && i < |s.ts|
    ensures s.ts[i].result < |rs| && rs[s.ts[i].result].project < |s.ps| && s.ram >= 0.0
    ensures s.ts[i].ncpus == rs[s.ts[i].result].avgNcpus
    ensures s.ts[i].intensive == !s.ps[rs[s.ts[i].result].project].nonCpuIntensive
    ensures forall j :: 0 <= j < |s.ts| && j != i ==> s.ts[j].result != s.ts[i].result
  {
    hide SumAt, Lists;
  }

  /** What processing result `r` does to the tasks and projects; `front` is the running task
      that was looked at to make room, if any. */
  ghost predicate Effect(env: Env, rs: seq<Result>, s: State, r: nat, front: Option<nat>, z: State)
    requires Inside(s.heap, |s.ts|) && r < |rs| && rs[r].project < |s.ps|
  {
    // A running task is looked at exactly if the result fits but no CPU is free for it; it is
    // preempted exactly if it gives way.
    && (front.Some? <==> !Running(s, r) && Fits(s, r) && s.used >= env.ncpus as real)
    && (front.Some? ==> front.value in s.heap && s.ts[front.value].result != r)
    && |s.ts| <= |z.ts|
    && (front.Some? ==> z.ts[front.value] == s.ts[front.value].(next := !GivesWay(env, rs, s.ps, r, s.ts[front.value])))
    // The result runs exactly if it fits, and was running or had a CPU free or freed for it.
    && (Runs(z.ts, r) <==>
        Fits(s, r) && (Running(s, r) || front.None? || GivesWay(env, rs, s.ps, r, s.ts[front.value])))
    // Its task, if any, is flagged exactly if it is too large.
    && (forall i :: 0 <= i < |s.ts| && s.ts[i].result == r ==> (z.ts[i].tooLarge <==> s.ts[i].wss > s.ram))
    // Nothing else changes.
    && (forall i :: 0 <= i < |s.ts| ==>
        SameTask(s.ts[i], z.ts[i]) && (s.ts[i].result == r || front == Some(i) || z.ts[i] == s.ts[i]))
    && (forall i :: |s.ts| <= i < |z.ts| ==>
        z.ts[i] == NewTask(s.ps, rs, r, env.now).(next := true) && !HasTask(s.ts, r))
    && |z.ts| <= |s.ts| + 1
    // The result is not in the heap any more, and nothing enters the heap.
    && (forall j :: j in z.heap ==> j in s.heap && s.ts[j].result != r)
    && z.ps == (if front.Some? && GivesWay(env, rs, s.ps, r, s.ts[front.value])
                then SpendOne(s, rs[r].project).ps
                else s.ps)
  }

  /** If the result runs, the RAM left is reduced by the working set of its task. */
  ghost predicate Spent(s: State, r: nat, z: State) {
    if Runs(z.ts, r) then exists i :: 0 <= i < |z.ts| && z.ts[i].result == r && z.ram == s.ram - z.ts[i].wss
    else z.ram == s.ram
  }

  /** The task of a result that is neither processed nor running is not marked. */
  lemma NotMarked(env: Env, rs: seq<Result>, s: State, kept: seq<nat>, r: nat)
    requires Ledger(env, rs, s, kept) && r < |rs| && rs[r].project < |s.ps| && !s.ps[rs[r].project].nonCpuIntensive
    requires !Running(s, r) && forall j :: 0 <= j < |s.ts| && j in kept ==> s.ts[j].result != r
    ensures Absent(s, kept, r) && !Runs(s.ts, r)
  {
    hide SumAt;
    forall i | 0 <= i < |s.ts| && s.ts[i].result == r ensures i !in kept + s.heap && !s.ts[i].next {
      TaskOf(env, rs, s, kept, i);
    }
  }

  lemma EffectContinue(env: Env, rs: seq<Result>, s: State, kept: seq<nat>, r: nat, k: nat, z: State)
    requires Ledger(env, rs, s, kept) && r < |rs| && rs[r].project < |s.ps|
    requires k < |s.heap| && s.heap[k] < |s.ts| && s.ts[s.heap[k]].result == r
    requires |z.ts| == |s.ts| && z.ps == s.ps
    requires z.ts[s.heap[k]].next <==> s.ts[s.heap[k]].wss <= s.ram
    requires z.ts[s.heap[k]].tooLarge <==> s.ts[s.heap[k]].wss > s.ram
    requires SameTask(s.ts[s.heap[k]], z.ts[s.heap[k]])
    requires forall i :: 0 <= i < |s.ts| && i != s.heap[k] ==> z.ts[i] == s.ts[i]
    requires forall j :: j in z.heap ==> j in s.heap && j != s.heap[k]
    ensures Effect(env, rs, s, r, None, z)
  {
    var i := s.heap[k];
    TaskOf(env, rs, s, kept, i);
    hide Ledger, Effect;
    assert Fits(s, r) <==> s.ts[i].wss <= s.ram;
    assert Runs(z.ts, r) <==> z.ts[i].next;
    hide Fits, Runs, SameTask, Inside;
    EffectRunning(env, rs, s, r, i, z);
  }

  lemma EffectRunning(env: Env, rs: seq<Result>, s: State, r: nat, i: nat, z: State)
    requires r < |rs| && rs[r].project < |s.ps| && Inside(s.heap, |s.ts|) && i < |s.ts| && Running(s, r)
    requires |z.ts| == |s.ts| && z.ps == s.ps && SameTask(s.ts[i], z.ts[i])
    requires Fits(s, r) <==> s.ts[i].wss <= s.ram
    requires Runs(z.ts, r) <==> s.ts[i].wss <= s.ram
    requires z.ts[i].tooLarge <==> s.ts[i].wss > s.ram
    requires forall j :: 0 <= j < |s.ts| ==> (s.ts[j].result == r <==> j == i) && (j != i ==> z.ts[j] == s.ts[j])
    requires forall j :: j in z.heap ==> j in s.heap && j != i
    ensures Effect(env, rs, s, r, None, z)
  {
    assert forall j :: j in s.heap ==> j < |s.ts|;
    hide Running, Fits, Runs, GivesWay, SpendOne, NewTask, HasTask, Inside;
  }

  lemma EffectRefuse(env: Env, rs: seq<Result>, s: State, kept: seq<nat>, r: nat, i: nat, t: Task)
    requires Ledger(env, rs, s, kept) && r < |rs| && rs[r].project < |s.ps|
    requires !Running(s, r) && !Runs(s.ts, r) && i < |s.ts| && s.ts[i].result == r
    requires s.ts[i].wss > s.ram && SameTask(s.ts[i], t) && t.next == s.ts[i].next && t.tooLarge
    ensures Effect(env, rs, s, r, None, s.(ts := s.ts[i := t]))
  {
    TaskOf(env, rs, s, kept, i);
    hide Ledger, GivesWay, SpendOne, NewTask;
  }

  /** Clearing the too-large flag of the task of `r`. */
  ghost predicate Cleared(s: State, r: nat, a: State) {
    && a == s.(ts := a.ts) && |a.ts| == |s.ts|
    && (forall i :: 0 <= i < |s.ts| ==> a.ts[i] == if s.ts[i].result == r then s.ts[i].(tooLarge := false) else s.ts[i])
  }

  lemma ClearedRoom(env: Env, rs: seq<Result>, s: State, kept: seq<nat>, r: nat, a: State, front: Option<nat>, b: State,
                    run: bool)
    requires Ledger(env, rs, s, kept) && r < |rs| && rs[r].project < |s.ps| && !Running(s, r) && !Runs(s.ts, r)
    requires Cleared(s, r, a) && Room(env, rs, a, r, b, front, run)
    ensures |b.ts| == |s.ts|
    ensures front.Some? ==> front.value in s.heap && front.value < |s.ts| && s.ts[front.value].result != r
    ensures front.Some? ==>
            b.ts[front.value] == s.ts[front.value].(next := !GivesWay(env, rs, s.ps, r, s.ts[front.value]))
    ensures front.Some? ==> (run <==> GivesWay(env, rs, s.ps, r, s.ts[front.value]))
    ensures forall i :: 0 <= i < |s.ts| ==>
            SameTask(s.ts[i], b.ts[i]) && (s.ts[i].result == r || front == Some(i) || b.ts[i] == s.ts[i])
    ensures !Runs(b.ts, r) && forall i :: 0 <= i < |s.ts| && s.ts[i].result == r ==> !b.ts[i].tooLarge
    ensures forall j :: j in b.heap ==> j in s.heap && j < |s.ts| && s.ts[j].result != r
    ensures b.ps == if front.Some? && run then SpendOne(s, rs[r].project).ps else s.ps
  {
    HeapOthers(env, rs, s, kept, r);
    hide Ledger, GivesWay, Running, Inside;
    ClearedTasks(env, rs, s, r, a, front, b, run);
    hide Cleared, Runs, SameTask;
    assert a == s.(ts := a.ts);
  }

  lemma HeapOthers(env: Env, rs: seq<Result>, s: State, kept: seq<nat>, r: nat)
    requires Ledger(env, rs, s, kept) && !Running(s, r)
    ensures forall j :: j in s.heap ==> j < |s.ts| && s.ts[j].result != r
  {
    assert Inside(s.heap, |s.ts|);
    hide Ledger;
    forall j | j in s.heap ensures j < |s.ts| && s.ts[j].result != r { var k :| 0 <= k < |s.heap| && s.heap[k] == j; }
  }

  lemma ClearedTasks(env: Env, rs: seq<Result>, s: State, r: nat, a: State, front: Option<nat>, b: State, run: bool)
    requires r < |rs| && rs[r].project < |s.ps| && !Runs(s.ts, r) && Cleared(s, r, a)
            && Room(env, rs, a, r, b, front, run)
    requires forall j :: j in s.heap ==> j < |s.ts| && s.ts[j].result != r
    ensures |b.ts| == |s.ts| && a == s.(ts := a.ts) && |a.ts| == |s.ts|
    ensures front.Some? ==> front.value in s.heap && front.value < |s.ts| && a.ts[front.value] == s.ts[front.value]
    ensures front.Some? ==> b.ts[front.value] == s.ts[front.value].(next := !run)
    ensures forall i :: 0 <= i < |s.ts| ==>
            SameTask(s.ts[i], b.ts[i]) && (s.ts[i].result == r || front == Some(i) || b.ts[i] == s.ts[i])
    ensures !Runs(b.ts, r) && forall i :: 0 <= i < |s.ts| && s.ts[i].result == r ==> !b.ts[i].tooLarge
  {
    hide GivesWay, SpendOne;
  }

  lemma EffectStay(env: Env, rs: seq<Result>, s: State, kept: seq<nat>, r: nat, a: State, front: Option<nat>, b: State)
    requires Ledger(env, rs, s, kept) && r < |rs| && rs[r].project < |s.ps|
    requires !Running(s, r) && !Runs(s.ts, r) && Fits(s, r)
    requires Cleared(s, r, a) && Room(env, rs, a, r, b, front, false)
    ensures Effect(env, rs, s, r, front, b)
  {
    ClearedRoom(env, rs, s, kept, r, a, front, b, false);
    hide Ledger, GivesWay, SpendOne, NewTask;
  }

  lemma StartedTasks(env: Env, rs: seq<Result>, ps: seq<Project>, s: State, r: nat, z: State, i: nat)
    requires r < |rs| && rs[r].project < |s.ps| && Started(env, rs, s, r, z, i)
    requires |ps| == |s.ps| && ps[rs[r].project].nonCpuIntensive == s.ps[rs[r].project].nonCpuIntensive
    ensures z.ps == s.ps && z.heap == s.heap && |s.ts| <= |z.ts| <= |s.ts| + 1 && Runs(z.ts, r)
    ensures forall j :: 0 <= j < |s.ts| ==> z.ts[j] == if j == i then s.ts[j].(next := true) else s.ts[j]
    ensures i < |s.ts| ==> s.ts[i].result == r
    ensures forall j :: |s.ts| <= j < |z.ts| ==>
            z.ts[j] == NewTask(ps, rs, r, env.now).(next := true) && !HasTask(s.ts, r)
  {
    assert z.ts[i].next;
  }

  lemma EffectOf(env: Env, rs: seq<Result>, s: State, r: nat, front: Option<nat>, b: State, z: State, i: nat)
    requires r < |rs| && rs[r].project < |s.ps| && Inside(s.heap, |s.ts|)
    requires !Running(s, r) && Fits(s, r) && (front.Some? <==> s.used >= env.ncpus as real)
    requires |b.ts| == |s.ts| && Runs(z.ts, r) && forall j :: 0 <= j < |s.ts| && s.ts[j].result == r ==>
            !b.ts[j].tooLarge
    requires front.Some? ==> front.value in s.heap && front.value < |s.ts| && s.ts[front.value].result != r
    requires front.Some? ==>
            b.ts[front.value] == s.ts[front.value].(next := false) && GivesWay(env, rs, s.ps, r, s.ts[front.value])
    requires forall j :: 0 <= j < |s.ts| ==>
            SameTask(s.ts[j], b.ts[j]) && (s.ts[j].result == r || front == Some(j) || b.ts[j] == s.ts[j])
    requires z.ps == if front.Some? then SpendOne(s, rs[r].project).ps else s.ps
    requires forall j :: j in z.heap ==> j in s.heap && s.ts[j].result != r
    requires |b.ts| <= |z.ts| <= |b.ts| + 1
    requires forall j :: 0 <= j < |b.ts| ==> z.ts[j] == if j == i then b.ts[j].(next := true) else b.ts[j]
    requires i < |b.ts| ==> b.ts[i].result == r
    requires forall j :: |b.ts| <= j < |z.ts| ==>
            z.ts[j] == NewTask(s.ps, rs, r, env.now).(next := true) && !HasTask(s.ts, r)
    ensures Effect(env, rs, s, r, front, z)
  {
    hide GivesWay, SpendOne, NewTask, Runs, Running, HasTask, Inside, Effect;
    forall j | 0 <= j < |s.ts|
      ensures SameTask(s.ts[j], z.ts[j]) && (s.ts[j].result == r || front == Some(j) || z.ts[j] == s.ts[j])
      ensures s.ts[j].result == r ==> s.ts[j].wss <= s.ram && !z.ts[j].tooLarge
    {
      assert SameTask(s.ts[j], b.ts[j]);
    }
    assert front.Some? ==> front.value != i by {
      assert front.Some? ==> SameTask(s.ts[front.value], b.ts[front.value]);
    }
    hide *;
    EffectParts(env, rs, s, r, front, z);
  }

  lemma EffectParts(env: Env, rs: seq<Result>, s: State, r: nat, front: Option<nat>, z: State)
    requires r < |rs| && rs[r].project < |s.ps| && Inside(s.heap, |s.ts|) && |s.ts| <= |z.ts| <= |s.ts| + 1
    requires !Running(s, r) && Fits(s, r) && Runs(z.ts, r) && (front.Some? <==> s.used >= env.ncpus as real)
    requires front.Some? ==>
            && front.value in s.heap && front.value < |s.ts| && s.ts[front.value].result != r
            && z.ts[front.value] == s.ts[front.value].(next := false) && GivesWay(env, rs, s.ps, r, s.ts[front.value])
    requires forall j :: 0 <= j < |s.ts| && s.ts[j].result == r ==> s.ts[j].wss <= s.ram && !z.ts[j].tooLarge
    requires forall j :: 0 <= j < |s.ts| ==>
            SameTask(s.ts[j], z.ts[j]) && (s.ts[j].result == r || front == Some(j) || z.ts[j] == s.ts[j])
    requires z.ps == if front.Some? then SpendOne(s, rs[r].project).ps else s.ps
    requires forall j :: j in z.heap ==> j in s.heap && s.ts[j].result != r
    requires forall j :: |s.ts| <= j < |z.ts| ==>
            z.ts[j] == NewTask(s.ps, rs, r, env.now).(next := true) && !HasTask(s.ts, r)
    ensures Effect(env, rs, s, r, front, z)
  {
    hide GivesWay, SpendOne, NewTask, Fits, Running, Runs, HasTask, Inside, SameTask;
  }

  lemma EffectStart(env: Env, rs: seq<Result>, s: State, kept: seq<nat>, r: nat, a: State, front: Option<nat>, b: State,
                    z: State, i: nat)
    requires Ledger(env, rs, s, kept) && r < |rs| && rs[r].project < |s.ps|
    requires !Running(s, r) && !Runs(s.ts, r) && Fits(s, r)
    requires Cleared(s, r, a) && Room(env, rs, a, r, b, front, true)
    requires rs[r].project < |b.ps| && Started(env, rs, b, r, z, i)
    ensures Effect(env, rs, s, r, front, z)
  {
    ClearedRoom(env, rs, s, kept, r, a, front, b, true);
    assert front.Some? <==> s.used >= env.ncpus as real;
    assert HasTask(b.ts, r) <==> HasTask(s.ts, r) by {
      hide Ledger, GivesWay, SpendOne, NewTask, Room, Cleared, Started;
      if HasTask(s.ts, r) { var j :| 0 <= j < |s.ts| && s.ts[j].result == r; assert b.ts[j].result == r; }
    }
    StartedTasks(env, rs, s.ps, b, r, z, i);
    hide *;
    EffectOf(env, rs, s, r, front, b, z, i);
  }

  /** The task of a running result goes on if it fits in the RAM left, and is preempted if not. */
  method Continue(env: Env, rs: seq<Result>, s: State, ghost kept: seq<nat>, r: nat, k: nat)
      returns (z: State, ghost more: seq<nat>)
    requires Ledger(env, rs, s, kept) && k < |s.heap| && s.heap[k] < |s.ts| && s.ts[s.heap[k]].result == r
    requires r < |rs| && rs[r].project < |s.ps| && rs[r].avgNcpus >= 0.0
    ensures Advances(env, rs, s, kept, r, z, more)
    ensures Effect(env, rs, s, r, None, z) && Spent(s, r, z)
  {
    LedgerHeap(env, rs, s, kept, k);
    HeapErase(kept, s.heap, k);
    hide Ledger, SumAt, Erase, Distinct, Effect, Spent, Advances;
    var i := s.heap[k];
    if s.ts[i].wss > s.ram {
      PreemptKeeps(env, rs, s, kept, k, true);
      z, more := Preempt(s, k, true), kept;
    } else {
      KeepKeeps(env, rs, s, kept, k);
      z, more := Keep(s, k), kept + [i];
    }
    AdvancesContinue(env, rs, s, kept, r, k, z, more);
    EffectContinue(env, rs, s, kept, r, k, z);
    SpentContinue(env, rs, s, kept, r, k, z);
  }

  lemma AdvancesContinue(env: Env, rs: seq<Result>, s: State, kept: seq<nat>, r: nat, k: nat, z: State,
                         more: seq<nat>)
    requires Ledger(env, rs, s, kept) && Ledger(env, rs, z, more) && r < |rs| && rs[r].avgNcpus >= 0.0
    requires k < |s.heap| && s.heap[k] < |z.ts| && z.ts[s.heap[k]].result == r
    requires more == kept || more == kept + [s.heap[k]]
    requires SumAt(z.ts, more, Cpus) <= SumAt(s.ts, kept, Cpus) + rs[r].avgNcpus
    requires (forall j :: j in z.heap ==> j in s.heap) && z.used <= s.used
    ensures Advances(env, rs, s, kept, r, z, more)
  {
    assert Inside(kept, |s.ts|);
    hide Ledger, SumAt, OneCpu, Inside;
  }

  lemma SpentContinue(env: Env, rs: seq<Result>, s: State, kept: seq<nat>, r: nat, k: nat, z: State)
    requires Ledger(env, rs, s, kept) && k < |s.heap| && s.heap[k] < |s.ts| && s.ts[s.heap[k]].result == r
    requires |z.ts| == |s.ts| && SameTask(s.ts[s.heap[k]], z.ts[s.heap[k]])
    requires forall i :: 0 <= i < |s.ts| && i != s.heap[k] ==> z.ts[i] == s.ts[i]
    requires z.ram == s.ram - if z.ts[s.heap[k]].next then z.ts[s.heap[k]].wss else 0.0
    ensures Spent(s, r, z)
  {
    TaskOf(env, rs, s, kept, s.heap[k]);
    hide Ledger;
    assert z.ts[s.heap[k]].result == r;
  }

  lemma AdvancesFlag(env: Env, rs: seq<Result>, s: State, kept: seq<nat>, r: nat, a: State)
    requires Ledger(env, rs, s, kept) && Ledger(env, rs, a, kept) && r < |rs| && rs[r].avgNcpus >= 0.0
    requires SumAt(a.ts, kept, Cpus) <= SumAt(s.ts, kept, Cpus)
    requires forall j :: j in a.heap ==> j in s.heap
    requires a.used <= s.used
    ensures Advances(env, rs, s, kept, r, a, kept)
  {
    assert Inside(kept, |s.ts|);
    hide Ledger, SumAt, OneCpu, Inside;
  }

  /** With one CPU each, a task is started only if that leaves no more tasks than CPUs. */
  lemma UnitStart(env: Env, rs: seq<Result>, s: State, kept: seq<nat>, r: nat, front: Option<nat>, z: State)
    requires Ledger(env, rs, s, kept) && Ledger(env, rs, z, kept) && r < |rs| && rs[r].project < |s.ps|
    requires OneCpu(rs) && s.used <= env.ncpus as real && Room(env, rs, s, r, z, front, true)
    ensures z.used + 1.0 <= env.ncpus as real
  {
    hide Ledger, GivesWay, SpendOne, Running;
    if front.Some? {
      TaskOf(env, rs, s, kept, front.value);
    } else {
      LedgerUnit(env, rs, s, kept);
      assert |kept| + |s.heap| < env.ncpus;
    }
  }

  lemma AdvancesStart(env: Env, rs: seq<Result>, s: State, kept: seq<nat>, r: nat, a: State, front: Option<nat>,
                      b: State, z: State, i: nat)
    requires Ledger(env, rs, s, kept) && Ledger(env, rs, a, kept) && Ledger(env, rs, b, kept)
            && Ledger(env, rs, z, kept + [i])
    requires r < |rs| && rs[r].project < |a.ps| && i < |z.ts| && z.ts[i].result == r
    requires a.used == s.used && a.heap == s.heap && z.heap == b.heap
    requires SumAt(b.ts, kept, Cpus) == SumAt(s.ts, kept, Cpus)
    requires SumAt(z.ts, kept + [i], Cpus) == SumAt(b.ts, kept, Cpus) + rs[r].avgNcpus
    requires z.used == b.used + rs[r].avgNcpus && Room(env, rs, a, r, b, front, true)
    ensures Advances(env, rs, s, kept, r, z, kept + [i])
  {
    if OneCpu(rs) && s.used <= env.ncpus as real { UnitStart(env, rs, a, kept, r, front, b); }
    assert OneCpu(rs) ==> rs[r].avgNcpus == 1.0;
    assert Inside(kept, |s.ts|);
    hide Ledger, SumAt, GivesWay, SpendOne, Inside, OneCpu;
  }

  /** Lines 699-715: is the task of the result too large? */
  method Clear(env: Env, rs: seq<Result>, s: State, ghost kept: seq<nat>, r: nat) returns (a: State, large: bool)
    requires Ledger(env, rs, s, kept) && r < |rs| && rs[r].project < |s.ps| && !Running(s, r) && !Runs(s.ts, r)
    ensures Ledger(env, rs, a, kept) && SumAt(a.ts, kept, Cpus) == SumAt(s.ts, kept, Cpus)
    ensures a.heap == s.heap && a.used == s.used && a.ram == s.ram
    ensures large <==> !Fits(s, r)
    ensures large ==> !Runs(a.ts, r)
    ensures if large then Effect(env, rs, s, r, None, a) else Cleared(s, r, a)
  {
    large := false;
    a := s;
    var o := LookupTask(s.ts, r);
    if o.Some? {
      TaskOf(env, rs, s, kept, o.value);
      hide Ledger, SumAt;
      large := s.ts[o.value].wss > s.ram;
      var t := s.ts[o.value].(tooLarge := large);
      FlagKeeps(env, rs, s, kept, o.value, t);
      a := s.(ts := s.ts[o.value := t]);
      if large { EffectRefuse(env, rs, s, kept, r, o.value, t); }
      hide Effect;
    }
  }

  /** Lines 717-768, for a result that is not running and not too large. */
  method Place(env: Env, rs: seq<Result>, ghost s: State, a: State, ghost kept: seq<nat>, r: nat)
    returns (z: State, front: Option<nat>, ghost more: seq<nat>)
    requires Ledger(env, rs, s, kept) && r < |rs| && rs[r].project < |s.ps| && !s.ps[rs[r].project].nonCpuIntensive
    requires rs[r].avgNcpus >= 0.0 && SumAt(s.ts, kept, Cpus) < env.ncpus as real
    requires !Running(s, r) && !Runs(s.ts, r) && Absent(s, kept, r) && Fits(s, r)
    requires Ledger(env, rs, a, kept) && SumAt(a.ts, kept, Cpus) == SumAt(s.ts, kept, Cpus) && Cleared(s, r, a)
    ensures Advances(env, rs, s, kept, r, z, more)
    ensures Effect(env, rs, s, r, front, z) && Spent(s, r, z)
  {
    hide Ledger, SumAt, Effect, Advances, Runs, Spent;
    var b, run;
    b, front, run := MakeRoom(env, rs, a, kept, r);
    z, more := b, kept;
    if run {
      var i;
      z, i := StartTask(env, rs, b, kept, r);
      more := kept + [i];
      EffectStart(env, rs, s, kept, r, a, front, b, z, i);
      AdvancesStart(env, rs, s, kept, r, a, front, b, z, i);
      SpentStart(env, rs, s, r, b, z, i);
    } else {
      EffectStay(env, rs, s, kept, r, a, front, b);
      SpentStay(env, rs, s, kept, r, a, front, b);
      AdvancesFlag(env, rs, s, kept, r, b);
    }
  }

  lemma SpentStart(env: Env, rs: seq<Result>, s: State, r: nat, b: State, z: State, i: nat)
    requires r < |rs| && rs[r].project < |b.ps| && b.ram == s.ram && Started(env, rs, b, r, z, i)
    ensures Spent(s, r, z)
  {
    hide HasTask;
    assert z.ts[i].result == r && z.ts[i].next && z.ram == b.ram - z.ts[i].wss;
  }

  lemma SpentStay(env: Env, rs: seq<Result>, s: State, kept: seq<nat>, r: nat, a: State, front: Option<nat>, b: State)
    requires Ledger(env, rs, s, kept) && r < |rs| && rs[r].project < |s.ps|
    requires !Running(s, r) && !Runs(s.ts, r)
    requires Cleared(s, r, a) && Room(env, rs, a, r, b, front, false)
    ensures Spent(s, r, b)
  {
    ClearedRoom(env, rs, s, kept, r, a, front, b, false);
    assert b.ram == s.ram by { hide Ledger, GivesWay; }
    hide *;
    SpentNothing(s, r, b);
  }

  lemma SpentNothing(s: State, r: nat, z: State)
    requires !Runs(z.ts, r) && z.ram == s.ram
    ensures Spent(s, r, z)
  {
  }

  /** The body of the loop over the schedule, lines 648-769. */
  method Process(env: Env, rs: seq<Result>, s: State, ghost kept: seq<nat>, r: nat)
    returns (z: State, front: Option<nat>, ghost more: seq<nat>)
    requires Ledger(env, rs, s, kept) && r < |rs| && rs[r].project < |s.ps| && !s.ps[rs[r].project].nonCpuIntensive
    requires SumAt(s.ts, kept, Cpus) < env.ncpus as real
    requires rs[r].avgNcpus >= 0.0
    requires forall j :: 0 <= j < |s.ts| && j in kept ==> s.ts[j].result != r
    ensures Advances(env, rs, s, kept, r, z, more)
    ensures Effect(env, rs, s, r, front, z) && Spent(s, r, z)
  {
    assert Inside(s.heap, |s.ts|);
    hide Ledger, SumAt, Effect, Advances, Cleared, Fits, Runs, Spent;
    var k := FindRunning(s, r);
    if k.Some? {
      z, more := Continue(env, rs, s, kept, r, k.value);
      front := None;
      return;
    }
    NotMarked(env, rs, s, kept, r);
    var a, large := Clear(env, rs, s, kept, r);
    if large {
      AdvancesFlag(env, rs, s, kept, r, a);
      SpentNothing(s, r, a);
      z, more, front := a, kept, None;
      return;
    }
    z, front, more := Place(env, rs, s, a, kept, r);
  }
}
