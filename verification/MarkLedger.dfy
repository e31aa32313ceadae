/** The running totals that CLIENT_STATE::enforce_schedule (client/cpu_sched.C) keeps while it
    marks tasks, and the moves that keep them right. */
module MarkLedger {
  import opened Sequences
  import opened CpuTypes

  /** A CPU-intensive task marked to run. */
  predicate Marked(t: Task) { t.intensive && t.next }

  /** The local state of the marking phases: the tasks, the projects, the heap of running tasks
      not dealt with yet, ncpus_used and ram_left. */
  datatype State = State(ts: seq<Task>, ps: seq<Project>, heap: seq<nat>, used: real, ram: real)

  /** The ledger. The CPU-intensive tasks marked to run are the `kept` ones, already dealt with,
      and those in the heap; ncpus_used is their sum, ram_left what the kept ones leave free. */
  ghost predicate Ledger(env: Env, rs: seq<Result>, s: State, kept: seq<nat>) {
    && Wired(s.ps, rs, s.ts)
    && Lists(s.ts, kept + s.heap, Marked)
    && Sums(env, s, kept)
  }

  ghost predicate Sums(env: Env, s: State, kept: seq<nat>) {
    && Inside(kept, |s.ts|) && Inside(s.heap, |s.ts|)
    && s.used == SumAt(s.ts, kept, Cpus) + SumAt(s.ts, s.heap, Cpus)
    && s.ram == env.ram - SumAt(s.ts, kept, Ram) && s.ram >= 0.0
  }

  lemma {:induction false} SumConcat(ts: seq<Task>, a: seq<nat>, b: seq<nat>, f: Task -> real)
    requires Inside(a, |ts|) && Inside(b, |ts|)
    ensures Inside(a + b, |ts|) && SumAt(ts, a + b, f) == SumAt(ts, a, f) + SumAt(ts, b, f)
  {
    if b == [] {
      assert a + b == a;
    } else {
      SumConcat(ts, a, b[..|b| - 1], f);
      assert (a + b)[..|a + b| - 1] == a + b[..|b| - 1];
    }
  }

  /** What the ledger says about the vector of tasks itself. */
  lemma LedgerTotals(env: Env, rs: seq<Result>, s: State, kept: seq<nat>)
    requires Ledger(env, rs, s, kept)
    ensures s.used == Total(s.ts, Marked, Cpus)
    ensures env.ram - s.ram + SumAt(s.ts, s.heap, Ram) == Total(s.ts, Marked, Ram)
    ensures |kept| + |s.heap| == Count(s.ts, Marked)
  {
    SumConcat(s.ts, kept, s.heap, Cpus);
    SumConcat(s.ts, kept, s.heap, Ram);
    SumIsTotal(s.ts, kept + s.heap, Marked, Cpus);
    SumIsTotal(s.ts, kept + s.heap, Marked, Ram);
    LengthIsCount(s.ts, kept + s.heap, Marked);
  }

  // ---- The moves of the ledger -------------------------------------------------------

  /** Two versions of a task that differ in the mark and the too-large flag only. */
  predicate SameTask(t: Task, u: Task) { u == t.(next := u.next, tooLarge := u.tooLarge) }

  lemma SumUpdate(ts: seq<Task>, i: nat, t: Task, idx: seq<nat>)
    requires Inside(idx, |ts|) && i < |ts| && SameTask(ts[i], t)
    ensures Inside(idx, |ts[i := t]|)
    ensures SumAt(ts[i := t], idx, Cpus) == SumAt(ts, idx, Cpus) && SumAt(ts[i := t], idx, Ram) == SumAt(ts, idx, Ram)
  {
    SumSame(ts, ts[i := t], idx, Cpus);
    SumSame(ts, ts[i := t], idx, Ram);
  }

  lemma WiredUpdate(ps: seq<Project>, rs: seq<Result>, ts: seq<Task>, i: nat, t: Task)
    requires Wired(ps, rs, ts) && i < |ts| && SameTask(ts[i], t)
    ensures Wired(ps, rs, ts[i := t])
  {
  }

  /** Preempt a task of the heap. */
  function Preempt(s: State, k: nat, large: bool): State
    requires k < |s.heap| && s.heap[k] < |s.ts|
  {
    var t := s.ts[s.heap[k]];
    s.(ts := s.ts[s.heap[k] := t.(next := false, tooLarge := large)], heap := Erase(s.heap, k),
        used := s.used - t.ncpus)
  }

  lemma DropLists(ts: seq<Task>, kept: seq<nat>, heap: seq<nat>, k: nat, t: Task)
    requires Lists(ts, kept + heap, Marked) && k < |heap| && !Marked(t)
    ensures heap[k] < |ts| && Lists(ts[heap[k] := t], kept + Erase(heap, k), Marked)
  {
    var all := kept + heap;
    assert all[|kept| + k] == heap[k];
    assert Erase(all, |kept| + k) == kept + Erase(heap, k);
    EraseMembers(all, |kept| + k);
    var rest := kept + Erase(heap, k);
    forall j | 0 <= j < |rest| ensures rest[j] < |ts| { assert rest[j] in all; }
  }

  lemma PreemptSums(env: Env, s: State, kept: seq<nat>, k: nat, large: bool)
    requires Sums(env, s, kept) && k < |s.heap| && s.heap[k] < |s.ts|
    ensures Sums(env, Preempt(s, k, large), kept)
    ensures SumAt(Preempt(s, k, large).ts, kept, Cpus) == SumAt(s.ts, kept, Cpus)
  {
    var i := s.heap[k];
    var t := s.ts[i].(next := false, tooLarge := large);
    SumErase(s.ts, s.heap, k, Cpus);
    hide Inside;
    SumUpdate(s.ts, i, t, kept);
    SumUpdate(s.ts, i, t, Erase(s.heap, k));
  }

  lemma PreemptKeeps(env: Env, rs: seq<Result>, s: State, kept: seq<nat>, k: nat, large: bool)
    requires Ledger(env, rs, s, kept) && k < |s.heap|
    ensures Ledger(env, rs, Preempt(s, k, large), kept)
    ensures SumAt(Preempt(s, k, large).ts, kept, Cpus) == SumAt(s.ts, kept, Cpus)
  {
    hide Distinct, Wired, SumAt;
    var i := s.heap[k];
    var t := s.ts[i].(next := false, tooLarge := large);
    WiredUpdate(s.ps, rs, s.ts, i, t);
    DropLists(s.ts, kept, s.heap, k, t);
    PreemptSums(env, s, kept, k, large);
  }

  /** Let a task of the heap go on. */
  function Keep(s: State, k: nat): State
    requires k < |s.heap| && s.heap[k] < |s.ts|
  {
    var t := s.ts[s.heap[k]];
    s.(ts := s.ts[s.heap[k] := t.(tooLarge := false)], heap := Erase(s.heap, k), ram := s.ram - t.wss)
  }

  lemma KeepLists(ts: seq<Task>, kept: seq<nat>, heap: seq<nat>, k: nat, t: Task)
    requires Lists(ts, kept + heap, Marked) && k < |heap| && Marked(t)
    ensures heap[k] < |ts| && Lists(ts[heap[k] := t], kept + [heap[k]] + Erase(heap, k), Marked)
  {
    var all, i := kept + heap, heap[k];
    assert all[|kept| + k] == i;
    assert Erase(all, |kept| + k) == kept + Erase(heap, k);
    EraseMembers(all, |kept| + k);
    EraseMembersDistinct(kept, Erase(heap, k), i);
    var rest := kept + [i] + Erase(heap, k);
    forall j | 0 <= j < |rest| ensures rest[j] < |ts| { assert rest[j] in kept + Erase(heap, k) || rest[j] == i; }
  }

  /** Inserting a new element keeps a list free of duplicates. */
  lemma EraseMembersDistinct(a: seq<nat>, b: seq<nat>, i: nat)
    requires Distinct(a + b) && i !in a + b
    ensures Distinct(a + [i] + b)
    ensures forall x :: x in a + [i] + b <==> x in a + b || x == i
  {
    var c := a + [i] + b;
    forall j, k | 0 <= j < k < |c| ensures c[j] != c[k] {
      var ab := a + b;
      if j < |a| { assert c[j] == ab[j]; } else if j > |a| { assert c[j] == ab[j - 1]; }
      if k < |a| { assert c[k] == ab[k]; } else if k > |a| { assert c[k] == ab[k - 1]; }
    }
  }

  lemma KeepSums(env: Env, s: State, kept: seq<nat>, k: nat)
    requires Sums(env, s, kept) && k < |s.heap| && s.heap[k] < |s.ts| && s.ts[s.heap[k]].wss <= s.ram
    ensures Sums(env, Keep(s, k), kept + [s.heap[k]])
    ensures SumAt(Keep(s, k).ts, kept + [s.heap[k]], Cpus) == SumAt(s.ts, kept, Cpus) + s.ts[s.heap[k]].ncpus
  {
    var i := s.heap[k];
    var t := s.ts[i].(tooLarge := false);
    SumErase(s.ts, s.heap, k, Cpus);
    SumPush(s.ts, kept, i, Cpus);
    SumPush(s.ts, kept, i, Ram);
    hide Inside;
    SumUpdate(s.ts, i, t, kept + [i]);
    SumUpdate(s.ts, i, t, Erase(s.heap, k));
  }

  lemma KeepKeeps(env: Env, rs: seq<Result>, s: State, kept: seq<nat>, k: nat)
    requires Ledger(env, rs, s, kept) && k < |s.heap| && s.ts[s.heap[k]].wss <= s.ram
    ensures Ledger(env, rs, Keep(s, k), kept + [s.heap[k]])
    ensures SumAt(Keep(s, k).ts, kept + [s.heap[k]], Cpus) == SumAt(s.ts, kept, Cpus) + s.ts[s.heap[k]].ncpus
  {
    hide Distinct, Wired, SumAt;
    var i := s.heap[k];
    var t := s.ts[i].(tooLarge := false);
    assert Marked(t) by { assert (kept + s.heap)[|kept| + k] == i && i in kept + s.heap; }
    WiredUpdate(s.ps, rs, s.ts, i, t);
    KeepLists(s.ts, kept, s.heap, k, t);
    KeepSums(env, s, kept, k);
  }

  /** Mark a task that was not marked. */
  function Run(s: State, i: nat): State
    requires i < |s.ts|
  {
    var t := s.ts[i];
    s.(ts := s.ts[i := t.(next := true)], used := s.used + t.ncpus, ram := s.ram - t.wss)
  }

  lemma RunSums(env: Env, s: State, kept: seq<nat>, i: nat)
    requires Sums(env, s, kept) && i < |s.ts| && s.ts[i].wss <= s.ram
    ensures Sums(env, Run(s, i), kept + [i])
    ensures SumAt(Run(s, i).ts, kept + [i], Cpus) == SumAt(s.ts, kept, Cpus) + s.ts[i].ncpus
  {
    var t := s.ts[i].(next := true);
    SumPush(s.ts, kept, i, Cpus);
    SumPush(s.ts, kept, i, Ram);
    hide Inside;
    SumUpdate(s.ts, i, t, kept + [i]);
    SumUpdate(s.ts, i, t, s.heap);
  }

  lemma RunLists(ts: seq<Task>, kept: seq<nat>, heap: seq<nat>, i: nat, t: Task)
    requires Lists(ts, kept + heap, Marked) && i < |ts| && Marked(t) && i !in kept + heap
    ensures Lists(ts[i := t], kept + [i] + heap, Marked)
  {
    EraseMembersDistinct(kept, heap, i);
    var all := kept + [i] + heap;
    forall j | 0 <= j < |all| ensures all[j] < |ts| { assert all[j] in kept + heap || all[j] == i; }
  }

  lemma RunKeeps(env: Env, rs: seq<Result>, s: State, kept: seq<nat>, i: nat)
    requires Ledger(env, rs, s, kept) && i < |s.ts| && s.ts[i].intensive && i !in kept + s.heap && s.ts[i].wss <= s.ram
    ensures Ledger(env, rs, Run(s, i), kept + [i])
    ensures SumAt(Run(s, i).ts, kept + [i], Cpus) == SumAt(s.ts, kept, Cpus) + s.ts[i].ncpus
  {
    hide Distinct, Wired, SumAt;
    var t := s.ts[i].(next := true);
    WiredUpdate(s.ps, rs, s.ts, i, t);
    RunLists(s.ts, kept, s.heap, i, t);
    RunSums(env, s, kept, i);
  }

  /** Change flags of a task that do not enter the ledger. */
  lemma FlagKeeps(env: Env, rs: seq<Result>, s: State, kept: seq<nat>, i: nat, t: Task)
    requires Ledger(env, rs, s, kept) && i < |s.ts| && SameTask(s.ts[i], t) && Marked(t) == Marked(s.ts[i])
    ensures Ledger(env, rs, s.(ts := s.ts[i := t]), kept)
    ensures SumAt(s.ts[i := t], kept, Cpus) == SumAt(s.ts, kept, Cpus)
  {
    SumUpdate(s.ts, i, t, kept);
    SumUpdate(s.ts, i, t, s.heap);
  }

  /** CLIENT_STATE::get_task for a result without a task. */
  function NewTask(ps: seq<Project>, rs: seq<Result>, r: nat, now: real): Task
    requires r < |rs| && rs[r].project < |ps|
  {
    Task(r, !ps[rs[r].project].nonCpuIntensive, rs[r].avgNcpus, 0.0, false, true, false, false, false, false, false,
        false, false, now, 0.0)
  }

  lemma PushKeeps(env: Env, rs: seq<Result>, s: State, kept: seq<nat>, r: nat)
    requires Ledger(env, rs, s, kept) && r < |rs| && !HasTask(s.ts, r)
    ensures Ledger(env, rs, s.(ts := s.ts + [NewTask(s.ps, rs, r, env.now)]), kept)
    ensures SumAt(s.ts + [NewTask(s.ps, rs, r, env.now)], kept, Cpus) == SumAt(s.ts, kept, Cpus)
  {
    var us := s.ts + [NewTask(s.ps, rs, r, env.now)];
    PushWired(s.ps, rs, s.ts, r, env.now);
    hide Wired, SumAt;
    PushLists(s.ts, kept + s.heap, us[|s.ts|]);
    hide Lists;
    PushSums(s.ts, kept, us[|s.ts|]);
    PushSums(s.ts, s.heap, us[|s.ts|]);
  }

  lemma PushWired(ps: seq<Project>, rs: seq<Result>, ts: seq<Task>, r: nat, now: real)
    requires Wired(ps, rs, ts) && r < |rs| && !HasTask(ts, r)
    ensures Wired(ps, rs, ts + [NewTask(ps, rs, r, now)])
  {
  }

  lemma PushLists(ts: seq<Task>, idx: seq<nat>, t: Task)
    requires Lists(ts, idx, Marked) && !Marked(t)
    ensures Lists(ts + [t], idx, Marked)
  {
    InsideList(idx, |ts|);
    hide Marked, Distinct;
    forall i | 0 <= i < |ts + [t]| ensures Marked((ts + [t])[i]) <==> i in idx {
      assert (ts + [t])[i] == if i < |ts| then ts[i] else t;
    }
  }

  lemma PushSums(ts: seq<Task>, idx: seq<nat>, t: Task)
    requires Inside(idx, |ts|)
    ensures Inside(idx, |ts + [t]|) && SumAt(ts + [t], idx, Cpus) == SumAt(ts, idx, Cpus)
            && SumAt(ts + [t], idx, Ram) == SumAt(ts, idx, Ram)
  {
    SumSame(ts, ts + [t], idx, Cpus);
    SumSame(ts, ts + [t], idx, Ram);
  }

  lemma InsideList(idx: seq<nat>, n: nat)
    requires Inside(idx, n)
    ensures forall i :: i in idx ==> i < n
  {
  }

  // ---- The bounds that the ledger gives -----------------------------------------------

  /** The comment at line 720: as long as the results already dealt with leave a CPU free,
      CPUs can only be all in use because the heap is not empty. */
  lemma GuardRedundant(env: Env, rs: seq<Result>, s: State, kept: seq<nat>)
    requires Ledger(env, rs, s, kept) && SumAt(s.ts, kept, Cpus) < env.ncpus as real
    ensures s.used >= env.ncpus as real ==> s.heap != []
  {
    if s.heap == [] {
      assert SumAt(s.ts, s.heap, Cpus) == 0.0;
      assert s.used == SumAt(s.ts, kept, Cpus);
    }
  }

  ghost predicate OneCpu(rs: seq<Result>) { forall r :: 0 <= r < |rs| ==> rs[r].avgNcpus == 1.0 }

  /** With one CPU each, ncpus_used counts the tasks. */
  lemma LedgerUnit(env: Env, rs: seq<Result>, s: State, kept: seq<nat>)
    requires Ledger(env, rs, s, kept) && OneCpu(rs)
    ensures s.used == (|kept| + |s.heap|) as real
  {
    hide Lists;
    SumUnit(s.ts, kept);
    SumUnit(s.ts, s.heap);
  }

  lemma ProjectKeeps(env: Env, rs: seq<Result>, s: State, kept: seq<nat>, p: nat, missed: int)
    requires Ledger(env, rs, s, kept) && p < |s.ps|
    ensures Ledger(env, rs, s.(ps := s.ps[p := s.ps[p].(deadlinesMissed := missed)]), kept)
  {
    hide Lists, SumAt;
  }

  /** Charge a preemption to the deadlines that the project of the result misses. */
  function SpendOne(s: State, p: nat): State
    requires p < |s.ps|
  {
    if s.ps[p].deadlinesMissed == 0 then s
    else s.(ps := s.ps[p := s.ps[p].(deadlinesMissed := s.ps[p].deadlinesMissed - 1)])
  }
}
