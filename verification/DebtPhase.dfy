/** The second loop of CLIENT_STATE::schedule_cpus (client/cpu_sched.C): the best result of the
    project with the largest debt. */
module DebtPhase {
  import opened Sequences
  import opened Options
  import opened CpuTypes
  import opened Deadlines
  import opened EdfPhase
  import opened Preference

  // ---- assign_results_to_projects ------------------------------------------------------

  /** Project `p` has no task whose result can still be chosen. */
  ghost predicate NoCandidate(rs: seq<Result>, ts: seq<Task>, p: nat) {
    forall i :: 0 <= i < |ts| && Candidate(rs, ts[i]) ==> rs[ts[i].result].project != p
  }

  /** `r` can stand as the choice of project `p`: if it has no task, then no result of the
      project with a runnable task is left to choose. */
  ghost predicate Choice(rs: seq<Result>, ts: seq<Task>, p: nat, r: nat) {
    r < |rs| && rs[r].project == p && rs[r].runnable && (HasTask(ts, r) || NoCandidate(rs, ts, p))
  }

  ghost predicate Choosing(ps: seq<Project>, rs: seq<Result>, ts: seq<Task>) {
    forall p :: 0 <= p < |ps| && ps[p].next.Some? ==> Choice(rs, ts, p, ps[p].next.value)
  }

  /** All choices are marked. */
  ghost predicate Chosen(ps: seq<Project>, rs: seq<Result>, ts: seq<Task>) {
    Choosing(ps, rs, ts) && forall p :: 0 <= p < |ps| && ps[p].next.Some? ==> rs[ps[p].next.value].selected
  }

  /** Only the choices differ, and only choices of results that are still open are new. */
  ghost predicate NewChoices(ps: seq<Project>, rs: seq<Result>, qs: seq<Project>) {
    |qs| == |ps| && forall p :: 0 <= p < |ps| ==>
      && qs[p] == ps[p].(next := qs[p].next)
      && (qs[p].next == ps[p].next || (qs[p].next.Some? && qs[p].next.value < |rs| && rs[qs[p].next.value].runnable
          && !rs[qs[p].next.value].selected))
  }

  ghost predicate InRange(ps: seq<Project>, rs: seq<Result>, ts: seq<Task>) {
    && (forall r :: 0 <= r < |rs| ==> rs[r].project < |ps|)
    && (forall i :: 0 <= i < |ts| ==> ts[i].result < |rs|)
  }

  /** Lines 106-133: choose among results with tasks. The task of a choice is always found. */
  method AssignTasks(ps: seq<Project>, rs: seq<Result>, ts: seq<Task>) returns (qs: seq<Project>)
    requires InRange(ps, rs, ts) && Choosing(ps, rs, ts) && OneEach(ts)
    ensures NewChoices(ps, rs, qs) && Choosing(qs, rs, ts)
    ensures forall p :: 0 <= p < |qs| && qs[p].next.None? ==> NoCandidate(rs, ts, p)
    ensures forall p :: 0 <= p < |ps| ==> qs[p].next == Favourite(rs, ts, |ts|, p, ps[p].next)
    ensures forall p :: 0 <= p < |ps| && ps[p].next.None? && Judged(rs, ts, p) && qs[p].next.Some? ==>
            Best(rs, ts, |ts|, p, qs[p].next.value)
  {
    qs := ps;
    hide OneEach, Best, Judged;
    for i := 0 to |ts|
      invariant NewChoices(ps, rs, qs) && Choosing(qs, rs, ts)
      invariant forall j :: 0 <= j < i && Candidate(rs, ts[j]) ==> qs[rs[ts[j].result].project].next.Some?
      invariant forall p :: 0 <= p < |ps| ==> qs[p].next == Favourite(rs, ts, i, p, ps[p].next)
    {
      if !ts[i].runnable || rs[ts[i].result].selected || !rs[ts[i].result].runnable { continue; }
      var p := rs[ts[i].result].project;
      if qs[p].next.None? {
        qs := qs[p := qs[p].(next := Some(ts[i].result))];
        continue;
      }
      var chosen := LookupTask(ts, qs[p].next.value);
      assert Candidate(rs, ts[i]);
      OneTask(ts, ts[i], chosen.value);
      if Better(ts[i], ts[chosen.value]) {
        qs := qs[p := qs[p].(next := Some(ts[i].result))];
      }
    }
    forall p | 0 <= p < |ps| && ps[p].next.None? && Judged(rs, ts, p) && qs[p].next.Some?
        ensures Best(rs, ts, |ts|, p, qs[p].next.value) {
      FavouriteBest(rs, ts, |ts|, p);
    }
  }

  lemma OneTask(ts: seq<Task>, t: Task, j: nat)
    requires OneEach(ts) && j < |ts|
    ensures BetterThan(ts, t, ts[j].result) <==> Better(t, ts[j])
  {
  }

  ghost predicate Untried(rs: seq<Result>, ts: seq<Task>, r: nat) {
    r < |rs| && rs[r].runnable && !rs[r].selected && !HasTask(ts, r)
  }

  /** The first result of project `p` that has no task and can be chosen. */
  ghost predicate FirstOpen(rs: seq<Result>, ts: seq<Task>, p: nat, r: nat) {
    Untried(rs, ts, r) && rs[r].project == p && forall q :: 0 <= q < r && Untried(rs, ts, q) ==> rs[q].project != p
  }

  /** Lines 135-146: then choose among results without a task. */
  method AssignResults(ps: seq<Project>, rs: seq<Result>, ts: seq<Task>) returns (qs: seq<Project>)
    requires InRange(ps, rs, ts) && Choosing(ps, rs, ts)
    requires forall p :: 0 <= p < |ps| && ps[p].next.None? ==> NoCandidate(rs, ts, p)
    ensures NewChoices(ps, rs, qs) && Choosing(qs, rs, ts)
    ensures forall r :: 0 <= r < |rs| && Untried(rs, ts, r) ==> qs[rs[r].project].next.Some?
    ensures forall p :: 0 <= p < |ps| && ps[p].next.Some? ==> qs[p].next == ps[p].next
    ensures forall p :: 0 <= p < |ps| && ps[p].next.None? && qs[p].next.Some? ==> FirstOpen(rs, ts, p, qs[p].next.value)
  {
    qs := ps;
    for r := 0 to |rs|
      invariant NewChoices(ps, rs, qs) && Choosing(qs, rs, ts)
      invariant forall p :: 0 <= p < |ps| && ps[p].next.Some? ==> qs[p].next == ps[p].next
      invariant forall p :: 0 <= p < |ps| && ps[p].next.None? && qs[p].next.Some? ==>
          FirstOpen(rs, ts, p, qs[p].next.value)
      invariant forall q :: 0 <= q < r && Untried(rs, ts, q) ==> qs[rs[q].project].next.Some?
    {
      if rs[r].selected { continue; }
      var task := LookupTask(ts, r);
      if task.Some? || !rs[r].runnable { continue; }
      var p := rs[r].project;
      if qs[p].next.Some? { continue; }
      qs := qs[p := qs[p].(next := Some(r))];
    }
  }

  /** Lines 148-156: mark the choices. */
  method MarkChoices(ps: seq<Project>, rs: seq<Result>) returns (zs: seq<Result>)
    requires forall p :: 0 <= p < |ps| && ps[p].next.Some? ==> ps[p].next.value < |rs|
    ensures |zs| == |rs|
    ensures forall r :: 0 <= r < |rs| ==>
            zs[r] == rs[r].(selected := rs[r].selected || exists p :: 0 <= p < |ps| && ps[p].next == Some(r))
  {
    zs := rs;
    for p := 0 to |ps|
      invariant |zs| == |rs|
      invariant forall r :: 0 <= r < |rs| ==>
          zs[r] == rs[r].(selected := rs[r].selected || exists q :: 0 <= q < p && ps[q].next == Some(r))
    {
      if ps[p].next.Some? {
        var r := ps[p].next.value;
        zs := zs[r := zs[r].(selected := true)];
      }
    }
  }

  /** Results that can still be chosen, and projects whose choice has not been taken. */
  ghost function Unselected(rs: seq<Result>): set<nat> { set r: nat | r < |rs| && rs[r].runnable && !rs[r].selected }

  ghost function Pending(ps: seq<Project>): set<nat> { set p: nat | p < |ps| && ps[p].next.Some? }

  /** From `rs` to `zs` only selections differ, and only open results have been selected. */
  ghost predicate MoreSelected(rs: seq<Result>, zs: seq<Result>) {
    |zs| == |rs| && forall r :: 0 <= r < |rs| ==>
      zs[r] == rs[r].(selected := zs[r].selected) && (rs[r].selected ==> zs[r].selected)
          && (zs[r].selected && !rs[r].selected ==> rs[r].runnable)
  }

  /** Project `p` has nothing that can be chosen. */
  ghost predicate NoneOf(rs: seq<Result>, ts: seq<Task>, p: nat) {
    NoCandidate(rs, ts, p) && forall r: nat :: Untried(rs, ts, r) ==> rs[r].project != p
  }

  /** assign_results_to_projects: a project without a choice gets its best task, or else its first
      result without one, and is left without a choice only if it has neither. */
  method Assign(ps: seq<Project>, rs: seq<Result>, ts: seq<Task>) returns (qs: seq<Project>, zs: seq<Result>)
    requires InRange(ps, rs, ts) && Chosen(ps, rs, ts) && OneEach(ts)
    ensures NewChoices(ps, rs, qs) && MoreSelected(rs, zs) && Chosen(qs, zs, ts)
    ensures forall p :: 0 <= p < |qs| && qs[p].next.None? ==> NoneOf(rs, ts, p)
    // A choice among tasks, or else the first result without one; what is found is the best if no task is misjudged.
    ensures forall p :: 0 <= p < |ps| && ps[p].next.None? && qs[p].next.Some? ==>
              || qs[p].next == Favourite(rs, ts, |ts|, p, None)
              || (NoCandidate(rs, ts, p) && FirstOpen(rs, ts, p, qs[p].next.value))
    ensures forall p :: 0 <= p < |ps| && ps[p].next.None? && qs[p].next.Some? && Judged(rs, ts, p) ==>
            Best(rs, ts, |ts|, p, qs[p].next.value)
    // Either a result has been selected that was open, or nothing has changed.
    ensures Unselected(zs) < Unselected(rs) || (qs == ps && zs == rs)
  {
    var us := AssignTasks(ps, rs, ts);
    qs := AssignResults(us, rs, ts);
    zs := MarkChoices(qs, rs);
    MarkedChosen(qs, rs, ts, zs);
    NewChoicesTrans(ps, rs, us, qs);
    AssignProgress(ps, rs, ts, qs, zs);
  }

  lemma NewChoicesTrans(ps: seq<Project>, rs: seq<Result>, us: seq<Project>, qs: seq<Project>)
    requires NewChoices(ps, rs, us) && NewChoices(us, rs, qs)
    ensures NewChoices(ps, rs, qs)
  {
  }

  lemma MarkedChosen(ps: seq<Project>, rs: seq<Result>, ts: seq<Task>, zs: seq<Result>)
    requires Choosing(ps, rs, ts) && |zs| == |rs|
    requires forall r :: 0 <= r < |rs| ==>
            zs[r] == rs[r].(selected := rs[r].selected || exists p :: 0 <= p < |ps| && ps[p].next == Some(r))
    ensures Chosen(ps, zs, ts) && MoreSelected(rs, zs)
  {
    forall p | 0 <= p < |ps| && ps[p].next.Some?
        ensures Choice(zs, ts, p, ps[p].next.value) && zs[ps[p].next.value].selected {
      assert Choice(rs, ts, p, ps[p].next.value);
    }
  }

  lemma AssignProgress(ps: seq<Project>, rs: seq<Result>, ts: seq<Task>, qs: seq<Project>, zs: seq<Result>)
    requires Chosen(ps, rs, ts) && NewChoices(ps, rs, qs) && MoreSelected(rs, zs) && Chosen(qs, zs, ts)
    requires forall r :: 0 <= r < |rs| ==>
            zs[r] == rs[r].(selected := rs[r].selected || exists p :: 0 <= p < |qs| && qs[p].next == Some(r))
    ensures Unselected(zs) < Unselected(rs) || (qs == ps && zs == rs)
  {
    assert Unselected(zs) <= Unselected(rs);
    if p :| 0 <= p < |ps| && qs[p].next != ps[p].next {
      var r := qs[p].next.value;
      assert r in Unselected(rs) && r !in Unselected(zs);
    } else {
      assert qs == ps;
      assert zs == rs;
    }
  }

  // ---- largest_debt_project_best_result ---------------------------------------------------

  /** The result to run next is the choice of the first CPU-intensive project with the largest
      anticipated debt; its project is free to choose again. */
  method LargestDebt(ps: seq<Project>) returns (qs: seq<Project>, best: Option<nat>)
    ensures best.None? ==> qs == ps && forall p :: 0 <= p < |ps| && !ps[p].nonCpuIntensive ==> ps[p].next.None?
    ensures best.Some? ==> best.value < |ps| && !ps[best.value].nonCpuIntensive && ps[best.value].next.Some?
    ensures best.Some? ==> qs == ps[best.value := ps[best.value].(next := None)]
    ensures best.Some? ==> forall p :: 0 <= p < |ps| && !ps[p].nonCpuIntensive && ps[p].next.Some? ==>
              ps[p].anticipatedDebt < ps[best.value].anticipatedDebt
              || (ps[p].anticipatedDebt == ps[best.value].anticipatedDebt && best.value <= p)
  {
    best := None;
    for p := 0 to |ps|
      invariant best.None? ==> forall q :: 0 <= q < p && !ps[q].nonCpuIntensive ==> ps[q].next.None?
      invariant best.Some? ==> best.value < p && !ps[best.value].nonCpuIntensive && ps[best.value].next.Some?
      invariant best.Some? ==> forall q :: 0 <= q < p && !ps[q].nonCpuIntensive && ps[q].next.Some? ==>
                  ps[q].anticipatedDebt < ps[best.value].anticipatedDebt
                  || (ps[q].anticipatedDebt == ps[best.value].anticipatedDebt && best.value <= q)
    {
      if ps[p].next.None? || ps[p].nonCpuIntensive { continue; }
      if best.None? || ps[p].anticipatedDebt > ps[best.value].anticipatedDebt { best := Some(p); }
    }
    qs := if best.Some? then ps[best.value := ps[best.value].(next := None)] else ps;
  }

  // ---- The loop ----------------------------------------------------------------------------

  /** The picks are distinct runnable results that have been selected, and not choices any more. */
  ghost predicate Picks(s: Sched) {
    && Distinct(s.ordered)
    && (forall r :: r in s.ordered ==> Runnable(s.ps, s.rs, r) && s.rs[r].selected)
    && (forall p :: 0 <= p < |s.ps| && s.ps[p].next.Some? ==> s.ps[p].next.value !in s.ordered)
  }

  ghost predicate Debt(env: Env, a: Sched, s: Sched) {
    && Frame(a, s) && Inside(s.ordered, |a.rs|) && Totals(env, a, s)
    && Chosen(s.ps, s.rs, s.ts) && Picks(s)
  }

  /** Nothing left to run: every runnable result of a CPU-intensive project has been selected and
      no such project has a choice. */
  ghost predicate Idle(s: Sched) {
    && (forall r: nat :: r < |s.rs| ==> !Open(s.ps, s.rs, r))
    && (forall p :: 0 <= p < |s.ps| && !s.ps[p].nonCpuIntensive ==> s.ps[p].next.None?)
  }

  /** No CPU-intensive project has a choice, and a result that could still be picked has a task
      that cannot run. */
  ghost predicate Exhausted(s: Sched) {
    && (forall p :: 0 <= p < |s.ps| && !s.ps[p].nonCpuIntensive ==> s.ps[p].next.None?)
    && (forall r: nat :: r < |s.rs| && Open(s.ps, s.rs, r) ==>
          HasTask(s.ts, r) && forall i :: 0 <= i < |s.ts| && s.ts[i].result == r ==> !s.ts[i].runnable)
  }

  lemma ExhaustedBy(s: Sched, qs: seq<Project>, zs: seq<Result>)
    requires InRange(s.ps, s.rs, s.ts) && NewChoices(s.ps, s.rs, qs) && MoreSelected(s.rs, zs)
    requires forall p :: 0 <= p < |qs| && qs[p].next.None? ==> NoneOf(s.rs, s.ts, p)
    requires forall p :: 0 <= p < |qs| && !qs[p].nonCpuIntensive ==> qs[p].next.None?
    ensures Exhausted(Take(s, qs, zs))
  {
    forall r: nat | r < |zs| && Open(qs, zs, r)
      ensures HasTask(s.ts, r) && forall i :: 0 <= i < |s.ts| && s.ts[i].result == r ==> !s.ts[i].runnable
    {
      assert NoneOf(s.rs, s.ts, s.rs[r].project);
      assert !Untried(s.rs, s.ts, r);
      forall i | 0 <= i < |s.ts| && s.ts[i].result == r ensures !s.ts[i].runnable {
        assert s.ts[i].runnable <==> Candidate(s.rs, s.ts[i]);
      }
    }
  }

  /** No project with a result that could be picked is owed more than project `p`. */
  ghost predicate MostOwed(s: Sched, p: nat) {
    p < |s.ps| && forall q: nat :: Open(s.ps, s.rs, q) && Available(s, q) ==>
        s.ps[s.rs[q].project].anticipatedDebt <= s.ps[p].anticipatedDebt
  }

  /** The result has no task, or one that can run. */
  ghost predicate Available(s: Sched, r: nat) {
    HasTask(s.ts, r) ==> exists i :: 0 <= i < |s.ts| && s.ts[i].result == r && s.ts[i].runnable
  }

  lemma LargestOwed(s: Sched, qs: seq<Project>, p: nat)
    requires InRange(s.ps, s.rs, s.ts) && NewChoices(s.ps, s.rs, qs) && p < |qs|
    requires forall q :: 0 <= q < |qs| && qs[q].next.None? ==> NoneOf(s.rs, s.ts, q)
    requires forall q :: 0 <= q < |qs| && !qs[q].nonCpuIntensive && qs[q].next.Some? ==>
            qs[q].anticipatedDebt <= qs[p].anticipatedDebt
    ensures MostOwed(s, p)
  {
    forall q: nat | Open(s.ps, s.rs, q) && Available(s, q)
      ensures s.ps[s.rs[q].project].anticipatedDebt <= s.ps[p].anticipatedDebt
    {
      if HasTask(s.ts, q) {
        var i :| 0 <= i < |s.ts| && s.ts[i].result == q && s.ts[i].runnable;
        assert Candidate(s.rs, s.ts[i]);
      } else {
        assert Untried(s.rs, s.ts, q);
      }
    }
  }

  /** Only choices and selections differ. */
  ghost predicate OnlyChoices(b: Sched, s: Sched) {
    && |s.rs| == |b.rs| && (forall r :: 0 <= r < |b.rs| ==> s.rs[r] == b.rs[r].(selected := s.rs[r].selected))
    && |s.ps| == |b.ps| && (forall p :: 0 <= p < |b.ps| ==> s.ps[p] == b.ps[p].(next := s.ps[p].next))
    && s.(ps := b.ps, rs := b.rs) == b
  }

  lemma TakeChoices(s: Sched, qs: seq<Project>, zs: seq<Result>)
    requires NewChoices(s.ps, s.rs, qs) && MoreSelected(s.rs, zs)
    ensures OnlyChoices(s, Take(s, qs, zs))
  {
  }

  /** The state after both functions have made their choice, before schedule_if_possible. */
  function Take(s: Sched, qs: seq<Project>, zs: seq<Result>): Sched { s.(ps := qs, rs := zs) }

  lemma AssignKeeps(env: Env, a: Sched, s: Sched, qs: seq<Project>, zs: seq<Result>)
    requires Debt(env, a, s) && NewChoices(s.ps, s.rs, qs) && MoreSelected(s.rs, zs) && Chosen(qs, zs, s.ts)
    ensures Debt(env, a, Take(s, qs, zs))
  {
    hide HasTask, SumAt, WssSum, Distinct;
    assert forall r :: r in s.ordered ==> r < |s.rs| && s.rs[r].selected;
  }

  lemma IdleAssign(s: Sched, qs: seq<Project>, zs: seq<Result>)
    requires InRange(s.ps, s.rs, s.ts) && Idle(s)
    requires NewChoices(s.ps, s.rs, qs) && MoreSelected(s.rs, zs) && Chosen(qs, zs, s.ts)
    ensures Idle(Take(s, qs, zs))
  {
    forall r: nat | r < |zs| ensures !Open(qs, zs, r) { assert !Open(s.ps, s.rs, r); }
    forall p | 0 <= p < |qs| && !qs[p].nonCpuIntensive ensures qs[p].next.None? {
      assert qs[p].next.Some? ==> Choice(zs, s.ts, p, qs[p].next.value);
      assert qs[p].next.Some? ==> !Open(s.ps, s.rs, qs[p].next.value);
    }
  }

  /** The project picked by largest_debt_project_best_result gives up its choice. */
  function Pull(s: Sched, p: nat): Sched
    requires p < |s.ps|
  {
    s.(ps := s.ps[p := s.ps[p].(next := None)])
  }

  function Push(s: Sched, r: nat): Sched { s.(ordered := s.ordered + [r]) }

  lemma PullTried(env: Env, rrs: real, a: Sched, s: Sched, p: nat, x: Sched, ok: bool, z: Sched)
    requires Debt(env, a, s) && p < |s.ps| && s.ps[p].next.Some? && !s.ps[p].nonCpuIntensive
    requires s.used < env.ncpus as real && InRange(s.ps, s.rs, s.ts)
    requires s.ps[p].next.value < |s.rs| && s.rs[s.ps[p].next.value].project == p
    requires Tried(env, rrs, Pull(s, p), s.ps[p].next.value, x, ok)
    requires z == if ok then Push(x, s.ps[p].next.value) else x
    ensures Debt(env, a, z)
  {
    PullFrame(env, rrs, a, s, p, x, ok, z);
    PullTotals(env, rrs, a, s, p, x, ok, z);
    PullPicks(env, rrs, a, s, p, x, ok, z);
  }

  lemma PullFrame(env: Env, rrs: real, a: Sched, s: Sched, p: nat, x: Sched, ok: bool, z: Sched)
    requires Frame(a, s) && p < |s.ps| && s.ps[p].next.Some?
    requires s.ps[p].next.value < |s.rs| && s.rs[s.ps[p].next.value].project == p
    requires Tried(env, rrs, Pull(s, p), s.ps[p].next.value, x, ok)
    requires z == if ok then Push(x, s.ps[p].next.value) else x
    ensures Frame(a, z)
  {
    TriedFrame(env, rrs, Pull(s, p), s.ps[p].next.value, x, ok);
    assert z.rs == s.rs;
    hide Tried;
  }

  lemma PullTotals(env: Env, rrs: real, a: Sched, s: Sched, p: nat, x: Sched, ok: bool, z: Sched)
    requires Frame(a, s) && Inside(s.ordered, |a.rs|) && Totals(env, a, s) && p < |s.ps| && s.ps[p].next.Some?
    requires s.used < env.ncpus as real
    requires s.ps[p].next.value < |s.rs| && s.rs[s.ps[p].next.value].project == p
    requires Tried(env, rrs, Pull(s, p), s.ps[p].next.value, x, ok)
    requires z == if ok then Push(x, s.ps[p].next.value) else x
    ensures Inside(z.ordered, |a.rs|) && Totals(env, a, z)
  {
    var r := s.ps[p].next.value;
    WssSame(a.ts, s.ts, r);
    TotalsPush(env, a, s, r, z, ok);
  }

  lemma ChosenStays(ps: seq<Project>, rs: seq<Result>, ts: seq<Task>, qs: seq<Project>, us: seq<Task>)
    requires Chosen(ps, rs, ts) && |qs| == |ps| && |us| == |ts|
    requires forall p :: 0 <= p < |ps| ==> qs[p].next == ps[p].next || qs[p].next.None?
    requires forall i :: 0 <= i < |ts| ==> us[i].result == ts[i].result && us[i].runnable == ts[i].runnable
    ensures Chosen(qs, rs, us)
  {
    forall p | 0 <= p < |qs| && qs[p].next.Some? ensures Choice(rs, us, p, qs[p].next.value) {
      var r := qs[p].next.value;
      assert Choice(rs, ts, p, r);
      if HasTask(ts, r) { var i :| 0 <= i < |ts| && ts[i].result == r; assert us[i].result == r; }
    }
  }

  lemma PullPicks(env: Env, rrs: real, a: Sched, s: Sched, p: nat, x: Sched, ok: bool, z: Sched)
    requires Chosen(s.ps, s.rs, s.ts) && Picks(s) && p < |s.ps| && s.ps[p].next.Some? && !s.ps[p].nonCpuIntensive
    requires s.ps[p].next.value < |s.rs| && s.rs[s.ps[p].next.value].project == p
    requires Tried(env, rrs, Pull(s, p), s.ps[p].next.value, x, ok)
    requires z == if ok then Push(x, s.ps[p].next.value) else x
    ensures Chosen(z.ps, z.rs, z.ts) && Picks(z)
  {
    hide Admissible, WssOf, Choosing;
    var r := s.ps[p].next.value;
    ChoiceOf(s, p);
    TriedFrame(env, rrs, Pull(s, p), r, x, ok);
    hide Tried;
    assert z.ps[p].next.None? && z.ps[p].nonCpuIntensive == s.ps[p].nonCpuIntensive;
    ChosenStays(s.ps, s.rs, s.ts, z.ps, z.ts);
    OthersDiffer(s, p);
    PicksPush(s, p, r, z);
  }

  lemma PicksPush(s: Sched, p: nat, r: nat, z: Sched)
    requires Picks(s) && Runnable(s.ps, s.rs, r) && s.rs[r].selected && p < |s.ps| && s.ps[p].next == Some(r)
    requires forall q :: 0 <= q < |s.ps| && q != p && s.ps[q].next.Some? ==> s.ps[q].next != Some(r)
    requires |z.ps| == |s.ps| && z.rs == s.rs && z.ps[p].next.None?
    requires forall q :: 0 <= q < |s.ps| ==>
            z.ps[q].nonCpuIntensive == s.ps[q].nonCpuIntensive && (q != p ==> z.ps[q].next == s.ps[q].next)
    requires z.ordered == s.ordered || z.ordered == s.ordered + [r]
    ensures Picks(z)
  {
  }

  lemma ChoiceOf(s: Sched, p: nat)
    requires Choosing(s.ps, s.rs, s.ts) && p < |s.ps| && s.ps[p].next.Some?
    ensures Choice(s.rs, s.ts, p, s.ps[p].next.value)
  {
  }

  /** Choices of different projects are different results. */
  lemma OthersDiffer(s: Sched, p: nat)
    requires Choosing(s.ps, s.rs, s.ts) && p < |s.ps| && s.ps[p].next.Some?
    ensures forall q :: 0 <= q < |s.ps| && q != p && s.ps[q].next.Some? ==> s.ps[q].next != s.ps[p].next
  {
    hide HasTask, NoCandidate;
  }

  /** The second loop does not mark results as picked by deadline, nor use up missed deadlines. */
  ghost predicate NoDeadlines(b: Sched, s: Sched) {
    && |s.rs| == |b.rs| && (forall r :: 0 <= r < |b.rs| ==> s.rs[r].edf == b.rs[r].edf)
    && |s.ps| == |b.ps| && (forall p :: 0 <= p < |b.ps| ==> s.ps[p].deadlinesMissed == b.ps[p].deadlinesMissed)
  }

  lemma TakeDeadlines(b: Sched, s: Sched, qs: seq<Project>, zs: seq<Result>)
    requires NoDeadlines(b, s) && NewChoices(s.ps, s.rs, qs) && MoreSelected(s.rs, zs)
    ensures NoDeadlines(b, Take(s, qs, zs))
  {
  }

  lemma PullDeadlines(b: Sched, s: Sched, p: nat, x: Sched)
    requires NoDeadlines(b, s) && p < |s.ps| && x.rs == s.rs && |x.ps| == |s.ps|
    requires forall q :: 0 <= q < |s.ps| ==> x.ps[q] == Pull(s, p).ps[q].(anticipatedDebt := x.ps[q].anticipatedDebt)
    ensures NoDeadlines(b, x) && forall r :: NoDeadlines(b, Push(x, r))
  {
  }

  lemma DebtReady(env: Env, a: Sched, s: Sched)
    requires Wired(a.ps, a.rs, a.ts) && Debt(env, a, s)
    ensures InRange(s.ps, s.rs, s.ts) && OneEach(s.ts)
    ensures forall p :: 0 <= p < |s.ps| && s.ps[p].next.Some? ==>
            s.ps[p].next.value < |s.rs| && s.rs[s.ps[p].next.value].project == p
  {
    hide SumAt, WssSum, Distinct, Picks;
    forall p | 0 <= p < |s.ps| && s.ps[p].next.Some?
        ensures s.ps[p].next.value < |s.rs| && s.rs[s.ps[p].next.value].project == p {
      ChoiceOf(s, p);
    }
  }

  lemma PendingShrinks(ps: seq<Project>, p: nat, qs: seq<Project>)
    requires p < |ps| && ps[p].next.Some? && |qs| == |ps| && qs[p].next.None?
    requires forall q :: 0 <= q < |ps| && q != p ==> qs[q].next == ps[q].next
    ensures Pending(qs) < Pending(ps)
  {
    assert p in Pending(ps) && p !in Pending(qs);
  }

  lemma SameChoices(s: Sched)
    ensures OnlyChoices(s, s)
  {
  }

  lemma DeadlinesTrans(b: Sched, s: Sched, z: Sched)
    requires NoDeadlines(b, s) && NoDeadlines(s, z)
    ensures NoDeadlines(b, z)
  {
  }

  /** Project `p` gives up its choice, and schedule_if_possible takes it or not. */
  method TakeChoice(env: Env, rrs: real, ghost a: Sched, s: Sched, p: nat) returns (z: Sched, r: nat)
    requires Wired(a.ps, a.rs, a.ts) && Debt(env, a, s) && s.used < env.ncpus as real
    requires p < |s.ps| && s.ps[p].next.Some? && !s.ps[p].nonCpuIntensive
    ensures Debt(env, a, z) && NoDeadlines(s, z) && z.rs == s.rs && Pending(z.ps) < Pending(s.ps)
    ensures r < |s.rs| && s.rs[r].project == p
    ensures z.ordered == if Admissible(env, s.ram, s.ts, r) then s.ordered + [r] else s.ordered
  {
    hide Debt, Wired, NoDeadlines, Tried, Pending, Admissible;
    DebtReady(env, a, s);
    r := s.ps[p].next.value;
    var x, ok := ScheduleIfPossible(env, rrs, Pull(s, p), r);
    TriedOk(env, rrs, Pull(s, p), r, x, ok);
    z := if ok then Push(x, r) else x;
    PullTried(env, rrs, a, s, p, x, ok, z);
    PullMoves(env, rrs, s, p, x, ok, z);
  }

  lemma PullMoves(env: Env, rrs: real, s: Sched, p: nat, x: Sched, ok: bool, z: Sched)
    requires p < |s.ps| && s.ps[p].next.Some? && s.ps[p].next.value < |s.rs| && s.rs[s.ps[p].next.value].project == p
    requires Tried(env, rrs, Pull(s, p), s.ps[p].next.value, x, ok)
    requires z == if ok then Push(x, s.ps[p].next.value) else x
    ensures NoDeadlines(s, z) && z.rs == s.rs && Pending(z.ps) < Pending(s.ps)
    ensures z.ordered == if ok then s.ordered + [s.ps[p].next.value] else s.ordered
  {
    assert NoDeadlines(s, s);
    TriedFrame(env, rrs, Pull(s, p), s.ps[p].next.value, x, ok);
    hide Tried, NoDeadlines, Pending;
    PendingShrinks(s.ps, p, x.ps);
    PullDeadlines(s, s, p, x);
  }

  lemma TriedOk(env: Env, rrs: real, s: Sched, r: nat, x: Sched, ok: bool)
    requires r < |s.rs| && s.rs[r].project < |s.ps| && Tried(env, rrs, s, r, x, ok)
    ensures ok <==> Admissible(env, s.ram, s.ts, r)
  {
  }

  /** One round of the loop; `stop` when no project has a choice. */
  method Round(env: Env, rrs: real, ghost a: Sched, s: Sched) returns (z: Sched, stop: bool)
    requires Wired(a.ps, a.rs, a.ts) && Debt(env, a, s) && s.used < env.ncpus as real
    ensures Debt(env, a, z) && s.ordered <= z.ordered && NoDeadlines(s, z)
    ensures Idle(s) ==> stop
    ensures stop ==> OnlyChoices(s, z) && Exhausted(z)
    // What is picked belongs to a project with the largest debt.
    ensures || z.ordered == s.ordered
            || exists r: nat :: r < |s.rs| && z.ordered == s.ordered + [r] && MostOwed(s, s.rs[r].project)
    // Either fewer results are open, or as many and fewer projects have a choice.
    ensures !stop ==> Unselected(z.rs) < Unselected(s.rs) || (z.rs == s.rs && Pending(z.ps) < Pending(s.ps))
  {
    assert NoDeadlines(s, s);
    hide Debt, Idle, Chosen, Distinct, Wired, NoDeadlines, NewChoices, MoreSelected, Unselected, Pending, NoneOf,
      OnlyChoices, Exhausted, MostOwed, Judged, Favourite, OneEach, Admissible, Best, FirstOpen, NoCandidate, InRange;
    DebtReady(env, a, s);
    DebtChosen(env, a, s);
    var qs, zs := Assign(s.ps, s.rs, s.ts);
    AssignKeeps(env, a, s, qs, zs);
    TakeDeadlines(s, s, qs, zs);
    TakeChoices(s, qs, zs);
    if Idle(s) { IdleAssign(s, qs, zs); }
    z := Take(s, qs, zs);
    ghost var y := z;
    var best;
    qs, best := LargestDebt(z.ps);
    stop := best.None?;
    if stop {
      ExhaustedBy(s, z.ps, zs);
    } else {
      NotIdle(z, best.value);
      LargestOwed(s, z.ps, best.value);
      var r;
      z, r := TakeChoice(env, rrs, a, z, best.value);
      DeadlinesTrans(s, y, z);
      SameProject(s, zs, r);
    }
  }

  lemma SameProject(s: Sched, zs: seq<Result>, r: nat)
    requires MoreSelected(s.rs, zs) && r < |zs|
    ensures r < |s.rs| && s.rs[r].project == zs[r].project
  {
  }

  /** Lines 523-532: pick results by debt while a CPU is free. If nothing is left to run, nothing
      is picked; if a CPU is left free, there is nothing more to pick. */
  method PickByDebt(env: Env, rrs: real, ghost a: Sched, b: Sched) returns (s: Sched)
    requires Wired(a.ps, a.rs, a.ts) && Debt(env, a, b)
    ensures Debt(env, a, s) && b.ordered <= s.ordered && NoDeadlines(b, s)
    ensures Idle(b) || b.used >= env.ncpus as real ==> OnlyChoices(b, s)
    ensures s.used < env.ncpus as real ==> Exhausted(s)
  {
    s := b;
    var stop := false;
    SameChoices(b);
    hide Debt, Idle, Wired, Unselected, Pending, OnlyChoices, Exhausted;
    while !stop && s.used < env.ncpus as real
      invariant Debt(env, a, s) && b.ordered <= s.ordered && NoDeadlines(b, s)
      invariant !stop && (Idle(b) || b.used >= env.ncpus as real) ==> s == b
      invariant stop ==> Exhausted(s) && (Idle(b) ==> OnlyChoices(b, s))
      invariant stop ==> b.used < env.ncpus as real
      decreases !stop, Unselected(s.rs), Pending(s.ps)
    {
      s, stop := Round(env, rrs, a, s);
    }
  }

  lemma DebtChosen(env: Env, a: Sched, s: Sched)
    requires Debt(env, a, s)
    ensures Chosen(s.ps, s.rs, s.ts)
  {
  }

  lemma NotIdle(s: Sched, p: nat)
    requires p < |s.ps| && !s.ps[p].nonCpuIntensive && s.ps[p].next.Some?
    ensures !Idle(s)
  {
  }
}
