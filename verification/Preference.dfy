/** Which task assign_results_to_projects (client/cpu_sched.C) prefers: what its comparison
    chooses, and when that is what its comment promises. */
module Preference {
  import opened Options
  import opened CpuTypes
  import opened Deadlines

  /** A task whose result can still be chosen. */
  predicate Candidate(rs: seq<Result>, t: Task) {
    t.runnable && t.result < |rs| && rs[t.result].runnable && !rs[t.result].selected
  }

  predicate CandidateOf(rs: seq<Result>, t: Task, p: nat) { Candidate(rs, t) && rs[t.result].project == p }

  /** Lines 126-130: task `t` is better than the task of the present choice. */
  predicate Better(t: Task, chosen: Task) { (!chosen.started && t.process) || (chosen.preempted && t.scheduled) }

  /** The order of the comment: a running task, then one with a process, then the others. */
  function Rank(t: Task): nat { if t.scheduled then 2 else if t.process then 1 else 0 }

  /** Only a started task has a process, and no task is both running and preempted. */
  predicate Possible(t: Task) { (t.process ==> t.started) && !(t.scheduled && t.preempted) }

  // ---- The comparison ---------------------------------------------------------------------

  /** A task marked as running that has not been started, beside a preempted one with a process. */
  predicate Stuck(t: Task, u: Task) { t.scheduled && !t.started && u.preempted && u.process }

  /** Two tasks are each better than the other, exactly in that case. */
  lemma BetterCycles(t: Task, u: Task)
    requires Possible(t) && Possible(u)
    ensures Better(t, u) && Better(u, t) <==> Stuck(t, u) || Stuck(u, t)
  {
  }

  /** The comparison says the wrong thing about `t` when `u` is the present choice. */
  predicate Misjudged(t: Task, u: Task) {
    (Better(t, u) && Rank(t) < Rank(u)) || (!Better(t, u) && Rank(t) > Rank(u))
  }

  /** It does so exactly if a task marked as running that has not been started gives way to a task
      with a process, if a running task is held up by one that is neither running nor preempted, or
      if a task with a process is held up by one that has been started and has none. */
  lemma BetterRank(t: Task, u: Task)
    requires Possible(t) && Possible(u)
    ensures Misjudged(t, u) <==>
              || (u.scheduled && !u.started && t.process && !t.scheduled)
              || (t.scheduled && !u.scheduled && !u.preempted && (u.started || !t.process))
              || (t.process && !t.scheduled && !u.scheduled && u.started && !u.process)
  {
  }

  /** What a task that can run is like, if scheduling it has left its mark: it has a process exactly
      if it has been started, and then it is either running or preempted. */
  predicate Settled(t: Task) {
    t.started == t.process && (t.process ==> t.scheduled || t.preempted) && !(t.scheduled && t.preempted)
  }

  /** Of such tasks, only one that is marked as running and has no process can be misjudged, beside
      a preempted one with a process or one that never ran. */
  lemma SettledRank(t: Task, u: Task)
    requires Settled(t) && Settled(u)
    ensures Misjudged(t, u) <==>
              || (u.scheduled && !u.process && t.preempted && t.process)
              || (t.scheduled && !t.process && !u.scheduled && !u.preempted && !u.process)
  {
  }

  // ---- The choice ---------------------------------------------------------------------------

  ghost predicate BetterThan(ts: seq<Task>, t: Task, r: nat) {
    forall j :: 0 <= j < |ts| && ts[j].result == r ==> Better(t, ts[j])
  }

  /** The choice of project `p` after the first `n` tasks, if it was `c` before. */
  ghost function Favourite(rs: seq<Result>, ts: seq<Task>, n: nat, p: nat, c: Option<nat>): Option<nat>
    requires n <= |ts|
  {
    if n == 0 then c
    else
      var f := Favourite(rs, ts, n - 1, p, c);
      if CandidateOf(rs, ts[n - 1], p) && (f.None? || BetterThan(ts, ts[n - 1], f.value))
      then Some(ts[n - 1].result)
      else f
  }

  /** `r` has the task of highest rank among the first `n` candidates of project `p`. */
  ghost predicate Best(rs: seq<Result>, ts: seq<Task>, n: nat, p: nat, r: nat)
    requires n <= |ts|
  {
    forall i, j :: 0 <= i < n && CandidateOf(rs, ts[i], p) && 0 <= j < |ts| && ts[j].result == r ==>
        Rank(ts[i]) <= Rank(ts[j])
  }

  /** The choice among the tasks, made afresh, is of the highest rank. */
  ghost predicate FindsBest(rs: seq<Result>, ts: seq<Task>, p: nat) {
    var f := Favourite(rs, ts, |ts|, p, None);
    f.Some? ==> Best(rs, ts, |ts|, p, f.value)
  }

  /** No candidate of project `p` is misjudged beside another. */
  ghost predicate Judged(rs: seq<Result>, ts: seq<Task>, p: nat) {
    forall t <- ts, u <- ts :: CandidateOf(rs, t, p) && CandidateOf(rs, u, p) ==> !Misjudged(t, u)
  }

  lemma {:induction false} FavouriteOf(rs: seq<Result>, ts: seq<Task>, n: nat, p: nat)
    requires OneEach(ts) && n <= |ts|
    ensures match Favourite(rs, ts, n, p, None)
            case None => forall i :: 0 <= i < n ==> !CandidateOf(rs, ts[i], p)
            case Some(r) => exists j :: 0 <= j < n && CandidateOf(rs, ts[j], p) && ts[j].result == r
  {
    if n > 0 { FavouriteOf(rs, ts, n - 1, p); }
  }

  lemma {:induction false} FavouriteBest(rs: seq<Result>, ts: seq<Task>, n: nat, p: nat)
    requires OneEach(ts) && n <= |ts| && Judged(rs, ts, p)
    ensures var f := Favourite(rs, ts, n, p, None); f.Some? ==> Best(rs, ts, n, p, f.value)
  {
    if n > 0 {
      FavouriteBest(rs, ts, n - 1, p);
      FavouriteOf(rs, ts, n - 1, p);
      var f := Favourite(rs, ts, n - 1, p, None);
      var t := ts[n - 1];
      if CandidateOf(rs, t, p) && f.Some? {
        var j :| 0 <= j < n - 1 && CandidateOf(rs, ts[j], p) && ts[j].result == f.value;
        assert !Misjudged(t, ts[j]) && t in ts && ts[j] in ts;
        hide Judged, CandidateOf;
        assert BetterThan(ts, t, f.value) <==> Better(t, ts[j]);
        hide BetterThan, Better;
      }
      hide Judged;
    }
  }

  /** Any of the tasks of `ts`, in any order. */
  ghost predicate Among(us: seq<Task>, ts: seq<Task>) { OneEach(us) && forall u <- us :: u in ts }

  /** Of any of the tasks, in any order, the best one is chosen, exactly if none is misjudged. */
  lemma OrderDoesNotMatter(rs: seq<Result>, ts: seq<Task>, p: nat)
    requires OneEach(ts)
    ensures (forall us: seq<Task> :: Among(us, ts) ==> FindsBest(rs, us, p)) <==> Judged(rs, ts, p)
  {
    if Judged(rs, ts, p) {
      forall us: seq<Task> | Among(us, ts) ensures FindsBest(rs, us, p) { FavouriteBest(rs, us, |us|, p); }
    } else {
      var t, u :| t in ts && u in ts && CandidateOf(rs, t, p) && CandidateOf(rs, u, p) && Misjudged(t, u);
      var us := [u, t];
      assert t.result != u.result;
      MisjudgedChoice(rs, t, u, p);
      assert Among(us, ts) && !FindsBest(rs, us, p);
    }
  }

  lemma MisjudgedChoice(rs: seq<Result>, t: Task, u: Task, p: nat)
    requires t.result != u.result && CandidateOf(rs, t, p) && CandidateOf(rs, u, p) && Misjudged(t, u)
    ensures !FindsBest(rs, [u, t], p)
  {
    var us := [u, t];
    assert Favourite(rs, us, 0, p, None) == None;
    assert Favourite(rs, us, 1, p, None) == Some(us[0].result);
    assert us[0].result == u.result && us[1].result == t.result;
    assert BetterThan(us, t, u.result) <==> Better(t, us[0]);
    assert Favourite(rs, us, 2, p, None) == if Better(t, u) then Some(us[1].result) else Some(us[0].result);
  }

  // ---- All tasks of a project, in any order -------------------------------------------------

  /** All tasks of `ts`, in any order. */
  ghost predicate OrderOf(us: seq<Task>, ts: seq<Task>) { OneEach(us) && forall t :: t in us <==> t in ts }

  ghost predicate AllSettled(rs: seq<Result>, ts: seq<Task>, p: nat) {
    forall t <- ts :: CandidateOf(rs, t, p) ==> Settled(t)
  }

  /** A running task; a task that is marked as running and has no process; a task beside which the
      latter is misjudged. */
  predicate Runner(t: Task) { t.scheduled && t.process }

  predicate Gone(t: Task) { t.scheduled && !t.process }

  predicate Rival(t: Task) { !t.scheduled && (t.process || !t.preempted) }

  ghost predicate Has(rs: seq<Result>, ts: seq<Task>, p: nat, q: Task -> bool) {
    exists t <- ts :: CandidateOf(rs, t, p) && q(t)
  }

  lemma FavouriteStep(rs: seq<Result>, us: seq<Task>, n: nat, p: nat, j: nat)
    requires OneEach(us) && n < |us| && j < |us| && Favourite(rs, us, n, p, None) == Some(us[j].result)
    ensures Favourite(rs, us, n + 1, p, None)
         == if CandidateOf(rs, us[n], p) && Better(us[n], us[j]) then Some(us[n].result) else Some(us[j].result)
  {
    assert BetterThan(us, us[n], us[j].result) <==> Better(us[n], us[j]);
    hide BetterThan, Better, CandidateOf, OneEach;
  }

  /** Once a running task has been seen, the choice is a running task. */
  lemma {:induction false} RunnerStays(rs: seq<Result>, us: seq<Task>, n: nat, p: nat, d: nat) returns (j: nat)
    requires OneEach(us) && AllSettled(rs, us, p) && d < n <= |us| && CandidateOf(rs, us[d], p) && Runner(us[d])
    ensures j < n && CandidateOf(rs, us[j], p) && Runner(us[j]) && Favourite(rs, us, n, p, None) == Some(us[j].result)
    decreases n
  {
    assert us[n - 1] in us && Settled(us[d]) by { assert us[d] in us; }
    if d < n - 1 {
      j := RunnerStays(rs, us, n - 1, p, d);
      assert Settled(us[j]) by { assert us[j] in us; }
      FavouriteStep(rs, us, n - 1, p, j);
    } else {
      FavouriteOf(rs, us, n - 1, p);
      match Favourite(rs, us, n - 1, p, None)
      case None => j := d;
      case Some(r) =>
        var k :| 0 <= k < n - 1 && CandidateOf(rs, us[k], p) && us[k].result == r;
        assert Settled(us[k]) by { assert us[k] in us; }
        FavouriteStep(rs, us, n - 1, p, k);
        j := if Better(us[d], us[k]) then d else k;
    }
  }

  /** Without a running task, a task with a process that comes last displaces what was chosen. */
  lemma LastWins(rs: seq<Result>, us: seq<Task>, p: nat) returns (j: nat)
    requires OneEach(us) && AllSettled(rs, us, p) && us != [] && !Has(rs, us, p, Runner)
    requires CandidateOf(rs, us[|us| - 1], p) && us[|us| - 1].process
    ensures j < |us| && CandidateOf(rs, us[j], p) && us[j].process
    ensures Favourite(rs, us, |us|, p, None) == Some(us[j].result)
  {
    var n := |us| - 1;
    FavouriteOf(rs, us, n, p);
    match Favourite(rs, us, n, p, None)
    case None => j := n;
    case Some(r) =>
      var k :| 0 <= k < n && CandidateOf(rs, us[k], p) && us[k].result == r;
      assert us[k] in us && us[n] in us;
      assert Settled(us[k]) && !Runner(us[k]);
      FavouriteStep(rs, us, n, p, k);
      j := if us[k].process then k else n;
  }

  /** Without a task with a process, a task that never ran and comes first stays chosen. */
  lemma {:induction false} FirstStays(rs: seq<Result>, us: seq<Task>, n: nat, p: nat)
    requires OneEach(us) && 0 < n <= |us| && CandidateOf(rs, us[0], p) && !us[0].preempted
    requires forall t <- us :: CandidateOf(rs, t, p) ==> !t.process
    ensures Favourite(rs, us, n, p, None) == Some(us[0].result)
  {
    assert Favourite(rs, us, 0, p, None) == None;
    if n > 1 {
      FirstStays(rs, us, n - 1, p);
      FavouriteStep(rs, us, n - 1, p, 0);
    }
  }

  /** One task moved to the end, or to the front. */
  lemma MoveOne(ts: seq<Task>, i: nat)
    requires OneEach(ts) && i < |ts|
    ensures OrderOf(ts[..i] + ts[i + 1..] + [ts[i]], ts) && OrderOf([ts[i]] + (ts[..i] + ts[i + 1..]), ts)
  {
    var rest := ts[..i] + ts[i + 1..];
    assert forall j :: 0 <= j < |rest| ==> rest[j] == ts[if j < i then j else j + 1];
    forall t | t in ts ensures t in rest || t == ts[i] {
      var j :| 0 <= j < |ts| && ts[j] == t;
      if j != i { assert rest[if j < i then j else j - 1] == t; }
    }
  }

  lemma SettledJudged(rs: seq<Result>, ts: seq<Task>, p: nat)
    requires AllSettled(rs, ts, p)
    ensures Judged(rs, ts, p) <==> !(Has(rs, ts, p, Gone) && Has(rs, ts, p, Rival))
  {
    if Has(rs, ts, p, Gone) && Has(rs, ts, p, Rival) {
      var b, x :| b in ts && x in ts && CandidateOf(rs, b, p) && Gone(b) && CandidateOf(rs, x, p) && Rival(x);
      SettledRank(x, b);
      SettledRank(b, x);
    }
    forall t, u | t in ts && u in ts && CandidateOf(rs, t, p) && CandidateOf(rs, u, p) && Misjudged(t, u)
      ensures Has(rs, ts, p, Gone) && Has(rs, ts, p, Rival)
    {
      SettledRank(t, u);
    }
  }

  /** With a running task, or without a misjudged one, the order makes no difference. */
  lemma OrdersFind(rs: seq<Result>, ts: seq<Task>, p: nat, us: seq<Task>)
    requires AllSettled(rs, ts, p) && OrderOf(us, ts) && (Has(rs, ts, p, Runner) || Judged(rs, ts, p))
    ensures FindsBest(rs, us, p)
  {
    if Judged(rs, ts, p) {
      FavouriteBest(rs, us, |us|, p);
    } else {
      var t :| t in us && CandidateOf(rs, t, p) && Runner(t);
      var d :| 0 <= d < |us| && us[d] == t;
      var j := RunnerStays(rs, us, |us|, p, d);
    }
  }

  /** A choice of a lower rank. */
  lemma ChoiceIsWrong(rs: seq<Result>, us: seq<Task>, p: nat, j: nat, b: Task)
    requires j < |us| && Favourite(rs, us, |us|, p, None) == Some(us[j].result)
    requires b in us && CandidateOf(rs, b, p) && Rank(us[j]) < Rank(b)
    ensures !FindsBest(rs, us, p)
  {
    var i :| 0 <= i < |us| && us[i] == b;
  }

  /** Otherwise some order of all the tasks leads to a choice of a lower rank. */
  lemma OrderFails(rs: seq<Result>, ts: seq<Task>, p: nat) returns (us: seq<Task>)
    requires OneEach(ts) && AllSettled(rs, ts, p) && !Has(rs, ts, p, Runner)
    requires Has(rs, ts, p, Gone) && Has(rs, ts, p, Rival)
    ensures OrderOf(us, ts) && !FindsBest(rs, us, p)
  {
    var b :| b in ts && CandidateOf(rs, b, p) && Gone(b);
    if e :| e in ts && CandidateOf(rs, e, p) && e.process {
      var i :| 0 <= i < |ts| && ts[i] == e;
      us := ts[..i] + ts[i + 1..] + [ts[i]];
      MoveOne(ts, i);
      assert us[|us| - 1] == e;
      var j := LastWins(rs, us, p);
      assert us[j] in us && !Runner(us[j]);
      ChoiceIsWrong(rs, us, p, j, b);
    } else {
      var a :| a in ts && CandidateOf(rs, a, p) && Rival(a);
      var i :| 0 <= i < |ts| && ts[i] == a;
      us := [ts[i]] + (ts[..i] + ts[i + 1..]);
      MoveOne(ts, i);
      assert us[0] == a;
      FirstStays(rs, us, |us|, p);
      ChoiceIsWrong(rs, us, p, 0, b);
    }
  }

  /** All the tasks, in any order: the choice is of the highest rank, exactly if some candidate is
      running with a process, or there is none that is marked as running without one beside a rival. */
  lemma AllOrders(rs: seq<Result>, ts: seq<Task>, p: nat)
    requires OneEach(ts) && AllSettled(rs, ts, p)
    ensures (forall us: seq<Task> :: OrderOf(us, ts) ==> FindsBest(rs, us, p)) <==>
              Has(rs, ts, p, Runner) || !(Has(rs, ts, p, Gone) && Has(rs, ts, p, Rival))
  {
    SettledJudged(rs, ts, p);
    hide FindsBest, OrderOf, AllSettled, Has, Judged;
    if Has(rs, ts, p, Runner) || Judged(rs, ts, p) {
      forall us: seq<Task> | OrderOf(us, ts) ensures FindsBest(rs, us, p) { OrdersFind(rs, ts, p, us); }
    } else {
      var us := OrderFails(rs, ts, p);
    }
  }
}
