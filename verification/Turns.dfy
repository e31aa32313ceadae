/** The loop of CLIENT_STATE::enforce_schedule (client/cpu_sched.C) over the schedule, as a
    sequence of turns, and what each turn decides for good. */
module Turns {
  import opened Sequences
  import opened Options
  import opened CpuTypes
  import opened MarkLedger
  import opened Placement

  /** One result after the other: each one has the effect that Placement describes. */
  ghost predicate Follows(env: Env, rs: seq<Result>, s: State, ordered: seq<nat>, z: State)
    decreases |ordered|
  {
    if ordered == [] then z == s
    else
      exists y: State, front: Option<nat> {:trigger Turn(env, rs, y, ordered[..|ordered| - 1], ordered[|ordered| - 1],
          front, z)} ::
        Follows(env, rs, s, ordered[..|ordered| - 1], y)
            && Turn(env, rs, y, ordered[..|ordered| - 1], ordered[|ordered| - 1], front, z)
  }

  lemma FollowsNone(env: Env, rs: seq<Result>, s: State, z: State)
    ensures Follows(env, rs, s, [], z) <==> z == s
  {
  }

  lemma FollowsLast(env: Env, rs: seq<Result>, s: State, ordered: seq<nat>, z: State)
      returns (y: State, front: Option<nat>)
    requires Follows(env, rs, s, ordered, z) && ordered != []
    ensures Follows(env, rs, s, ordered[..|ordered| - 1], y)
            && Turn(env, rs, y, ordered[..|ordered| - 1], ordered[|ordered| - 1], front, z)
  {
    hide Turn;
    y, front :| Follows(env, rs, s, ordered[..|ordered| - 1], y)
        && Turn(env, rs, y, ordered[..|ordered| - 1], ordered[|ordered| - 1], front, z);
  }

  /** `done` have had their turn: the kept tasks of the ledger are theirs. */
  ghost predicate Tallied(env: Env, rs: seq<Result>, s: State, done: seq<nat>) {
    exists kept: seq<nat> :: Ledger(env, rs, s, kept) && KeptFor(s, kept, done)
  }

  ghost predicate KeptFor(s: State, kept: seq<nat>, done: seq<nat>) {
    forall j :: j in kept ==> j < |s.ts| && s.ts[j].result in done
  }

  /** The turn of `r`, after those of `done`. */
  ghost predicate Turn(env: Env, rs: seq<Result>, s: State, done: seq<nat>, r: nat, front: Option<nat>, z: State) {
    && r < |rs| && rs[r].project < |s.ps| && Inside(s.heap, |s.ts|) && Effect(env, rs, s, r, front, z)
        && Spent(s, r, z) && Tallied(env, rs, s, done)
  }

  lemma FollowsNext(env: Env, rs: seq<Result>, s: State, ordered: seq<nat>, n: nat, z: State, front: Option<nat>,
                    w: State)
    requires n < |ordered| && Follows(env, rs, s, ordered[..n], z)
            && Turn(env, rs, z, ordered[..n], ordered[n], front, w)
    ensures Follows(env, rs, s, ordered[..n + 1], w)
  {
    hide Turn;
    assert ordered[..n + 1][..n] == ordered[..n];
  }

  /** The result runs at its turn, lines 648-769. */
  ghost predicate Succeeds(env: Env, rs: seq<Result>, s: State, r: nat, front: Option<nat>)
    requires r < |rs| && rs[r].project < |s.ps| && Inside(s.heap, |s.ts|)
    requires front.Some? ==> front.value < |s.ts|
  {
    Fits(s, r) && (Running(s, r) || front.None? || GivesWay(env, rs, s.ps, r, s.ts[front.value]))
  }

  /** Results that have had their turn are not in the heap any more. */
  lemma {:induction false} HeapClear(env: Env, rs: seq<Result>, s: State, ordered: seq<nat>, z: State)
    requires Follows(env, rs, s, ordered, z) && Inside(s.heap, |s.ts|)
    ensures |s.ts| <= |z.ts| && forall i :: 0 <= i < |s.ts| ==> z.ts[i].result == s.ts[i].result
    ensures forall j :: j in z.heap ==> j in s.heap && z.ts[j].result !in ordered
    decreases |ordered|
  {
    hide Follows, Turn;
    if ordered == [] {
      FollowsNone(env, rs, s, z);
    } else {
      var n := |ordered| - 1;
      var y, front := FollowsLast(env, rs, s, ordered, z);
      HeapClear(env, rs, s, ordered[..n], y);
      TurnHeap(env, rs, y, ordered[..n], ordered[n], front, z);
      assert ordered == ordered[..n] + [ordered[n]];
    }
  }

  lemma TurnHeap(env: Env, rs: seq<Result>, s: State, done: seq<nat>, r: nat, front: Option<nat>, z: State)
    requires Turn(env, rs, s, done, r, front, z)
    ensures |s.ts| <= |z.ts| && forall i :: 0 <= i < |s.ts| ==> z.ts[i].result == s.ts[i].result
    ensures forall j :: j in z.heap ==> j in s.heap && j < |s.ts| && z.ts[j].result != r
    ensures front.Some? ==> front.value < |s.ts| && front.value in s.heap
  {
    hide Fits, Runs, Running, HasTask, GivesWay, SpendOne, NewTask, Tallied, Spent;
  }

  /** A turn does not change whether other results run, unless their task is the one looked at. */
  lemma TurnOthers(env: Env, rs: seq<Result>, s: State, done: seq<nat>, r: nat, front: Option<nat>, z: State, q: nat)
    requires Turn(env, rs, s, done, r, front, z) && q != r
    requires front.Some? ==> front.value < |s.ts| && s.ts[front.value].result != q
    ensures Runs(z.ts, q) <==> Runs(s.ts, q)
  {
    hide Fits, Running, HasTask, GivesWay, SpendOne, Tallied, Spent;
    if Runs(s.ts, q) {
      var i :| 0 <= i < |s.ts| && s.ts[i].result == q && s.ts[i].next;
      assert z.ts[i] == s.ts[i];
    }
    if Runs(z.ts, q) {
      var i :| 0 <= i < |z.ts| && z.ts[i].result == q && z.ts[i].next;
      assert i < |s.ts| && z.ts[i] == s.ts[i];
    }
  }

  /** A turn does not change the flags of other tasks. */
  lemma TurnFlags(env: Env, rs: seq<Result>, s: State, done: seq<nat>, r: nat, front: Option<nat>, z: State)
    requires Turn(env, rs, s, done, r, front, z)
    ensures |s.ts| <= |z.ts|
    ensures forall i :: 0 <= i < |s.ts| ==> SameTask(s.ts[i], z.ts[i])
    ensures forall i :: 0 <= i < |s.ts| && s.ts[i].result != r ==> z.ts[i].tooLarge == s.ts[i].tooLarge
  {
    hide Fits, Runs, Running, HasTask, GivesWay, SpendOne, NewTask, Tallied, Spent;
  }

  lemma AllOthers(env: Env, rs: seq<Result>, s: State, rest: seq<nat>, r: nat, front: Option<nat>, z: State)
    requires Turn(env, rs, s, rest, r, front, z) && r !in rest
    requires front.Some? ==> front.value < |s.ts| && s.ts[front.value].result !in rest
    ensures forall q :: q in rest ==> (Runs(z.ts, q) <==> Runs(s.ts, q))
  {
    hide Turn, Runs;
    forall q | q in rest ensures Runs(z.ts, q) <==> Runs(s.ts, q) {
      TurnOthers(env, rs, s, rest, r, front, z, q);
    }
  }

  /** What is decided at the turn of a result stands: later turns never preempt it nor start it,
      and leave the flag of its task as it is. */
  lemma {:induction false} TurnDecides(env: Env, rs: seq<Result>, s: State, ordered: seq<nat>, z: State, k: nat)
    returns (y: State, front: Option<nat>, x: State)
    requires Follows(env, rs, s, ordered, z) && Inside(s.heap, |s.ts|) && Distinct(ordered) && k < |ordered|
    ensures Follows(env, rs, s, ordered[..k], y) && Turn(env, rs, y, ordered[..k], ordered[k], front, x)
    ensures (front.Some? ==> front.value < |y.ts|)
            && (Runs(z.ts, ordered[k]) <==> Succeeds(env, rs, y, ordered[k], front))
    ensures forall q :: q in ordered[..k] ==> (Runs(z.ts, q) <==> Runs(y.ts, q))
    ensures |x.ts| <= |z.ts| && forall i :: 0 <= i < |x.ts| ==> z.ts[i].result == x.ts[i].result
    ensures forall i :: 0 <= i < |x.ts| && x.ts[i].result == ordered[k] ==> z.ts[i].tooLarge == x.ts[i].tooLarge
    decreases |ordered|
  {
    hide Turn, Follows, Succeeds, Runs;
    var n := |ordered| - 1;
    var rest := ordered[..n];
    var last, at := FollowsLast(env, rs, s, ordered, z);
    TurnHeap(env, rs, last, rest, ordered[n], at, z);
    TurnFlags(env, rs, last, rest, ordered[n], at, z);
    HeapClear(env, rs, s, rest, last);
    assert Distinct(rest) && (k < n ==> ordered[k] != ordered[n]) && ordered[n] !in rest;
    hide *;
    AllOthers(env, rs, last, rest, ordered[n], at, z);
    if k < n {
      assert rest[..k] == ordered[..k] && rest[k] == ordered[k] && ordered[k] in rest;
      forall q | q in ordered[..k] ensures q in rest { assert q in rest[..k]; }
      y, front, x := TurnDecides(env, rs, s, rest, last, k);
    } else {
      TurnSucceeds(env, rs, last, rest, ordered[n], at, z);
      y, front, x := last, at, z;
    }
  }

  lemma TurnSucceeds(env: Env, rs: seq<Result>, s: State, done: seq<nat>, r: nat, front: Option<nat>, z: State)
    requires Turn(env, rs, s, done, r, front, z) && (front.Some? ==> front.value < |s.ts|)
    ensures Runs(z.ts, r) <==> Succeeds(env, rs, s, r, front)
  {
    hide Fits, Runs, Running, HasTask, GivesWay, SpendOne, NewTask, Tallied, Spent;
  }

  // ---- Results in deadline trouble -----------------------------------------------------

  /** At most one deadline of the project of the result is spent. */
  lemma TurnProjects(env: Env, rs: seq<Result>, s: State, done: seq<nat>, r: nat, front: Option<nat>, z: State)
    requires Turn(env, rs, s, done, r, front, z)
    ensures r < |rs| && rs[r].project < |s.ps| && (z.ps == s.ps || z.ps == SpendOne(s, rs[r].project).ps)
  {
    hide Fits, Runs, Running, GivesWay, Tallied, HasTask, NewTask, SpendOne, Spent;
  }

  lemma TurnSpends(env: Env, rs: seq<Result>, s: State, done: seq<nat>, r: nat, front: Option<nat>, z: State, p: nat)
    requires Turn(env, rs, s, done, r, front, z) && p < |s.ps|
    ensures |z.ps| == |s.ps|
    ensures z.ps[p].deadlinesMissed >= s.ps[p].deadlinesMissed - if rs[r].project == p then 1 else 0
  {
    hide Turn;
    TurnProjects(env, rs, s, done, r, front, z);
  }

  lemma TurnMakes(env: Env, rs: seq<Result>, s: State, done: seq<nat>, r: nat, front: Option<nat>, z: State, q: nat)
    requires Turn(env, rs, s, done, r, front, z)
    ensures q != r && HasTask(z.ts, q) ==> HasTask(s.ts, q)
  {
    hide Fits, Runs, Running, GivesWay, Tallied, SpendOne, Spent;
    if q != r && HasTask(z.ts, q) {
      var i :| 0 <= i < |z.ts| && z.ts[i].result == q;
      assert i < |s.ts| && s.ts[i].result == q;
    }
  }

  /** A turn uses up at most one missed deadline, of the project of its result, and makes a task
      for its result only. */
  lemma {:induction false} MissedLeft(env: Env, rs: seq<Result>, s: State, ordered: seq<nat>, z: State, p: nat, q: nat)
    requires Follows(env, rs, s, ordered, z) && Inside(ordered, |rs|) && p < |s.ps|
    ensures |z.ps| == |s.ps| && z.ps[p].deadlinesMissed >= s.ps[p].deadlinesMissed - CountOf(rs, ordered, p)
    ensures q !in ordered && HasTask(z.ts, q) ==> HasTask(s.ts, q)
    decreases |ordered|
  {
    hide Follows, Turn, HasTask;
    if ordered == [] {
      FollowsNone(env, rs, s, z);
    } else {
      var n := |ordered| - 1;
      var y, front := FollowsLast(env, rs, s, ordered, z);
      MissedLeft(env, rs, s, ordered[..n], y, p, q);
      TurnSpends(env, rs, y, ordered[..n], ordered[n], front, z, p);
      TurnMakes(env, rs, y, ordered[..n], ordered[n], front, z, q);
      assert ordered == ordered[..n] + [ordered[n]];
    }
  }

  /** A result without a task whose project misses more deadlines than results of it come before
      in the schedule is started, whatever was running. */
  lemma UrgentRuns(env: Env, rs: seq<Result>, s: State, ordered: seq<nat>, z: State, k: nat)
    requires Follows(env, rs, s, ordered, z) && Inside(s.heap, |s.ts|) && Distinct(ordered) && Inside(ordered, |rs|)
    requires k < |ordered| && rs[ordered[k]].project < |s.ps| && !HasTask(s.ts, ordered[k])
    requires s.ps[rs[ordered[k]].project].deadlinesMissed > CountOf(rs, ordered[..k], rs[ordered[k]].project)
    ensures Runs(z.ts, ordered[k])
  {
    hide Follows, Runs, Tallied, Turn;
    var y, front, x := TurnDecides(env, rs, s, ordered, z, k);
    assert ordered[k] !in ordered[..k];
    MissedLeft(env, rs, s, ordered[..k], y, rs[ordered[k]].project, ordered[k]);
    assert Fits(y, ordered[k]);
  }
}
