/** The first loop of CLIENT_STATE::schedule_cpus (client/cpu_sched.C). */
module EdfPhase {
  import opened Options
  import opened CpuTypes
  import opened Deadlines

  /** The sum of the working sets of the tasks of the listed results. */
  ghost function WssSum(ts: seq<Task>, idx: seq<nat>): real {
    if idx == [] then 0.0 else WssSum(ts, idx[..|idx| - 1]) + WssOf(ts, idx[|idx| - 1])
  }

  /** Only what the two loops set differs from the start `a`. */
  ghost predicate Frame(a: Sched, s: Sched) {
    && |s.rs| == |a.rs| && (forall r :: 0 <= r < |a.rs| ==>
        s.rs[r] == a.rs[r].(selected := s.rs[r].selected, edf := s.rs[r].edf))
    && |s.ts| == |a.ts| && (forall i :: 0 <= i < |a.ts| ==>
        s.ts[i] == a.ts[i].(tooLarge := s.ts[i].tooLarge, needsShmem := s.ts[i].needsShmem))
    && |s.ps| == |a.ps| && (forall p :: 0 <= p < |a.ps| ==>
          s.ps[p] == a.ps[p].(anticipatedDebt := s.ps[p].anticipatedDebt, deadlinesMissed := s.ps[p].deadlinesMissed,
              next := s.ps[p].next))
  }

  /** The picks are in the order of `Precedes`, and everything still open comes after everything
      that has been looked at. */
  ghost predicate InOrder(a: Sched, s: Sched)
    requires |s.rs| == |a.rs| && Inside(s.ordered, |a.rs|)
  {
    && (forall j, k :: 0 <= j < k < |s.ordered| ==> Precedes(a.rs, a.ts, s.ordered[j], s.ordered[k]))
    && (forall q, r ::
          0 <= q < |a.rs| && 0 <= r < |a.rs| && s.rs[q].selected && Runnable(a.ps, a.rs, r) && !s.rs[r].selected
          ==> Precedes(a.rs, a.ts, q, r))
  }

  /** The task of the result is flagged, and does not fit in `left` or lacks shared memory. */
  ghost predicate TurnedDown(env: Env, ts: seq<Task>, left: real, r: nat) {
    exists i :: 0 <= i < |ts| && ts[i].result == r
                && ((ts[i].wss > left && ts[i].tooLarge) || (ShmemShort(env) && !ts[i].attached && ts[i].needsShmem))
  }

  /** Exactly the runnable results that were looked at and not turned down have been picked. */
  ghost predicate Picked(env: Env, a: Sched, s: Sched)
    requires |s.rs| == |a.rs|
  {
    && (forall r :: r in s.ordered ==> r < |a.rs| && Runnable(a.ps, a.rs, r) && s.rs[r].selected)
    && (forall r :: 0 <= r < |a.rs| && s.rs[r].selected ==>
        Runnable(a.ps, a.rs, r) && (r in s.ordered || TurnedDown(env, s.ts, s.ram, r)))
    && (forall r :: 0 <= r < |a.rs| ==> (s.rs[r].edf <==> r in s.ordered))
  }

  /** What is left of the RAM after the first `k` picks. */
  ghost function Left(env: Env, ts: seq<Task>, ordered: seq<nat>, k: nat): real
    requires k <= |ordered|
  {
    env.ram - WssSum(ts, ordered[..k])
  }

  /** The turn of `r` comes after `k` picks. */
  ghost predicate Turn(rs: seq<Result>, ts: seq<Task>, ordered: seq<nat>, r: nat, k: nat) {
    && k <= |ordered| && r < |rs| && Inside(ordered, |rs|)
    && (forall j :: 0 <= j < k ==> Precedes(rs, ts, ordered[j], r))
    && (forall j :: k <= j < |ordered| ==> ordered[j] == r || Precedes(rs, ts, r, ordered[j]))
  }

  /** `r` was looked at after `k` picks, when a CPU was free: its task, if any, has been flagged, and it
      has been picked if its task can run. `us` are the tasks afterwards. */
  ghost predicate Verdict(env: Env, rs: seq<Result>, ts: seq<Task>, us: seq<Task>, ordered: seq<nat>, r: nat, k: nat) {
    && |us| == |ts| && Turn(rs, ts, ordered, r, k) && Inside(ordered[..k], |rs|)
    && SumAt(rs, ordered[..k], Avg) < env.ncpus as real
    && (forall i :: 0 <= i < |ts| && ts[i].result == r ==> us[i] == Flagged(env, Left(env, ts, ordered, k), ts[i]))
    && (r in ordered <==> Admissible(env, Left(env, ts, ordered, k), ts, r))
  }

  /** Every result that has been looked at has its verdict; a task whose result has not been looked
      at is as before. */
  ghost predicate FlagsKept(env: Env, a: Sched, s: Sched) {
    && |s.ts| == |a.ts| && |s.rs| == |a.rs|
    && (forall r :: 0 <= r < |a.rs| && s.rs[r].selected ==>
        exists k :: Verdict(env, a.rs, a.ts, s.ts, s.ordered, r, k))
    && (forall i :: 0 <= i < |a.ts| && a.ts[i].result < |a.rs| && !s.rs[a.ts[i].result].selected ==>
        s.ts[i] == a.ts[i])
  }

  ghost predicate Totals(env: Env, a: Sched, s: Sched)
    requires Inside(s.ordered, |a.rs|)
  {
    && s.used == SumAt(a.rs, s.ordered, Avg)
    && (forall k :: 0 <= k < |s.ordered| ==> SumAt(a.rs, s.ordered[..k], Avg) < env.ncpus as real)
    && s.ram == env.ram - WssSum(a.ts, s.ordered) && s.ram >= 0.0
  }

  /** The projects after the picks have been charged, lines 462 and 518. */
  ghost function Charged(env: Env, rrs: real, ps: seq<Project>, rs: seq<Result>, ordered: seq<nat>): (qs: seq<Project>)
    ensures |qs| == |ps|
  {
    if ordered == [] then ps
    else
      var r := ordered[|ordered| - 1];
      var qs := Charged(env, rrs, ps, rs, ordered[..|ordered| - 1]);
      if r < |rs| && rs[r].project < |qs| then Miss(Charge(env, rrs, qs, rs[r].project), rs[r].project) else qs
  }

  function Miss(ps: seq<Project>, p: nat): seq<Project>
    requires p < |ps|
  {
    ps[p := ps[p].(deadlinesMissed := ps[p].deadlinesMissed - 1)]
  }

  ghost predicate Phase(env: Env, rrs: real, a: Sched, s: Sched) {
    && Frame(a, s) && Inside(s.ordered, |a.rs|)
    && InOrder(a, s) && Picked(env, a, s) && Totals(env, a, s)
    && s.ps == Charged(env, rrs, a.ps, a.rs, s.ordered) && FlagsKept(env, a, s)
  }

  /** The state of the loop before its first round. */
  ghost predicate Fresh(env: Env, a: Sched) {
    && Wired(a.ps, a.rs, a.ts) && a.ordered == [] && a.used == 0.0 && a.ram == env.ram && env.ram >= 0.0
    && (forall r :: 0 <= r < |a.rs| ==> !a.rs[r].selected && !a.rs[r].edf)
    && (forall i :: 0 <= i < |a.ts| ==> a.ts[i].wss >= 0.0)
  }

  /** Mark the result as looked at. */
  function Select(s: Sched, r: nat): Sched
    requires r < |s.rs|
  {
    s.(rs := s.rs[r := s.rs[r].(selected := true)])
  }

  /** Append a result that schedule_if_possible has taken. */
  function Append(s: Sched, r: nat): Sched
    requires r < |s.rs| && s.rs[r].project < |s.ps|
  {
    s.(ps := Miss(s.ps, s.rs[r].project), rs := s.rs[r := s.rs[r].(edf := true)], ordered := s.ordered + [r])
  }

  ghost function OpenSet(ps: seq<Project>, rs: seq<Result>): set<nat> { set r: nat | r < |rs| && Open(ps, rs, r) }

  // ---- One round ----------------------------------------------------------------------

  lemma FrameStays(a: Sched, s: Sched)
    requires Frame(a, s)
    ensures forall r: nat :: r < |a.rs| ==> (Runnable(s.ps, s.rs, r) <==> Runnable(a.ps, a.rs, r))
    ensures forall r :: HasTask(s.ts, r) <==> HasTask(a.ts, r)
    ensures forall q: nat, r: nat :: q < |a.rs| && r < |a.rs| ==>
            (Precedes(s.rs, s.ts, q, r) <==> Precedes(a.rs, a.ts, q, r))
  {
    forall r ensures HasTask(s.ts, r) <==> HasTask(a.ts, r) {
      if HasTask(a.ts, r) { var i :| 0 <= i < |a.ts| && a.ts[i].result == r; assert s.ts[i].result == r; }
      if HasTask(s.ts, r) { var i :| 0 <= i < |a.ts| && s.ts[i].result == r; assert a.ts[i].result == r; }
    }
    hide HasTask;
  }

  lemma RoundFrame(env: Env, rrs: real, a: Sched, y: Sched, r: nat, x: Sched, ok: bool, z: Sched)
    requires Frame(a, y) && r < |a.rs| && y.rs[r].project < |y.ps|
    requires Tried(env, rrs, Select(y, r), r, x, ok) && z == if ok then Append(x, r) else x
    ensures Frame(a, z)
    ensures forall q :: 0 <= q < |a.rs| ==> (z.rs[q].selected <==> y.rs[q].selected || q == r)
    ensures z.ordered == if ok then y.ordered + [r] else y.ordered
  {
    TriedFrame(env, rrs, Select(y, r), r, x, ok);
    hide Tried;
  }

  lemma RoundOrder(a: Sched, y: Sched, r: nat, ok: bool, z: Sched)
    requires |y.rs| == |a.rs| == |z.rs| && Inside(y.ordered, |a.rs|) && InOrder(a, y)
    requires r < |a.rs| && Runnable(a.ps, a.rs, r) && !y.rs[r].selected
    requires forall q :: 0 <= q < |a.rs| && Runnable(a.ps, a.rs, q) && !y.rs[q].selected && q != r ==>
            Precedes(a.rs, a.ts, r, q)
    requires forall q :: q in y.ordered ==> q < |a.rs| && y.rs[q].selected
    requires forall q :: 0 <= q < |a.rs| ==> (z.rs[q].selected <==> y.rs[q].selected || q == r)
    requires z.ordered == if ok then y.ordered + [r] else y.ordered
    ensures Inside(z.ordered, |a.rs|) && InOrder(a, z)
  {
    hide Precedes, Runnable;
  }

  lemma {:induction false} WssNonneg(ts: seq<Task>, r: nat)
    requires forall i :: 0 <= i < |ts| ==> ts[i].wss >= 0.0
    ensures WssOf(ts, r) >= 0.0
  {
    if ts != [] { WssNonneg(ts[..|ts| - 1], r); }
  }

  /** Earlier picks take no more of the RAM than all of them. */
  lemma {:induction false} SumFalls(ts: seq<Task>, ordered: seq<nat>, k: nat)
    requires k <= |ordered| && forall i :: 0 <= i < |ts| ==> ts[i].wss >= 0.0
    ensures WssSum(ts, ordered[..k]) <= WssSum(ts, ordered)
  {
    if k == |ordered| {
      assert ordered[..k] == ordered;
    } else {
      var rest := ordered[..|ordered| - 1];
      SumFalls(ts, rest, k);
      assert rest[..k] == ordered[..k];
      WssNonneg(ts, ordered[|ordered| - 1]);
    }
  }

  /** What was turned down stays turned down. */
  lemma RefusedStays(env: Env, y: Sched, r: nat, x: Sched, q: nat)
    requires TurnedDown(env, y.ts, y.ram, q) && q != r && x.ram <= y.ram && |x.ts| == |y.ts|
    requires forall i :: 0 <= i < |y.ts| && y.ts[i].result != r ==> x.ts[i] == y.ts[i]
    ensures TurnedDown(env, x.ts, x.ram, q)
  {
    var i :| 0 <= i < |y.ts| && y.ts[i].result == q
             && ((y.ts[i].wss > y.ram && y.ts[i].tooLarge)
                 || (ShmemShort(env) && !y.ts[i].attached && y.ts[i].needsShmem));
    assert x.ts[i] == y.ts[i];
  }

  lemma RefusedNow(env: Env, rrs: real, y: Sched, r: nat, x: Sched)
    requires r < |y.rs| && y.rs[r].project < |y.ps| && Tried(env, rrs, y, r, x, false)
    ensures TurnedDown(env, x.ts, x.ram, r)
  {
    var i :| 0 <= i < |y.ts| && y.ts[i].result == r && !CanRun(env, y.ram, y.ts[i]);
    assert x.ts[i] == Flagged(env, y.ram, y.ts[i]);
  }

  lemma RoundPicked(env: Env, rrs: real, a: Sched, y: Sched, r: nat, x: Sched, ok: bool, z: Sched)
    requires |y.rs| == |a.rs| && Picked(env, a, y) && r < |a.rs| && y.rs[r].project < |y.ps|
    requires Runnable(a.ps, a.rs, r) && !y.rs[r].selected
    requires forall i :: 0 <= i < |y.ts| ==> y.ts[i].wss >= 0.0
    requires Tried(env, rrs, Select(y, r), r, x, ok) && z == if ok then Append(x, r) else x
    ensures |z.rs| == |a.rs| && Picked(env, a, z)
  {
    TryPicked(env, rrs, y, r, x, ok);
    hide Runnable, Tried, TurnedDown;
    assert z.ts == x.ts && z.ram == x.ram && z.ordered == if ok then y.ordered + [r] else y.ordered;
    assert forall q :: 0 <= q < |a.rs| ==>
             (z.rs[q].selected <==> y.rs[q].selected || q == r) && (z.rs[q].edf <==> y.rs[q].edf || (ok && q == r));
  }

  lemma TryPicked(env: Env, rrs: real, y: Sched, r: nat, x: Sched, ok: bool)
    requires r < |y.rs| && y.rs[r].project < |y.ps| && forall i :: 0 <= i < |y.ts| ==> y.ts[i].wss >= 0.0
    requires Tried(env, rrs, Select(y, r), r, x, ok)
    ensures x.rs == Select(y, r).rs && x.ordered == y.ordered && |x.ps| == |y.ps|
    ensures !ok ==> TurnedDown(env, x.ts, x.ram, r)
    ensures forall q: nat :: q != r && TurnedDown(env, y.ts, y.ram, q) ==> TurnedDown(env, x.ts, x.ram, q)
  {
    WssNonneg(y.ts, r);
    if !ok { RefusedNow(env, rrs, Select(y, r), r, x); }
    hide Charge, Admissible, WssOf, Flagged;
    ChargeFrame(env, rrs, y.ps, y.rs[r].project);
    assert x.ram <= y.ram && |x.ts| == |y.ts| && forall i :: 0 <= i < |y.ts| && y.ts[i].result != r ==>
        x.ts[i] == y.ts[i];
    assert x.rs == Select(y, r).rs && x.ordered == y.ordered && |x.ps| == |y.ps|;
    hide Tried, TurnedDown, Select;
    forall q: nat | q != r && TurnedDown(env, y.ts, y.ram, q) ensures TurnedDown(env, x.ts, x.ram, q) {
      RefusedStays(env, y, r, x, q);
    }
  }

  /** A pick while a CPU is free keeps the totals. */
  lemma TotalsPush(env: Env, a: Sched, s: Sched, r: nat, z: Sched, ok: bool)
    requires Inside(s.ordered, |a.rs|) && Totals(env, a, s) && r < |a.rs| && s.used < env.ncpus as real
    requires z.ordered == if ok then s.ordered + [r] else s.ordered
    requires z.used == s.used + (if ok then a.rs[r].avgNcpus else 0.0)
    requires z.ram == s.ram - (if ok then WssOf(a.ts, r) else 0.0) && z.ram >= 0.0
    ensures Inside(z.ordered, |a.rs|) && Totals(env, a, z)
  {
    hide WssOf;
    if ok {
      SumPush(a.rs, s.ordered, r, Avg);
      assert z.ordered[..|s.ordered|] == s.ordered;
      forall k | 0 <= k < |z.ordered| ensures SumAt(a.rs, z.ordered[..k], Avg) < env.ncpus as real {
        assert z.ordered[..k] == s.ordered[..k];
        if k == |s.ordered| { assert s.ordered[..k] == s.ordered; }
      }
    }
  }

  lemma RoundTotals(env: Env, rrs: real, a: Sched, y: Sched, r: nat, x: Sched, ok: bool, z: Sched)
    requires Frame(a, y) && Inside(y.ordered, |a.rs|) && Totals(env, a, y) && r < |a.rs| && y.rs[r].project < |y.ps|
    requires y.used < env.ncpus as real && WssOf(y.ts, r) == WssOf(a.ts, r)
    requires Tried(env, rrs, Select(y, r), r, x, ok) && z == if ok then Append(x, r) else x
    ensures Inside(z.ordered, |a.rs|) && Totals(env, a, z)
  {
    hide WssOf, Admissible, Charge, Miss, Flagged, SumAt, WssSum;
    assert z.used == y.used + (if ok then a.rs[r].avgNcpus else 0.0);
    assert z.ram == y.ram - (if ok then WssOf(a.ts, r) else 0.0);
    TotalsPush(env, a, y, r, z, ok);
  }

  lemma {:induction false} WssSame(ts: seq<Task>, us: seq<Task>, r: nat)
    requires |us| == |ts| && forall i :: 0 <= i < |ts| ==> us[i].result == ts[i].result && us[i].wss == ts[i].wss
    ensures WssOf(us, r) == WssOf(ts, r)
  {
    if ts != [] { WssSame(ts[..|ts| - 1], us[..|ts| - 1], r); }
  }

  lemma RoundCharged(env: Env, rrs: real, a: Sched, y: Sched, r: nat, x: Sched, ok: bool, z: Sched)
    requires Frame(a, y) && r < |a.rs| && y.rs[r].project < |y.ps|
    requires y.ps == Charged(env, rrs, a.ps, a.rs, y.ordered)
    requires Tried(env, rrs, Select(y, r), r, x, ok) && z == if ok then Append(x, r) else x
    ensures z.ps == Charged(env, rrs, a.ps, a.rs, z.ordered)
  {
    hide WssOf, Admissible, Charge, Miss, Flagged;
    if ok { assert z.ordered[..|y.ordered|] == y.ordered; }
  }

  /** A later round leaves the verdict on `q` as it is. */
  lemma VerdictStays(env: Env, a: Sched, y: Sched, q: nat, k: nat, r: nat, z: Sched, ok: bool)
    requires Verdict(env, a.rs, a.ts, y.ts, y.ordered, q, k) && q != r && r < |a.rs| && Precedes(a.rs, a.ts, q, r)
    requires |z.ts| == |a.ts| && forall i :: 0 <= i < |a.ts| && a.ts[i].result == q ==> z.ts[i] == y.ts[i]
    requires z.ordered == if ok then y.ordered + [r] else y.ordered
    ensures Verdict(env, a.rs, a.ts, z.ts, z.ordered, q, k)
  {
    hide Precedes, SumAt, WssSum, Flagged, Admissible;
    assert z.ordered[..k] == y.ordered[..k];
    assert Left(env, a.ts, z.ordered, k) == Left(env, a.ts, y.ordered, k);
    assert q in z.ordered <==> q in y.ordered;
  }

  /** The verdict of this round. */
  lemma VerdictNow(env: Env, rrs: real, a: Sched, y: Sched, r: nat, x: Sched, ok: bool, z: Sched)
    requires |y.ts| == |a.ts| && Inside(y.ordered, |a.rs|) && Totals(env, a, y) && y.used < env.ncpus as real
    requires r < |a.rs| && r < |y.rs| && y.rs[r].project < |y.ps| && r !in y.ordered
    requires forall i :: 0 <= i < |a.ts| ==> y.ts[i].result == a.ts[i].result
    requires forall i :: 0 <= i < |a.ts| && a.ts[i].result == r ==> y.ts[i] == a.ts[i]
    requires forall j :: 0 <= j < |y.ordered| ==> Precedes(a.rs, a.ts, y.ordered[j], r)
    requires Tried(env, rrs, Select(y, r), r, x, ok)
    requires z.ts == x.ts && z.ordered == if ok then y.ordered + [r] else y.ordered
    ensures Verdict(env, a.rs, a.ts, z.ts, z.ordered, r, |y.ordered|)
  {
    var k := |y.ordered|;
    hide Precedes, SumAt, WssSum, Flagged, CanRun, Charge, WssOf;
    assert z.ordered[..k] == y.ordered && y.ordered[..k] == y.ordered;
    assert Left(env, a.ts, z.ordered, k) == y.ram;
    assert Admissible(env, y.ram, a.ts, r) <==> Admissible(env, y.ram, y.ts, r);
    assert r in z.ordered <==> ok;
  }

  lemma RoundFlags(env: Env, rrs: real, a: Sched, y: Sched, r: nat, x: Sched, ok: bool, z: Sched)
    requires |y.rs| == |a.rs| && Inside(y.ordered, |a.rs|) && FlagsKept(env, a, y) && Totals(env, a, y)
    requires InOrder(a, y) && y.used < env.ncpus as real && forall q :: q in y.ordered ==> y.rs[q].selected
    requires r < |y.rs| && y.rs[r].project < |y.ps| && Runnable(a.ps, a.rs, r) && !y.rs[r].selected
    requires forall i :: 0 <= i < |a.ts| ==> y.ts[i].result == a.ts[i].result
    requires Tried(env, rrs, Select(y, r), r, x, ok)
    requires z.ts == x.ts && |z.rs| == |y.rs| && z.ordered == if ok then y.ordered + [r] else y.ordered
    requires forall q :: 0 <= q < |y.rs| ==> (z.rs[q].selected <==> y.rs[q].selected || q == r)
    ensures FlagsKept(env, a, z)
  {
    TriedOthers(env, rrs, Select(y, r), r, x, ok);
    hide Precedes, Tried, Totals, Runnable, Verdict, Select;
    assert forall i :: 0 <= i < |a.ts| && a.ts[i].result == r ==> y.ts[i] == a.ts[i];
    VerdictNow(env, rrs, a, y, r, x, ok, z);
    OthersKept(env, a, y, r, z, ok);
  }

  lemma TriedOthers(env: Env, rrs: real, s: Sched, r: nat, z: Sched, ok: bool)
    requires r < |s.rs| && s.rs[r].project < |s.ps| && Tried(env, rrs, s, r, z, ok)
    ensures |z.ts| == |s.ts| && forall i :: 0 <= i < |s.ts| && s.ts[i].result != r ==> z.ts[i] == s.ts[i]
  {
    hide Admissible, WssOf, Flagged, Charge;
  }

  lemma OthersKept(env: Env, a: Sched, y: Sched, r: nat, z: Sched, ok: bool)
    requires |y.rs| == |a.rs| == |z.rs| && Inside(y.ordered, |a.rs|) && FlagsKept(env, a, y) && InOrder(a, y)
    requires r < |y.rs| && Runnable(a.ps, a.rs, r) && !y.rs[r].selected
    requires forall i :: 0 <= i < |a.ts| ==> y.ts[i].result == a.ts[i].result
    requires |z.ts| == |y.ts| && forall i :: 0 <= i < |y.ts| && y.ts[i].result != r ==> z.ts[i] == y.ts[i]
    requires z.ordered == if ok then y.ordered + [r] else y.ordered
    requires forall q :: 0 <= q < |y.rs| ==> (z.rs[q].selected <==> y.rs[q].selected || q == r)
    requires Verdict(env, a.rs, a.ts, z.ts, z.ordered, r, |y.ordered|)
    ensures FlagsKept(env, a, z)
  {
    hide Precedes, Verdict, Runnable;
    forall q: nat | q < |a.rs| && z.rs[q].selected
      ensures exists k :: Verdict(env, a.rs, a.ts, z.ts, z.ordered, q, k)
    {
      if q != r {
        var k :| Verdict(env, a.rs, a.ts, y.ts, y.ordered, q, k);
        VerdictStays(env, a, y, q, k, r, z, ok);
      }
    }
  }

  /** A round on the first open result in the order keeps everything, and closes that result. */
  lemma RoundKeeps(env: Env, rrs: real, a: Sched, y: Sched, r: nat, x: Sched, ok: bool, z: Sched)
    requires Fresh(env, a) && Phase(env, rrs, a, y) && y.used < env.ncpus as real
    requires Open(y.ps, y.rs, r)
    requires forall q :: 0 <= q < |y.rs| && Open(y.ps, y.rs, q) && q != r ==> Precedes(y.rs, y.ts, r, q)
    requires Tried(env, rrs, Select(y, r), r, x, ok) && z == if ok then Append(x, r) else x
    ensures Phase(env, rrs, a, z)
    ensures forall q :: 0 <= q < |a.rs| ==> (z.rs[q].selected <==> y.rs[q].selected || q == r)
  {
    FrameStays(a, y);
    WssSame(a.ts, y.ts, r);
    assert forall i :: 0 <= i < |y.ts| ==> y.ts[i].wss >= 0.0;
    RoundFrame(env, rrs, a, y, r, x, ok, z);
    hide Wired, Frame, Precedes, Tried, SumAt, WssOf, HasTask, TurnedDown;
    RoundOrder(a, y, r, ok, z);
    RoundPicked(env, rrs, a, y, r, x, ok, z);
    RoundTotals(env, rrs, a, y, r, x, ok, z);
    RoundCharged(env, rrs, a, y, r, x, ok, z);
    RoundFlags(env, rrs, a, y, r, x, ok, z);
    hide InOrder, Picked, Totals, Charged, FlagsKept;
  }

  lemma PhaseReady(env: Env, rrs: real, a: Sched, s: Sched)
    requires Fresh(env, a) && Phase(env, rrs, a, s)
    ensures |s.rs| == |a.rs| && forall r :: 0 <= r < |s.rs| ==> s.rs[r].project < |s.ps|
    ensures forall r: nat :: r < |a.rs| ==> (Open(s.ps, s.rs, r) <==> Runnable(a.ps, a.rs, r) && !s.rs[r].selected)
    ensures OneEach(s.ts)
  {
    hide InOrder, Picked, Totals, Charged, HasTask, FlagsKept;
    FrameStays(a, s);
  }

  lemma PhaseStart(env: Env, rrs: real, a: Sched)
    requires Fresh(env, a)
    ensures Phase(env, rrs, a, a)
  {
  }

  /** Lines 508-521: pick results by deadline while a CPU is free. */
  method Edf(env: Env, rrs: real, a: Sched) returns (s: Sched)
    requires Fresh(env, a)
    ensures Phase(env, rrs, a, s)
    ensures s.used < env.ncpus as real ==> forall r: nat :: r < |a.rs| ==> !Open(s.ps, s.rs, r)
  {
    s := a;
    PhaseStart(env, rrs, a);
    hide Fresh, Phase, Precedes, HasTask, Runnable;
    while s.used < env.ncpus as real
      invariant Phase(env, rrs, a, s)
      decreases OpenSet(s.ps, s.rs)
    {
      PhaseReady(env, rrs, a, s);
      var o := EarliestDeadline(s.ps, s.rs, s.ts);
      if o.None? { break; }
      var r := o.value;
      var x, ok := ScheduleIfPossible(env, rrs, Select(s, r), r);
      ghost var y := s;
      s := if ok then Append(x, r) else x;
      RoundKeeps(env, rrs, a, y, r, x, ok, s);
      PhaseReady(env, rrs, a, s);
      assert r in OpenSet(y.ps, y.rs) && r !in OpenSet(s.ps, s.rs);
    }
  }

  lemma {:induction false} ChargedChoices(env: Env, rrs: real, ps: seq<Project>, rs: seq<Result>, ordered: seq<nat>,
                                          p: nat)
    requires p < |ps|
    ensures Charged(env, rrs, ps, rs, ordered)[p].next == ps[p].next
  {
    if ordered != [] { ChargedChoices(env, rrs, ps, rs, ordered[..|ordered| - 1], p); }
  }

  /** Every pick uses up one missed deadline of its project. */
  lemma {:induction false} PicksUseDeadlines(env: Env, rrs: real, ps: seq<Project>, rs: seq<Result>, ordered: seq<nat>,
                                             p: nat)
    requires p < |ps|
    ensures Charged(env, rrs, ps, rs, ordered)[p].deadlinesMissed == ps[p].deadlinesMissed - CountOf(rs, ordered, p)
  {
    if ordered != [] { PicksUseDeadlines(env, rrs, ps, rs, ordered[..|ordered| - 1], p); }
  }

  /** The charge for `n` picks. */
  ghost function Fees(env: Env, rrs: real, share: real, n: nat): real { n as real * Fee(env, rrs, share) }

  lemma FeesMore(env: Env, rrs: real, share: real, n: nat)
    ensures Fees(env, rrs, share, n + 1) == Fees(env, rrs, share, n) + Fee(env, rrs, share)
            && Fees(env, rrs, share, 0) == 0.0
  {
    hide Fee;
  }

  lemma LastCharged(env: Env, rrs: real, ps: seq<Project>, rs: seq<Result>, ordered: seq<nat>, p: nat)
    requires p < |ps| && ordered != []
    ensures var q := Charged(env, rrs, ps, rs, ordered[..|ordered| - 1])[p];
            var r := ordered[|ordered| - 1];
            Charged(env, rrs, ps, rs, ordered)[p].share == q.share
            && Charged(env, rrs, ps, rs, ordered)[p].anticipatedDebt
               == q.anticipatedDebt - if r < |rs| && rs[r].project == p then Fee(env, rrs, q.share) else 0.0
  {
    hide Fee;
  }

  /** Every pick costs its project the same. */
  lemma {:induction false} PicksCost(env: Env, rrs: real, ps: seq<Project>, rs: seq<Result>, ordered: seq<nat>, p: nat)
    requires p < |ps|
    ensures Charged(env, rrs, ps, rs, ordered)[p].share == ps[p].share
    ensures Charged(env, rrs, ps, rs, ordered)[p].anticipatedDebt
            == ps[p].anticipatedDebt - Fees(env, rrs, ps[p].share, CountOf(rs, ordered, p))
  {
    FeesMore(env, rrs, ps[p].share, 0);
    if ordered == [] { return; }
    var rest := ordered[..|ordered| - 1];
    PicksCost(env, rrs, ps, rs, rest, p);
    LastCharged(env, rrs, ps, rs, ordered, p);
    FeesMore(env, rrs, ps[p].share, CountOf(rs, rest, p));
    hide Charged, Fees, Fee;
  }
}
