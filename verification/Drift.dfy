/** Long-term debts over runs in which projects come and go: how far the normalisation of
    adjust_debts (client/cpu_sched.C) moves them, and where that comes from. */
module Drift {
  import opened Options
  import opened Debts

  /** An event of Debts; abort_project forgets the debt of a project (client/app_control.C); a
      project is attached, without debts; a project is detached. */
  datatype Move =
    | Usual(e: Event)
    | Forget(q: nat)
    | Attach(a: Account)
    | Detach(q: nat)

  function NewAccount(a: Account): Account {
    a.(longTerm := 0.0, shortTerm := 0.0, anticipated := 0.0, wall := 0.0)
  }

  ghost function Next(b: Books, m: Move): Books {
    match m
    case Usual(e) => Apply(b, e)
    case Forget(q) => if q < |b.ps| then b.(ps := b.ps[q := b.ps[q].(longTerm := 0.0)]) else b
    case Attach(a) => b.(ps := b.ps + [NewAccount(a)])
    case Detach(q) => if q < |b.ps| then Erased(b, q) else b
  }

  ghost function RunMoves(b: Books, ms: seq<Move>): Books {
    if ms == [] then b else Next(RunMoves(b, ms[..|ms| - 1]), ms[|ms| - 1])
  }

  // ---- Single debts ----------------------------------------------------------------------

  ghost predicate Completes(b: Books, m: Move) {
    m.Usual? && m.e.Adjust? && OutcomeOf(b, m.e.now, m.e.period) == Completed
  }

  /** What the normalisation takes from every CPU-intensive project. */
  ghost function DriftOf(b: Books, m: Move): real {
    if Completes(b, m) then AvgLong(Paid(b, m.e.tasks, m.e.now).ps) else 0.0
  }

  /** The position of project `i` afterwards. */
  function Position(n: nat, m: Move, i: nat): Option<nat> {
    if m.Detach? && m.q < n then
      if i == m.q then None else if i > m.q then Some(i - 1) else Some(i)
    else Some(i)
  }

  /** How far one event moves the debt of project `i`. */
  ghost function MoveOf(b: Books, m: Move, i: nat): real
    requires i < |b.ps|
  {
    if b.ps[i].background then (if m == Forget(i) then -b.ps[i].longTerm else 0.0)
    else if Completes(b, m) then Earned(b, m.e, i) - DriftOf(b, m)
    else if m == Forget(i) then -b.ps[i].longTerm
    else 0.0
  }

  /** After the pass every CPU-intensive project has got what it earned, less the drift. */
  lemma PassMoves(b: Books, tasks: seq<Run>, now: real, period: real, i: nat)
    requires OutcomeOf(b, now, period) == Completed && i < |b.ps|
    ensures var c := Adjusted(b, tasks, now, period);
            && |c.ps| == |b.ps| && c.ps[i].background == b.ps[i].background
            && c.ps[i].longTerm == b.ps[i].longTerm + MoveOf(b, Usual(Adjust(tasks, now, period)), i)
  {
    RecordKeepsKinds(b, tasks, now - b.start);
    var c := Record(b, tasks, now - b.start);
    hide Sum, Count, Record, AvgShort, AvgLong;
    assert Paid(b, tasks, now).ps[i] == Credit(c.ps[i], Sum(c.ps, Potential), Sum(c.ps, Running), c.total);
  }

  lemma IdlePass(b: Books, tasks: seq<Run>, now: real, period: real, i: nat)
    requires OutcomeOf(b, now, period) != Completed && i < |b.ps|
    ensures var c := Adjusted(b, tasks, now, period);
            |c.ps| == |b.ps| && c.ps[i].background == b.ps[i].background && c.ps[i].longTerm == b.ps[i].longTerm
  {
    if OutcomeOf(b, now, period) == NoProjects { NoneIntensive(b.ps); }
    RecordKeepsKinds(b, tasks, now - b.start);
    hide Sum, Count, Record;
  }

  lemma NextMoves(b: Books, m: Move, i: nat)
    requires i < |b.ps|
    ensures match Position(|b.ps|, m, i)
            case None => true
            case Some(k) =>
              k < |Next(b, m).ps| && Next(b, m).ps[k].longTerm == b.ps[i].longTerm + MoveOf(b, m, i)
  {
    match m
    case Usual(Adjust(tasks, now, period)) =>
      hide Adjusted, OutcomeOf, Earned, DriftOf;
      if OutcomeOf(b, now, period) == Completed { PassMoves(b, tasks, now, period, i); }
      else { IdlePass(b, tasks, now, period, i); }
    case _ => hide Adjusted, OutcomeOf, Earned, DriftOf;
  }

  ghost function PositionAll(b: Books, ms: seq<Move>, i: nat): Option<nat> {
    if ms == [] then Some(i)
    else
      var front := ms[..|ms| - 1];
      match PositionAll(b, front, i)
      case None => None
      case Some(k) => Position(|RunMoves(b, front).ps|, ms[|ms| - 1], k)
  }

  ghost function MovesOf(b: Books, ms: seq<Move>, i: nat): real {
    if ms == [] then 0.0
    else
      var front := ms[..|ms| - 1];
      var c := RunMoves(b, front);
      match PositionAll(b, front, i)
      case None => 0.0
      case Some(k) => if k < |c.ps| then MovesOf(b, front, i) + MoveOf(c, ms[|ms| - 1], k) else 0.0
  }

  /** Over any run, the debt of a project that is still attached has moved by what it earned in every
      completed pass, less the drift of the pass, and back to 0 whenever it was forgotten. */
  lemma {:induction false} RunMovesExact(b: Books, ms: seq<Move>, i: nat)
    requires i < |b.ps|
    ensures match PositionAll(b, ms, i)
            case None => true
            case Some(k) =>
              k < |RunMoves(b, ms).ps| && RunMoves(b, ms).ps[k].longTerm == b.ps[i].longTerm + MovesOf(b, ms, i)
  {
    if ms != [] {
      RunMovesExact(b, ms[..|ms| - 1], i);
      var c, at := RunMoves(b, ms[..|ms| - 1]), PositionAll(b, ms[..|ms| - 1], i);
      hide Next, MoveOf, Position;
      if at.Some? { NextMoves(c, ms[|ms| - 1], at.value); }
    }
  }

  // ---- Where the drift comes from ----------------------------------------------------------------

  /** What the long-term debts are away from 0, and the wall time in the total that is not that of
      an attached CPU-intensive project. */
  ghost function Surplus(b: Books): real { Sum(b.ps, LongTerm) + (b.total - Sum(b.ps, Used)) }

  /** How far one event moves the surplus. */
  ghost function Leak(b: Books, m: Move): real {
    match m
    case Usual(Finish(p, now)) => if p < |b.ps| && b.ps[p].background then now - b.start else 0.0
    case Usual(Adjust(_, now, period)) =>
      (match OutcomeOf(b, now, period)
       case TooLong => Sum(b.ps, Used) - b.total
       case Completed => -Surplus(b)
       case _ => 0.0)
    case Forget(q) => if q < |b.ps| then -LongTerm(b.ps[q]) else 0.0
    case Detach(q) => if q < |b.ps| then Used(b.ps[q]) - LongTerm(b.ps[q]) else 0.0
    case _ => 0.0
  }

  lemma {:induction false} RecordSurplus(b: Books, tasks: seq<Run>, wall: real)
    ensures Surplus(Record(b, tasks, wall)) == Surplus(b)
  {
    if tasks != [] {
      var t, c := tasks[|tasks| - 1], Record(b, tasks[..|tasks| - 1], wall);
      RecordSurplus(b, tasks[..|tasks| - 1], wall);
      if t.project < |c.ps| {
        var a := c.ps[t.project].(wall := c.ps[t.project].wall + wall);
        hide Sum, Record;
        SumUpdate(c.ps, t.project, a, Used);
        SumUpdate(c.ps, t.project, a, LongTerm);
        assert Record(b, tasks, wall) == RecordOne(c, t, wall) by { RecordLast(b, tasks, wall); }
      }
    }
  }

  lemma RecordLast(b: Books, tasks: seq<Run>, wall: real)
    requires tasks != []
    ensures Record(b, tasks, wall) == RecordOne(Record(b, tasks[..|tasks| - 1], wall), tasks[|tasks| - 1], wall)
  {
  }

  lemma ClearedSurplus(b: Books, now: real)
    ensures Surplus(Debts.Reset(b, now)) == Sum(b.ps, LongTerm)
  {
    var c := Debts.Reset(b, now);
    NoWall(c.ps);
    SumSame(b.ps, c.ps, LongTerm, LongTerm);
    hide Sum;
  }

  lemma AdjustSurplus(b: Books, tasks: seq<Run>, now: real, period: real)
    ensures Surplus(Adjusted(b, tasks, now, period)) == Surplus(b) + Leak(b, Usual(Adjust(tasks, now, period)))
  {
    match OutcomeOf(b, now, period)
    case TooShort =>
    case TooLong =>
      hide Sum, Debts.Reset;
      ClearedSurplus(b, now);
    case NoProjects =>
      var c := Record(b, tasks, now - b.start);
      RecordSurplus(b, tasks, now - b.start);
      RecordKeepsKinds(b, tasks, now - b.start);
      NoneIntensive(b.ps);
      hide Sum, Record, Count;
      assert Credited(c.ps, c.total) == c.ps;
    case Completed =>
      hide Sum, Record;
      LongTermSumsToZero(b, tasks, now, period);
      CompletedKinds(b, tasks, now, period);
      var d := Settled(b, tasks, now);
      hide Settled, Debts.Reset, Adjusted;
      ClearedSurplus(d, now);
      ResetDebts(d, now);
  }

  lemma ResetDebts(b: Books, now: real)
    ensures Sum(Debts.Reset(b, now).ps, LongTerm) == Sum(b.ps, LongTerm)
  {
    SumSame(b.ps, Debts.Reset(b, now).ps, LongTerm, LongTerm);
  }

  lemma UpdateSurplus(b: Books, q: nat, a: Account, total: real)
    requires q < |b.ps|
    ensures Surplus(b.(ps := b.ps[q := a], total := total))
         == Surplus(b) + LongTerm(a) - LongTerm(b.ps[q]) + (total - b.total) - (Used(a) - Used(b.ps[q]))
  {
    SumUpdate(b.ps, q, a, LongTerm);
    SumUpdate(b.ps, q, a, Used);
    hide Sum;
  }

  lemma PushSurplus(b: Books, a: Account)
    ensures Surplus(b.(ps := b.ps + [NewAccount(a)])) == Surplus(b)
  {
    var c := NewAccount(a);
    assert (b.ps + [c])[..|b.ps|] == b.ps;
    SumLast(b.ps + [c], LongTerm);
    SumLast(b.ps + [c], Used);
    hide Sum;
  }

  /** The surplus changes by the leak of every event, and by nothing else. */
  lemma NextSurplus(b: Books, m: Move)
    ensures Surplus(Next(b, m)) == Surplus(b) + Leak(b, m)
  {
    hide Sum, Adjusted, OutcomeOf;
    match m
    case Usual(Adjust(tasks, now, period)) => AdjustSurplus(b, tasks, now, period);
    case Usual(Finish(p, now)) =>
      if p < |b.ps| {
        var wall := now - b.start;
        UpdateSurplus(b, p, b.ps[p].(wall := b.ps[p].wall + wall), b.total + wall);
      }
    case Usual(Change(q, r, p)) =>
      if q < |b.ps| { UpdateSurplus(b, q, b.ps[q].(runnable := r, potential := p), b.total); }
    case Forget(q) =>
      if q < |b.ps| { UpdateSurplus(b, q, b.ps[q].(longTerm := 0.0), b.total); }
    case Attach(a) => PushSurplus(b, a);
    case Detach(q) =>
      if q < |b.ps| {
        SumErase(b.ps, q, LongTerm);
        SumErase(b.ps, q, Used);
      }
  }

  ghost function Leaks(b: Books, ms: seq<Move>): real {
    if ms == [] then 0.0 else Leaks(b, ms[..|ms| - 1]) + Leak(RunMoves(b, ms[..|ms| - 1]), ms[|ms| - 1])
  }

  /** Over any run. */
  lemma {:induction false} RunSurplus(b: Books, ms: seq<Move>)
    ensures Surplus(RunMoves(b, ms)) == Surplus(b) + Leaks(b, ms)
  {
    if ms != [] {
      RunSurplus(b, ms[..|ms| - 1]);
      hide Surplus, Leak, Next;
      NextSurplus(RunMoves(b, ms[..|ms| - 1]), ms[|ms| - 1]);
    }
  }

  lemma AvgTotal(qs: seq<Account>)
    requires Count(qs, Intensive) > 0
    ensures Count(qs, Intensive) as real * AvgLong(qs) == Sum(qs, LongTerm)
  {
    AvgIs(qs);
    hide Sum, Count;
    AvgTimes(Count(qs, Intensive), Sum(qs, LongTerm), AvgLong(qs));
  }

  lemma WholeShare(a: real, p: real, t: real)
    requires p != 0.0 && a == p
    ensures a * (t / p) == t
  {
  }

  lemma CreditedTotal(c: Books)
    requires Sum(c.ps, Potential) != 0.0 && Sum(c.ps, BackgroundShare) == 0.0
    ensures Sum(Credited(c.ps, c.total), LongTerm) == Surplus(c)
  {
    hide Sum, Credited;
    SumPlus(c.ps, Potential, ActiveShare, BackgroundShare);
    CreditedSum(c);
    WholeShare(Sum(c.ps, ActiveShare), Sum(c.ps, Potential), c.total);
  }

  lemma DriftParts(b: Books, tasks: seq<Run>, now: real, period: real)
    requires OutcomeOf(b, now, period) == Completed
    ensures var c := Record(b, tasks, now - b.start);
            && DriftOf(b, Usual(Adjust(tasks, now, period))) == AvgLong(Credited(c.ps, c.total))
            && Count(Credited(c.ps, c.total), Intensive) == Count(b.ps, Intensive) > 0
  {
    var c := Record(b, tasks, now - b.start);
    RecordKeepsKinds(b, tasks, now - b.start);
    CreditKeepsKinds(c.ps, c.total);
    hide Sum, Count, Record, Credited, AvgLong;
  }

  /** In a completed pass the projects share the surplus evenly, if prrs holds the shares of
      CPU-intensive projects only. */
  lemma DriftIsSurplus(b: Books, tasks: seq<Run>, now: real, period: real)
    requires OutcomeOf(b, now, period) == Completed
    requires var c := Record(b, tasks, now - b.start);
             Sum(c.ps, Potential) != 0.0 && Sum(c.ps, BackgroundShare) == 0.0
    ensures Count(b.ps, Intensive) as real * DriftOf(b, Usual(Adjust(tasks, now, period))) == Surplus(b)
  {
    hide *;
    var c := Record(b, tasks, now - b.start);
    DriftParts(b, tasks, now, period);
    RecordSurplus(b, tasks, now - b.start);
    CreditedTotal(c);
    AvgTotal(Credited(c.ps, c.total));
  }
}
