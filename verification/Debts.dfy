/** The debt accounting of the CPU scheduler: CLIENT_STATE::adjust_debts and
    reset_debt_accounting (client/cpu_sched.C), and the wall time that app_finished records
    (client/cs_apps.C). */
module Debts {

  /** A project as far as its debts go. */
  datatype Account = Account(
    background: bool,             // non_cpu_intensive
    share: real,                  // resource_share
    runnable: bool,               // runnable()
    potential: bool,              // potentially_runnable()
    longTerm: real,               // long_term_debt
    shortTerm: real,              // short_term_debt
    anticipated: real,            // anticipated_debt
    wall: real                    // wall_cpu_time_this_debt_interval
  )

  /** A task: its project, and whether it is scheduled. */
  datatype Run = Run(project: nat, scheduled: bool)

  /** The projects, total_wall_cpu_time_this_debt_interval and debt_interval_start. */
  datatype Books = Books(ps: seq<Account>, total: real, start: real)

  const MAX_STD: real := 86400.0

  /** Real division; the source divides by 0 only if all shares concerned are 0. */
  function Div(x: real, y: real): real { if y == 0.0 then 0.0 else x / y }

  // ---- Sums over projects -------------------------------------------------------------

  ghost function Sum(ps: seq<Account>, f: Account -> real): real {
    if ps == [] then 0.0 else Sum(ps[..|ps| - 1], f) + f(ps[|ps| - 1])
  }

  ghost function Count(ps: seq<Account>, f: Account -> bool): nat {
    if ps == [] then 0 else Count(ps[..|ps| - 1], f) + if f(ps[|ps| - 1]) then 1 else 0
  }

  lemma SumFront(ps: seq<Account>, i: nat, f: Account -> real)
    requires i < |ps|
    ensures Sum(ps[..i + 1], f) == Sum(ps[..i], f) + f(ps[i])
  {
    assert ps[..i + 1][..i] == ps[..i];
  }

  lemma CountFront(ps: seq<Account>, i: nat, f: Account -> bool)
    requires i < |ps|
    ensures Count(ps[..i + 1], f) == Count(ps[..i], f) + if f(ps[i]) then 1 else 0
  {
    assert ps[..i + 1][..i] == ps[..i];
  }

  // ---- The parts of a pass, project by project -------------------------------------------

  predicate Intensive(a: Account) { !a.background }

  predicate RunsNow(a: Account) { !a.background && a.runnable }

  /** Its long-term debt changes in this pass. */
  predicate Active(a: Account) { !a.background && (a.potential || a.wall != 0.0) }

  /** Its part of prrs, lines 323-335. */
  function Potential(a: Account): real {
    if (a.potential && !a.background) || (!a.potential && a.wall != 0.0) then a.share else 0.0
  }

  /** Its part of rrs. */
  function Running(a: Account): real { if RunsNow(a) then a.share else 0.0 }

  /** What it should have got, and what it has used. */
  function Entitled(a: Account, prrs: real, total: real): real { if Active(a) then Div(a.share, prrs) * total else 0.0 }

  function Used(a: Account): real { if Intensive(a) then a.wall else 0.0 }

  function LongTerm(a: Account): real { if Intensive(a) then a.longTerm else 0.0 }

  function ShortTerm(a: Account): real { if RunsNow(a) then a.shortTerm else 0.0 }

  /** Lines 337-363, for one project. */
  function Credit(a: Account, prrs: real, rrs: real, total: real): Account {
    if a.background then a
    else
      var b := if Active(a) then a.(longTerm := a.longTerm + (Div(a.share, prrs) * total - a.wall)) else a;
      if a.runnable then b.(shortTerm := b.shortTerm + (Div(b.share, rrs) * total - b.wall))
      else b.(shortTerm := 0.0, anticipated := 0.0)
  }

  function Clip(x: real): real { if x > MAX_STD then MAX_STD else if x < -MAX_STD then -MAX_STD else x }

  /** Lines 377-397, for one project. */
  function Normal(a: Account, avgLong: real, avgShort: real): Account {
    if a.background then a
    else (if a.runnable then a.(shortTerm := Clip(a.shortTerm - avgShort)) else a).(longTerm := a.longTerm - avgLong)
  }

  function Cleared(a: Account): Account { a.(wall := 0.0) }

  // ---- The parts of a pass, on all projects ------------------------------------------------

  ghost function Map(ps: seq<Account>, f: Account -> Account): (qs: seq<Account>)
    ensures |qs| == |ps| && forall i :: 0 <= i < |ps| ==> qs[i] == f(ps[i])
  {
    seq(|ps|, i requires 0 <= i < |ps| => f(ps[i]))
  }

  /** Lines 308-316: every scheduled task of a CPU-intensive project has used the whole interval. */
  ghost function Record(b: Books, tasks: seq<Run>, wall: real): (c: Books)
    ensures |c.ps| == |b.ps|
  {
    if tasks == [] then b
    else RecordOne(Record(b, tasks[..|tasks| - 1], wall), tasks[|tasks| - 1], wall)
  }

  function RecordOne(b: Books, t: Run, wall: real): Books {
    if t.project >= |b.ps| || !t.scheduled || b.ps[t.project].background then b else Charge(b, t.project, wall)
  }

  function Charge(b: Books, p: nat, wall: real): Books
    requires p < |b.ps|
  {
    b.(ps := b.ps[p := b.ps[p].(wall := b.ps[p].wall + wall)], total := b.total + wall)
  }

  ghost function CreditedBy(ps: seq<Account>, prrs: real, rrs: real, total: real): (qs: seq<Account>)
    ensures |qs| == |ps| && forall i :: 0 <= i < |ps| ==> qs[i] == Credit(ps[i], prrs, rrs, total)
  {
    Map(ps, a => Credit(a, prrs, rrs, total))
  }

  ghost function Credited(ps: seq<Account>, total: real): seq<Account> {
    CreditedBy(ps, Sum(ps, Potential), Sum(ps, Running), total)
  }

  ghost function AvgLong(qs: seq<Account>): real { Div(Sum(qs, LongTerm), Count(qs, Intensive) as real) }

  ghost function AvgShort(qs: seq<Account>): real { Div(Sum(qs, ShortTerm), Count(qs, RunsNow) as real) }

  ghost function Normalised(qs: seq<Account>): seq<Account> { Map(qs, a => Normal(a, AvgLong(qs), AvgShort(qs))) }

  /** reset_debt_accounting. */
  ghost function Reset(b: Books, now: real): Books { Books(Map(b.ps, Cleared), 0.0, now) }

  /** How a call ends. */
  datatype Outcome = TooShort | TooLong | NoProjects | Completed

  ghost function OutcomeOf(b: Books, now: real, period: real): Outcome {
    if now - b.start < 1.0 then TooShort
    else if now - b.start > period * 2.0 then TooLong
    else if Count(b.ps, Intensive) == 0 then NoProjects
    else Completed
  }

  /** After lines 308-363, and after lines 308-397. */
  ghost function Paid(b: Books, tasks: seq<Run>, now: real): (c: Books)
    ensures |c.ps| == |b.ps|
  {
    var c := Record(b, tasks, now - b.start);
    c.(ps := Credited(c.ps, c.total))
  }

  ghost function Settled(b: Books, tasks: seq<Run>, now: real): (c: Books)
    ensures |c.ps| == |b.ps|
  {
    Paid(b, tasks, now).(ps := Normalised(Paid(b, tasks, now).ps))
  }

  /** adjust_debts. */
  ghost function Adjusted(b: Books, tasks: seq<Run>, now: real, period: real): (c: Books)
    ensures |c.ps| == |b.ps|
  {
    match OutcomeOf(b, now, period)
    case TooShort => b
    case TooLong => Reset(b, now)
    case NoProjects => Paid(b, tasks, now)
    case Completed => Reset(Settled(b, tasks, now), now)
  }

  method CreditSeq(ps: seq<Account>, total: real, rrs: real, prrs: real)
    returns (qs: seq<Account>, n: nat, long: real, nr: nat, short: real)
    ensures qs == CreditedBy(ps, prrs, rrs, total)
    ensures n == Count(qs, Intensive) && long == Sum(qs, LongTerm)
    ensures nr == Count(qs, RunsNow) && short == Sum(qs, ShortTerm)
  {
    n, long, nr, short := 0, 0.0, 0, 0.0;
    qs := ps;
    for i := 0 to |ps|
      invariant |qs| == |ps| && forall j :: 0 <= j < |ps| ==>
          qs[j] == if j < i then Credit(ps[j], prrs, rrs, total) else ps[j]
      invariant n == Count(qs[..i], Intensive) && long == Sum(qs[..i], LongTerm)
      invariant nr == Count(qs[..i], RunsNow) && short == Sum(qs[..i], ShortTerm)
    {
      var a := Credit(ps[i], prrs, rrs, total);
      if !a.background {
        n := n + 1;
        long := long + a.longTerm;
        if a.runnable {
          nr := nr + 1;
          short := short + a.shortTerm;
        }
      }
      ghost var was := qs[..i];
      qs := qs[i := a];
      assert qs[..i] == was;
      CountFront(qs, i, Intensive);
      SumFront(qs, i, LongTerm);
      CountFront(qs, i, RunsNow);
      SumFront(qs, i, ShortTerm);
    }
    assert qs[..|qs|] == qs == CreditedBy(ps, prrs, rrs, total);
  }

  // ---- The code ---------------------------------------------------------------------------------

  class Accounts {
    var b: Books
    var tasks: seq<Run>

    method ResetAccounting(now: real)
      modifies this`b
      ensures b == Reset(old(b), now)
    {
      var ps := b.ps;
      for i := 0 to |ps|
        invariant |ps| == |b.ps| && forall j :: 0 <= j < |ps| ==> ps[j] == if j < i then Cleared(b.ps[j]) else b.ps[j]
      {
        ps := ps[i := ps[i].(wall := 0.0)];
      }
      assert ps == Map(b.ps, Cleared);
      b := Books(ps, 0.0, now);
    }

    /** The accounting at the end of app_finished, for a task of project `p`: the wall time of the
        interval goes to the project and to the total, so no recorded time is lost or made up. */
    method AppFinished(p: nat, now: real)
      requires p < |b.ps|
      modifies this`b
      ensures b.total == old(b).total + (now - old(b).start) && b.start == old(b).start
      ensures |b.ps| == |old(b).ps| && forall i :: 0 <= i < |b.ps| && i != p ==> b.ps[i] == old(b).ps[i]
      ensures b.ps[p] == old(b).ps[p].(wall := old(b).ps[p].wall + (now - old(b).start))
      ensures b.total - Sum(b.ps, Wall) == old(b.total - Sum(b.ps, Wall))
      ensures b == Charge(old(b), p, now - old(b).start)
    {
      var wall := now - b.start;
      var a := b.ps[p].(wall := b.ps[p].wall + wall);
      SumUpdate(b.ps, p, a, Wall);
      b := b.(ps := b.ps[p := a], total := b.total + wall);
    }

    method RecordTasks(wall: real)
      modifies this`b
      ensures b == Record(old(b), tasks, wall)
    {
      for i := 0 to |tasks|
        invariant b == Record(old(b), tasks[..i], wall)
      {
        assert tasks[..i + 1][..i] == tasks[..i];
        b := RecordOne(b, tasks[i], wall);
      }
      assert tasks[..|tasks|] == tasks;
    }

    /** runnable_resource_share, potentially_runnable_resource_share and lines 325-335. */
    method Shares() returns (rrs: real, prrs: real)
      ensures rrs == Sum(b.ps, Running) && prrs == Sum(b.ps, Potential)
    {
      rrs, prrs := 0.0, 0.0;
      for i := 0 to |b.ps|
        invariant rrs == Sum(b.ps[..i], Running) && prrs == Sum(b.ps[..i], Potential)
      {
        SumFront(b.ps, i, Running);
        SumFront(b.ps, i, Potential);
        if !b.ps[i].background && b.ps[i].runnable { rrs := rrs + b.ps[i].share; }
        if !b.ps[i].background && b.ps[i].potential { prrs := prrs + b.ps[i].share; }
        if !b.ps[i].potential && b.ps[i].wall != 0.0 { prrs := prrs + b.ps[i].share; }
      }
      assert b.ps[..|b.ps|] == b.ps;
    }

    /** Lines 337-363. */
    method CreditAll(rrs: real, prrs: real) returns (n: nat, long: real, nr: nat, short: real)
      modifies this`b
      ensures b == old(b).(ps := CreditedBy(old(b).ps, prrs, rrs, old(b).total))
      ensures n == Count(b.ps, Intensive) && long == Sum(b.ps, LongTerm)
      ensures nr == Count(b.ps, RunsNow) && short == Sum(b.ps, ShortTerm)
    {
      var ps;
      ps, n, long, nr, short := CreditSeq(b.ps, b.total, rrs, prrs);
      b := b.(ps := ps);
    }

    /** Lines 377-397. */
    method NormaliseAll(avgLong: real, avgShort: real)
      requires avgLong == AvgLong(b.ps) && avgShort == AvgShort(b.ps)
      modifies this`b
      ensures b == old(b).(ps := Normalised(old(b).ps))
    {
      var ps := b.ps;
      for i := 0 to |ps|
        invariant |ps| == |b.ps| && forall j :: 0 <= j < |ps| ==>
            ps[j] == if j < i then Normal(b.ps[j], avgLong, avgShort) else b.ps[j]
      {
        var a := ps[i];
        if a.background { continue; }
        if a.runnable {
          a := a.(shortTerm := a.shortTerm - avgShort);
          if a.shortTerm > MAX_STD { a := a.(shortTerm := MAX_STD); }
          if a.shortTerm < -MAX_STD { a := a.(shortTerm := -MAX_STD); }
        }
        a := a.(longTerm := a.longTerm - avgLong);
        ps := ps[i := a];
      }
      assert ps == Normalised(b.ps);
      b := b.(ps := ps);
    }

    /** adjust_debts. */
    method AdjustDebts(now: real, period: real) returns (outcome: Outcome)
      modifies this`b
      ensures outcome == OutcomeOf(old(b), now, period)
      ensures b == Adjusted(old(b), tasks, now, period)
    {
      var wall := now - b.start;
      assert now - b.start < 1.0 ==> Adjusted(b, tasks, now, period) == b && OutcomeOf(b, now, period) == TooShort;
      if wall < 1.0 { return TooShort; }
      if wall > period * 2.0 {
        ResetAccounting(now);
        return TooLong;
      }
      hide *;
      RecordTasks(wall);
      var rrs, prrs := Shares();
      ghost var c := b;
      var n, long, nr, short := CreditAll(rrs, prrs);
      PaidFacts(old(b), tasks, now, c, b);
      if n == 0 {
        EndsEarly(old(b), tasks, now, period);
        return NoProjects;
      }
      NormaliseAll(long / n as real, if nr > 0 then short / nr as real else 0.0);
      ResetAccounting(now);
      EndsWell(old(b), tasks, now, period);
      outcome := Completed;
    }
  }

  lemma PaidFacts(b: Books, tasks: seq<Run>, now: real, c: Books, d: Books)
    requires c == Record(b, tasks, now - b.start)
    requires d == c.(ps := CreditedBy(c.ps, Sum(c.ps, Potential), Sum(c.ps, Running), c.total))
    ensures d == Paid(b, tasks, now) && Count(d.ps, Intensive) == Count(b.ps, Intensive)
    ensures Count(d.ps, Intensive) > 0 ==> AvgLong(d.ps) == Sum(d.ps, LongTerm) / Count(d.ps, Intensive) as real
    ensures AvgShort(d.ps) == if Count(d.ps, RunsNow) > 0 then Sum(d.ps, ShortTerm) / Count(d.ps, RunsNow) as real
            else 0.0
  {
    RecordKeepsKinds(b, tasks, now - b.start);
    CreditKeepsKinds(c.ps, c.total);
    hide Sum, Count, Record, CreditedBy;
  }

  lemma EndsEarly(b: Books, tasks: seq<Run>, now: real, period: real)
    requires 1.0 <= now - b.start <= period * 2.0 && Count(b.ps, Intensive) == 0
    ensures OutcomeOf(b, now, period) == NoProjects && Adjusted(b, tasks, now, period) == Paid(b, tasks, now)
  {
    hide Paid, Settled, Reset;
  }

  lemma EndsWell(b: Books, tasks: seq<Run>, now: real, period: real)
    requires 1.0 <= now - b.start <= period * 2.0 && Count(b.ps, Intensive) > 0
    ensures OutcomeOf(b, now, period) == Completed
    ensures Adjusted(b, tasks, now, period) == Reset(Settled(b, tasks, now), now)
    ensures Settled(b, tasks, now) == Paid(b, tasks, now).(ps := Normalised(Paid(b, tasks, now).ps))
  {
    hide Paid, Reset, Normalised, Count;
  }

  lemma {:induction false} KindsCount(ps: seq<Account>, qs: seq<Account>)
    requires |qs| == |ps| && forall i :: 0 <= i < |ps| ==> qs[i].background == ps[i].background
    ensures Count(qs, Intensive) == Count(ps, Intensive)
  {
    if ps != [] { KindsCount(ps[..|ps| - 1], qs[..|ps| - 1]); }
  }

  lemma {:induction false} RecordKeepsKinds(b: Books, tasks: seq<Run>, wall: real)
    ensures forall i :: 0 <= i < |b.ps| ==>
            Record(b, tasks, wall).ps[i] == b.ps[i].(wall := Record(b, tasks, wall).ps[i].wall)
    ensures Count(Record(b, tasks, wall).ps, Intensive) == Count(b.ps, Intensive)
  {
    if tasks != [] { RecordKeepsKinds(b, tasks[..|tasks| - 1], wall); }
    KindsCount(b.ps, Record(b, tasks, wall).ps);
  }

  lemma CreditKeepsKinds(ps: seq<Account>, total: real)
    ensures Count(Credited(ps, total), Intensive) == Count(ps, Intensive)
  {
    KindsCount(ps, Credited(ps, total));
  }

  // ---- What a completed pass leaves behind ------------------------------------------------------

  lemma {:induction false} SumSame(ps: seq<Account>, qs: seq<Account>, f: Account -> real, g: Account -> real)
    requires |ps| == |qs| && forall i :: 0 <= i < |ps| ==> f(ps[i]) == g(qs[i])
    ensures Sum(ps, f) == Sum(qs, g)
  {
    if ps != [] { SumSame(ps[..|ps| - 1], qs[..|ps| - 1], f, g); }
  }

  lemma TimesPlus(a: real, b: real, x: real)
    ensures (a + b) * x == a * x + b * x
  {
  }

  lemma DivTimes(a: real, y: real, x: real)
    requires y != 0.0
    ensures y * (x / y) == x && a / y * x == a * (x / y)
  {
    assert a / y * x == a * x / y;
  }

  /** Taking the same amount from every CPU-intensive project. */
  lemma {:induction false} SumShift(ps: seq<Account>, qs: seq<Account>, x: real)
    requires |ps| == |qs| && forall i :: 0 <= i < |ps| ==>
            LongTerm(qs[i]) == LongTerm(ps[i]) - (if Intensive(ps[i]) then x else 0.0)
    ensures Sum(qs, LongTerm) == Sum(ps, LongTerm) - Count(ps, Intensive) as real * x
  {
    if ps != [] {
      var n := |ps| - 1;
      SumShift(ps[..n], qs[..n], x);
      TimesPlus(Count(ps[..n], Intensive) as real, 1.0, x);
    }
  }

  /** Long-term debts sum to zero after every completed pass. */
  lemma LongTermSumsToZero(b: Books, tasks: seq<Run>, now: real, period: real)
    requires OutcomeOf(b, now, period) == Completed
    ensures Sum(Adjusted(b, tasks, now, period).ps, LongTerm) == 0.0
  {
    hide Sum, Record, CreditedBy, Normalised, Reset, AvgLong, AvgShort;
    var d := Paid(b, tasks, now);
    PaidFacts(b, tasks, now, Record(b, tasks, now - b.start), d);
    hide *;
    NormalSum(b, tasks, now, period, d.ps);
    AvgTimes(Count(d.ps, Intensive), Sum(d.ps, LongTerm), AvgLong(d.ps));
  }

  lemma AvgTimes(n: nat, x: real, avg: real)
    requires n > 0 && avg == x / n as real
    ensures n as real * avg == x
  {
  }

  lemma NormalSum(b: Books, tasks: seq<Run>, now: real, period: real, qs: seq<Account>)
    requires OutcomeOf(b, now, period) == Completed && qs == Paid(b, tasks, now).ps
    ensures Sum(Adjusted(b, tasks, now, period).ps, LongTerm)
            == Sum(qs, LongTerm) - Count(qs, Intensive) as real * AvgLong(qs)
  {
    hide Sum, Count, Paid, AvgLong, AvgShort;
    SumShift(qs, Adjusted(b, tasks, now, period).ps, AvgLong(qs));
  }

  /** And every short-term debt is within a day. */
  lemma ShortTermBounded(b: Books, tasks: seq<Run>, now: real, period: real, i: nat)
    requires OutcomeOf(b, now, period) == Completed && i < |b.ps| && !b.ps[i].background
    ensures |Adjusted(b, tasks, now, period).ps| == |b.ps|
    ensures -MAX_STD <= Adjusted(b, tasks, now, period).ps[i].shortTerm <= MAX_STD
  {
    RecordKeepsKinds(b, tasks, now - b.start);
    var qs := Paid(b, tasks, now).ps;
    assert Settled(b, tasks, now).ps[i] == Normal(qs[i], AvgLong(qs), AvgShort(qs));
    hide Sum, Count, Record;
  }

  // ---- When the normalisation changes nothing -----------------------------------------------------

  function ActiveShare(a: Account): real { if Active(a) then a.share else 0.0 }

  function Wall(a: Account): real { a.wall }

  /** The wall time of background projects, and the share that it brings into prrs. */
  function BackgroundWall(a: Account): real { if a.background then a.wall else 0.0 }

  function BackgroundShare(a: Account): real { if a.background && !a.potential && a.wall != 0.0 then a.share else 0.0 }

  lemma {:induction false} SumPlus(ps: seq<Account>, f: Account -> real, g: Account -> real, h: Account -> real)
    requires forall i :: 0 <= i < |ps| ==> f(ps[i]) == g(ps[i]) + h(ps[i])
    ensures Sum(ps, f) == Sum(ps, g) + Sum(ps, h)
  {
    if ps != [] { SumPlus(ps[..|ps| - 1], f, g, h); }
  }

  /** Multiplication, hidden where only its laws matter. */
  function Times(a: real, x: real): real { a * x }

  lemma TimesSum(a: real, b: real, x: real)
    ensures Times(a + b, x) == Times(a, x) + Times(b, x) && Times(0.0, x) == 0.0
  {
    TimesPlus(a, b, x);
  }

  /** One pass adds to the sum of the long-term debts what is entitled, and takes what was used. */
  lemma {:induction false} CreditSum(ps: seq<Account>, qs: seq<Account>, x: real, prrs: real, rrs: real, total: real)
    requires |qs| == |ps| && forall i :: 0 <= i < |ps| ==> qs[i] == Credit(ps[i], prrs, rrs, total)
    requires prrs != 0.0 && x == Div(total, prrs)
    ensures Sum(qs, LongTerm) == Sum(ps, LongTerm) + Times(Sum(ps, ActiveShare), x) - Sum(ps, Used)
  {
    hide Times, Div, Credit, ActiveShare, Used, LongTerm;
    if ps == [] {
      TimesSum(0.0, 0.0, x);
    } else {
      var n := |ps| - 1;
      CreditSum(ps[..n], qs[..n], x, prrs, rrs, total);
      CreditOne(ps[n], x, prrs, rrs, total);
      SumLast(ps, LongTerm);
      SumLast(qs, LongTerm);
      SumLast(ps, ActiveShare);
      SumLast(ps, Used);
      hide Sum;
      TimesSum(Sum(ps[..n], ActiveShare), ActiveShare(ps[n]), x);
    }
  }

  lemma SumLast(ps: seq<Account>, f: Account -> real)
    requires ps != []
    ensures Sum(ps, f) == Sum(ps[..|ps| - 1], f) + f(ps[|ps| - 1])
  {
  }

  lemma CreditOne(a: Account, x: real, prrs: real, rrs: real, total: real)
    requires prrs != 0.0 && x == Div(total, prrs)
    ensures LongTerm(Credit(a, prrs, rrs, total)) == LongTerm(a) + Times(ActiveShare(a), x) - Used(a)
  {
    DivTimes(a.share, prrs, total);
  }

  lemma CreditedSum(c: Books)
    requires Sum(c.ps, Potential) != 0.0
    ensures Sum(Credited(c.ps, c.total), LongTerm)
         == Sum(c.ps, LongTerm) + Sum(c.ps, ActiveShare) * (c.total / Sum(c.ps, Potential)) - Sum(c.ps, Used)
  {
    hide Sum, Count;
    var prrs := Sum(c.ps, Potential);
    CreditSum(c.ps, Credited(c.ps, c.total), Div(c.total, prrs), prrs, Sum(c.ps, Running), c.total);
  }

  lemma Cross(l: real, a: real, t: real, p: real, u: real)
    requires p != 0.0
    ensures l + a * (t / p) - u == 0.0 <==> l * p + a * t == p * u
  {
    var q := t / p;
    assert q * p == t;
    assert (l + a * q - u) * p == l * p + a * (q * p) - u * p;
    if l + a * q - u != 0.0 { NotZero(l + a * q - u, p); }
  }

  lemma NotZero(x: real, y: real)
    requires x != 0.0 && y != 0.0
    ensures x * y != 0.0
  {
  }

  lemma AvgIs(qs: seq<Account>)
    ensures Count(qs, Intensive) > 0 ==> AvgLong(qs) == Sum(qs, LongTerm) / Count(qs, Intensive) as real
  {
  }

  lemma AvgZero(n: nat, x: real)
    requires n > 0
    ensures x / n as real == 0.0 <==> x == 0.0
  {
  }

  lemma AvgIdle(c: Books)
    requires Count(c.ps, Intensive) > 0
    ensures AvgLong(Credited(c.ps, c.total)) == 0.0 <==> Sum(Credited(c.ps, c.total), LongTerm) == 0.0
  {
    CreditKeepsKinds(c.ps, c.total);
    AvgIs(Credited(c.ps, c.total));
    hide *;
    AvgZero(Count(c.ps, Intensive), Sum(Credited(c.ps, c.total), LongTerm));
  }

  /** The normalisation of the long-term debts changes nothing, exactly if what the CPU-intensive
      projects are entitled to and what is owed already make up what they used; `c` are any books
      after the tasks have been recorded. */
  lemma NormalisationEffect(c: Books)
    requires Count(c.ps, Intensive) > 0 && Sum(c.ps, Potential) != 0.0
    ensures AvgLong(Credited(c.ps, c.total)) == 0.0 <==>
            Sum(c.ps, LongTerm) * Sum(c.ps, Potential) + Sum(c.ps, ActiveShare) * c.total
                == Sum(c.ps, Potential) * Sum(c.ps, Used)
  {
    hide *;
    AvgIdle(c);
    CreditedSum(c);
    Cross(Sum(c.ps, LongTerm), Sum(c.ps, ActiveShare), c.total, Sum(c.ps, Potential), Sum(c.ps, Used));
  }

  /** From debts that sum to zero. */
  lemma NormalisationIdle(c: Books)
    requires Count(c.ps, Intensive) > 0 && Sum(c.ps, LongTerm) == 0.0 && Sum(c.ps, Potential) != 0.0
    ensures AvgLong(Credited(c.ps, c.total)) == 0.0 <==>
            Sum(c.ps, ActiveShare) * c.total == Sum(c.ps, Potential) * Sum(c.ps, Used)
  {
    hide *;
    NormalisationEffect(c);
    assert Sum(c.ps, LongTerm) * Sum(c.ps, Potential) == 0.0;
  }

  /** If all projects with recorded wall time are still attached: exactly if background projects
      hold the same part of the wall time as of the shares. */
  lemma BackgroundBalance(c: Books)
    requires Count(c.ps, Intensive) > 0 && Sum(c.ps, LongTerm) == 0.0 && Sum(c.ps, Potential) != 0.0
    requires c.total == Sum(c.ps, Wall)
    ensures AvgLong(Credited(c.ps, c.total)) == 0.0 <==>
            Sum(c.ps, ActiveShare) * Sum(c.ps, BackgroundWall) == Sum(c.ps, BackgroundShare) * Sum(c.ps, Used)
  {
    hide Sum, Count, AvgLong, Credited;
    SumPlus(c.ps, Potential, ActiveShare, BackgroundShare);
    SumPlus(c.ps, Wall, Used, BackgroundWall);
    hide *;
    NormalisationIdle(c);
    Balance(Sum(c.ps, ActiveShare), Sum(c.ps, BackgroundShare), Sum(c.ps, Potential), Sum(c.ps, Used),
        Sum(c.ps, BackgroundWall), c.total);
  }

  lemma Balance(a: real, b: real, p: real, u: real, w: real, t: real)
    requires p == a + b && t == u + w
    ensures a * t == p * u <==> a * w == b * u
  {
    assert a * (u + w) == a * u + a * w && (a + b) * u == a * u + b * u;
  }

  /** Books at the start of an interval: no wall time recorded, no debts. */
  predicate Blank(b: Books) {
    b.total == 0.0 && forall i :: 0 <= i < |b.ps| ==> b.ps[i].wall == 0.0 && b.ps[i].longTerm == 0.0
  }

  lemma TwoFinish(a: Account, b: Account)
    requires a.wall == 0.0 && b.wall == 0.0
    ensures RunAll(Books([a, b], 0.0, 0.0), [Finish(0, 10.0)] + [Finish(1, 10.0)])
         == Books([a.(wall := 10.0), b.(wall := 10.0)], 20.0, 0.0)
  {
    var c := Books([a, b], 0.0, 0.0);
    var es := [Finish(0, 10.0)] + [Finish(1, 10.0)];
    assert RunAll(c, []) == c && [Finish(0, 10.0)][..0] == [] && es[..1] == [Finish(0, 10.0)];
    var d := Books([a.(wall := 10.0), b], 10.0, 0.0);
    assert RunAll(c, [Finish(0, 10.0)]) == Apply(c, Finish(0, 10.0)) == d;
    assert RunAll(c, es) == Apply(d, Finish(1, 10.0));
  }

  /** app_finished records the wall time of background tasks too; then the normalisation takes
      from projects what they did not use: two tasks finish in a fresh interval. */
  lemma BackgroundTaskUpsets() returns (b: Books, c: Books)
    ensures Blank(b) && c == RunAll(b, [Finish(0, 10.0)] + [Finish(1, 10.0)])
    ensures Count(c.ps, Intensive) > 0 && Sum(c.ps, LongTerm) == 0.0 && c.total == Sum(c.ps, Wall)
    ensures AvgLong(Credited(c.ps, c.total)) != 0.0
  {
    var p := Account(false, 100.0, true, true, 0.0, 0.0, 0.0, 10.0);
    var q := Account(true, 100.0, true, true, 0.0, 0.0, 0.0, 10.0);
    b := Books([p.(wall := 0.0), q.(wall := 0.0)], 0.0, 0.0);
    c := Books([p, q], 20.0, 0.0);
    TwoFinish(p.(wall := 0.0), q.(wall := 0.0));
    hide RunAll;
    SumPair(p, q, LongTerm);
    SumPair(p, q, Wall);
    SumPair(p, q, Potential);
    SumPair(p, q, ActiveShare);
    SumPair(p, q, Used);
    SumPair(p, q, BackgroundWall);
    SumPair(p, q, BackgroundShare);
    assert Count([p, q], Intensive) == Count([p], Intensive) && Count([p], Intensive) == 1 by {
      assert [p, q][..1] == [p];
    }
    BackgroundBalance(c);
  }

  lemma SumPair(p: Account, q: Account, f: Account -> real)
    ensures Sum([p, q], f) == f(p) + f(q)
  {
    assert [p, q][..1] == [p] && Sum([p], f) == Sum([], f) + f(p);
  }

  // ---- Over whole runs ---------------------------------------------------------------------------

  /** All recorded wall time belongs to CPU-intensive projects, and shares are positive. */
  ghost predicate Sound(b: Books) {
    && b.total == Sum(b.ps, Used)
    && (forall i :: 0 <= i < |b.ps| ==> if b.ps[i].background then b.ps[i].wall == 0.0 else b.ps[i].share > 0.0)
  }

  /** A task of project `p` finishes; a call of adjust_debts; a project becomes able or unable to
      run or to ask for work. */
  datatype Event =
    | Finish(p: nat, now: real)
    | Adjust(tasks: seq<Run>, now: real, period: real)
    | Change(q: nat, runnable: bool, potential: bool)

  ghost function Apply(b: Books, e: Event): (c: Books)
    ensures |c.ps| == |b.ps|
  {
    match e
    case Finish(p, now) => if p < |b.ps| then Charge(b, p, now - b.start) else b
    case Adjust(tasks, now, period) => Adjusted(b, tasks, now, period)
    case Change(q, r, m) => if q < |b.ps| then b.(ps := b.ps[q := b.ps[q].(runnable := r, potential := m)]) else b
  }

  /** Only tasks of CPU-intensive projects finish. */
  ghost predicate NoBackground(ps: seq<Account>, e: Event) { e.Finish? ==> e.p < |ps| && !ps[e.p].background }

  /** What project `i` was entitled to less what it used, in one event. */
  ghost function Earned(b: Books, e: Event, i: nat): real
    requires i < |b.ps|
  {
    if e.Adjust? && OutcomeOf(b, e.now, e.period) == Completed then
      var c := Record(b, e.tasks, e.now - b.start);
      Entitled(c.ps[i], Sum(c.ps, Potential), c.total) - Used(c.ps[i])
    else 0.0
  }

  ghost function RunAll(b: Books, es: seq<Event>): (c: Books)
    ensures |c.ps| == |b.ps|
  {
    if es == [] then b else Apply(RunAll(b, es[..|es| - 1]), es[|es| - 1])
  }

  ghost function EarnedAll(b: Books, es: seq<Event>, i: nat): real
    requires i < |b.ps|
  {
    if es == [] then 0.0
    else EarnedAll(b, es[..|es| - 1], i) + Earned(RunAll(b, es[..|es| - 1]), es[|es| - 1], i)
  }

  lemma {:induction false} SumUpdate(ps: seq<Account>, i: nat, a: Account, f: Account -> real)
    requires i < |ps|
    ensures Sum(ps[i := a], f) == Sum(ps, f) + f(a) - f(ps[i])
  {
    var n := |ps| - 1;
    if i == n {
      assert ps[i := a][..n] == ps[..n];
    } else {
      SumUpdate(ps[..n], i, a, f);
      assert ps[i := a][..n] == ps[..n][i := a];
    }
  }

  lemma {:induction false} RecordSound(b: Books, tasks: seq<Run>, wall: real)
    requires Sound(b)
    ensures Sound(Record(b, tasks, wall))
  {
    if tasks != [] {
      var t := tasks[|tasks| - 1];
      var c := Record(b, tasks[..|tasks| - 1], wall);
      RecordSound(b, tasks[..|tasks| - 1], wall);
      if t.project < |c.ps| { SumUpdate(c.ps, t.project, c.ps[t.project].(wall := c.ps[t.project].wall + wall), Used); }
    }
  }

  lemma {:induction false} NoneUsed(ps: seq<Account>)
    requires forall i :: 0 <= i < |ps| ==> !Active(ps[i])
    ensures Sum(ps, Used) == 0.0
  {
    if ps != [] { NoneUsed(ps[..|ps| - 1]); }
  }

  lemma {:induction false} PrrsPositive(ps: seq<Account>)
    requires forall i :: 0 <= i < |ps| ==> if ps[i].background then ps[i].wall == 0.0 else ps[i].share > 0.0
    ensures Sum(ps, Potential) >= 0.0 && Sum(ps, Potential) == Sum(ps, ActiveShare)
    ensures Sum(ps, Potential) == 0.0 ==> forall i :: 0 <= i < |ps| ==> !Active(ps[i])
  {
    if ps != [] { PrrsPositive(ps[..|ps| - 1]); }
  }

  /** With sound books the normalisation of the long-term debts changes nothing. */
  lemma SoundIdle(c: Books)
    requires Sound(c) && Sum(c.ps, LongTerm) == 0.0
    ensures Sum(Credited(c.ps, c.total), LongTerm) == 0.0
    ensures AvgLong(Credited(c.ps, c.total)) == 0.0
  {
    hide Sum, Count;
    PrrsPositive(c.ps);
    var prrs := Sum(c.ps, Potential);
    if prrs == 0.0 {
      NoneUsed(c.ps);
      SumSame(c.ps, Credited(c.ps, c.total), LongTerm, LongTerm);
    } else {
      CreditSum(c.ps, Credited(c.ps, c.total), Div(c.total, prrs), prrs, Sum(c.ps, Running), c.total);
      DivTimes(0.0, prrs, c.total);
    }
    ZeroAvg(Count(Credited(c.ps, c.total), Intensive) as real);
  }

  lemma ZeroAvg(n: real)
    ensures Div(0.0, n) == 0.0
  {
  }

  // ---- Detaching in the middle of an interval ---------------------------------------------------

  /** The books when project `p` has been erased: its recorded wall time stays in the total, its
      debt goes with it. */
  ghost function Erased(b: Books, p: nat): Books
    requires p < |b.ps|
  {
    b.(ps := b.ps[..p] + b.ps[p + 1..])
  }

  lemma {:induction false} SumErase(ps: seq<Account>, p: nat, f: Account -> real)
    requires p < |ps|
    ensures Sum(ps[..p] + ps[p + 1..], f) + f(ps[p]) == Sum(ps, f)
  {
    var n := |ps| - 1;
    var rest := ps[..p] + ps[p + 1..];
    if p == n {
      assert rest == ps[..n];
    } else {
      SumErase(ps[..n], p, f);
      assert rest[..n - 1] == ps[..n][..p] + ps[..n][p + 1..] && rest[n - 1] == ps[n];
    }
  }

  lemma IdleErased(l: real, t: real, p: real, u: real, x: real, y: real)
    requires p != 0.0 && l + x == 0.0 && u + y == t
    ensures l * p + p * t == p * u <==> y == x
  {
    assert l * p + p * t - p * u == p * (y - x);
    if y != x { NotZero(p, y - x); }
  }

  /** From sound books in balance: in the pass after a CPU-intensive project has been detached, the
      normalisation changes no long-term debt, exactly if the debt of the project was the wall time
      that it had used (or 0 if no other project is active). */
  lemma DetachIdle(c: Books, p: nat)
    requires Sound(c) && Sum(c.ps, LongTerm) == 0.0 && p < |c.ps| && !c.ps[p].background
    requires Count(Erased(c, p).ps, Intensive) > 0
    ensures AvgLong(Credited(Erased(c, p).ps, c.total)) == 0.0 <==>
            c.ps[p].longTerm == if Sum(Erased(c, p).ps, Potential) == 0.0 then 0.0 else c.ps[p].wall
  {
    hide *;
    var d := Erased(c, p);
    ErasedSums(c, p);
    AvgIdle(d);
    if Sum(d.ps, Potential) != 0.0 {
      NormalisationEffect(d);
      IdleErased(Sum(d.ps, LongTerm), c.total, Sum(d.ps, Potential), Sum(d.ps, Used), c.ps[p].longTerm, c.ps[p].wall);
    }
  }

  lemma ErasedSums(c: Books, p: nat)
    requires Sound(c) && Sum(c.ps, LongTerm) == 0.0 && p < |c.ps| && !c.ps[p].background
    ensures var d := Erased(c, p);
            d.total == c.total && Sum(d.ps, LongTerm) + c.ps[p].longTerm == 0.0
                && Sum(d.ps, Used) + c.ps[p].wall == c.total
            && Sum(d.ps, Potential) == Sum(d.ps, ActiveShare)
            && (Sum(d.ps, Potential) == 0.0 ==> Sum(Credited(d.ps, d.total), LongTerm) == Sum(d.ps, LongTerm))
  {
    var d := Erased(c, p);
    assert forall i :: 0 <= i < |d.ps| ==> d.ps[i] == c.ps[if i < p then i else i + 1];
    hide Sum, Count;
    SumErase(c.ps, p, LongTerm);
    SumErase(c.ps, p, Used);
    PrrsPositive(d.ps);
    if Sum(d.ps, Potential) == 0.0 {
      SumSame(d.ps, Credited(d.ps, d.total), LongTerm, LongTerm);
    }
  }

  /** Such books, after two tasks have finished in a fresh interval: without any background project,
      the normalisation takes from the project that is left what the detached one used. */
  lemma DetachUpsets() returns (b: Books, c: Books, p: nat)
    ensures Blank(b) && c == RunAll(b, [Finish(0, 10.0)] + [Finish(1, 10.0)])
    ensures Sound(c) && Sum(c.ps, LongTerm) == 0.0 && p < |c.ps| && !c.ps[p].background
    ensures forall i :: 0 <= i < |c.ps| ==> !c.ps[i].background
    ensures AvgLong(Credited(Erased(c, p).ps, c.total)) != 0.0
  {
    var a := Account(false, 100.0, true, true, 0.0, 0.0, 0.0, 10.0);
    b := Books([a.(wall := 0.0), a.(wall := 0.0)], 0.0, 0.0);
    c, p := Books([a, a], 20.0, 0.0), 1;
    TwoFinish(a.(wall := 0.0), a.(wall := 0.0));
    hide RunAll;
    SumPair(a, a, LongTerm);
    SumPair(a, a, Used);
    assert Erased(c, p).ps == [a];
    assert Sum([a], Potential) == Sum([], Potential) + Potential(a)
        && Count([a], Intensive) == Count([], Intensive) + 1;
    DetachIdle(c, p);
  }

  lemma {:induction false} ResetSound(b: Books, now: real)
    requires forall i :: 0 <= i < |b.ps| ==> b.ps[i].background || b.ps[i].share > 0.0
    ensures Sound(Reset(b, now)) && Sum(Reset(b, now).ps, LongTerm) == Sum(b.ps, LongTerm)
  {
    NoWall(Reset(b, now).ps);
    SumSame(b.ps, Reset(b, now).ps, LongTerm, LongTerm);
  }

  lemma {:induction false} NoWall(ps: seq<Account>)
    requires forall i :: 0 <= i < |ps| ==> ps[i].wall == 0.0
    ensures Sum(ps, Used) == 0.0
  {
    if ps != [] { NoWall(ps[..|ps| - 1]); }
  }

  lemma {:induction false} NoneIntensive(ps: seq<Account>)
    requires Count(ps, Intensive) == 0
    ensures forall i :: 0 <= i < |ps| ==> ps[i].background
    ensures Sum(ps, LongTerm) == 0.0
  {
    if ps != [] { NoneIntensive(ps[..|ps| - 1]); }
  }

  /** Books after an event: sound, in balance, and every long-term debt has changed by exactly what
      the project was entitled to less what it used. */
  ghost predicate Exact(b: Books, e: Event, c: Books)
    requires |c.ps| == |b.ps|
  {
    && Sound(c) && Sum(c.ps, LongTerm) == 0.0
    && (forall i :: 0 <= i < |b.ps| ==> c.ps[i].background == b.ps[i].background)
    && (forall i :: 0 <= i < |b.ps| && !b.ps[i].background ==> c.ps[i].longTerm == b.ps[i].longTerm + Earned(b, e, i))
  }

  lemma CompletedMoves(b: Books, tasks: seq<Run>, now: real, period: real, i: nat)
    requires OutcomeOf(b, now, period) == Completed && i < |b.ps| && !b.ps[i].background
    requires AvgLong(Paid(b, tasks, now).ps) == 0.0
    ensures |Adjusted(b, tasks, now, period).ps| == |b.ps|
    ensures Adjusted(b, tasks, now, period).ps[i].longTerm == b.ps[i].longTerm
            + Earned(b, Adjust(tasks, now, period), i)
  {
    RecordKeepsKinds(b, tasks, now - b.start);
    var c := Record(b, tasks, now - b.start);
    hide Sum, Count, Record, AvgShort, AvgLong;
    assert Paid(b, tasks, now).ps[i] == Credit(c.ps[i], Sum(c.ps, Potential), Sum(c.ps, Running), c.total);
  }

  lemma CompletedKinds(b: Books, tasks: seq<Run>, now: real, period: real)
    requires OutcomeOf(b, now, period) == Completed
    ensures forall i :: 0 <= i < |b.ps| ==>
            Settled(b, tasks, now).ps[i].background == b.ps[i].background
            && Settled(b, tasks, now).ps[i].share == b.ps[i].share
    ensures Adjusted(b, tasks, now, period) == Reset(Settled(b, tasks, now), now)
  {
    RecordKeepsKinds(b, tasks, now - b.start);
    hide Sum, Count, Record, AvgShort, AvgLong;
  }

  lemma CompletedExact(b: Books, tasks: seq<Run>, now: real, period: real)
    requires Sound(b) && Sum(b.ps, LongTerm) == 0.0 && OutcomeOf(b, now, period) == Completed
    ensures Exact(b, Adjust(tasks, now, period), Adjusted(b, tasks, now, period))
  {
    hide Sum, Count, Record, AvgShort, AvgLong, Earned, CreditedBy, Normalised;
    LongTermSumsToZero(b, tasks, now, period);
    RecordKeepsKinds(b, tasks, now - b.start);
    RecordSound(b, tasks, now - b.start);
    var c := Record(b, tasks, now - b.start);
    SumSame(b.ps, c.ps, LongTerm, LongTerm);
    SoundIdle(c);
    CompletedKinds(b, tasks, now, period);
    ResetSound(Settled(b, tasks, now), now);
    forall i | 0 <= i < |b.ps| && !b.ps[i].background
      ensures Adjusted(b, tasks, now, period).ps[i].longTerm == b.ps[i].longTerm
              + Earned(b, Adjust(tasks, now, period), i)
    {
      CompletedMoves(b, tasks, now, period, i);
    }
  }

  lemma NoProjectsExact(b: Books, tasks: seq<Run>, now: real, period: real)
    requires Sound(b) && Sum(b.ps, LongTerm) == 0.0 && OutcomeOf(b, now, period) == NoProjects
    ensures Exact(b, Adjust(tasks, now, period), Adjusted(b, tasks, now, period))
  {
    RecordKeepsKinds(b, tasks, now - b.start);
    RecordSound(b, tasks, now - b.start);
    NoneIntensive(b.ps);
    var c := Record(b, tasks, now - b.start);
    hide Sum, Count, Record;
    assert Credited(c.ps, c.total) == c.ps;
    SumSame(b.ps, c.ps, LongTerm, LongTerm);
  }

  lemma FinishExact(b: Books, p: nat, now: real)
    requires Sound(b) && Sum(b.ps, LongTerm) == 0.0 && p < |b.ps| && !b.ps[p].background
    ensures Exact(b, Finish(p, now), Apply(b, Finish(p, now)))
  {
    var c := Apply(b, Finish(p, now));
    SumUpdate(b.ps, p, c.ps[p], Used);
    SumSame(b.ps, c.ps, LongTerm, LongTerm);
    hide Sum;
  }

  lemma ChangeExact(b: Books, q: nat, r: bool, m: bool)
    requires Sound(b) && Sum(b.ps, LongTerm) == 0.0
    ensures Exact(b, Change(q, r, m), Apply(b, Change(q, r, m)))
  {
    var c := Apply(b, Change(q, r, m));
    SumSame(b.ps, c.ps, Used, Used);
    SumSame(b.ps, c.ps, LongTerm, LongTerm);
    hide Sum;
  }

  lemma IgnoredExact(b: Books, tasks: seq<Run>, now: real, period: real)
    requires Sound(b) && Sum(b.ps, LongTerm) == 0.0 && OutcomeOf(b, now, period) in {TooShort, TooLong}
    ensures Exact(b, Adjust(tasks, now, period), Adjusted(b, tasks, now, period))
  {
    ResetSound(b, now);
    hide Sum, Record, Sound;
  }

  lemma ApplyExact(b: Books, e: Event)
    requires Sound(b) && Sum(b.ps, LongTerm) == 0.0 && NoBackground(b.ps, e)
    ensures Exact(b, e, Apply(b, e))
  {
    hide Sum, Sound, Exact, Adjusted, OutcomeOf;
    match e
    case Finish(p, now) => FinishExact(b, p, now);
    case Change(q, r, m) => ChangeExact(b, q, r, m);
    case Adjust(tasks, now, period) =>
      match OutcomeOf(b, now, period)
      case NoProjects => NoProjectsExact(b, tasks, now, period);
      case Completed => CompletedExact(b, tasks, now, period);
      case _ => IgnoredExact(b, tasks, now, period);
  }

  /** Over any run from sound books in balance, the normalisation never changes a long-term debt:
      each one moves by exactly the share of the wall time that the project was entitled to less
      the wall time that it used. */
  lemma {:induction false} RunExact(b: Books, es: seq<Event>)
    requires Sound(b) && Sum(b.ps, LongTerm) == 0.0 && forall k :: 0 <= k < |es| ==> NoBackground(b.ps, es[k])
    ensures Sound(RunAll(b, es)) && Sum(RunAll(b, es).ps, LongTerm) == 0.0
    ensures forall i :: 0 <= i < |b.ps| ==> RunAll(b, es).ps[i].background == b.ps[i].background
    ensures forall i :: 0 <= i < |b.ps| && !b.ps[i].background ==>
            RunAll(b, es).ps[i].longTerm == b.ps[i].longTerm + EarnedAll(b, es, i)
  {
    hide Sum, Sound, Apply, Earned;
    if es != [] {
      RunExact(b, es[..|es| - 1]);
      assert NoBackground(b.ps, es[|es| - 1]);
      ApplyExact(RunAll(b, es[..|es| - 1]), es[|es| - 1]);
    }
  }
}
