/** One call of adjust_debts (client/cpu_sched.C) in plain terms: who is charged for the interval, and
    by how much every debt moves. */
module Passes {
  import opened Debts

  // ---- Who is charged ---------------------------------------------------------------------

  /** How many of the tasks are scheduled and belong to project `i`. */
  function SlicesOf(tasks: seq<Run>, i: nat): nat {
    if tasks == [] then 0
    else
      var t := tasks[|tasks| - 1];
      SlicesOf(tasks[..|tasks| - 1], i) + if t.scheduled && t.project == i then 1 else 0
  }

  /** How many are scheduled and belong to a CPU-intensive project. */
  function SlicesIn(tasks: seq<Run>, ps: seq<Account>): nat {
    if tasks == [] then 0
    else
      var t := tasks[|tasks| - 1];
      SlicesIn(tasks[..|tasks| - 1], ps) + if t.scheduled && t.project < |ps| && !ps[t.project].background then 1 else 0
  }

  /** The wall time of `n` tasks. */
  function Slices(n: nat, wall: real): real { n as real * wall }

  lemma OneMore(n: nat, wall: real)
    ensures Slices(n + 1, wall) == Slices(n, wall) + wall && Slices(0, wall) == 0.0
  {
  }

  /** Every scheduled task charges the interval to its project, if that is CPU-intensive, and to the
      total; nothing else changes. */
  lemma {:induction false} Charges(b: Books, tasks: seq<Run>, wall: real, i: nat)
    requires i < |b.ps|
    ensures var c := Record(b, tasks, wall);
            && c.start == b.start && c.total == b.total + Slices(SlicesIn(tasks, b.ps), wall)
            && var more := if b.ps[i].background then 0.0 else Slices(SlicesOf(tasks, i), wall);
               c.ps[i] == b.ps[i].(wall := b.ps[i].wall + more)
  {
    hide *;
    if tasks == [] {
      NoCharges(b, wall, i);
    } else {
      var front, t := tasks[..|tasks| - 1], tasks[|tasks| - 1];
      Charges(b, front, wall, i);
      RecordKeepsKinds(b, front, wall);
      LastTask(b, tasks, wall, i);
      ChargesNext(b, Record(b, front, wall), t, wall, i, SlicesOf(front, i), SlicesIn(front, b.ps));
    }
  }

  lemma NoCharges(b: Books, wall: real, i: nat)
    ensures Record(b, [], wall) == b && SlicesOf([], i) == 0 && SlicesIn([], b.ps) == 0 && Slices(0, wall) == 0.0
  {
    OneMore(0, wall);
  }

  lemma LastTask(b: Books, tasks: seq<Run>, wall: real, i: nat)
    requires tasks != []
    ensures var front, t := tasks[..|tasks| - 1], tasks[|tasks| - 1];
            && Record(b, tasks, wall) == RecordOne(Record(b, front, wall), t, wall)
            && SlicesOf(tasks, i) == SlicesOf(front, i) + (if t.scheduled && t.project == i then 1 else 0)
            && SlicesIn(tasks, b.ps) == SlicesIn(front, b.ps)
               + (if t.scheduled && t.project < |b.ps| && !b.ps[t.project].background then 1 else 0)
  {
    hide RecordOne;
  }

  lemma ChargesNext(b: Books, c: Books, t: Run, wall: real, i: nat, n: nat, m: nat)
    requires |c.ps| == |b.ps| && i < |b.ps| && c.start == b.start && c.total == b.total + Slices(m, wall)
    requires forall j :: 0 <= j < |b.ps| ==> c.ps[j] == b.ps[j].(wall := c.ps[j].wall)
    requires c.ps[i].wall == b.ps[i].wall + if b.ps[i].background then 0.0 else Slices(n, wall)
    ensures var d := RecordOne(c, t, wall);
            var k := if t.scheduled && t.project == i then 1 else 0;
            var l := if t.scheduled && t.project < |b.ps| && !b.ps[t.project].background then 1 else 0;
            && |d.ps| == |b.ps| && d.start == b.start && d.total == b.total + Slices(m + l, wall)
            && d.ps[i] == b.ps[i].(wall := d.ps[i].wall)
            && d.ps[i].wall == b.ps[i].wall + if b.ps[i].background then 0.0 else Slices(n + k, wall)
  {
    OneMore(n, wall);
    OneMore(m, wall);
    hide Slices;
  }

  // ---- How the debts move --------------------------------------------------------------------

  /** The resource shares of the projects that can run, and of those that the long-term debts of the
      interval are divided among. */
  ghost function RunningShares(ps: seq<Account>): real {
    Sum(ps, (a: Account) => if !a.background && a.runnable then a.share else 0.0)
  }

  ghost function PotentialShares(ps: seq<Account>): real {
    Sum(ps, (a: Account) => if (a.potential && !a.background) || (!a.potential && a.wall != 0.0) then a.share else 0.0)
  }

  /** A short-term debt with the entitlement of the interval less what was used. */
  function ShortAfter(a: Account, shares: real, total: real): real
    requires shares != 0.0
  {
    a.shortTerm + a.share / shares * total - a.wall
  }

  function LongAfter(a: Account, shares: real, total: real): real
    requires shares != 0.0
  {
    if a.potential || a.wall != 0.0 then a.longTerm + a.share / shares * total - a.wall else a.longTerm
  }

  ghost function ShortMean(ps: seq<Account>, shares: real, total: real): real
    requires shares != 0.0 && Count(ps, (a: Account) => !a.background && a.runnable) > 0
  {
    Sum(ps, (a: Account) => if !a.background && a.runnable then ShortAfter(a, shares, total) else 0.0)
    / Count(ps, (a: Account) => !a.background && a.runnable) as real
  }

  ghost function LongMean(ps: seq<Account>, shares: real, total: real): real
    requires shares != 0.0 && Count(ps, (a: Account) => !a.background) > 0
  {
    Sum(ps, (a: Account) => if !a.background then LongAfter(a, shares, total) else 0.0)
    / Count(ps, (a: Account) => !a.background) as real
  }

  function WithinADay(x: real): real { if x > 86400.0 then 86400.0 else if x < -86400.0 then -86400.0 else x }

  lemma {:induction false} CountSame(ps: seq<Account>, qs: seq<Account>, f: Account -> bool, g: Account -> bool)
    requires |ps| == |qs| && forall i :: 0 <= i < |ps| ==> f(ps[i]) == g(qs[i])
    ensures Count(ps, f) == Count(qs, g)
  {
    if ps != [] { CountSame(ps[..|ps| - 1], qs[..|ps| - 1], f, g); }
  }

  lemma {:induction false} CountSome(ps: seq<Account>, f: Account -> bool, i: nat)
    requires i < |ps| && f(ps[i])
    ensures Count(ps, f) > 0
  {
    if i < |ps| - 1 { CountSome(ps[..|ps| - 1], f, i); }
  }

  lemma SharesAre(ps: seq<Account>)
    ensures Sum(ps, Running) == RunningShares(ps) && Sum(ps, Potential) == PotentialShares(ps)
  {
    SumSame(ps, ps, Running, (a: Account) => if !a.background && a.runnable then a.share else 0.0);
    SumSame(ps, ps, Potential,
      (a: Account) => if (a.potential && !a.background) || (!a.potential && a.wall != 0.0) then a.share else 0.0);
  }

  lemma ShortMeanIs(ps: seq<Account>, qs: seq<Account>, rrs: real, prrs: real, total: real)
    requires rrs != 0.0 && Count(ps, (a: Account) => !a.background && a.runnable) > 0
    requires |qs| == |ps| && forall i :: 0 <= i < |ps| ==> qs[i] == Credit(ps[i], prrs, rrs, total)
    ensures AvgShort(qs) == ShortMean(ps, rrs, total)
  {
    CountSame(ps, qs, (a: Account) => !a.background && a.runnable, RunsNow);
    SumSame(ps, qs, (a: Account) => if !a.background && a.runnable then ShortAfter(a, rrs, total) else 0.0, ShortTerm);
    hide Sum, Count;
  }

  lemma LongMeanIs(ps: seq<Account>, qs: seq<Account>, rrs: real, prrs: real, total: real)
    requires prrs != 0.0 && Count(ps, (a: Account) => !a.background) > 0
    requires |qs| == |ps| && forall i :: 0 <= i < |ps| ==> qs[i] == Credit(ps[i], prrs, rrs, total)
    ensures AvgLong(qs) == LongMean(ps, prrs, total)
  {
    CountSame(ps, qs, (a: Account) => !a.background, Intensive);
    SumSame(ps, qs, (a: Account) => if !a.background then LongAfter(a, prrs, total) else 0.0, LongTerm);
    hide Sum, Count;
  }

  lemma SettledIs(b: Books, tasks: seq<Run>, now: real, period: real, i: nat)
    requires OutcomeOf(b, now, period) == Completed && i < |b.ps|
    ensures var c := Record(b, tasks, now - b.start);
            var qs := Credited(c.ps, c.total);
            && |qs| == |c.ps| == |b.ps|
            && (forall j :: 0 <= j < |qs| ==>
                qs[j] == Credit(c.ps[j], Sum(c.ps, Potential), Sum(c.ps, Running), c.total))
            && Adjusted(b, tasks, now, period).ps[i] == Normal(qs[i], AvgLong(qs), AvgShort(qs)).(wall := 0.0)
            && Adjusted(b, tasks, now, period).total == 0.0 && Adjusted(b, tasks, now, period).start == now
  {
    hide Sum, Count, Record, AvgLong, AvgShort;
  }

  lemma KindsStay(b: Books, tasks: seq<Run>, now: real, period: real)
    requires OutcomeOf(b, now, period) == Completed
    ensures Count(Record(b, tasks, now - b.start).ps, (a: Account) => !a.background) > 0
  {
    var c := Record(b, tasks, now - b.start);
    RecordKeepsKinds(b, tasks, now - b.start);
    CountSame(c.ps, c.ps, Intensive, (a: Account) => !a.background);
    hide Count, Record;
  }

  lemma Completes(b: Books, now: real, period: real)
    requires 1.0 <= now - b.start <= period * 2.0 && exists j :: 0 <= j < |b.ps| && !b.ps[j].background
    ensures OutcomeOf(b, now, period) == Completed
  {
    var j :| 0 <= j < |b.ps| && !b.ps[j].background;
    CountSome(b.ps, Intensive, j);
  }

  /** A pass within two scheduling periods, of one second or more, with a CPU-intensive project: a new
      interval starts, projects that cannot run owe and are owed nothing in the short term, and
      background projects are left alone. */
  lemma PassStarts(b: Books, tasks: seq<Run>, now: real, period: real, i: nat)
    requires 1.0 <= now - b.start <= period * 2.0 && i < |b.ps|
    requires exists j :: 0 <= j < |b.ps| && !b.ps[j].background
    ensures var d := Adjusted(b, tasks, now, period);
            && |d.ps| == |b.ps| && d.total == 0.0 && d.start == now && d.ps[i].wall == 0.0
            && d.ps[i].background == b.ps[i].background
            && (b.ps[i].background ==> d.ps[i] == b.ps[i].(wall := 0.0))
            && (!b.ps[i].background && !b.ps[i].runnable ==> d.ps[i].shortTerm == 0.0 && d.ps[i].anticipated == 0.0)
  {
    Completes(b, now, period);
    SettledIs(b, tasks, now, period, i);
    RecordKeepsKinds(b, tasks, now - b.start);
    hide Sum, Count, Record, Adjusted, OutcomeOf, AvgLong, AvgShort, Credited;
  }

  lemma OneProject(a: Account, prrs: real, rrs: real, total: real, avgLong: real, avgShort: real)
    requires !a.background
    ensures var d := Normal(Credit(a, prrs, rrs, total), avgLong, avgShort);
            && (prrs != 0.0 ==> d.longTerm == LongAfter(a, prrs, total) - avgLong)
            && (rrs != 0.0 && a.runnable ==> d.shortTerm == WithinADay(ShortAfter(a, rrs, total) - avgShort))
  {
  }

  /** Its long-term debts: each moves by the share of the recorded wall time less the wall time used,
      all of them less the mean. */
  lemma LongTermMoves(b: Books, tasks: seq<Run>, now: real, period: real, i: nat)
    requires 1.0 <= now - b.start <= period * 2.0 && i < |b.ps| && !b.ps[i].background
    ensures var c := Record(b, tasks, now - b.start);
            var p := PotentialShares(c.ps);
            p != 0.0 ==>
              && Count(c.ps, (x: Account) => !x.background) > 0
              && Adjusted(b, tasks, now, period).ps[i].longTerm
                  == LongAfter(c.ps[i], p, c.total) - LongMean(c.ps, p, c.total)
  {
    hide *;
    Completes(b, now, period);
    var c := Record(b, tasks, now - b.start);
    SettledIs(b, tasks, now, period, i);
    RecordKeepsKinds(b, tasks, now - b.start);
    KindsStay(b, tasks, now, period);
    SharesAre(c.ps);
    var qs := Credited(c.ps, c.total);
    OneProject(c.ps[i], PotentialShares(c.ps), RunningShares(c.ps), c.total, AvgLong(qs), AvgShort(qs));
    if PotentialShares(c.ps) != 0.0 {
      LongMeanIs(c.ps, Credited(c.ps, c.total), RunningShares(c.ps), PotentialShares(c.ps), c.total);
    }
  }

  /** Its short-term debts: likewise for the projects that can run, and none is over a day. */
  lemma ShortTermMoves(b: Books, tasks: seq<Run>, now: real, period: real, i: nat)
    requires 1.0 <= now - b.start <= period * 2.0 && i < |b.ps| && !b.ps[i].background && b.ps[i].runnable
    ensures var c := Record(b, tasks, now - b.start);
            var r := RunningShares(c.ps);
            r != 0.0 ==>
              && Count(c.ps, (x: Account) => !x.background && x.runnable) > 0
              && Adjusted(b, tasks, now, period).ps[i].shortTerm
                 == WithinADay(ShortAfter(c.ps[i], r, c.total) - ShortMean(c.ps, r, c.total))
  {
    hide *;
    Completes(b, now, period);
    var c := Record(b, tasks, now - b.start);
    SettledIs(b, tasks, now, period, i);
    RecordKeepsKinds(b, tasks, now - b.start);
    SharesAre(c.ps);
    var qs := Credited(c.ps, c.total);
    OneProject(c.ps[i], PotentialShares(c.ps), RunningShares(c.ps), c.total, AvgLong(qs), AvgShort(qs));
    CountSome(c.ps, (x: Account) => !x.background && x.runnable, i);
    if RunningShares(c.ps) != 0.0 {
      ShortMeanIs(c.ps, Credited(c.ps, c.total), RunningShares(c.ps), PotentialShares(c.ps), c.total);
    }
  }

  /** All other calls: within a second nothing changes; after more than two periods the recorded wall
      time is dropped; without a CPU-intensive project nothing changes either. */
  lemma OtherCalls(b: Books, tasks: seq<Run>, now: real, period: real)
    ensures now - b.start < 1.0 ==> Adjusted(b, tasks, now, period) == b
    ensures now - b.start >= 1.0 && now - b.start > period * 2.0 ==>
              var d := Adjusted(b, tasks, now, period);
              && d.total == 0.0 && d.start == now && |d.ps| == |b.ps|
              && (forall i :: 0 <= i < |b.ps| ==> d.ps[i] == b.ps[i].(wall := 0.0))
    ensures 1.0 <= now - b.start <= period * 2.0 && (forall i :: 0 <= i < |b.ps| ==> b.ps[i].background) ==>
              Adjusted(b, tasks, now, period) == b
  {
    if 1.0 <= now - b.start <= period * 2.0 && forall i :: 0 <= i < |b.ps| ==> b.ps[i].background {
      NoneThere(b.ps);
      NothingPaid(b, tasks, now);
      hide Count, Paid, Settled;
    }
  }

  lemma {:induction false} NoneThere(ps: seq<Account>)
    requires forall i :: 0 <= i < |ps| ==> ps[i].background
    ensures Count(ps, Intensive) == 0
  {
    if ps != [] { NoneThere(ps[..|ps| - 1]); }
  }

  lemma {:induction false} NothingRecorded(b: Books, tasks: seq<Run>, wall: real)
    requires forall i :: 0 <= i < |b.ps| ==> b.ps[i].background
    ensures Record(b, tasks, wall) == b
  {
    if tasks != [] { NothingRecorded(b, tasks[..|tasks| - 1], wall); }
  }

  lemma NothingPaid(b: Books, tasks: seq<Run>, now: real)
    requires forall i :: 0 <= i < |b.ps| ==> b.ps[i].background
    ensures Paid(b, tasks, now) == b
  {
    NothingRecorded(b, tasks, now - b.start);
    hide Sum, Count, Record;
    assert Credited(b.ps, b.total) == b.ps;
  }
}
