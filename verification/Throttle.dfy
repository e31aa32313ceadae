/** The CPU usage limit of CLIENT_STATE::check_suspend_processing (client/cs_prefs.C). */
module Throttle {

  const POLL_INTERVAL: real := 1.0

  /** The static variables last_time and debt. */
  datatype Meter = Meter(lastTime: real, debt: real)

  /** A poll: the time, and cpu_usage_limit in percent. */
  datatype Poll = Poll(now: real, limit: real)

  /** The time since the last poll counts if it is neither too short nor too long. */
  predicate Counted(m: Meter, p: Poll) {
    p.limit != 100.0 && POLL_INTERVAL / 2.0 <= p.now - m.lastTime < POLL_INTERVAL * 10.0
  }

  /** That percentage of a time. */
  function Part(x: real, limit: real): real { x * limit / 100.0 }

  /** The part of the time since the last poll that the limit allows. */
  function Allowed(m: Meter, p: Poll): real {
    if Counted(m, p) then Part(p.now - m.lastTime, p.limit) else 0.0
  }

  /** The poll asks for a pause. */
  predicate Pauses(m: Meter, p: Poll) { Counted(m, p) && m.debt + Allowed(m, p) < 0.0 }

  /** The part of the time since the last poll that is charged as running. */
  function Charged(m: Meter, p: Poll): real {
    if Counted(m, p) && !Pauses(m, p) then p.now - m.lastTime else 0.0
  }

  function After(m: Meter, p: Poll): Meter {
    if p.limit == 100.0 then m else Meter(p.now, m.debt + Allowed(m, p) - Charged(m, p))
  }

  class Limiter {
    var lastTime: real
    var debt: real

    ghost function Get(): Meter
      reads this
    {
      Meter(lastTime, debt)
    }

    method CheckUsageLimit(now: real, limit: real) returns (pause: bool)
      modifies this
      ensures Get() == After(old(Get()), Poll(now, limit)) && pause == Pauses(old(Get()), Poll(now, limit))
      // In numbers: an interval of half a second up to ten seconds counts.
      ensures lastTime == (if limit == 100.0 then old(lastTime) else now)
      ensures limit == 100.0 || now - old(lastTime) < 0.5 || now - old(lastTime) >= 10.0 ==> !pause && debt == old(debt)
      ensures limit != 100.0 && 0.5 <= now - old(lastTime) < 10.0 ==>
                && (pause <==> old(debt) + (now - old(lastTime)) * limit / 100.0 < 0.0)
                && debt == old(debt) + (now - old(lastTime)) * limit / 100.0
                           - (if pause then 0.0 else now - old(lastTime))
    {
      pause := false;
      if limit != 100.0 {
        var diff := now - lastTime;
        lastTime := now;
        if diff >= POLL_INTERVAL / 2.0 && diff < POLL_INTERVAL * 10.0 {
          debt := debt + diff * limit / 100.0;
          if debt < 0.0 {
            return true;
          } else {
            debt := debt - diff;
          }
        }
      }
    }
  }

  // ---- What every poll keeps -----------------------------------------------------------

  /** The accumulator stays within ten seconds below zero. */
  predicate Inv(m: Meter) { -POLL_INTERVAL * 10.0 < m.debt <= 0.0 }

  lemma PartOf(x: real, limit: real)
    requires x >= 0.0 && 0.0 <= limit <= 100.0
    ensures 0.0 <= Part(x, limit) <= x
  {
    assert x * limit <= x * 100.0;
    assert x * limit >= 0.0;
  }

  lemma PollKeeps(m: Meter, p: Poll)
    requires Inv(m) && 0.0 <= p.limit <= 100.0
    ensures Inv(After(m, p)) && After(m, p).debt == m.debt + Allowed(m, p) - Charged(m, p)
  {
    if Counted(m, p) { PartOf(p.now - m.lastTime, p.limit); }
  }

  // ---- Over whole runs --------------------------------------------------------------------

  function Run(m: Meter, ps: seq<Poll>): Meter {
    if ps == [] then m else After(Run(m, ps[..|ps| - 1]), ps[|ps| - 1])
  }

  /** Sums over a run: the time that counts, what the limits allow of it, what is charged. */
  function CountedTime(m: Meter, ps: seq<Poll>): real {
    if ps == [] then 0.0
    else
      var n := Run(m, ps[..|ps| - 1]);
      var p := ps[|ps| - 1];
      CountedTime(m, ps[..|ps| - 1]) + if Counted(n, p) then p.now - n.lastTime else 0.0
  }

  function AllowedTime(m: Meter, ps: seq<Poll>): real {
    if ps == [] then 0.0 else AllowedTime(m, ps[..|ps| - 1]) + Allowed(Run(m, ps[..|ps| - 1]), ps[|ps| - 1])
  }

  function ChargedTime(m: Meter, ps: seq<Poll>): real {
    if ps == [] then 0.0 else ChargedTime(m, ps[..|ps| - 1]) + Charged(Run(m, ps[..|ps| - 1]), ps[|ps| - 1])
  }

  predicate Percent(ps: seq<Poll>) { forall i :: 0 <= i < |ps| ==> 0.0 <= ps[i].limit <= 100.0 }

  lemma {:induction false} RunKeeps(m: Meter, ps: seq<Poll>)
    requires Inv(m) && Percent(ps)
    ensures Inv(Run(m, ps)) && Run(m, ps).debt == m.debt + AllowedTime(m, ps) - ChargedTime(m, ps)
  {
    if ps != [] {
      RunKeeps(m, ps[..|ps| - 1]);
      hide Inv, After, Allowed, Charged;
      PollKeeps(Run(m, ps[..|ps| - 1]), ps[|ps| - 1]);
    }
  }

  /** From a start without debt and for any limits, the time charged as running is at least what
      the limits allow, and less than ten seconds more. */
  lemma ChargedWithinTenSeconds(m: Meter, ps: seq<Poll>)
    requires m.debt == 0.0 && Percent(ps)
    ensures AllowedTime(m, ps) <= ChargedTime(m, ps) < AllowedTime(m, ps) + POLL_INTERVAL * 10.0
  {
    RunKeeps(m, ps);
  }

  /** In any stretch of a run, the two differ by less than ten seconds. */
  lemma StretchWithinTenSeconds(m: Meter, ps: seq<Poll>, qs: seq<Poll>)
    requires m.debt == 0.0 && Percent(ps) && Percent(qs)
    ensures var n := Run(m, ps);
            AllowedTime(n, qs) - POLL_INTERVAL * 10.0 < ChargedTime(n, qs) < AllowedTime(n, qs) + POLL_INTERVAL * 10.0
  {
    RunKeeps(m, ps);
    RunKeeps(Run(m, ps), qs);
  }

  /** Under one limit, what is allowed is that part of the time that counts. */
  lemma {:induction false} FixedLimit(m: Meter, ps: seq<Poll>, limit: real)
    requires forall i :: 0 <= i < |ps| ==> ps[i].limit == limit
    ensures AllowedTime(m, ps) == Part(CountedTime(m, ps), limit)
  {
    Add(0.0, 0.0, limit);
    hide Part, Run;
    if ps != [] {
      var n := Run(m, ps[..|ps| - 1]);
      var p := ps[|ps| - 1];
      FixedLimit(m, ps[..|ps| - 1], limit);
      Add(CountedTime(m, ps[..|ps| - 1]), if Counted(n, p) then p.now - n.lastTime else 0.0, limit);
    }
  }

  lemma Add(x: real, y: real, limit: real)
    ensures Part(x + y, limit) == Part(x, limit) + Part(y, limit) && Part(0.0, limit) == 0.0
  {
    assert (x + y) * limit == x * limit + y * limit;
  }

  function LastPoll(m: Meter, ps: seq<Poll>): real { if ps == [] then m.lastTime else ps[|ps| - 1].now }

  /** Polls under one limit that are half a second up to ten seconds apart. */
  predicate Steady(m: Meter, ps: seq<Poll>, limit: real) {
    ps == []
    || (Steady(m, ps[..|ps| - 1], limit) && ps[|ps| - 1].limit == limit
        && 0.5 <= ps[|ps| - 1].now - LastPoll(m, ps[..|ps| - 1]) < 10.0)
  }

  lemma {:induction false} AllCounts(m: Meter, ps: seq<Poll>, limit: real)
    requires limit != 100.0 && Steady(m, ps, limit)
    ensures CountedTime(m, ps) == LastPoll(m, ps) - m.lastTime && Run(m, ps).lastTime == LastPoll(m, ps)
    ensures forall i :: 0 <= i < |ps| ==> ps[i].limit == limit
  {
    if ps != [] { AllCounts(m, ps[..|ps| - 1], limit); }
  }

  /** All the time between such polls counts: what is charged as running is at least that part of it
      that the limit allows, and less than ten seconds more. */
  lemma SteadyPolls(m: Meter, ps: seq<Poll>, limit: real)
    requires m.debt == 0.0 && 0.0 <= limit < 100.0 && Steady(m, ps, limit)
    ensures var elapsed := LastPoll(m, ps) - m.lastTime;
            elapsed * limit / 100.0 <= ChargedTime(m, ps) < elapsed * limit / 100.0 + 10.0
  {
    hide *;
    AllCounts(m, ps, limit);
    SteadyCharge(m, ps, limit);
    PartIs(LastPoll(m, ps) - m.lastTime, limit);
  }

  lemma SteadyCharge(m: Meter, ps: seq<Poll>, limit: real)
    requires m.debt == 0.0 && 0.0 <= limit < 100.0 && forall i :: 0 <= i < |ps| ==> ps[i].limit == limit
    ensures Part(CountedTime(m, ps), limit) <= ChargedTime(m, ps) < Part(CountedTime(m, ps), limit) + 10.0
  {
    hide CountedTime, ChargedTime, AllowedTime, Run, Part;
    FixedLimit(m, ps, limit);
    ChargedWithinTenSeconds(m, ps);
  }

  lemma PartIs(x: real, limit: real)
    ensures Part(x, limit) == x * limit / 100.0
  {
  }
}
