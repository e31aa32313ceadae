/** Slot directories of tasks: ACTIVE_TASK_SET::is_slot_in_use, get_free_slot and parse
    (client/app.C), and CLIENT_STATE::get_task (client/cpu_sched.C). */
module Slots {

  /** A task: its result, and the number of its slot directory. */
  datatype Task = Task(result: nat, slot: int)

  ghost predicate InUse(ts: seq<Task>, slot: int) { exists i :: 0 <= i < |ts| && ts[i].slot == slot }

  /** No two tasks share a slot. */
  ghost predicate OwnSlots(ts: seq<Task>) { forall i, j :: 0 <= i < j < |ts| ==> ts[i].slot != ts[j].slot }

  /** The slots in use. */
  ghost function SlotsOf(ts: seq<Task>): (s: set<int>)
    ensures |s| <= |ts|
    ensures forall x :: x in s <==> InUse(ts, x)
  {
    if ts == [] then {}
    else
      var rest := SlotsOf(ts[..|ts| - 1]);
      InUseLast(ts);
      rest + {ts[|ts| - 1].slot}
  }

  lemma InUseLast(ts: seq<Task>)
    requires ts != []
    ensures forall x :: InUse(ts, x) <==> InUse(ts[..|ts| - 1], x) || x == ts[|ts| - 1].slot
  {
    var n := |ts| - 1;
    forall x | InUse(ts, x) ensures InUse(ts[..n], x) || x == ts[n].slot {
      var i :| 0 <= i < |ts| && ts[i].slot == x;
      if i < n { assert ts[..n][i].slot == x; }
    }
    forall x | InUse(ts[..n], x) ensures InUse(ts, x) {
      var i :| 0 <= i < n && ts[..n][i].slot == x;
      assert ts[i].slot == x;
    }
  }

  ghost function UpTo(n: nat): (s: set<int>)
    ensures |s| == n && forall x :: x in s <==> 0 <= x < n
  {
    if n == 0 then {} else UpTo(n - 1) + {n - 1}
  }

  /** Among the first |ts| + 1 slots one is free. */
  lemma Pigeonhole(ts: seq<Task>) returns (slot: nat)
    ensures slot <= |ts| && !InUse(ts, slot)
  {
    var free := UpTo(|ts| + 1) - SlotsOf(ts);
    if free == {} {
      Subset(UpTo(|ts| + 1), SlotsOf(ts));
      assert false;
    }
    var x :| x in free;
    slot := x;
  }

  lemma Subset(a: set<int>, b: set<int>)
    requires a - b == {}
    ensures |a| <= |b|
  {
    forall x | x in a ensures x in b { assert !(x in a - b); }
    assert b == a + (b - a);
  }

  class TaskSet {
    var tasks: seq<Task>

    method IsSlotInUse(slot: int) returns (used: bool)
      ensures used <==> InUse(tasks, slot)
    {
      for i := 0 to |tasks|
        invariant forall j :: 0 <= j < i ==> tasks[j].slot != slot
      {
        if tasks[i].slot == slot { return true; }
      }
      used := false;
    }

    /** get_free_slot: the least slot that is not in use and whose directory can be made or
        emptied. Without such a slot the source loops forever; if every directory can be used, the
        slot is at most the number of tasks. */
    method GetFreeSlot(usable: nat -> bool) returns (slot: nat)
      requires exists j: nat :: !InUse(tasks, j) && usable(j)
      ensures !InUse(tasks, slot) && usable(slot)
      ensures forall j: nat :: j < slot ==> InUse(tasks, j) || !usable(j)
      ensures (forall j: nat :: usable(j)) ==> slot <= |tasks|
    {
      ghost var last: nat :| !InUse(tasks, last) && usable(last);
      slot := 0;
      while true
        invariant slot <= last
        invariant forall j: nat :: j < slot ==> InUse(tasks, j) || !usable(j)
        decreases last - slot
      {
        var used := IsSlotInUse(slot);
        if !used && usable(slot) { break; }
        slot := slot + 1;
      }
      ghost var free := Pigeonhole(tasks);
    }

    /** get_task, for a result that has no task yet. */
    method MakeTask(result: nat, usable: nat -> bool)
      requires OwnSlots(tasks) && exists j: nat :: !InUse(tasks, j) && usable(j)
      modifies this
      ensures OwnSlots(tasks) && |tasks| == |old(tasks)| + 1
      ensures tasks[..|old(tasks)|] == old(tasks) && tasks[|old(tasks)|].result == result
      ensures tasks[|old(tasks)|].slot >= 0 && usable(tasks[|old(tasks)|].slot)
      ensures forall j: nat :: j < tasks[|old(tasks)|].slot ==> InUse(old(tasks), j) || !usable(j)
    {
      var slot := GetFreeSlot(usable);
      tasks := tasks + [Task(result, slot)];
    }

    /** parse: of the tasks in the state file, the first one for every slot that is not in use. */
    method Parse(entries: seq<Task>)
      requires OwnSlots(tasks)
      modifies this
      ensures tasks == old(tasks) + Firsts(old(tasks), entries) && OwnSlots(tasks)
      ensures forall k :: 0 <= k < |entries| ==> InUse(tasks, entries[k].slot)
    {
      for k := 0 to |entries|
        invariant OwnSlots(tasks) && tasks == old(tasks) + Firsts(old(tasks), entries[..k])
        invariant forall x :: InUse(tasks, x) <==> InUse(old(tasks), x) || InUse(entries[..k], x)
      {
        var taken := IsSlotInUse(entries[k].slot);
        FirstsNext(old(tasks), entries, k);
        if !taken {
          UsedGrows(tasks, entries[k]);
          tasks := tasks + [entries[k]];
        }
      }
      assert entries[..|entries|] == entries;
    }

    /** A finished task is erased. */
    method EraseTask(i: nat)
      requires OwnSlots(tasks) && i < |tasks|
      modifies this
      ensures OwnSlots(tasks) && tasks == old(tasks)[..i] + old(tasks)[i + 1..]
      ensures !InUse(tasks, old(tasks)[i].slot)
    {
      tasks := tasks[..i] + tasks[i + 1..];
    }
  }

  /** The tasks of the list, in order, that are the first with their slot and whose slot `ts` does
      not use. */
  ghost function Firsts(ts: seq<Task>, entries: seq<Task>): seq<Task> {
    if entries == [] then []
    else
      var t := entries[|entries| - 1];
      Firsts(ts, entries[..|entries| - 1]) + if InUse(ts, t.slot)
          || InUse(entries[..|entries| - 1], t.slot) then [] else [t]
  }

  lemma FirstsNext(ts: seq<Task>, entries: seq<Task>, k: nat)
    requires k < |entries|
    ensures Firsts(ts, entries[..k + 1])
         == Firsts(ts, entries[..k]) + if InUse(ts, entries[k].slot)
             || InUse(entries[..k], entries[k].slot) then [] else [entries[k]]
    ensures forall x :: InUse(entries[..k + 1], x) <==> InUse(entries[..k], x) || x == entries[k].slot
  {
    assert entries[..k + 1][..k] == entries[..k];
    InUseLast(entries[..k + 1]);
  }

  lemma UsedGrows(ts: seq<Task>, t: Task)
    ensures forall x :: InUse(ts + [t], x) <==> InUse(ts, x) || x == t.slot
  {
    assert (ts + [t])[..|ts|] == ts;
    InUseLast(ts + [t]);
  }
}
