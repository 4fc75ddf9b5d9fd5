/** The process-wide counters, gauges and summaries. */
module Metrics {
  import opened Common

  datatype Counts = Counts(
    tasks: map<string, nat>,
    aborts: map<string, nat>,
    active: nat,
    durationCount: nat,
    durationSum: real)

  const ZERO := Counts(map[], map[], 0, 0, 0.0)

  /** A counter with default 0. */
  function Value(m: map<string, nat>, key: string): nat { if key in m then m[key] else 0 }

  function Bumped(m: map<string, nat>, key: string): map<string, nat> { m[key := Value(m, key) + 1] }

  lemma BumpAddsOne(m: map<string, nat>, key: string)
    ensures Sum(Bumped(m, key)) == Sum(m) + 1
  {
    SumUpdate(m, key, Value(m, key) + 1);
  }

  // ---------- the gauge ----------

  datatype Change = Inc | Dec

  /** The gauge after a sequence of changes, clipped at zero by every decrement. */
  function Gauge(changes: seq<Change>): nat {
    if changes == [] then 0
    else
      var before := Gauge(changes[..|changes| - 1]);
      if changes[|changes| - 1].Inc? then before + 1 else Max(0, before - 1)
  }

  /** Increments minus decrements. */
  function Net(changes: seq<Change>): int {
    if changes == [] then 0 else Net(changes[..|changes| - 1]) + if changes[|changes| - 1].Inc? then 1 else -1
  }

  /** At no point were there more decrements than increments. */
  predicate NeverBelow(changes: seq<Change>) { forall k :: 0 <= k <= |changes| ==> Net(changes[..k]) >= 0 }

  /** The clip hides surplus decrements: the gauge is the true difference exactly when there never were any,
      and too high otherwise. */
  lemma {:induction false} GaugeIsNetIff(changes: seq<Change>)
    ensures Gauge(changes) >= Net(changes)
    ensures Gauge(changes) == Net(changes) <==> NeverBelow(changes)
  {
    if changes == [] {
      assert changes[..0] == [];
    } else {
      var n := |changes| - 1;
      var before := changes[..n];
      GaugeIsNetIff(before);
      assert changes[..n + 1] == changes;
      assert forall k :: 0 <= k <= n ==> changes[..k] == before[..k];
      if NeverBelow(before) && Net(changes) >= 0 {
        assert NeverBelow(changes);
      } else if !NeverBelow(before) {
        var k :| 0 <= k <= n && Net(before[..k]) < 0;
        assert Net(changes[..k]) < 0;
      } else {
        assert Net(changes[..n + 1]) < 0;
      }
    }
  }

  class Registry {
    var taskCount: map<string, nat>
    var abortCount: map<string, nat>
    var activeTasks: int
    var taskDurationCount: nat
    var taskDurationSum: real

    predicate Valid()
      reads this
    {
      activeTasks >= 0
    }

    function View(): Counts
      requires Valid()
      reads this
    {
      Counts(taskCount, abortCount, activeTasks, taskDurationCount, taskDurationSum)
    }

    constructor ()
      ensures Valid() && View() == ZERO
    {
      taskCount, abortCount, activeTasks, taskDurationCount, taskDurationSum := map[], map[], 0, 0, 0.0;
    }

    method IncActiveTasks()
      requires Valid()
      modifies this
      ensures Valid() && View() == old(View()).(active := old(View()).active + 1)
    {
      activeTasks := activeTasks + 1;
    }

    method DecActiveTasks()
      requires Valid()
      modifies this
      ensures Valid() && View() == old(View()).(active := Max(0, old(View()).active - 1))
    {
      activeTasks := Max(0, activeTasks - 1);
    }

    method IncTaskCount(status: string)
      requires Valid()
      modifies this
      ensures Valid() && View() == old(View()).(tasks := Bumped(old(View()).tasks, status))
      ensures Sum(View().tasks) == old(Sum(View().tasks)) + 1
    {
      BumpAddsOne(taskCount, status);
      taskCount := taskCount[status := Value(taskCount, status) + 1];
    }

    method IncAbortCount(reason: string)
      requires Valid()
      modifies this
      ensures Valid() && View() == old(View()).(aborts := Bumped(old(View()).aborts, reason))
      ensures Sum(View().aborts) == old(Sum(View().aborts)) + 1
    {
      BumpAddsOne(abortCount, reason);
      abortCount := abortCount[reason := Value(abortCount, reason) + 1];
    }

    method ObserveTaskDuration(seconds: real)
      requires Valid()
      modifies this
      ensures Valid()
      ensures View() == old(View()).(durationCount := old(View()).durationCount + 1,
                                     durationSum := old(View()).durationSum + seconds)
    {
      taskDurationSum := taskDurationSum + seconds;
      taskDurationCount := taskDurationCount + 1;
    }
  }
}
