/** The event table with its lock dictionary as a mutable object.  Each method is one stretch of code and
    refines a step of `EventLog`. */
module EventStore {
  import opened EventLog
  import S = SseSession

  class Repo {
    var tables: map<TaskId, seq<Row>>
    /** The dictionary `_event_locks`. */
    var locks: map<TaskId, LockId>
    var holders: map<LockId, CallId>
    var lockCount: nat
    var calls: map<CallId, Call>
    ghost var lockTask: map<LockId, TaskId>

    ghost function Snapshot(): State
      reads this
    {
      State(tables, locks, holders, lockTask, lockCount, calls)
    }

    constructor ()
      ensures Snapshot() == INITIAL
    {
      tables, locks, holders, lockCount, calls, lockTask := map[], map[], map[], 0, map[], map[];
    }

    method GetEventLock(t: TaskId) returns (lock: LockId)
      modifies this`locks, this`lockCount, this`lockTask
      ensures (Snapshot(), lock) == GetLock(old(Snapshot()), t)
    {
      if t in locks {
        lock := locks[t];
      } else {
        lock := lockCount;
        lockCount := lockCount + 1;
        locks := locks[t := lock];
        lockTask := lockTask[lock := t];
      }
    }

    method DiscardTaskLocks(t: TaskId)
      modifies this`locks
      ensures Snapshot() == Do(old(Snapshot()), Discard(t))
    {
      locks := locks - {t};
    }

    /** Up to the suspension in `lock.acquire()`. */
    method EnterInsert(c: CallId, job: Job)
      requires c !in calls
      modifies this
      ensures Snapshot() == Do(old(Snapshot()), Begin(c, job))
    {
      var lock := GetEventLock(job.task);
      calls := calls[c := Call(job, lock, Waiting)];
    }

    method TakeLock(c: CallId)
      requires Enabled(Snapshot(), Acquire(c))
      modifies this
      ensures Snapshot() == Do(old(Snapshot()), Acquire(c))
    {
      holders := holders[calls[c].lock := c];
      calls := calls[c := calls[c].(pc := Holding)];
    }

    method NextEventId(c: CallId)
      requires Enabled(Snapshot(), ReadMax(c))
      modifies this`calls
      ensures Snapshot() == Do(old(Snapshot()), ReadMax(c))
    {
      var t := calls[c].job.task;
      var max := MaxId(if t in tables then tables[t] else []);
      calls := calls[c := calls[c].(pc := HasId(max + 1))];
    }

    /** The INSERT statement under UNIQUE (task_id, event_id); a violation releases the lock and raises. */
    method InsertRow(c: CallId) returns (ok: bool)
      requires Enabled(Snapshot(), Insert(c))
      modifies this
      ensures Snapshot() == Do(old(Snapshot()), Insert(c))
      ensures c in calls && ok == calls[c].pc.Inserted?
    {
      var job, id := calls[c].job, calls[c].pc.id;
      var rows := if job.task in tables then tables[job.task] else [];
      var taken := UniqueViolated(rows, id);
      ok := !taken;
      if ok {
        tables := tables[job.task := rows + [Row(id, job.kind, job.payload)]];
        calls := calls[c := calls[c].(pc := Inserted(id))];
      } else {
        holders := holders - {calls[c].lock};
        calls := calls[c := calls[c].(pc := Raised)];
      }
    }

    static method UniqueViolated(rows: seq<Row>, id: int) returns (taken: bool)
      ensures taken == Taken(rows, id)
    {
      for i := 0 to |rows|
        invariant forall j :: 0 <= j < i ==> rows[j].eventId != id
      {
        if rows[i].eventId == id {
          return true;
        }
      }
      return false;
    }

    /** Release the lock; the caller notifies the bus in the same stretch. */
    method LeaveInsert(c: CallId)
      requires Enabled(Snapshot(), Finish(c))
      modifies this
      ensures Snapshot() == Do(old(Snapshot()), Finish(c))
    {
      holders := holders - {calls[c].lock};
      calls := calls[c := calls[c].(pc := Returned(calls[c].pc.id))];
    }

    /** `insert_event` without interference: the row gets the next id and the lock is free again. */
    method InsertEvent(c: CallId, job: Job) returns (id: int)
      requires Inv(Snapshot()) && c !in calls
      requires job.task in locks ==> locks[job.task] !in holders
      modifies this
      ensures Appended(old(Snapshot()), Snapshot(), c, job)
      ensures id == |old(Rows(Snapshot(), job.task))| + 1
    {
      UncontendedRead(Snapshot(), c, job);
      ReachInsert(c, job);
      UncontendedWrite(old(Snapshot()), Snapshot(), c, job);
      var ok := InsertRow(c);
      id := calls[c].pc.id;
      LeaveInsert(c);
    }

    /** From the lookup of a free lock to the read of MAX. */
    method ReachInsert(c: CallId, job: Job)
      requires Enabled(Snapshot(), Begin(c, job)) && Enabled(Do(Snapshot(), Begin(c, job)), Acquire(c))
      requires Enabled(Do(Do(Snapshot(), Begin(c, job)), Acquire(c)), ReadMax(c))
      modifies this
      ensures Snapshot() == Do(Do(Do(old(Snapshot()), Begin(c, job)), Acquire(c)), ReadMax(c))
    {
      EnterInsert(c, job);
      TakeLock(c);
      NextEventId(c);
    }

    /** Rows with an id after the cursor, in order. */
    method GetEventsAfter(t: TaskId, after: int) returns (out: seq<Row>)
      ensures out == EventsAfter(Rows(Snapshot(), t), after)
      ensures Inv(Snapshot()) ==>
                out == var rows := Rows(Snapshot(), t); if S.Low(after) <= |rows| then rows[S.Low(after)..] else []
    {
      var rows := if t in tables then tables[t] else [];
      out := [];
      for i := 0 to |rows|
        invariant out + EventsAfter(rows[i..], after) == EventsAfter(rows, after)
      {
        assert rows[i..][1..] == rows[i + 1..] && rows[i..][0] == rows[i];
        if rows[i].eventId > after {
          out := out + [rows[i]];
        }
      }
      assert rows[|rows|..] == [];
      if Inv(Snapshot()) {
        S.EventsAfterSlice(rows, after);
      }
    }
  }

  lemma LockFree(s: State, c: CallId, job: Job)
    requires Inv(s) && c !in s.calls
    requires job.task in s.locks ==> s.locks[job.task] !in s.holders
    ensures Enabled(s, Begin(c, job)) && Inv(Do(s, Begin(c, job))) && Enabled(Do(s, Begin(c, job)), Acquire(c))
    ensures var s1 := Do(s, Begin(c, job));
            s1.tables == s.tables && s1.holders == s.holders && s1.calls[c].job == job && s1.calls[c].lock !in s.holders
  {
    GetLockKeeps(s, job.task);
    BeginKeeps(s, c, job);
    forall l | l in s.holders ensures l in s.lockTask { assert CallOk(s, s.holders[l]); }
  }

  /** Lookup, lock, MAX + 1. */
  lemma UncontendedRead(s: State, c: CallId, job: Job)
    requires Inv(s) && c !in s.calls
    requires job.task in s.locks ==> s.locks[job.task] !in s.holders
    ensures Enabled(s, Begin(c, job))
    ensures var s1 := Do(s, Begin(c, job));
            && Enabled(s1, Acquire(c))
            && var s2 := Do(s1, Acquire(c));
               && Enabled(s2, ReadMax(c))
               && var s3 := Do(s2, ReadMax(c));
                  && Inv(s3) && s3.tables == s.tables && c in s3.calls
                  && s3.calls[c] == Call(job, s3.calls[c].lock, HasId(|Rows(s, job.task)| + 1))
                  && s3.calls[c].lock !in s.holders && s3.holders == s.holders[s3.calls[c].lock := c]
  {
    LockFree(s, c, job);
    var s1 := Do(s, Begin(c, job));
    TakeFree(s1, c);
    ReadNext(Do(s1, Acquire(c)), c);
  }

  lemma TakeFree(s: State, c: CallId)
    requires Inv(s) && Enabled(s, Acquire(c))
    ensures var s' := Do(s, Acquire(c));
            && Inv(s') && Enabled(s', ReadMax(c)) && s'.tables == s.tables
            && s'.calls[c] == s.calls[c].(pc := Holding) && s'.holders == s.holders[s.calls[c].lock := c]
  {
    AcquireKeeps(s, c);
  }

  lemma ReadNext(s: State, c: CallId)
    requires Inv(s) && Enabled(s, ReadMax(c))
    ensures var s' := Do(s, ReadMax(c));
            && Inv(s') && s'.tables == s.tables && s'.holders == s.holders && c in s'.calls
            && s'.calls[c] == s.calls[c].(pc := HasId(|Rows(s, s.calls[c].job.task)| + 1))
  {
    ReadMaxKeeps(s, c);
    MaxOfContiguous(Rows(s, s.calls[c].job.task));
  }

  lemma WriteRow(s: State, c: CallId)
    requires Inv(s) && Enabled(s, Insert(c)) && s.calls[c].pc.id == |Rows(s, s.calls[c].job.task)| + 1
    ensures var job, id := s.calls[c].job, s.calls[c].pc.id;
            Do(s, Insert(c)) == SetPc(s, c, Inserted(id)).(
            tables := s.tables[job.task := Rows(s, job.task) + [Row(id, job.kind, job.payload)]])
  {
    TakenInContiguous(Rows(s, s.calls[c].job.task), s.calls[c].pc.id);
  }

  lemma WriteKeeps(s: State, c: CallId)
    requires Inv(s) && Enabled(s, Insert(c)) && Enabled(Do(s, Insert(c)), Finish(c))
    ensures Inv(Do(Do(s, Insert(c)), Finish(c)))
  {
    InsertKeeps(s, c);
    FinishKeeps(Do(s, Insert(c)), c);
  }

  /** Insert, commit, release. */
  lemma UncontendedWrite(s: State, s3: State, c: CallId, job: Job)
    requires Inv(s3) && s3.tables == s.tables && c in s3.calls
    requires s3.calls[c] == Call(job, s3.calls[c].lock, HasId(|Rows(s, job.task)| + 1))
    requires s3.calls[c].lock !in s.holders && s3.holders == s.holders[s3.calls[c].lock := c]
    ensures var s4 := Do(s3, Insert(c));
            && Enabled(s4, Finish(c)) && s4.calls[c].pc == Inserted(|Rows(s, job.task)| + 1)
            && Appended(s, Do(s4, Finish(c)), c, job)
  {
    WriteRow(s3, c);
    WriteKeeps(s3, c);
    var n := |Rows(s, job.task)|;
    var s4 := SetPc(s3, c, Inserted(n + 1)).(
              tables := s.tables[job.task := Rows(s, job.task) + [Row(n + 1, job.kind, job.payload)]]);
    assert Do(s3, Insert(c)) == s4;
    LeavingFrees(s, s4, c, job);
  }

  lemma LeavingFrees(s: State, s4: State, c: CallId, job: Job)
    requires c in s4.calls && s4.calls[c].pc == Inserted(|Rows(s, job.task)| + 1) && Inv(Do(s4, Finish(c)))
    requires s4.tables ==
             s.tables[job.task := Rows(s, job.task) + [Row(|Rows(s, job.task)| + 1, job.kind, job.payload)]]
    requires s4.calls[c].lock !in s.holders && s4.holders == s.holders[s4.calls[c].lock := c]
    ensures Appended(s, Do(s4, Finish(c)), c, job)
  {
    assert Do(s4, Finish(c)).holders == s.holders;
  }

  /** One row more, and nothing else of interest changed. */
  ghost predicate Appended(s: State, s': State, c: CallId, job: Job) {
    var n := |Rows(s, job.task)|;
    && Inv(s') && Rows(s', job.task) == Rows(s, job.task) + [Row(n + 1, job.kind, job.payload)]
    && (forall t :: t != job.task ==> Rows(s', t) == Rows(s, t))
    && s'.holders == s.holders && c in s'.calls && s'.calls[c].pc == Returned(n + 1)
  }
}
