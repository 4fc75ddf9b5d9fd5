/** The event table and the per-task locks of `insert_event`, as steps of concurrent calls.
    A step is the stretch of code a coroutine runs between two suspensions. */
module EventLog {
  import opened Common

  type TaskId = string
  type CallId = nat
  type LockId = nat

  datatype Row = Row(eventId: int, kind: string, payload: string)

  /** `TERMINAL_EVENT_KINDS` */
  predicate IsTerminalKind(kind: string) {
    kind == "task_completed" || kind == "task_failed" || kind == "task_aborted" || kind == "task_timed_out"
  }

  predicate IsTerminal(row: Row) { IsTerminalKind(row.kind) }

  datatype Job = Job(task: TaskId, kind: string, payload: string)

  /** Where one call of `insert_event` stands. */
  datatype Pc =
    | Waiting            // has looked up its lock and waits for it
    | Holding            // owns the lock, has not read MAX yet
    | HasId(id: int)     // has read MAX + 1, has not inserted
    | Inserted(id: int)  // row inserted, commit and notify outstanding
    | Returned(id: int)
    | Raised             // the INSERT hit UNIQUE (task_id, event_id)

  datatype Call = Call(job: Job, lock: LockId, pc: Pc)

  /** `tables` maps a task to its rows in insertion order; `locks` is the dictionary of locks, which
      calls may outlive; `lockTask` remembers for which task a lock was made. */
  datatype State = State(
    tables: map<TaskId, seq<Row>>, locks: map<TaskId, LockId>, holders: map<LockId, CallId>,
    lockTask: map<LockId, TaskId>, lockCount: nat, calls: map<CallId, Call>)

  const INITIAL := State(map[], map[], map[], map[], 0, map[])

  function Rows(s: State, t: TaskId): seq<Row> { if t in s.tables then s.tables[t] else [] }

  // ----- the SQL statements -----

  /** `COALESCE(MAX(event_id), 0)` */
  function MaxId(rows: seq<Row>): int {
    if rows == [] then 0
    else if |rows| == 1 then rows[0].eventId
    else Max(MaxId(rows[..|rows| - 1]), rows[|rows| - 1].eventId)
  }

  predicate Taken(rows: seq<Row>, id: int) { exists i :: 0 <= i < |rows| && rows[i].eventId == id }

  /** `event_id > after ORDER BY event_id`, for rows stored in id order. */
  function EventsAfter(rows: seq<Row>, after: int): seq<Row> {
    if rows == [] then []
    else if rows[0].eventId > after then [rows[0]] + EventsAfter(rows[1..], after)
    else EventsAfter(rows[1..], after)
  }

  // ----- steps -----

  datatype Action =
    | Begin(call: CallId, job: Job)
    | Acquire(call: CallId)
    | ReadMax(call: CallId)
    | Insert(call: CallId)
    | Finish(call: CallId)
    | Discard(task: TaskId)

  predicate InCritical(pc: Pc) { pc.Holding? || pc.HasId? || pc.Inserted? }

  predicate Enabled(s: State, a: Action) {
    match a
    case Begin(c, _) => c !in s.calls
    case Acquire(c) => c in s.calls && s.calls[c].pc.Waiting? && s.calls[c].lock !in s.holders
    case ReadMax(c) => c in s.calls && s.calls[c].pc.Holding?
    case Insert(c) => c in s.calls && s.calls[c].pc.HasId?
    case Finish(c) => c in s.calls && s.calls[c].pc.Inserted?
    case Discard(_) => true
  }

  function SetPc(s: State, c: CallId, pc: Pc): State
    requires c in s.calls
  {
    s.(calls := s.calls[c := s.calls[c].(pc := pc)])
  }

  function Release(s: State, c: CallId, pc: Pc): State
    requires c in s.calls
  {
    SetPc(s, c, pc).(holders := s.holders - {s.calls[c].lock})
  }

  /** `_get_event_lock`: the lock in the dictionary, or a new one. */
  function GetLock(s: State, t: TaskId): (r: (State, LockId))
  {
    if t in s.locks then (s, s.locks[t])
    else (s.(locks := s.locks[t := s.lockCount], lockTask := s.lockTask[s.lockCount := t],
             lockCount := s.lockCount + 1), s.lockCount)
  }

  function Do(s: State, a: Action): State
    requires Enabled(s, a)
  {
    match a
    case Begin(c, job) =>
      var (s1, lock) := GetLock(s, job.task);
      s1.(calls := s1.calls[c := Call(job, lock, Waiting)])
    case Acquire(c) =>
      SetPc(s, c, Holding).(holders := s.holders[s.calls[c].lock := c])
    case ReadMax(c) =>
      SetPc(s, c, HasId(MaxId(Rows(s, s.calls[c].job.task)) + 1))
    case Insert(c) =>
      var job, id := s.calls[c].job, s.calls[c].pc.id;
      if Taken(Rows(s, job.task), id) then Release(s, c, Raised)
      else
        SetPc(s, c, Inserted(id)).(
        tables := s.tables[job.task := Rows(s, job.task) + [Row(id, job.kind, job.payload)]])
    case Finish(c) =>
      Release(s, c, Returned(s.calls[c].pc.id))
    case Discard(t) =>
      s.(locks := s.locks - {t})
  }

  // ----- runs -----

  predicate Legal(s: State, run: seq<Action>)
    decreases |run|
  {
    run == [] || (Enabled(s, run[0]) && Legal(Do(s, run[0]), run[1..]))
  }

  function After(s: State, run: seq<Action>): State
    requires Legal(s, run)
    decreases |run|
  {
    if run == [] then s else After(Do(s, run[0]), run[1..])
  }

  // ----- invariant -----

  predicate Contiguous(rows: seq<Row>) { forall i :: 0 <= i < |rows| ==> rows[i].eventId == i + 1 }

  ghost predicate CallOk(s: State, c: CallId)
    requires c in s.calls
  {
    var call := s.calls[c];
    var rows := Rows(s, call.job.task);
    && call.lock in s.lockTask && s.lockTask[call.lock] == call.job.task
    && (InCritical(call.pc) <==> call.lock in s.holders && s.holders[call.lock] == c)
    && (call.pc.HasId? ==> 1 <= call.pc.id <= |rows| + 1)
    && (call.pc.Inserted? || call.pc.Returned? ==>
          1 <= call.pc.id <= |rows| && rows[call.pc.id - 1] == Row(call.pc.id, call.job.kind, call.job.payload))
  }

  ghost predicate Inv(s: State) {
    && (forall t :: t in s.tables ==> Contiguous(s.tables[t]))
    && (forall c :: c in s.calls ==> CallOk(s, c))
    && (forall l :: l in s.holders ==> s.holders[l] in s.calls && s.calls[s.holders[l]].lock == l)
    && (forall t :: t in s.locks ==> s.locks[t] in s.lockTask && s.lockTask[s.locks[t]] == t)
    && (forall l :: l in s.lockTask ==> l < s.lockCount)
  }

  lemma {:induction false} MaxOfContiguous(rows: seq<Row>)
    requires Contiguous(rows)
    ensures MaxId(rows) == |rows|
    decreases |rows|
  {
    if |rows| > 1 { MaxOfContiguous(rows[..|rows| - 1]); }
  }

  lemma TakenInContiguous(rows: seq<Row>, id: int)
    requires Contiguous(rows) && 1 <= id <= |rows| + 1
    ensures Taken(rows, id) <==> id <= |rows|
  {
    if id <= |rows| { assert rows[id - 1].eventId == id; }
  }

  lemma GetLockKeeps(s: State, t: TaskId)
    requires Inv(s)
    ensures var (s', l) := GetLock(s, t);
            && Inv(s') && l in s'.lockTask && s'.lockTask[l] == t
            && s'.calls == s.calls && s'.tables == s.tables && s'.holders == s.holders
  {
    var (s', l) := GetLock(s, t);
    forall d | d in s'.calls ensures CallOk(s', d) { assert CallOk(s, d); }
  }

  lemma BeginKeeps(s: State, c: CallId, job: Job)
    requires Inv(s) && Enabled(s, Begin(c, job))
    ensures Inv(Do(s, Begin(c, job)))
  {
    GetLockKeeps(s, job.task);
    var (s1, l) := GetLock(s, job.task);
    var s' := Do(s, Begin(c, job));
    forall d | d in s'.calls ensures CallOk(s', d) {
      if d != c { assert CallOk(s1, d); }
    }
  }

  lemma AcquireKeeps(s: State, c: CallId)
    requires Inv(s) && Enabled(s, Acquire(c))
    ensures Inv(Do(s, Acquire(c)))
  {
    var s' := Do(s, Acquire(c));
    forall d | d in s'.calls ensures CallOk(s', d) {
      assert CallOk(s, d);
    }
  }

  lemma ReadMaxKeeps(s: State, c: CallId)
    requires Inv(s) && Enabled(s, ReadMax(c))
    ensures Inv(Do(s, ReadMax(c)))
  {
    var s' := Do(s, ReadMax(c));
    assert CallOk(s, c);
    MaxOfContiguous(Rows(s, s.calls[c].job.task));
    forall d | d in s'.calls ensures CallOk(s', d) {
      assert CallOk(s, d);
    }
  }

  lemma ReleaseKeeps(s: State, c: CallId, pc: Pc)
    requires Inv(s) && c in s.calls && InCritical(s.calls[c].pc)
    requires pc == Raised || (s.calls[c].pc.Inserted? && pc == Returned(s.calls[c].pc.id))
    ensures Inv(Release(s, c, pc))
  {
    var s' := Release(s, c, pc);
    assert CallOk(s, c);
    forall d | d in s'.calls ensures CallOk(s', d) { assert CallOk(s, d); }
  }

  lemma InsertKeeps(s: State, c: CallId)
    requires Inv(s) && Enabled(s, Insert(c))
    ensures Inv(Do(s, Insert(c)))
  {
    var s' := Do(s, Insert(c));
    assert CallOk(s, c);
    var t := s.calls[c].job.task;
    TakenInContiguous(Rows(s, t), s.calls[c].pc.id);
    if Taken(Rows(s, t), s.calls[c].pc.id) {
      ReleaseKeeps(s, c, Raised);
    } else {
      assert forall u :: u != t ==> Rows(s', u) == Rows(s, u);
      assert Rows(s, t) <= Rows(s', t);
      forall d | d in s'.calls ensures CallOk(s', d) { assert CallOk(s, d); }
    }
  }

  lemma FinishKeeps(s: State, c: CallId)
    requires Inv(s) && Enabled(s, Finish(c))
    ensures Inv(Do(s, Finish(c)))
  {
    ReleaseKeeps(s, c, Returned(s.calls[c].pc.id));
  }

  lemma DiscardKeeps(s: State, t: TaskId)
    requires Inv(s) && Enabled(s, Discard(t))
    ensures Inv(Do(s, Discard(t)))
  {
    var s' := Do(s, Discard(t));
    forall d | d in s'.calls ensures CallOk(s', d) {
      assert CallOk(s, d);
    }
  }

  lemma StepKeepsInv(s: State, a: Action)
    requires Inv(s) && Enabled(s, a)
    ensures Inv(Do(s, a))
  {
    match a
    case Begin(c, job) => BeginKeeps(s, c, job);
    case Acquire(c) => AcquireKeeps(s, c);
    case ReadMax(c) => ReadMaxKeeps(s, c);
    case Insert(c) => InsertKeeps(s, c);
    case Finish(c) => FinishKeeps(s, c);
    case Discard(t) => DiscardKeeps(s, t);
  }

  lemma InitialInv()
    ensures Inv(INITIAL)
  {
  }

  lemma {:induction false} RunKeepsInv(s: State, run: seq<Action>)
    requires Inv(s) && Legal(s, run)
    ensures Inv(After(s, run))
    decreases |run|
  {
    if run != [] {
      StepKeepsInv(s, run[0]);
      RunKeepsInv(Do(s, run[0]), run[1..]);
    }
  }

  // ----- main results -----

  /** In every interleaving, with locks discarded at any moment, the ids of a task are 1..n in
      insertion order. */
  lemma IdsAreContiguous(run: seq<Action>, t: TaskId)
    requires Legal(INITIAL, run)
    ensures Contiguous(Rows(After(INITIAL, run), t))
  {
    InitialInv();
    RunKeepsInv(INITIAL, run);
  }

  /** A stale MAX + 1 fails on UNIQUE and leaves the table alone; a current one appends row n + 1. */
  lemma InsertOutcome(s: State, c: CallId)
    requires Inv(s) && Enabled(s, Insert(c))
    ensures var call := s.calls[c];
            var rows := Rows(s, call.job.task);
            var s' := Do(s, Insert(c));
            if call.pc.id <= |rows| then (s'.tables == s.tables && s'.calls[c].pc == Raised)
            else (Rows(s', call.job.task) == rows + [Row(|rows| + 1, call.job.kind, call.job.payload)]
                  && s'.calls[c].pc == Inserted(|rows| + 1))
  {
    assert CallOk(s, c);
    TakenInContiguous(Rows(s, s.calls[c].job.task), s.calls[c].pc.id);
  }

  /** Tables only grow, one row at a time, and only the task of the inserting call. */
  lemma StepAppends(s: State, a: Action, t: TaskId)
    requires Inv(s) && Enabled(s, a)
    ensures var rows, rows' := Rows(s, t), Rows(Do(s, a), t);
            || rows' == rows
            || (a.Insert? && s.calls[a.call].job.task == t && |rows'| == |rows| + 1 && rows' == rows + [rows'[|rows|]])
  {
  }

  // ----- locks discarded only when idle -----

  /** Nobody holds the task's current lock and nobody waits for it. */
  predicate Idle(s: State, t: TaskId) {
    t in s.locks ==>
      && s.locks[t] !in s.holders
      && forall c :: c in s.calls && s.calls[c].pc.Waiting? ==> s.calls[c].lock != s.locks[t]
  }

  predicate DiscardsWhenIdle(s: State, run: seq<Action>)
    requires Legal(s, run)
    decreases |run|
  {
    run == [] || ((run[0].Discard? ==> Idle(s, run[0].task)) && DiscardsWhenIdle(Do(s, run[0]), run[1..]))
  }

  /** Every call under way uses the lock in the dictionary, and a MAX + 1 that was read is current. */
  ghost predicate Exclusive(s: State) {
    && Inv(s)
    && forall c :: c in s.calls ==>
         var call := s.calls[c];
         && (call.pc.Waiting? || InCritical(call.pc) ==>
               call.job.task in s.locks && s.locks[call.job.task] == call.lock)
         && (call.pc.HasId? ==> call.pc.id == |Rows(s, call.job.task)| + 1)
         && !call.pc.Raised?
  }

  lemma OneInCritical(s: State, c: CallId, d: CallId)
    requires Exclusive(s) && c in s.calls && d in s.calls
    requires InCritical(s.calls[c].pc) && InCritical(s.calls[d].pc) && s.calls[c].job.task == s.calls[d].job.task
    ensures c == d
  {
    assert CallOk(s, c) && CallOk(s, d);
  }

  lemma ExclusiveBegin(s: State, c: CallId, job: Job)
    requires Exclusive(s) && Enabled(s, Begin(c, job))
    ensures Exclusive(Do(s, Begin(c, job)))
  {
    BeginKeeps(s, c, job);
  }

  lemma ExclusiveAcquire(s: State, c: CallId)
    requires Exclusive(s) && Enabled(s, Acquire(c))
    ensures Exclusive(Do(s, Acquire(c)))
  {
    AcquireKeeps(s, c);
  }

  lemma ExclusiveReadMax(s: State, c: CallId)
    requires Exclusive(s) && Enabled(s, ReadMax(c))
    ensures Exclusive(Do(s, ReadMax(c)))
  {
    ReadMaxKeeps(s, c);
    MaxOfContiguous(Rows(s, s.calls[c].job.task));
  }

  lemma ExclusiveFinish(s: State, c: CallId)
    requires Exclusive(s) && Enabled(s, Finish(c))
    ensures Exclusive(Do(s, Finish(c)))
  {
    FinishKeeps(s, c);
  }

  lemma ExclusiveStep(s: State, a: Action)
    requires Exclusive(s) && Enabled(s, a)
    requires a.Discard? ==> Idle(s, a.task)
    ensures Exclusive(Do(s, a))
  {
    match a
    case Begin(c, job) => ExclusiveBegin(s, c, job);
    case Acquire(c) => ExclusiveAcquire(s, c);
    case ReadMax(c) => ExclusiveReadMax(s, c);
    case Insert(c) => ExclusiveInsert(s, c);
    case Finish(c) => ExclusiveFinish(s, c);
    case Discard(t) => ExclusiveDiscard(s, t);
  }

  lemma ExclusiveInsert(s: State, c: CallId)
    requires Exclusive(s) && Enabled(s, Insert(c))
    ensures Exclusive(Do(s, Insert(c)))
  {
    InsertKeeps(s, c);
    InsertOutcome(s, c);
    var s' := Do(s, Insert(c));
    forall d | d in s.calls && d != c && s.calls[d].pc.HasId?
      ensures s.calls[d].job.task != s.calls[c].job.task
    {
      if s.calls[d].job.task == s.calls[c].job.task { OneInCritical(s, c, d); }
    }
    assert forall u :: u != s.calls[c].job.task ==> Rows(s', u) == Rows(s, u);
  }

  lemma ExclusiveDiscard(s: State, t: TaskId)
    requires Exclusive(s) && Idle(s, t)
    ensures Exclusive(Do(s, Discard(t)))
  {
    DiscardKeeps(s, t);
    forall c | c in s.calls && (s.calls[c].pc.Waiting? || InCritical(s.calls[c].pc))
      ensures s.calls[c].job.task != t
    {
      assert CallOk(s, c);
    }
  }

  lemma {:induction false} ExclusiveRun(s: State, run: seq<Action>)
    requires Exclusive(s) && Legal(s, run) && DiscardsWhenIdle(s, run)
    ensures Exclusive(After(s, run))
    decreases |run|
  {
    if run != [] {
      ExclusiveStep(s, run[0]);
      ExclusiveRun(Do(s, run[0]), run[1..]);
    }
  }

  /** With idle discards no INSERT ever fails, and at most one call of a task is between reading MAX
      and releasing the lock. */
  lemma NoInsertFails(run: seq<Action>, c: CallId, d: CallId)
    requires Legal(INITIAL, run) && DiscardsWhenIdle(INITIAL, run)
    ensures var s := After(INITIAL, run);
            && (c in s.calls ==> !s.calls[c].pc.Raised?)
            && ((&& c in s.calls && d in s.calls && s.calls[c].job.task == s.calls[d].job.task
                 && InCritical(s.calls[c].pc) && InCritical(s.calls[d].pc)) ==> c == d)
  {
    InitialInv();
    ExclusiveRun(INITIAL, run);
    var s := After(INITIAL, run);
    if c in s.calls && d in s.calls && s.calls[c].job.task == s.calls[d].job.task
       && InCritical(s.calls[c].pc) && InCritical(s.calls[d].pc)
    {
      OneInCritical(s, c, d);
    }
  }

  /** A call waits only behind a call of its own task. */
  lemma OtherTasksNeverDelay(s: State, c: CallId)
    requires Inv(s) && c in s.calls && s.calls[c].pc.Waiting? && !Enabled(s, Acquire(c))
    ensures s.calls[c].lock in s.holders
    ensures var d := s.holders[s.calls[c].lock];
            d in s.calls && d != c && InCritical(s.calls[d].pc) && s.calls[d].job.task == s.calls[c].job.task
  {
    var d := s.holders[s.calls[c].lock];
    assert CallOk(s, c) && CallOk(s, d);
  }

  lemma RunCons(s: State, a: Action, rest: seq<Action>)
    requires Enabled(s, a) && Legal(Do(s, a), rest)
    ensures Legal(s, [a] + rest) && After(s, [a] + rest) == After(Do(s, a), rest)
    ensures DiscardsWhenIdle(s, [a] + rest) ==> DiscardsWhenIdle(Do(s, a), rest) && (a.Discard? ==> Idle(s, a.task))
  {
    assert ([a] + rest)[1..] == rest;
  }

  /** Call 0 has read MAX and holds lock 0. */
  function FirstRead(job: Job): State {
    State(map[], map[job.task := 0], map[0 := 0], map[0 := job.task], 1, map[0 := Call(job, 0, HasId(1))])
  }

  lemma FirstReadRun(job: Job)
    ensures var run := [Begin(0, job), Acquire(0), ReadMax(0)];
            Legal(INITIAL, run) && After(INITIAL, run) == FirstRead(job)
  {
    var s1 := Do(INITIAL, Begin(0, job));
    var s2 := Do(s1, Acquire(0));
    RunCons(s2, ReadMax(0), []);
    RunCons(s1, Acquire(0), [ReadMax(0)]);
    RunCons(INITIAL, Begin(0, job), [Acquire(0), ReadMax(0)]);
    assert [Begin(0, job)] + [Acquire(0), ReadMax(0)] == [Begin(0, job), Acquire(0), ReadMax(0)];
  }

  /** The lock is dropped while held, and call 1 runs to the same point with a new lock. */
  lemma SecondReadRun(job: Job)
    ensures var run := [Discard(job.task), Begin(1, job), Acquire(1), ReadMax(1)];
            var s := FirstRead(job);
            && Legal(s, run)
            && Rows(After(s, run), job.task) == []
            && 0 in After(s, run).calls && After(s, run).calls[0] == Call(job, 0, HasId(1))
            && 1 in After(s, run).calls && After(s, run).calls[1] == Call(job, 1, HasId(1))
  {
    var s3 := FirstRead(job);
    var s4 := Do(s3, Discard(job.task));
    var s5 := Do(s4, Begin(1, job));
    var s6 := Do(s5, Acquire(1));
    RunCons(s6, ReadMax(1), []);
    RunCons(s5, Acquire(1), [ReadMax(1)]);
    RunCons(s4, Begin(1, job), [Acquire(1), ReadMax(1)]);
    RunCons(s3, Discard(job.task), [Begin(1, job), Acquire(1), ReadMax(1)]);
    assert [Discard(job.task)] + [Begin(1, job), Acquire(1), ReadMax(1)]
        == [Discard(job.task), Begin(1, job), Acquire(1), ReadMax(1)];
  }

  lemma {:induction false} RunConcat(s: State, a: seq<Action>, b: seq<Action>)
    requires Legal(s, a) && Legal(After(s, a), b)
    ensures Legal(s, a + b) && After(s, a + b) == After(After(s, a), b)
    ensures DiscardsWhenIdle(s, a + b) ==> DiscardsWhenIdle(After(s, a), b)
    decreases |a|
  {
    if a == [] {
      assert a + b == b;
    } else {
      RunConcat(Do(s, a[0]), a[1..], b);
      assert a + b == [a[0]] + (a[1..] + b);
      RunCons(s, a[0], a[1..] + b);
    }
  }

  /** Dropping a lock in use really makes an INSERT fail: a run of nine steps. */
  lemma DiscardInUseCanFail(t: TaskId) returns (run: seq<Action>)
    ensures Legal(INITIAL, run) && !DiscardsWhenIdle(INITIAL, run)
    ensures var s := After(INITIAL, run); 0 in s.calls && s.calls[0].pc == Raised
  {
    var job := Job(t, "task_started", "{}");
    var run3 := [Begin(0, job), Acquire(0), ReadMax(0)];
    var run7 := [Discard(t), Begin(1, job), Acquire(1), ReadMax(1)];
    FirstReadRun(job);
    SecondReadRun(job);
    var s3 := FirstRead(job);
    var s7 := After(s3, run7);
    assert !Idle(s3, t);
    var s8 := Do(s7, Insert(1));
    assert Rows(s8, t)[0].eventId == 1;
    RunCons(s8, Insert(0), []);
    RunCons(s7, Insert(1), [Insert(0)]);
    var run9 := [Insert(1), Insert(0)];
    assert [Insert(1)] + [Insert(0)] == run9;
    RunConcat(s3, run7, run9);
    RunConcat(INITIAL, run3, run7 + run9);
    assert run7 + run9 == [Discard(t)] + (run7 + run9)[1..];
    run := run3 + (run7 + run9);
  }
}
