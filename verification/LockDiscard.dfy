/** Exactly when the lock of a task may be dropped from the dictionary: one condition keeps inserts from
    failing, a stronger one keeps calls out of each other's way. */
module LockDiscard {
  import opened Common
  import opened EventLog

  /** The call has still to insert its row. */
  predicate BeforeInsert(pc: Pc) { pc.Waiting? || pc.Holding? || pc.HasId? }

  /** No call on the lock in the dictionary has still to insert. */
  predicate NoneToInsert(s: State, t: TaskId) {
    t in s.locks ==> forall c :: c in s.calls && s.calls[c].lock == s.locks[t] ==> !BeforeInsert(s.calls[c].pc)
  }

  predicate HarmlessDiscards(s: State, run: seq<Action>)
    requires Legal(s, run)
    decreases |run|
  {
    run == [] || ((run[0].Discard? ==> NoneToInsert(s, run[0].task)) && HarmlessDiscards(Do(s, run[0]), run[1..]))
  }

  predicate HasRaised(s: State) { exists c :: c in s.calls && s.calls[c].pc.Raised? }

  /** Two calls of one task are between reading MAX and releasing the lock. */
  predicate Clash(s: State) {
    exists c, d :: && c in s.calls && d in s.calls && c != d && s.calls[c].job.task == s.calls[d].job.task
                   && InCritical(s.calls[c].pc) && InCritical(s.calls[d].pc)
  }

  // ----- the condition suffices -----

  /** Every call that has still to insert uses the lock in the dictionary, and a MAX + 1 that was read is current. */
  ghost predicate Current(s: State) {
    && Inv(s)
    && forall c :: c in s.calls ==>
         var call := s.calls[c];
         && (BeforeInsert(call.pc) ==> call.job.task in s.locks && s.locks[call.job.task] == call.lock)
         && (call.pc.HasId? ==> call.pc.id == |Rows(s, call.job.task)| + 1)
         && !call.pc.Raised?
  }

  lemma OneHasId(s: State, c: CallId, d: CallId)
    requires Current(s) && c in s.calls && d in s.calls
    requires s.calls[c].pc.HasId? && s.calls[d].pc.HasId? && s.calls[c].job.task == s.calls[d].job.task
    ensures c == d
  {
    assert CallOk(s, c) && CallOk(s, d);
  }

  lemma CurrentInsert(s: State, c: CallId)
    requires Current(s) && Enabled(s, Insert(c))
    ensures Current(Do(s, Insert(c)))
  {
    InsertKeeps(s, c);
    InsertOutcome(s, c);
    var s' := Do(s, Insert(c));
    forall d | d in s.calls && d != c && s.calls[d].pc.HasId?
      ensures s.calls[d].job.task != s.calls[c].job.task
    {
      if s.calls[d].job.task == s.calls[c].job.task { OneHasId(s, c, d); }
    }
    assert forall u :: u != s.calls[c].job.task ==> Rows(s', u) == Rows(s, u);
  }

  lemma CurrentReadMax(s: State, c: CallId)
    requires Current(s) && Enabled(s, ReadMax(c))
    ensures Current(Do(s, ReadMax(c)))
  {
    ReadMaxKeeps(s, c);
    MaxOfContiguous(Rows(s, s.calls[c].job.task));
  }

  lemma CurrentDiscard(s: State, t: TaskId)
    requires Current(s) && NoneToInsert(s, t)
    ensures Current(Do(s, Discard(t)))
  {
    DiscardKeeps(s, t);
  }

  lemma CurrentBegin(s: State, c: CallId, job: Job)
    requires Current(s) && Enabled(s, Begin(c, job))
    ensures Current(Do(s, Begin(c, job)))
  {
    BeginKeeps(s, c, job);
  }

  lemma CurrentOther(s: State, a: Action)
    requires Current(s) && Enabled(s, a) && (a.Acquire? || a.Finish?)
    ensures Current(Do(s, a))
  {
    StepKeepsInv(s, a);
  }

  lemma CurrentStep(s: State, a: Action)
    requires Current(s) && Enabled(s, a)
    requires a.Discard? ==> NoneToInsert(s, a.task)
    ensures Current(Do(s, a))
  {
    match a
    case Begin(c, job) => CurrentBegin(s, c, job);
    case ReadMax(c) => CurrentReadMax(s, c);
    case Insert(c) => CurrentInsert(s, c);
    case Discard(t) => CurrentDiscard(s, t);
    case _ => CurrentOther(s, a);
  }

  lemma {:induction false} CurrentRun(s: State, run: seq<Action>)
    requires Current(s) && Legal(s, run) && HarmlessDiscards(s, run)
    ensures Current(After(s, run))
    decreases |run|
  {
    if run != [] {
      CurrentStep(s, run[0]);
      CurrentRun(Do(s, run[0]), run[1..]);
    }
  }

  /** If no lock is dropped while a call on it has still to insert, no INSERT ever fails. */
  lemma NoInsertRaises(run: seq<Action>)
    requires Legal(INITIAL, run) && HarmlessDiscards(INITIAL, run)
    ensures !HasRaised(After(INITIAL, run))
  {
    InitialInv();
    CurrentRun(INITIAL, run);
  }

  // ----- the condition is needed -----

  predicate NoDiscards(run: seq<Action>) { forall i :: 0 <= i < |run| ==> !run[i].Discard? }

  lemma {:induction false} NothingDiscarded(s: State, run: seq<Action>)
    requires Legal(s, run) && NoDiscards(run)
    ensures HarmlessDiscards(s, run) && DiscardsWhenIdle(s, run)
    decreases |run|
  {
    if run != [] { NothingDiscarded(Do(s, run[0]), run[1..]); }
  }

  /** Some run without discards leads to a state with the property. */
  ghost predicate CanReach(s: State, goal: State -> bool) {
    exists run :: Legal(s, run) && NoDiscards(run) && goal(After(s, run))
  }

  lemma Reached(s: State, goal: State -> bool)
    requires goal(s)
    ensures CanReach(s, goal)
  {
    assert Legal(s, []) && NoDiscards([]) && goal(After(s, []));
  }

  lemma ReachesAfter(s: State, a: Action, goal: State -> bool)
    requires Enabled(s, a) && !a.Discard? && CanReach(Do(s, a), goal)
    ensures CanReach(s, goal)
  {
    var run :| Legal(Do(s, a), run) && NoDiscards(run) && goal(After(Do(s, a), run));
    RunCons(s, a, run);
    var whole := [a] + run;
    assert NoDiscards(whole);
    assert Legal(s, whole) && goal(After(s, whole));
  }

  /** A call has looked up a lock that the dictionary no longer holds, or has never seen. */
  predicate Orphan(s: State, t: TaskId, c: CallId) { c in s.calls && s.calls[c].job.task == t && t !in s.locks }

  /** A fresh call of `t` gets a new lock at once. */
  lemma NewcomerEnters(s: State, t: TaskId, d: CallId, job: Job)
    requires Inv(s) && t !in s.locks && d !in s.calls && job.task == t
    ensures var s1 := Do(s, Begin(d, job));
            && Inv(s1) && Enabled(s1, Acquire(d))
            && var s2 := Do(s1, Acquire(d));
               && Inv(s2) && s2.tables == s.tables && s2.calls == s.calls[d := Call(job, s.lockCount, Holding)]
               && s2.holders == s.holders[s.lockCount := d]
  {
    BeginKeeps(s, d, job);
    var s1 := Do(s, Begin(d, job));
    forall l | l in s.holders
      ensures l < s.lockCount
    {
      assert CallOk(s, s.holders[l]);
    }
    AcquireKeeps(s1, d);
  }

  /** Of two calls that have read the same id, the second to insert fails. */
  lemma SameIdRaises(s: State, c: CallId, d: CallId)
    requires Inv(s) && c in s.calls && d in s.calls && c != d && s.calls[c].job.task == s.calls[d].job.task
    requires s.calls[c].pc == s.calls[d].pc == HasId(|Rows(s, s.calls[c].job.task)| + 1)
    ensures CanReach(s, HasRaised)
  {
    InsertOutcome(s, d);
    InsertKeeps(s, d);
    var s' := Do(s, Insert(d));
    assert s'.calls[c] == s.calls[c];
    InsertOutcome(s', c);
    Reached(Do(s', Insert(c)), HasRaised);
    ReachesAfter(s', Insert(c), HasRaised);
    ReachesAfter(s, Insert(d), HasRaised);
  }

  lemma SecondReaderRaises(s: State, c: CallId, d: CallId)
    requires Inv(s) && c in s.calls && d in s.calls && c != d && s.calls[c].job.task == s.calls[d].job.task
    requires s.calls[c].pc == HasId(|Rows(s, s.calls[c].job.task)| + 1) && s.calls[d].pc.Holding?
    ensures CanReach(s, HasRaised)
  {
    MaxOfContiguous(Rows(s, s.calls[c].job.task));
    ReadMaxKeeps(s, d);
    SameIdRaises(Do(s, ReadMax(d)), c, d);
    ReachesAfter(s, ReadMax(d), HasRaised);
  }

  /** A newcomer takes the id that the orphan has read. */
  lemma OrphanWithIdRaises(s: State, t: TaskId, c: CallId)
    requires Inv(s) && Orphan(s, t, c) && s.calls[c].pc == HasId(|Rows(s, t)| + 1)
    ensures CanReach(s, HasRaised)
  {
    var job := s.calls[c].job;
    var d := FreshNat(s.calls.Keys);
    NewcomerEnters(s, t, d, job);
    var s1 := Do(s, Begin(d, job));
    var s2 := Do(s1, Acquire(d));
    assert Rows(s2, t) == Rows(s, t);
    SecondReaderRaises(s2, c, d);
    ReachesAfter(s1, Acquire(d), HasRaised);
    ReachesAfter(s, Begin(d, job), HasRaised);
  }

  lemma OrphanHoldingRaises(s: State, t: TaskId, c: CallId)
    requires Inv(s) && Orphan(s, t, c) && s.calls[c].pc.Holding?
    ensures CanReach(s, HasRaised)
  {
    MaxOfContiguous(Rows(s, t));
    ReadMaxKeeps(s, c);
    OrphanWithIdRaises(Do(s, ReadMax(c)), t, c);
    ReachesAfter(s, ReadMax(c), HasRaised);
  }

  lemma OrphanFreeToGoRaises(s: State, t: TaskId, c: CallId)
    requires Inv(s) && Orphan(s, t, c) && s.calls[c].pc.Waiting? && s.calls[c].lock !in s.holders
    ensures CanReach(s, HasRaised)
  {
    AcquireKeeps(s, c);
    OrphanHoldingRaises(Do(s, Acquire(c)), t, c);
    ReachesAfter(s, Acquire(c), HasRaised);
  }

  /** Every orphan that has still to insert can be made to fail, itself or by the call it waits for. */
  lemma OrphanRaises(s: State, t: TaskId, c: CallId)
    requires Inv(s) && Orphan(s, t, c) && BeforeInsert(s.calls[c].pc)
    requires forall d :: d in s.calls && s.calls[d].job.task == t && s.calls[d].pc.HasId? ==>
               s.calls[d].pc.id == |Rows(s, t)| + 1
    ensures CanReach(s, HasRaised)
  {
    var l := s.calls[c].lock;
    assert CallOk(s, c);
    if s.calls[c].pc.HasId? {
      OrphanWithIdRaises(s, t, c);
    } else if s.calls[c].pc.Holding? {
      OrphanHoldingRaises(s, t, c);
    } else if l !in s.holders {
      OrphanFreeToGoRaises(s, t, c);
    } else {
      var h := s.holders[l];
      assert CallOk(s, h);
      if s.calls[h].pc.HasId? {
        OrphanWithIdRaises(s, t, h);
      } else if s.calls[h].pc.Holding? {
        OrphanHoldingRaises(s, t, h);
      } else {
        FinishKeeps(s, h);
        OrphanFreeToGoRaises(Do(s, Finish(h)), t, c);
        ReachesAfter(s, Finish(h), HasRaised);
      }
    }
  }

  /** No continuation that is careful about its discards makes an INSERT fail. */
  ghost predicate NeverRaises(s: State) {
    forall run :: Legal(s, run) && HarmlessDiscards(s, run) ==> !HasRaised(After(s, run))
  }

  lemma CurrentNeverRaises(s: State)
    requires Current(s)
    ensures NeverRaises(s)
  {
    forall run | Legal(s, run) && HarmlessDiscards(s, run)
      ensures !HasRaised(After(s, run))
    {
      CurrentRun(s, run);
    }
  }

  lemma ReachableRefutes(s: State)
    requires CanReach(s, HasRaised)
    ensures !NeverRaises(s)
  {
    var run :| Legal(s, run) && NoDiscards(run) && HasRaised(After(s, run));
    NothingDiscarded(s, run);
  }

  /** Dropping the lock of `t` now is safe for every careful continuation exactly when no call on that lock
      has still to insert. */
  lemma NoRaiseIff(s: State, t: TaskId)
    requires Current(s)
    ensures NoneToInsert(s, t) <==> NeverRaises(Do(s, Discard(t)))
  {
    var s' := Do(s, Discard(t));
    if NoneToInsert(s, t) {
      CurrentDiscard(s, t);
      CurrentNeverRaises(s');
    } else {
      var c :| c in s.calls && s.calls[c].lock == s.locks[t] && BeforeInsert(s.calls[c].pc);
      OrphanOf(s, t, c);
      OrphanRaises(s', t, c);
      ReachableRefutes(s');
    }
  }

  /** Dropping the lock makes orphans of the calls that use it. */
  lemma OrphanOf(s: State, t: TaskId, c: CallId)
    requires Inv(s) && c in s.calls && t in s.locks && s.calls[c].lock == s.locks[t]
    ensures Inv(Do(s, Discard(t))) && Orphan(Do(s, Discard(t)), t, c)
  {
    assert CallOk(s, c);
    DiscardKeeps(s, t);
  }

  // ----- mutual exclusion -----

  lemma ExclusiveNeverClashes(s: State)
    requires Exclusive(s)
    ensures !Clash(s)
  {
    forall c, d | && c in s.calls && d in s.calls && s.calls[c].job.task == s.calls[d].job.task
                  && InCritical(s.calls[c].pc) && InCritical(s.calls[d].pc)
      ensures c == d
    {
      OneInCritical(s, c, d);
    }
  }

  /** A newcomer joins an orphan that is past its lock. */
  lemma OrphanInsideClashes(s: State, t: TaskId, c: CallId)
    requires Inv(s) && Orphan(s, t, c) && InCritical(s.calls[c].pc)
    ensures CanReach(s, Clash)
  {
    var job := s.calls[c].job;
    var d := FreshNat(s.calls.Keys);
    NewcomerEnters(s, t, d, job);
    var s1 := Do(s, Begin(d, job));
    var s2 := Do(s1, Acquire(d));
    assert s2.calls[c] == s.calls[c] && s2.calls[d].pc == Holding;
    Reached(s2, Clash);
    ReachesAfter(s1, Acquire(d), Clash);
    ReachesAfter(s, Begin(d, job), Clash);
  }

  lemma OrphanClashes(s: State, t: TaskId, c: CallId)
    requires Inv(s) && Orphan(s, t, c) && (s.calls[c].pc.Waiting? || InCritical(s.calls[c].pc))
    ensures CanReach(s, Clash)
  {
    var l := s.calls[c].lock;
    assert CallOk(s, c);
    if InCritical(s.calls[c].pc) {
      OrphanInsideClashes(s, t, c);
    } else if l in s.holders {
      assert CallOk(s, s.holders[l]);
      OrphanInsideClashes(s, t, s.holders[l]);
    } else {
      AcquireKeeps(s, c);
      OrphanInsideClashes(Do(s, Acquire(c)), t, c);
      ReachesAfter(s, Acquire(c), Clash);
    }
  }

  ghost predicate NeverClashes(s: State) {
    forall run :: Legal(s, run) && DiscardsWhenIdle(s, run) ==> !Clash(After(s, run))
  }

  lemma ExclusiveRunsNeverClash(s: State)
    requires Exclusive(s)
    ensures NeverClashes(s)
  {
    forall run | Legal(s, run) && DiscardsWhenIdle(s, run)
      ensures !Clash(After(s, run))
    {
      ExclusiveRun(s, run);
      ExclusiveNeverClashes(After(s, run));
    }
  }

  lemma ReachableClash(s: State)
    requires CanReach(s, Clash)
    ensures !NeverClashes(s)
  {
    var run :| Legal(s, run) && NoDiscards(run) && Clash(After(s, run));
    NothingDiscarded(s, run);
  }

  /** Dropping the lock of `t` now keeps calls apart in every continuation with idle discards, exactly when
      nobody holds that lock and nobody waits for it. */
  lemma MutualExclusionIff(s: State, t: TaskId)
    requires Exclusive(s)
    ensures Idle(s, t) <==> NeverClashes(Do(s, Discard(t)))
  {
    if Idle(s, t) {
      ExclusiveDiscard(s, t);
      ExclusiveRunsNeverClash(Do(s, Discard(t)));
    } else {
      var c := Occupant(s, t);
      OrphanOf(s, t, c);
      OrphanClashes(Do(s, Discard(t)), t, c);
      ReachableClash(Do(s, Discard(t)));
    }
  }

  lemma Occupant(s: State, t: TaskId) returns (c: CallId)
    requires Inv(s) && !Idle(s, t)
    ensures t in s.locks && c in s.calls && s.calls[c].lock == s.locks[t]
    ensures s.calls[c].pc.Waiting? || InCritical(s.calls[c].pc)
  {
    var l := s.locks[t];
    if l in s.holders {
      c := s.holders[l];
    } else {
      c :| c in s.calls && s.calls[c].pc.Waiting? && s.calls[c].lock == l;
    }
    assert CallOk(s, c);
  }
}
