/** Exactly when a wakeup bus may be dropped from the registry. */
module WakeupGuard {
  import opened Common
  import opened EventLog
  import opened StreamProtocol
  import opened Wakeup
  import EventStore

  /** A parked session with rows to fetch that nobody is going to wake. */
  ghost predicate Lost(s: Sys, x: nat) {
    && x in s.sessions && s.sessions[x].phase.Parked?
    && var y := s.sessions[x];
    && Below(y, TaskRows(s, y.task)) && EventsAfter(TaskRows(s, y.task), y.cursor) != []
    && !y.flag && !AboutToWake(s, x)
  }

  /** No continuation that drops only dispensable buses loses a wakeup. */
  ghost predicate NeverLoses(s: Sys) {
    forall run, x :: GuardedRun(s, run) && Run(s, run) ==> !Lost(Final(s, run), x)
  }

  lemma AnnouncedNeverLoses(s: Sys)
    requires SysInv(s) && AllAnnounced(s)
    ensures NeverLoses(s)
  {
    forall run, x | GuardedRun(s, run) && Run(s, run)
      ensures !Lost(Final(s, run), x)
    {
      GuardedRunAnnounced(s, run);
      var s' := Final(s, run);
      if x in s'.sessions && s'.sessions[x].phase.Parked? {
        assert SessionAnnounced(s', x);
        ParkedIsAnnounced(s', x);
      }
    }
  }

  // ----- the other direction -----

  predicate NoDrops(run: seq<Step>) { forall i :: 0 <= i < |run| ==> !run[i].DiscardBus? }

  lemma {:induction false} NothingDropped(s: Sys, run: seq<Step>)
    requires Run(s, run) && NoDrops(run)
    ensures GuardedRun(s, run)
    decreases |run|
  {
    if run != [] { NothingDropped(Do'(s, run[0]), run[1..]); }
  }

  /** Some run that drops no bus ends with the session lost. */
  ghost predicate CanLose(s: Sys, x: nat) {
    exists run :: Run(s, run) && NoDrops(run) && Lost(Final(s, run), x)
  }

  lemma LostNow(s: Sys, x: nat)
    requires Lost(s, x)
    ensures CanLose(s, x)
  {
    assert Run(s, []) && NoDrops([]) && Lost(Final(s, []), x);
  }

  lemma LosesAfter(s: Sys, step: Step, x: nat)
    requires Can(s, step) && !step.DiscardBus? && CanLose(Do'(s, step), x)
    ensures CanLose(s, x)
  {
    var run :| Run(Do'(s, step), run) && NoDrops(run) && Lost(Final(Do'(s, step), run), x);
    RunStep(s, step, run);
    var whole := [step] + run;
    assert NoDrops(whole);
    assert Run(s, whole) && Lost(Final(s, whole), x);
  }

  /** An open session that is not immune once its bus is gone. */
  ghost predicate Doomed(x: S.Session, rows: seq<Row>) {
    && !x.phase.Closed? && Below(x, rows) && NoneReached(x, rows)
    && !(x.closing && (x.phase.Opening? || x.phase.Replay?))
    && (HasTerminal(rows) ==> !x.flag && (x.phase.Drain? || x.phase.Beating? || x.phase.Parked?))
  }

  lemma DoomedIfNotImmune(x: S.Session, rows: seq<Row>)
    requires !Immune(x, rows)
    ensures Doomed(x, rows)
  {
    if !HasTerminal(rows) {
      assert forall i :: 0 <= i < |rows| ==> !IsTerminal(rows[i]);
    }
  }

  /** The step that takes a session towards an unflagged park. */
  function NextOwn(x: S.Session): S.Step {
    match x.phase
    case Replay(batch) => if batch == [] then S.Drained else S.Send
    case Drain(batch) => if batch == [] then S.Drained else S.Send
    case Beating => S.Beat(false)
    case Parked => S.Wake
    case _ => S.Fetch
  }

  function Rank(x: S.Session): nat {
    match x.phase
    case Opening => 5
    case Replay(_) => 4
    case Loop => 3
    case Drain(_) => 2
    case Beating => 1
    case _ => 0
  }

  lemma DoomedFetch(x: S.Session, rows: seq<Row>)
    requires Doomed(x, rows) && S.SessionOk(x, rows) && Contiguous(rows) && S.CanStep(x, S.Fetch)
    ensures Doomed(S.Take(x, S.Fetch, rows), rows)
  {
    assert forall i :: 0 <= i < |rows| ==> !IsTerminal(rows[i]);
    S.FetchOk(x, rows);
  }

  lemma DoomedSend(x: S.Session, rows: seq<Row>)
    requires Doomed(x, rows) && S.SessionOk(x, rows) && Contiguous(rows) && S.CanStep(x, S.Send)
    ensures Doomed(S.Take(x, S.Send, rows), rows)
  {
    S.SendValues(x, rows);
    S.SliceSnoc(rows, S.Low(x.start), S.Sent(x), S.Batch(x.phase));
    SentOnward(x, S.Take(x, S.Send, rows), rows);
  }

  /** Sending a row that is not terminal changes nothing that dooms a session. */
  lemma SentOnward(x: S.Session, x': S.Session, rows: seq<Row>)
    requires Doomed(x, rows) && !x'.phase.Closed? && S.Reach(x') == S.Reach(x)
    requires x'.start == x.start && x'.closing == x.closing && x'.flag == x.flag
    requires (x.phase.Replay? && x'.phase.Replay?) || (x.phase.Drain? && x'.phase.Drain?)
    ensures Doomed(x', rows)
  {
  }

  lemma DoomedStep(x: S.Session, rows: seq<Row>)
    requires Doomed(x, rows) && S.SessionOk(x, rows) && Contiguous(rows)
    requires x.phase.Parked? ==> x.flag
    ensures S.CanStep(x, NextOwn(x)) && Doomed(S.Take(x, NextOwn(x), rows), rows)
  {
    S.StepOk(x, NextOwn(x), rows);
    if NextOwn(x) == S.Fetch {
      DoomedFetch(x, rows);
    } else if NextOwn(x) == S.Send {
      DoomedSend(x, rows);
    }
  }

  /** A doomed session whose task has no registered bus. */
  ghost predicate Stray(s: Sys, x: nat) {
    && SysInv(s) && x in s.sessions && s.sessions[x].task !in s.buses
    && Doomed(s.sessions[x], TaskRows(s, s.sessions[x].task))
  }

  function Missing(s: Sys, x: nat): nat
    requires x in s.sessions
  {
    Max(0, S.Low(s.sessions[x].cursor) + 1 - |TaskRows(s, s.sessions[x].task)|)
  }

  lemma StrayStep(s: Sys, x: nat)
    requires Stray(s, x)
    requires s.sessions[x].phase.Parked? ==> s.sessions[x].flag
    ensures var step := Server(x, NextOwn(s.sessions[x]));
            && Can(s, step) && Stray(Do'(s, step), x)
            && Do'(s, step).sessions[x] == S.Take(s.sessions[x], NextOwn(s.sessions[x]), TaskRows(s, s.sessions[x].task))
  {
    DoomedStep(s.sessions[x], TaskRows(s, s.sessions[x].task));
    StepKeeps(s, Server(x, NextOwn(s.sessions[x])));
  }

  /** The measure of the next lemma goes down. */
  lemma NextOwnLowers(x: S.Session, rows: seq<Row>)
    requires S.CanStep(x, NextOwn(x)) && Doomed(S.Take(x, NextOwn(x), rows), rows)
    ensures var x' := S.Take(x, NextOwn(x), rows);
            || (x.flag && !x'.flag)
            || (x'.flag == x.flag && Rank(x') < Rank(x))
            || (x'.flag == x.flag && Rank(x') == Rank(x) && |S.Batch(x'.phase)| < |S.Batch(x.phase)|)
  {
  }

  /** With no bus registered a session that is not flagged will not be. */
  lemma NobodyWakes(s: Sys, x: nat)
    requires x in s.sessions && s.sessions[x].task !in s.buses && !s.sessions[x].flag
    ensures !AboutToWake(s, x)
  {
  }

  // ----- a row behind the session's back -----

  const ROW_KIND := "task_started"

  /** A step of the log touches nothing else when no bus hears of it. */
  lemma LogLoses(s: Sys, a: Action, x: nat)
    requires Enabled(s.log, a) && (a.Finish? ==> s.log.calls[a.call].job.task !in s.buses)
    ensures CanLose(s.(log := Do(s.log, a)), x) ==> CanLose(s, x)
  {
    assert Do'(s, Log(a)) == s.(log := Do(s.log, a));
    if CanLose(s.(log := Do(s.log, a)), x) { LosesAfter(s, Log(a), x); }
  }

  /** The newcomer inserts and leaves. */
  lemma WriteBehind(s: Sys, l1: State, t: TaskId, c: CallId, x: nat) returns (l: State)
    requires Inv(s.log) && t !in s.buses && s.log.tables == l1.tables && c in s.log.calls
    requires s.log.calls[c] == Call(Job(t, ROW_KIND, "{}"), s.log.calls[c].lock, HasId(|Rows(l1, t)| + 1))
    requires s.log.calls[c].lock !in l1.holders && s.log.holders == l1.holders[s.log.calls[c].lock := c]
    ensures EventStore.Appended(l1, l, c, Job(t, ROW_KIND, "{}"))
    ensures CanLose(s.(log := l), x) ==> CanLose(s, x)
  {
    EventStore.UncontendedWrite(l1, s.log, c, Job(t, ROW_KIND, "{}"));
    var s5 := s.(log := Do(s.log, Insert(c)));
    l := Do(s5.log, Finish(c));
    assert s5.log.calls[c].job.task == t;
    LogLoses(s5, Finish(c), x);
    LogLoses(s, Insert(c), x);
    assert s5.(log := l) == s.(log := l);
  }

  /** A newcomer, on a new lock, appends a row. */
  lemma ReadBehind(s: Sys, t: TaskId, c: CallId, x: nat) returns (l: State)
    requires Inv(s.log) && t !in s.buses && t !in s.log.locks && c !in s.log.calls
    ensures EventStore.Appended(s.log, l, c, Job(t, ROW_KIND, "{}"))
    ensures CanLose(s.(log := l), x) ==> CanLose(s, x)
  {
    EventStore.UncontendedRead(s.log, c, Job(t, ROW_KIND, "{}"));
    var s2 := s.(log := Do(s.log, Begin(c, Job(t, ROW_KIND, "{}"))));
    var s3 := s2.(log := Do(s2.log, Acquire(c)));
    var s4 := s3.(log := Do(s3.log, ReadMax(c)));
    l := WriteBehind(s4, s.log, t, c, x);
    LogLoses(s3, ReadMax(c), x);
    LogLoses(s2, Acquire(c), x);
    LogLoses(s, Begin(c, Job(t, ROW_KIND, "{}")), x);
    assert s4.(log := l) == s.(log := l);
  }

  lemma AppendedGrows(l: State, l': State, c: CallId, job: Job)
    requires EventStore.Appended(l, l', c, job)
    ensures Inv(l') && forall u :: Rows(l, u) <= Rows(l', u)
  {
  }

  lemma RowBehind(s: Sys, t: TaskId, x: nat) returns (l: State)
    requires Inv(s.log) && t !in s.buses
    ensures Inv(l) && forall u :: Rows(s.log, u) <= Rows(l, u)
    ensures Rows(l, t) == TaskRows(s, t) + [Row(|TaskRows(s, t)| + 1, ROW_KIND, "{}")]
    ensures CanLose(s.(log := l), x) ==> CanLose(s, x)
  {
    var c := FreshNat(s.log.calls.Keys);
    DiscardKeeps(s.log, t);
    var s1 := s.(log := Do(s.log, Discard(t)));
    assert forall u :: Rows(s1.log, u) == Rows(s.log, u);
    l := ReadBehind(s1, t, c, x);
    AppendedGrows(s1.log, l, c, Job(t, ROW_KIND, "{}"));
    LogLoses(s, Discard(t), x);
    assert s1.(log := l) == s.(log := l);
  }

  /** A longer log leaves the system in order. */
  lemma LongerLogKeeps(s: Sys, l: State)
    requires SysInv(s) && Inv(l) && forall t :: Rows(s.log, t) <= Rows(l, t)
    ensures SysInv(s.(log := l))
  {
    var s' := s.(log := l);
    assert forall t :: TaskRows(s, t) <= TaskRows(s', t);
    SessionsGrow(s, s');
    LinkGrows(s, s');
  }

  lemma StrayAppend(s: Sys, x: nat) returns (s': Sys)
    requires Stray(s, x) && s.sessions[x].phase.Parked?
    requires EventsAfter(TaskRows(s, s.sessions[x].task), s.sessions[x].cursor) == []
    ensures Stray(s', x) && s'.sessions == s.sessions && Missing(s', x) < Missing(s, x)
    ensures CanLose(s', x) ==> CanLose(s, x)
  {
    var y := s.sessions[x];
    var rows := TaskRows(s, y.task);
    var l := RowBehind(s, y.task, x);
    s' := s.(log := l);
    LongerLogKeeps(s, l);
    AppendKeepsDoom(y, rows, Row(|rows| + 1, ROW_KIND, "{}"));
  }

  /** A parked session that has fetched everything stays doomed when a row arrives. */
  lemma AppendKeepsDoom(y: S.Session, rows: seq<Row>, row: Row)
    requires Doomed(y, rows) && y.phase.Parked? && S.SessionOk(y, rows) && Contiguous(rows)
    requires EventsAfter(rows, y.cursor) == [] && !IsTerminal(row)
    ensures Doomed(y, rows + [row]) && |rows| <= S.Low(y.cursor)
  {
    S.EventsAfterSlice(rows, y.cursor);
    ParkedReach(y, rows);
    StillDoomed(y, rows, row);
  }

  lemma StillDoomed(y: S.Session, rows: seq<Row>, row: Row)
    requires Doomed(y, rows) && S.Reach(y) >= |rows| && !IsTerminal(row)
    ensures Doomed(y, rows + [row])
  {
    forall i | 0 <= i < |rows|
      ensures !IsTerminal(rows[i])
    {
    }
  }

  /** A stray session can always be lost: it parks unflagged, and rows arrive behind its back. */
  lemma {:induction false} StrayLoses(s: Sys, x: nat)
    requires Stray(s, x)
    ensures CanLose(s, x)
    decreases if s.sessions[x].flag then 1 else 0, Rank(s.sessions[x]), |S.Batch(s.sessions[x].phase)|, Missing(s, x)
  {
    var y := s.sessions[x];
    var rows := TaskRows(s, y.task);
    if !y.phase.Parked? || y.flag {
      StrayStep(s, x);
      NextOwnLowers(y, rows);
      StrayLoses(Do'(s, Server(x, NextOwn(y))), x);
      LosesAfter(s, Server(x, NextOwn(y)), x);
    } else if EventsAfter(rows, y.cursor) != [] {
      NobodyWakes(s, x);
      LostNow(s, x);
    } else {
      var s' := StrayAppend(s, x);
      StrayLoses(s', x);
    }
  }

  // ----- main result -----

  lemma DroppedStray(s: Sys, t: TaskId, x: nat)
    requires SysInv(s) && x in s.sessions && s.sessions[x].task == t && !Immune(s.sessions[x], TaskRows(s, t))
    ensures Stray(Do'(s, DiscardBus(t)), x)
  {
    StepKeeps(s, DiscardBus(t));
    DoomedIfNotImmune(s.sessions[x], TaskRows(s, t));
  }

  /** The bus of `t` may be dropped now, without a wakeup ever being lost by a continuation that drops only
      dispensable buses, exactly when each of its subscribers is immune. */
  lemma DispensableIff(s: Sys, t: TaskId)
    requires SysInv(s) && AllAnnounced(s)
    ensures Dispensable(s, t) <==> NeverLoses(Do'(s, DiscardBus(t)))
  {
    var s' := Do'(s, DiscardBus(t));
    StepKeeps(s, DiscardBus(t));
    if Dispensable(s, t) {
      DiscardAnnounced(s, t);
      AnnouncedNeverLoses(s');
    } else {
      var x :| x in s.sessions && s.sessions[x].task == t && Registered(s, s.sessions[x])
               && !Immune(s.sessions[x], TaskRows(s, t));
      DroppedStray(s, t, x);
      StrayLoses(s', x);
      var run :| Run(s', run) && NoDrops(run) && Lost(Final(s', run), x);
      NothingDropped(s', run);
    }
  }
}
