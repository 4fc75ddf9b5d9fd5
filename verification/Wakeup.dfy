/** No lost wakeup: a parked session with rows beyond its cursor has its flag set, or some writer has
    inserted a row and not yet notified. */
module Wakeup {
  import opened Common
  import opened EventLog
  import opened StreamProtocol

  /** Ids of rows of `t` that are inserted and not yet notified. */
  function Pending(s: Sys, t: TaskId): set<int> {
    set c | c in s.log.calls && s.log.calls[c].job.task == t && s.log.calls[c].pc.Inserted? :: s.log.calls[c].pc.id
  }

  predicate Registered(s: Sys, x: S.Session) { x.task in s.buses && s.buses[x.task] == x.bus }

  /** The session started below every terminal row. */
  ghost predicate Below(x: S.Session, rows: seq<Row>) {
    forall i :: 0 <= i < |rows| && i < S.Low(x.start) ==> !IsTerminal(rows[i])
  }

  /** It has not fetched a terminal row. */
  ghost predicate NoneReached(x: S.Session, rows: seq<Row>) {
    forall i :: S.Low(x.start) <= i < |rows| && i < S.Reach(x) ==> !IsTerminal(rows[i])
  }

  ghost predicate HasTerminal(rows: seq<Row>) { exists i :: 0 <= i < |rows| && IsTerminal(rows[i]) }

  /** Between a fetch and the next one. */
  predicate Fetched(x: S.Session) { x.phase.Replay? || x.phase.Drain? || x.phase.Beating? || x.phase.Parked? }

  /** The session needs no more notifies: it is over, it will close after its replay, it started beyond a
      terminal row, or a terminal row is in the table and it will fetch that row before it parks for good. */
  ghost predicate Immune(x: S.Session, rows: seq<Row>) {
    || x.phase.Closed? || !Below(x, rows)
    || (x.closing && (x.phase.Opening? || x.phase.Replay?))
    || (HasTerminal(rows) &&
        (x.phase.Opening? || x.phase.Replay? || x.phase.Loop? || x.flag || !NoneReached(x, rows)))
  }

  /** Every row that a subscriber of the registered bus has not fetched is announced: by the flag, or by a
      writer that will set it. A session on a bus that is no longer registered needs no announcement. */
  ghost predicate Announced(x: S.Session, rows: seq<Row>, registered: bool, pending: set<int>) {
    if registered then
      !x.phase.Closed? && Below(x, rows) && Fetched(x) && NoneReached(x, rows) ==>
        x.flag || S.Reach(x) >= |rows| || forall id :: S.Reach(x) < id <= |rows| ==> id in pending
    else
      Immune(x, rows)
  }

  // ----- one session -----

  lemma InsertKeepsView(x: S.Session, rows: seq<Row>, row: Row)
    ensures Below(x, rows + [row]) ==> Below(x, rows)
    ensures NoneReached(x, rows + [row]) ==> NoneReached(x, rows)
    ensures HasTerminal(rows) ==> HasTerminal(rows + [row])
  {
    var more := rows + [row];
    forall i | 0 <= i < |rows| ensures rows[i] == more[i] { }
    if Below(x, more) {
      forall i | 0 <= i < |rows| && i < S.Low(x.start) ensures !IsTerminal(rows[i]) { assert !IsTerminal(more[i]); }
    }
    if NoneReached(x, more) {
      forall i | S.Low(x.start) <= i < |rows| && i < S.Reach(x) ensures !IsTerminal(rows[i]) { assert !IsTerminal(more[i]); }
    }
    if HasTerminal(rows) {
      var i :| 0 <= i < |rows| && IsTerminal(rows[i]);
      assert IsTerminal(more[i]);
    }
  }

  lemma AnnounceInsert(x: S.Session, rows: seq<Row>, row: Row, registered: bool, pending: set<int>)
    requires Announced(x, rows, registered, pending)
    ensures Announced(x, rows + [row], registered, pending + {|rows| + 1})
  {
    InsertKeepsView(x, rows, row);
  }

  lemma AnnounceNotify(x: S.Session, rows: seq<Row>, registered: bool, pending: set<int>, pending': set<int>)
    requires Announced(x, rows, registered, pending)
    ensures Announced(x.(flag := true), rows, registered, pending')
    ensures !registered ==> Announced(x, rows, registered, pending')
  {
    assert S.Reach(x.(flag := true)) == S.Reach(x);
  }

  /** After a notified terminal row a subscriber is immune. */
  lemma AnnounceDiscard(x: S.Session, rows: seq<Row>, pending: set<int>, t: nat)
    requires Announced(x, rows, true, pending)
    requires t < |rows| && IsTerminal(rows[t]) && t + 1 !in pending
    ensures Immune(x, rows)
  {
    assert HasTerminal(rows);
    if !x.phase.Closed? && Below(x, rows) && Fetched(x) && NoneReached(x, rows) {
      assert t >= S.Reach(x);
    }
  }

  lemma ImmuneFetch(x: S.Session, rows: seq<Row>)
    requires Immune(x, rows) && S.SessionOk(x, rows) && Contiguous(rows) && S.CanStep(x, S.Fetch)
    ensures Immune(S.Take(x, S.Fetch, rows), rows)
  {
    S.FetchOk(x, rows);
    var x' := S.Take(x, S.Fetch, rows);
    if Below(x', rows) && HasTerminal(rows) {
      var i :| 0 <= i < |rows| && IsTerminal(rows[i]);
      assert S.Low(x'.start) <= i < S.Reach(x');
    }
  }

  lemma ImmuneSend(x: S.Session, rows: seq<Row>)
    requires Immune(x, rows) && S.SessionOk(x, rows) && Contiguous(rows) && S.CanStep(x, S.Send)
    ensures Immune(S.Take(x, S.Send, rows), rows)
  {
    S.SendOk(x, rows);
  }

  /** A drained session that fetched a terminal row has sent it, and so it is closed. */
  lemma DrainedReachedNone(x: S.Session, rows: seq<Row>)
    requires S.SessionOk(x, rows) && !x.phase.Closed? && S.Batch(x.phase) == []
    ensures NoneReached(x, rows)
  {
    forall i | S.Low(x.start) <= i < |rows| && i < S.Reach(x) ensures !IsTerminal(rows[i]) {
      assert rows[i] == S.Sent(x)[i - S.Low(x.start)];
    }
  }

  lemma ImmuneOwn(x: S.Session, own: S.Step, rows: seq<Row>)
    requires Immune(x, rows) && S.SessionOk(x, rows) && Contiguous(rows) && S.CanStep(x, own)
    ensures Immune(S.Take(x, own, rows), rows)
  {
    S.StepOk(x, own, rows);
    if own == S.Fetch {
      ImmuneFetch(x, rows);
    } else if own == S.Send {
      ImmuneSend(x, rows);
    } else if own != S.HangUp {
      if !x.phase.Closed? && S.Batch(x.phase) == [] { DrainedReachedNone(x, rows); }
    }
  }

  lemma AnnounceOwn(x: S.Session, own: S.Step, rows: seq<Row>, registered: bool, pending: set<int>)
    requires Announced(x, rows, registered, pending) && S.SessionOk(x, rows) && Contiguous(rows)
    requires S.CanStep(x, own)
    ensures Announced(S.Take(x, own, rows), rows, registered, pending)
  {
    if registered {
      S.StepOk(x, own, rows);
      if own == S.Fetch { S.FetchOk(x, rows); }
      if own == S.Send { S.SendOk(x, rows); }
    } else {
      ImmuneOwn(x, own, rows);
    }
  }

  // ----- the system -----

  ghost predicate SessionAnnounced(s: Sys, x: nat)
    requires x in s.sessions
  {
    var y := s.sessions[x];
    Announced(y, TaskRows(s, y.task), Registered(s, y), Pending(s, y.task))
  }

  ghost predicate AllAnnounced(s: Sys) { forall x :: x in s.sessions ==> SessionAnnounced(s, x) }

  /** A terminal row of `t` has been inserted and notified. */
  ghost predicate TerminalNotified(s: Sys, t: TaskId) {
    exists i :: 0 <= i < |TaskRows(s, t)| && IsTerminal(TaskRows(s, t)[i]) && i + 1 !in Pending(s, t)
  }

  lemma InsertPending(s: Sys, c: CallId, t: TaskId)
    requires Inv(s.log) && Can(s, Log(Insert(c)))
    ensures var s' := Do'(s, Log(Insert(c)));
            var rows, rows' := TaskRows(s, t), TaskRows(s', t);
            || (rows' == rows && Pending(s', t) == Pending(s, t))
            || (|rows'| == |rows| + 1 && rows' == rows + [rows'[|rows|]]
                && Pending(s', t) == Pending(s, t) + {|rows| + 1})
  {
    var s' := Do'(s, Log(Insert(c)));
    InsertOutcome(s.log, c);
    assert forall d :: d in s.log.calls && d != c ==> s'.log.calls[d] == s.log.calls[d];
    if s'.log.calls[c].pc.Inserted? && s.log.calls[c].job.task == t {
      var id := s'.log.calls[c].pc.id;
      assert id in Pending(s', t);
      assert Pending(s', t) == Pending(s, t) + {id};
    } else {
      assert Pending(s', t) == Pending(s, t);
    }
  }

  lemma OtherPending(s: Sys, a: Action, t: TaskId)
    requires Inv(s.log) && Can(s, Log(a)) && !a.Finish? && !a.Insert?
    ensures var s' := Do'(s, Log(a)); TaskRows(s', t) == TaskRows(s, t) && Pending(s', t) == Pending(s, t)
  {
    var s' := Do'(s, Log(a));
    assert forall d :: d in s.log.calls ==>
      d in s'.log.calls && s'.log.calls[d].job == s.log.calls[d].job
      && (s'.log.calls[d].pc.Inserted? || s.log.calls[d].pc.Inserted? ==> s'.log.calls[d].pc == s.log.calls[d].pc);
    forall id ensures id in Pending(s', t) <==> id in Pending(s, t) {
      if id in Pending(s, t) {
        var d :| d in s.log.calls && s.log.calls[d].job.task == t && s.log.calls[d].pc == Inserted(id);
        assert s'.log.calls[d].pc == Inserted(id);
      }
    }
  }

  lemma LogAnnouncedOne(s: Sys, a: Action, x: nat)
    requires Inv(s.log) && x in s.sessions && SessionAnnounced(s, x) && Can(s, Log(a)) && !a.Finish?
    ensures x in Do'(s, Log(a)).sessions && SessionAnnounced(Do'(s, Log(a)), x)
  {
    var s' := Do'(s, Log(a));
    var y := s.sessions[x];
    var rows, rows' := TaskRows(s, y.task), TaskRows(s', y.task);
    if a.Insert? { InsertPending(s, a.call, y.task); } else { OtherPending(s, a, y.task); }
    if rows' != rows {
      AnnounceInsert(y, rows, rows'[|rows|], Registered(s, y), Pending(s, y.task));
    }
  }

  lemma LogAnnounced(s: Sys, a: Action)
    requires Inv(s.log) && AllAnnounced(s) && Can(s, Log(a)) && !a.Finish?
    ensures AllAnnounced(Do'(s, Log(a)))
  {
    forall x | x in Do'(s, Log(a)).sessions ensures SessionAnnounced(Do'(s, Log(a)), x) {
      assert SessionAnnounced(s, x);
      LogAnnouncedOne(s, a, x);
    }
  }

  lemma FinishPending(s: Sys, c: CallId, t: TaskId)
    requires Can(s, Log(Finish(c))) && t != s.log.calls[c].job.task
    ensures var s' := Do'(s, Log(Finish(c))); TaskRows(s', t) == TaskRows(s, t) && Pending(s', t) == Pending(s, t)
  {
    var s' := Do'(s, Log(Finish(c)));
    assert forall d :: d in s.log.calls && d != c ==> s'.log.calls[d] == s.log.calls[d];
  }

  lemma FinishAnnounced(s: Sys, c: CallId)
    requires SysInv(s) && AllAnnounced(s) && Can(s, Log(Finish(c)))
    ensures AllAnnounced(Do'(s, Log(Finish(c))))
  {
    var s' := Do'(s, Log(Finish(c)));
    var t := s.log.calls[c].job.task;
    NotifiedSame(s, t);
    forall x | x in s'.sessions ensures SessionAnnounced(s', x) {
      var y, y' := s.sessions[x], s'.sessions[x];
      assert SessionAnnounced(s, x);
      assert Registered(s', y') == Registered(s, y) && TaskRows(s', y.task) == TaskRows(s, y.task);
      if y.task == t {
        AnnounceNotify(y, TaskRows(s, t), Registered(s, y), Pending(s, t), Pending(s', t));
        assert Registered(s, y) && !y.phase.Closed? ==> y' == y.(flag := true);
        assert !Registered(s, y) ==> y' == y;
      } else {
        FinishPending(s, c, y.task);
        assert y' == y;
      }
    }
  }

  /** The registered bus of `t` may be dropped: each of its subscribers can do without it. */
  ghost predicate Dispensable(s: Sys, t: TaskId) {
    forall x :: x in s.sessions && s.sessions[x].task == t && Registered(s, s.sessions[x]) ==>
      Immune(s.sessions[x], TaskRows(s, t))
  }

  lemma DiscardAnnounced(s: Sys, t: TaskId)
    requires BusOk(s) && AllAnnounced(s) && Dispensable(s, t)
    ensures AllAnnounced(Do'(s, DiscardBus(t)))
  {
    var s' := Do'(s, DiscardBus(t));
    forall x | x in s'.sessions ensures SessionAnnounced(s', x) {
      assert SessionAnnounced(s, x);
      assert Pending(s', s.sessions[x].task) == Pending(s, s.sessions[x].task);
    }
  }

  /** With no subscriber, or after a notified terminal row, the bus is dispensable. */
  lemma TerminalNotifiedSuffices(s: Sys, t: TaskId)
    requires AllAnnounced(s) && TerminalNotified(s, t)
    ensures Dispensable(s, t)
  {
    var i :| 0 <= i < |TaskRows(s, t)| && IsTerminal(TaskRows(s, t)[i]) && i + 1 !in Pending(s, t);
    forall x | x in s.sessions && s.sessions[x].task == t && Registered(s, s.sessions[x])
      ensures Immune(s.sessions[x], TaskRows(s, t))
    {
      assert SessionAnnounced(s, x);
      AnnounceDiscard(s.sessions[x], TaskRows(s, t), Pending(s, t), i);
    }
  }

  lemma SubscribeAnnounced(s: Sys, x: nat, t: TaskId, cursor: int, closing: bool)
    requires BusOk(s) && AllAnnounced(s) && x !in s.sessions
    ensures AllAnnounced(Subscribe(s, x, t, cursor, closing))
  {
    var s' := Subscribe(s, x, t, cursor, closing);
    forall z | z in s'.sessions ensures SessionAnnounced(s', z) {
      assert Pending(s', s'.sessions[z].task) == Pending(s, s'.sessions[z].task);
      if z != x {
        assert SessionAnnounced(s, z);
        assert Registered(s', s.sessions[z]) == Registered(s, s.sessions[z]);
      }
    }
  }

  lemma ServerAnnounced(s: Sys, x: nat, own: S.Step)
    requires SysInv(s) && AllAnnounced(s) && Can(s, Server(x, own))
    ensures AllAnnounced(Do'(s, Server(x, own)))
  {
    var s' := Do'(s, Server(x, own));
    forall z | z in s'.sessions ensures SessionAnnounced(s', z) {
      assert SessionAnnounced(s, z);
      var y := s.sessions[z];
      assert Pending(s', y.task) == Pending(s, y.task);
      if z == x {
        AnnounceOwn(y, own, TaskRows(s, y.task), Registered(s, y), Pending(s, y.task));
      }
    }
  }

  /** A bus is dropped from the registry only when its subscribers can do without it. */
  ghost predicate Guarded(s: Sys, step: Step) {
    step.DiscardBus? ==> Dispensable(s, step.task)
  }

  lemma StepAnnounced(s: Sys, step: Step)
    requires SysInv(s) && AllAnnounced(s) && Can(s, step) && Guarded(s, step)
    ensures AllAnnounced(Do'(s, step))
  {
    match step
    case Log(a) => if a.Finish? { FinishAnnounced(s, a.call); } else { LogAnnounced(s, a); }
    case DiscardBus(t) => DiscardAnnounced(s, t);
    case OpenStream(x, t, cursor, closing) => SubscribeAnnounced(s, x, t, cursor, closing);
    case Server(x, own) => ServerAnnounced(s, x, own);
    case Connect(x, closing) =>
      SubscribeAnnounced(s, x, s.client.task, C.HeaderCursor(s.client.cursor), closing);
      SameServer(Subscribe(s, x, s.client.task, C.HeaderCursor(s.client.cursor), closing), Do'(s, step));
    case _ => SameServer(s, Do'(s, step));
  }

  lemma SameServer(s: Sys, s': Sys)
    requires AllAnnounced(s) && s' == s.(client := s'.client)
    ensures AllAnnounced(s')
  {
    forall x | x in s'.sessions ensures SessionAnnounced(s', x) {
      assert SessionAnnounced(s, x);
      assert Pending(s', s.sessions[x].task) == Pending(s, s.sessions[x].task);
    }
  }

  ghost predicate GuardedRun(s: Sys, run: seq<Step>)
    decreases |run|
  {
    run == [] || (Can(s, run[0]) && Guarded(s, run[0]) && GuardedRun(Do'(s, run[0]), run[1..]))
  }

  lemma {:induction false} GuardedRunAnnounced(s: Sys, run: seq<Step>)
    requires SysInv(s) && AllAnnounced(s) && GuardedRun(s, run)
    ensures Run(s, run) && SysInv(Final(s, run)) && AllAnnounced(Final(s, run))
    decreases |run|
  {
    if run != [] {
      StepKeeps(s, run[0]);
      StepAnnounced(s, run[0]);
      GuardedRunAnnounced(Do'(s, run[0]), run[1..]);
    }
  }

  lemma ParkedReach(x: S.Session, rows: seq<Row>)
    requires S.SessionOk(x, rows) && x.phase.Parked?
    ensures NoneReached(x, rows) && S.Reach(x) == S.Low(x.cursor)
  {
    DrainedReachedNone(x, rows);
  }

  // ----- main result: wakeups -----

  /** Some writer has inserted a row of the session's task, and its notify will set the session's flag. */
  ghost predicate AboutToWake(s: Sys, x: nat)
    requires x in s.sessions
  {
    exists c :: c in s.log.calls && s.log.calls[c].job.task == s.sessions[x].task && s.log.calls[c].pc.Inserted?
                && x in Do'(s, Log(Finish(c))).sessions && Do'(s, Log(Finish(c))).sessions[x].flag
  }

  /** Whenever a session that started below the first terminal row is parked and rows exist beyond its
      cursor, its flag is set or a writer between insert and notify is about to set it. */
  lemma NoLostWakeup(task: TaskId, start: Option<int>, auto: bool, beats: bool, max: int, run: seq<Step>, x: nat)
    requires GuardedRun(Start(C.NewClient(task, start, auto, beats, max)), run)
    ensures Run(Start(C.NewClient(task, start, auto, beats, max)), run)
    ensures var s := Final(Start(C.NewClient(task, start, auto, beats, max)), run);
            x in s.sessions && s.sessions[x].phase.Parked? ==>
              var y := s.sessions[x];
              var rows := TaskRows(s, y.task);
              Below(y, rows) && EventsAfter(rows, y.cursor) != [] ==> y.flag || AboutToWake(s, x)
  {
    var client := C.NewClient(task, start, auto, beats, max);
    StartInv(client, task, start, auto, beats, max);
    GuardedRunAnnounced(Start(client), run);
    var s := Final(Start(client), run);
    if x in s.sessions && s.sessions[x].phase.Parked? {
      assert SessionAnnounced(s, x);
      ParkedIsAnnounced(s, x);
    }
  }

  /** A writer that has inserted and not yet notified will set the flag of every registered session. */
  lemma WriterWakes(s: Sys, x: nat, c: CallId)
    requires x in s.sessions && Registered(s, s.sessions[x]) && !s.sessions[x].phase.Closed?
    requires c in s.log.calls && s.log.calls[c].job.task == s.sessions[x].task && s.log.calls[c].pc.Inserted?
    ensures AboutToWake(s, x)
  {
    NotifiedSame(s, s.sessions[x].task);
    assert Do'(s, Log(Finish(c))).sessions[x].flag;
  }

  lemma ParkedIsAnnounced(s: Sys, x: nat)
    requires x in s.sessions && s.sessions[x].phase.Parked? && SessionAnnounced(s, x)
    requires var y := s.sessions[x]; Contiguous(TaskRows(s, y.task)) && S.SessionOk(y, TaskRows(s, y.task))
    ensures var y := s.sessions[x];
            var rows := TaskRows(s, y.task);
            Below(y, rows) && EventsAfter(rows, y.cursor) != [] && !y.flag ==> AboutToWake(s, x)
  {
    var y := s.sessions[x];
    var rows := TaskRows(s, y.task);
    ParkedReach(y, rows);
    S.EventsAfterSlice(rows, y.cursor);
    if Below(y, rows) && EventsAfter(rows, y.cursor) != [] && !y.flag {
      assert |rows| in Pending(s, y.task) && Registered(s, y);
      var c :| c in s.log.calls && s.log.calls[c].job.task == y.task && s.log.calls[c].pc == Inserted(|rows|);
      WriterWakes(s, x, c);
    }
  }

  // ----- the guard is needed -----

  lemma RunStep(s: Sys, step: Step, rest: seq<Step>)
    requires Can(s, step) && Run(Do'(s, step), rest)
    ensures Run(s, [step] + rest) && Final(s, [step] + rest) == Final(Do'(s, step), rest)
  {
    assert ([step] + rest)[1..] == rest;
  }

  lemma {:induction false} RunJoin(s: Sys, a: seq<Step>, b: seq<Step>)
    requires Run(s, a) && Run(Final(s, a), b)
    ensures Run(s, a + b) && Final(s, a + b) == Final(Final(s, a), b)
    decreases |a|
  {
    if a == [] {
      assert a + b == b;
    } else {
      RunJoin(Do'(s, a[0]), a[1..], b);
      assert a + b == [a[0]] + (a[1..] + b);
      RunStep(s, a[0], a[1..] + b);
    }
  }

  /** A session of `t` that has fetched an empty table twice and parked. */
  function ParkedSession(t: TaskId): S.Session { S.Session(t, 0, false, 0, 0, false, S.Parked, []) }

  lemma ParkRun(client: C.Client, t: TaskId) returns (run: seq<Step>)
    ensures Run(Start(client), run)
    ensures Final(Start(client), run) == Sys(INITIAL, map[t := 0], map[0 := t], 1, map[0 := ParkedSession(t)], client)
  {
    var s0 := Start(client);
    var s1 := Do'(s0, OpenStream(0, t, 0, false));
    var s2 := Do'(s1, Server(0, S.Fetch));
    var s3 := Do'(s2, Server(0, S.Drained));
    var s4 := Do'(s3, Server(0, S.Fetch));
    var s5 := Do'(s4, Server(0, S.Drained));
    RunStep(s5, Server(0, S.Beat(false)), []);
    RunStep(s4, Server(0, S.Drained), [Server(0, S.Beat(false))]);
    var r4 := [Server(0, S.Drained)] + [Server(0, S.Beat(false))];
    RunStep(s3, Server(0, S.Fetch), r4);
    var r3 := [Server(0, S.Fetch)] + r4;
    RunStep(s2, Server(0, S.Drained), r3);
    var r2 := [Server(0, S.Drained)] + r3;
    RunStep(s1, Server(0, S.Fetch), r2);
    var r1 := [Server(0, S.Fetch)] + r2;
    RunStep(s0, OpenStream(0, t, 0, false), r1);
    run := [OpenStream(0, t, 0, false)] + r1;
  }

  /** One uncontended call of `insert_event`, from lookup to notify, when no bus is registered. */
  lemma InsertRun(s: Sys, job: Job) returns (run: seq<Step>)
    requires s.log == INITIAL && s.buses == map[]
    ensures Run(s, run)
    ensures var s' := Final(s, run);
            && s'.sessions == s.sessions && TaskRows(s', job.task) == [Row(1, job.kind, job.payload)]
            && s'.log.calls == map[0 := Call(job, 0, Returned(1))]
  {
    var s1 := Do'(s, Log(Begin(0, job)));
    var s2 := Do'(s1, Log(Acquire(0)));
    var s3 := Do'(s2, Log(ReadMax(0)));
    var s4 := Do'(s3, Log(Insert(0)));
    RunStep(s4, Log(Finish(0)), []);
    RunStep(s3, Log(Insert(0)), [Log(Finish(0))]);
    var r3 := [Log(Insert(0))] + [Log(Finish(0))];
    RunStep(s2, Log(ReadMax(0)), r3);
    var r2 := [Log(ReadMax(0))] + r3;
    RunStep(s1, Log(Acquire(0)), r2);
    var r1 := [Log(Acquire(0))] + r2;
    RunStep(s, Log(Begin(0, job)), r1);
    run := [Log(Begin(0, job))] + r1;
  }

  /** Dropping a bus before the terminal row loses a wakeup: the session stays parked on a bus nobody
      notifies, although a row is waiting and no writer is under way. */
  lemma EarlyDiscardLosesWakeup(client: C.Client, t: TaskId) returns (run: seq<Step>)
    ensures Run(Start(client), run)
    ensures var s := Final(Start(client), run);
            && 0 in s.sessions && s.sessions[0] == ParkedSession(t)
            && EventsAfter(TaskRows(s, t), 0) != [] && Below(s.sessions[0], TaskRows(s, t))
            && forall c :: c in s.log.calls ==> !s.log.calls[c].pc.Inserted?
  {
    var park := ParkRun(client, t);
    var s := Final(Start(client), park);
    var s' := Do'(s, DiscardBus(t));
    var job := Job(t, "task_started", "{}");
    var insert := InsertRun(s', job);
    RunStep(s, DiscardBus(t), insert);
    RunJoin(Start(client), park, [DiscardBus(t)] + insert);
    run := park + ([DiscardBus(t)] + insert);
  }
}
