/** Writers, wakeup buses, server sessions and one SDK client, composed.  Any number of sessions of
    other clients may run beside the client's own. */
module StreamProtocol {
  import opened Common
  import opened EventLog
  import S = SseSession
  import C = SdkStream

  /** `buses` is the registry; a session keeps its bus object even after the registry dropped it.
      `busTask` remembers for which task a bus object was made. */
  datatype Sys = Sys(log: State, buses: map<TaskId, nat>, busTask: map<nat, TaskId>, busCount: nat,
                     sessions: map<nat, S.Session>, client: C.Client)

  function Start(client: C.Client): Sys { Sys(INITIAL, map[], map[], 0, map[], client) }

  datatype Step =
    | Log(action: Action)
    | DiscardBus(task: TaskId)
    | OpenStream(x: nat, task: TaskId, cursor: int, closing: bool)
    | Server(x: nat, own: S.Step)
    | Connect(x: nat, closing: bool)
    | ConnectFails
    | ConnectRejected
    | Deliver(carry: bool)
    | Drop          // transport error; whatever is in flight is lost
    | Eof           // the stream ends; whatever is in flight is lost

  function TaskRows(s: Sys, t: TaskId): seq<Row> { Rows(s.log, t) }

  predicate Can(s: Sys, step: Step) {
    var p := s.client.phase;
    match step
    case Log(a) => Enabled(s.log, a)
    case DiscardBus(_) => true
    case OpenStream(x, _, _, _) => x !in s.sessions
    case Server(x, own) => x in s.sessions && S.CanStep(s.sessions[x], own)
    case Connect(x, _) => p.Connecting? && x !in s.sessions
    case ConnectFails => p.Connecting?
    case ConnectRejected => p.Connecting?
    case Deliver(_) => p.Streaming? && p.session in s.sessions && p.pos < |s.sessions[p.session].wire|
    case Drop => p.Streaming?
    case Eof => p.Streaming?
  }

  /** `get_bus` and `subscribe`. */
  function Subscribe(s: Sys, x: nat, task: TaskId, cursor: int, closing: bool): Sys {
    if task in s.buses then
      s.(sessions := s.sessions[x := S.Open(task, s.buses[task], cursor, closing)])
    else
      s.(buses := s.buses[task := s.busCount], busTask := s.busTask[s.busCount := task], busCount := s.busCount + 1,
         sessions := s.sessions[x := S.Open(task, s.busCount, cursor, closing)])
  }

  /** `notify`: set the flag of every subscriber of the registered bus. */
  function Notified(s: Sys, t: TaskId): map<nat, S.Session> {
    if t !in s.buses then s.sessions
    else
      map x | x in s.sessions ::
        if s.sessions[x].bus == s.buses[t] && !s.sessions[x].phase.Closed? then s.sessions[x].(flag := true)
        else s.sessions[x]
  }

  function Do'(s: Sys, step: Step): Sys
    requires Can(s, step)
  {
    var c := s.client;
    match step
    case Log(a) =>
      s.(log := Do(s.log, a),
         sessions := if a.Finish? then Notified(s, s.log.calls[a.call].job.task) else s.sessions)
    case DiscardBus(t) => s.(buses := s.buses - {t})
    case OpenStream(x, t, cursor, closing) => Subscribe(s, x, t, cursor, closing)
    case Server(x, own) =>
      s.(sessions := s.sessions[x := S.Take(s.sessions[x], own, TaskRows(s, s.sessions[x].task))])
    case Connect(x, closing) =>
      Subscribe(s, x, c.task, C.HeaderCursor(c.cursor), closing).(client := C.Connected(c, x))
    case ConnectFails => s.(client := C.Unreachable(c))
    case ConnectRejected => s.(client := C.Rejected(c))
    case Deliver(carry) => s.(client := C.Receive(c, s.sessions[c.phase.session].wire[c.phase.pos], carry))
    case Drop => s.(client := C.Lost(c))
    case Eof => s.(client := C.Ended(c))
  }

  // ----- the invariant -----

  ghost predicate BusOk(s: Sys) {
    && (forall b :: b in s.busTask ==> b < s.busCount)
    && (forall t :: t in s.buses ==> s.buses[t] in s.busTask && s.busTask[s.buses[t]] == t)
    && (forall x :: x in s.sessions ==>
          s.sessions[x].bus in s.busTask && s.busTask[s.sessions[x].bus] == s.sessions[x].task)
  }

  ghost predicate SessionsOk(s: Sys) {
    forall x :: x in s.sessions ==> S.SessionOk(s.sessions[x], TaskRows(s, s.sessions[x].task))
  }

  /** First row index the client asked for. */
  function ClientLow(c: C.Client): nat { S.Low(C.HeaderCursor(c.start)) }

  /** The client has received a slice of its task's rows, and its connection continues that slice. */
  ghost predicate LinkOk(s: Sys) {
    var c := s.client;
    var next := ClientLow(c) + |c.received|;
    && S.IsSlice(TaskRows(s, c.task), ClientLow(c), c.received)
    && (c.phase.Streaming? ==>
          && c.phase.session in s.sessions
          && var x := s.sessions[c.phase.session];
             x.task == c.task && c.phase.pos <= |x.wire| && ClientLow(c) <= S.Low(x.start)
             && S.Low(x.start) + |S.Events(x.wire[..c.phase.pos])| == next)
  }

  ghost predicate SysInv(s: Sys) {
    Inv(s.log) && BusOk(s) && SessionsOk(s) && C.ClientOk(s.client) && C.AttemptsOk(s.client) && LinkOk(s)
  }

  lemma StartInv(client: C.Client, task: TaskId, start: Option<int>, auto: bool, beats: bool, max: int)
    requires client == C.NewClient(task, start, auto, beats, max)
    ensures SysInv(Start(client))
  {
    InitialInv();
  }

  lemma {:induction false} EventsPrefix(wire: seq<S.Msg>, n: nat)
    requires n <= |wire|
    ensures S.Events(wire[..n]) <= S.Events(wire)
    decreases |wire| - n
  {
    if n == |wire| {
      assert wire[..n] == wire;
    } else {
      EventsPrefix(wire, n + 1);
      assert wire[..n + 1] == wire[..n] + [wire[n]];
      S.EventsSnoc(wire[..n], wire[n]);
    }
  }

  /** Growing tables and longer wires leave the client's link intact. */
  lemma LinkGrows(s: Sys, s': Sys)
    requires LinkOk(s) && s'.client == s.client
    requires TaskRows(s, s.client.task) <= TaskRows(s', s.client.task)
    requires var p := s.client.phase;
             p.Streaming? && p.session in s.sessions ==>
               && p.session in s'.sessions
               && var x, x' := s.sessions[p.session], s'.sessions[p.session];
                  x'.task == x.task && x'.start == x.start && x.wire <= x'.wire
    ensures LinkOk(s')
  {
    var p := s.client.phase;
    if p.Streaming? {
      var x, x' := s.sessions[p.session], s'.sessions[p.session];
      assert x'.wire[..p.pos] == x.wire[..p.pos];
    }
  }

  lemma NotifiedSame(s: Sys, t: TaskId)
    ensures Notified(s, t).Keys == s.sessions.Keys
    ensures forall x :: x in s.sessions ==>
              var y, y' := s.sessions[x], Notified(s, t)[x];
              y' == y.(flag := y'.flag) && (y.flag ==> y'.flag)
  {
  }

  lemma SessionsGrow(s: Sys, s': Sys)
    requires SessionsOk(s) && s'.sessions.Keys == s.sessions.Keys
    requires forall x :: x in s.sessions ==> s'.sessions[x] == s.sessions[x].(flag := s'.sessions[x].flag)
    requires forall t :: TaskRows(s, t) <= TaskRows(s', t)
    ensures SessionsOk(s')
  {
    forall x | x in s'.sessions
      ensures S.SessionOk(s'.sessions[x], TaskRows(s', s'.sessions[x].task))
    {
      S.GrowOk(s.sessions[x], TaskRows(s, s.sessions[x].task), TaskRows(s', s.sessions[x].task));
    }
  }

  lemma LogGrows(s: Sys, a: Action)
    requires Inv(s.log) && Can(s, Log(a))
    ensures var s' := Do'(s, Log(a));
            && Inv(s'.log) && s'.client == s.client && s'.sessions.Keys == s.sessions.Keys
            && s'.buses == s.buses && s'.busTask == s.busTask && s'.busCount == s.busCount
            && (forall x :: x in s.sessions ==> s'.sessions[x] == s.sessions[x].(flag := s'.sessions[x].flag))
            && (forall t :: TaskRows(s, t) <= TaskRows(s', t))
  {
    var s' := Do'(s, Log(a));
    StepKeepsInv(s.log, a);
    forall t ensures TaskRows(s, t) <= TaskRows(s', t) { StepAppends(s.log, a, t); }
    if a.Finish? { NotifiedSame(s, s.log.calls[a.call].job.task); }
  }

  lemma LogKeeps(s: Sys, a: Action)
    requires SysInv(s) && Can(s, Log(a))
    ensures SysInv(Do'(s, Log(a)))
  {
    var s' := Do'(s, Log(a));
    LogGrows(s, a);
    SessionsGrow(s, s');
    LinkGrows(s, s');
  }

  lemma SubscribeBus(s: Sys, x: nat, t: TaskId, cursor: int, closing: bool)
    requires BusOk(s) && x !in s.sessions
    ensures BusOk(Subscribe(s, x, t, cursor, closing))
  {
  }

  lemma SubscribeSessions(s: Sys, x: nat, t: TaskId, cursor: int, closing: bool)
    requires SessionsOk(s) && x !in s.sessions
    ensures SessionsOk(Subscribe(s, x, t, cursor, closing))
    ensures var s' := Subscribe(s, x, t, cursor, closing);
            && s'.log == s.log && s'.client == s.client && x in s'.sessions
            && s'.sessions[x] == S.Open(t, s'.sessions[x].bus, cursor, closing)
            && forall y :: y in s.sessions ==> y in s'.sessions && s'.sessions[y] == s.sessions[y]
  {
    var s' := Subscribe(s, x, t, cursor, closing);
    S.OpenOk(t, s'.sessions[x].bus, cursor, closing, TaskRows(s, t));
  }

  lemma SubscribeKeeps(s: Sys, x: nat, t: TaskId, cursor: int, closing: bool)
    requires SysInv(s) && x !in s.sessions
    ensures SysInv(Subscribe(s, x, t, cursor, closing))
  {
    SubscribeBus(s, x, t, cursor, closing);
    SubscribeSessions(s, x, t, cursor, closing);
    LinkGrows(s, Subscribe(s, x, t, cursor, closing));
  }

  lemma ServerSessions(s: Sys, x: nat, own: S.Step)
    requires Inv(s.log) && SessionsOk(s) && BusOk(s) && Can(s, Server(x, own))
    ensures SessionsOk(Do'(s, Server(x, own))) && BusOk(Do'(s, Server(x, own)))
    ensures var y, y' := s.sessions[x], Do'(s, Server(x, own)).sessions[x];
            y'.task == y.task && y'.start == y.start && y.wire <= y'.wire
  {
    var y := s.sessions[x];
    S.StepOk(y, own, TaskRows(s, y.task));
    StaysPut(y, own, TaskRows(s, y.task));
    OneSession(s, x, S.Take(y, own, TaskRows(s, y.task)));
  }

  lemma StaysPut(y: S.Session, own: S.Step, rows: seq<Row>)
    requires S.CanStep(y, own)
    ensures var y' := S.Take(y, own, rows); y'.task == y.task && y'.start == y.start && y'.bus == y.bus
  {
  }

  lemma OneSession(s: Sys, x: nat, y: S.Session)
    requires SessionsOk(s) && BusOk(s) && x in s.sessions && S.SessionOk(y, TaskRows(s, y.task))
    requires y.task == s.sessions[x].task && y.bus == s.sessions[x].bus
    ensures SessionsOk(s.(sessions := s.sessions[x := y])) && BusOk(s.(sessions := s.sessions[x := y]))
  {
  }

  lemma ServerKeeps(s: Sys, x: nat, own: S.Step)
    requires SysInv(s) && Can(s, Server(x, own))
    ensures SysInv(Do'(s, Server(x, own)))
  {
    ServerSessions(s, x, own);
    LinkGrows(s, Do'(s, Server(x, own)));
  }

  lemma ConnectLink(s: Sys, x: nat, closing: bool)
    requires LinkOk(s) && C.ClientOk(s.client) && Inv(s.log) && Can(s, Connect(x, closing))
    ensures LinkOk(Do'(s, Connect(x, closing)))
  {
    var c := s.client;
    var s' := Do'(s, Connect(x, closing));
    assert s'.sessions[x].wire[..0] == [];
    assert TaskRows(s', c.task) == TaskRows(s, c.task);
    if c.received != [] {
      assert c.received[|c.received| - 1] == TaskRows(s, c.task)[ClientLow(c) + |c.received| - 1];
    }
    assert S.Low(C.HeaderCursor(c.cursor)) == ClientLow(c) + |c.received|;
  }

  lemma ConnectKeeps(s: Sys, x: nat, closing: bool)
    requires SysInv(s) && Can(s, Connect(x, closing))
    ensures SysInv(Do'(s, Connect(x, closing)))
  {
    var c := s.client;
    SubscribeBus(s, x, c.task, C.HeaderCursor(c.cursor), closing);
    SubscribeSessions(s, x, c.task, C.HeaderCursor(c.cursor), closing);
    C.NewPhaseOk(c, C.Connected(c, x));
    C.AttemptsSteps(c, x, S.HeartbeatMsg, false);
    ConnectLink(s, x, closing);
  }

  lemma WireAdvances(wire: seq<S.Msg>, pos: nat)
    requires pos < |wire|
    ensures S.Events(wire[..pos + 1]) ==
            S.Events(wire[..pos]) + if wire[pos].EventMsg? then [wire[pos].row] else []
  {
    assert wire[..pos + 1] == wire[..pos] + [wire[pos]];
    S.EventsSnoc(wire[..pos], wire[pos]);
  }

  /** `received` is a slice of the rows, and the wire from `pos` on continues it. */
  ghost predicate Linked(rows: seq<Row>, lo: nat, received: seq<Row>, x: S.Session, pos: nat) {
    S.IsSlice(rows, lo, received) && pos <= |x.wire| && S.Low(x.start) + |S.Events(x.wire[..pos])| == lo + |received|
  }

  lemma LinkedAdvances(rows: seq<Row>, lo: nat, received: seq<Row>, x: S.Session, pos: nat)
    requires Linked(rows, lo, received, x, pos) && pos < |x.wire| && S.SessionOk(x, rows)
    ensures Linked(rows, lo, received + (if x.wire[pos].EventMsg? then [x.wire[pos].row] else []), x, pos + 1)
  {
    WireAdvances(x.wire, pos);
    if x.wire[pos].EventMsg? {
      NextRow(rows, x, pos);
      SliceExtends(rows, lo, received);
    }
  }

  /** Reading one message keeps the link, whatever the new phase is. */
  lemma LinkAdvances(s: Sys, c': C.Client)
    requires LinkOk(s) && Can(s, Deliver(false))
    requires S.SessionOk(s.sessions[s.client.phase.session], TaskRows(s, s.client.task))
    requires var c := s.client;
             var m := s.sessions[c.phase.session].wire[c.phase.pos];
             && c'.task == c.task && c'.start == c.start
             && c'.received == (if m.EventMsg? then c.received + [m.row] else c.received)
             && (c'.phase.Streaming? ==> c'.phase == C.Advance(c.phase, m))
    ensures LinkOk(s.(client := c'))
  {
    var c := s.client;
    LinkedAdvances(TaskRows(s, c.task), ClientLow(c), c.received, s.sessions[c.phase.session], c.phase.pos);
    assert c.received + [] == c.received;
  }

  lemma DeliverLink(s: Sys, carry: bool)
    requires LinkOk(s) && SessionsOk(s) && Can(s, Deliver(carry))
    ensures LinkOk(Do'(s, Deliver(carry)))
  {
    var c := s.client;
    var m := s.sessions[c.phase.session].wire[c.phase.pos];
    if m.EventMsg? {
      C.ReceiveRow(c, m.row, carry);
    } else {
      C.ReceiveHeartbeat(c, carry);
    }
    LinkAdvances(s, C.Receive(c, m, carry));
  }

  lemma SliceExtends(rows: seq<Row>, lo: nat, part: seq<Row>)
    requires S.IsSlice(rows, lo, part) && lo + |part| < |rows|
    ensures S.IsSlice(rows, lo, part + [rows[lo + |part|]])
  {
    var hi := lo + |part|;
    assert part == rows[lo..hi] by { if part == [] { assert rows[lo..hi] == []; } }
    assert rows[lo..hi + 1] == rows[lo..hi] + [rows[hi]];
  }

  /** The next event on the wire is the next row of the session's slice. */
  lemma NextRow(rows: seq<Row>, x: S.Session, pos: nat)
    requires S.SessionOk(x, rows) && pos < |x.wire| && x.wire[pos].EventMsg?
    ensures var i := S.Low(x.start) + |S.Events(x.wire[..pos])|;
            i < |rows| && x.wire[pos].row == rows[i]
  {
    assert x.wire[..pos + 1] == x.wire[..pos] + [x.wire[pos]];
    S.EventsSnoc(x.wire[..pos], x.wire[pos]);
    EventsPrefix(x.wire, pos + 1);
    var n := |S.Events(x.wire[..pos])|;
    assert x.wire[pos].row == S.Sent(x)[n];
  }

  lemma DeliverKeeps(s: Sys, carry: bool)
    requires SysInv(s) && Can(s, Deliver(carry))
    ensures SysInv(Do'(s, Deliver(carry)))
  {
    var c := s.client;
    var m := s.sessions[c.phase.session].wire[c.phase.pos];
    C.ReceiveOk(c, m, carry);
    C.AttemptsSteps(c, 0, m, carry);
    DeliverLink(s, carry);
  }

  predicate OnlyClient(step: Step) { step.ConnectFails? || step.ConnectRejected? || step.Drop? || step.Eof? }

  lemma ClientPhase(s: Sys, step: Step)
    requires OnlyClient(step) && Can(s, step) && C.ClientOk(s.client) && C.AttemptsOk(s.client)
    ensures var c' := Do'(s, step).client;
            && C.ClientOk(c') && C.AttemptsOk(c') && !c'.phase.Streaming?
            && c' == s.client.(phase := c'.phase, attempts := c'.attempts, connects := c'.connects)
  {
    C.AttemptsSteps(s.client, 0, S.HeartbeatMsg, false);
    C.NewPhaseOk(s.client, Do'(s, step).client);
  }

  lemma ClientKeeps(s: Sys, step: Step)
    requires SysInv(s) && OnlyClient(step) && Can(s, step)
    ensures SysInv(Do'(s, step))
  {
    ClientPhase(s, step);
  }

  lemma StepKeeps(s: Sys, step: Step)
    requires SysInv(s) && Can(s, step)
    ensures SysInv(Do'(s, step))
  {
    match step
    case Log(a) => LogKeeps(s, a);
    case DiscardBus(t) => LinkGrows(s, Do'(s, step));
    case OpenStream(x, t, cursor, closing) => SubscribeKeeps(s, x, t, cursor, closing);
    case Server(x, own) => ServerKeeps(s, x, own);
    case Connect(x, closing) => ConnectKeeps(s, x, closing);
    case Deliver(carry) => DeliverKeeps(s, carry);
    case _ => ClientKeeps(s, step);
  }

  // ----- runs -----

  predicate Run(s: Sys, run: seq<Step>)
    decreases |run|
  {
    run == [] || (Can(s, run[0]) && Run(Do'(s, run[0]), run[1..]))
  }

  function Final(s: Sys, run: seq<Step>): Sys
    requires Run(s, run)
    decreases |run|
  {
    if run == [] then s else Final(Do'(s, run[0]), run[1..])
  }

  lemma {:induction false} RunKeeps(s: Sys, run: seq<Step>)
    requires SysInv(s) && Run(s, run)
    ensures SysInv(Final(s, run))
    decreases |run|
  {
    if run != [] {
      StepKeeps(s, run[0]);
      RunKeeps(Do'(s, run[0]), run[1..]);
    }
  }

  // ----- exact delivery -----

  /** Number of rows the client has been given, read off its cursor. */
  function Delivered(c: C.Client): int {
    if c.cursor == c.start then 0 else C.HeaderCursor(c.cursor) - ClientLow(c)
  }

  lemma DeliveredIsReceived(s: Sys)
    requires SysInv(s)
    ensures Delivered(s.client) == |s.client.received|
  {
    var c := s.client;
    if c.received != [] {
      assert c.received[|c.received| - 1] == TaskRows(s, c.task)[ClientLow(c) + |c.received| - 1];
    }
  }

  /** The events the caller has seen, heartbeats aside, are exactly the rows from the start cursor to
      the current cursor, in order, without gap or duplicate; none but the last of them is terminal. */
  ghost predicate ExactlyDelivered(c: C.Client, rows: seq<Row>) {
    var lo, n := ClientLow(c), Delivered(c);
    && 0 <= n && (n > 0 ==> lo + n <= |rows|)
    && C.Business(c.yielded) == C.Business(C.AsEvents(if n == 0 then [] else rows[lo..lo + n]))
    && (forall i :: lo <= i < lo + n - 1 ==> !IsTerminal(rows[i]))
    && (n > 0 && IsTerminal(rows[lo + n - 1]) ==> c.phase.Finished?)
  }

  /** A normal return with auto-reconnect on means that the last row seen is terminal. */
  ghost predicate ReturnsAtTerminal(c: C.Client, rows: seq<Row>) {
    var lo, n := ClientLow(c), Delivered(c);
    c.auto && c.phase.Finished? ==> 0 < n && lo + n <= |rows| && IsTerminal(rows[lo + n - 1])
  }

  lemma SliceDelivers(c: C.Client, rows: seq<Row>)
    requires C.ClientOk(c) && S.IsSlice(rows, ClientLow(c), c.received) && Delivered(c) == |c.received|
    ensures ExactlyDelivered(c, rows)
  {
    var lo, n := ClientLow(c), |c.received|;
    if n > 0 {
      assert rows[lo..lo + n] == c.received;
      forall i | lo <= i < lo + n ensures rows[i] == c.received[i - lo] { }
    }
  }

  lemma SliceReturns(c: C.Client, rows: seq<Row>)
    requires C.ClientOk(c) && S.IsSlice(rows, ClientLow(c), c.received) && Delivered(c) == |c.received|
    ensures ReturnsAtTerminal(c, rows)
  {
    var lo, n := ClientLow(c), |c.received|;
    if n > 0 { assert c.received[n - 1] == rows[lo..lo + n][n - 1]; }
  }

  lemma InvDelivers(s: Sys)
    requires SysInv(s)
    ensures ExactlyDelivered(s.client, TaskRows(s, s.client.task))
    ensures ReturnsAtTerminal(s.client, TaskRows(s, s.client.task))
  {
    DeliveredIsReceived(s);
    SliceDelivers(s.client, TaskRows(s, s.client.task));
    SliceReturns(s.client, TaskRows(s, s.client.task));
  }

  /** What a client was created with. */
  predicate SameClient(c: C.Client, c': C.Client) {
    c'.task == c.task && c'.start == c.start && c'.auto == c.auto && c'.maxAttempts == c.maxAttempts
    && c'.includeHeartbeats == c.includeHeartbeats
  }

  lemma StepKeepsClient(s: Sys, step: Step)
    requires Can(s, step)
    ensures SameClient(s.client, Do'(s, step).client)
  {
  }

  lemma {:induction false} RunKeepsClient(s: Sys, run: seq<Step>)
    requires Run(s, run)
    ensures SameClient(s.client, Final(s, run).client)
    decreases |run|
  {
    if run != [] {
      StepKeepsClient(s, run[0]);
      RunKeepsClient(Do'(s, run[0]), run[1..]);
    }
  }

  // ----- main results: delivery -----

  /** In every interleaving of writers, sessions, drops and reconnects. */
  lemma ExactDelivery(task: TaskId, start: Option<int>, auto: bool, beats: bool, max: int, run: seq<Step>)
    requires Run(Start(C.NewClient(task, start, auto, beats, max)), run)
    ensures var s := Final(Start(C.NewClient(task, start, auto, beats, max)), run);
            && SameClient(C.NewClient(task, start, auto, beats, max), s.client)
            && ExactlyDelivered(s.client, TaskRows(s, task))
            && ReturnsAtTerminal(s.client, TaskRows(s, task))
            && s.client.connects <= (if auto then Max(max, 0) + 1 else 1)
  {
    var client := C.NewClient(task, start, auto, beats, max);
    StartInv(client, task, start, auto, beats, max);
    RunKeeps(Start(client), run);
    RunKeepsClient(Start(client), run);
    InvDelivers(Final(Start(client), run));
  }

  /** In numbers: without a start cursor the rows from the first one, otherwise those whose ids follow the start
      cursor, up to the id in the current cursor. */
  ghost predicate Span(c: C.Client, rows: seq<Row>) {
    var lo := if c.start.Some? && c.start.value > 0 then c.start.value else 0;
    if c.cursor == c.start then C.Business(c.yielded) == []
    else && c.cursor.Some? && lo < c.cursor.value <= |rows|
         && C.Business(c.yielded) == C.Business(C.AsEvents(rows[lo..c.cursor.value]))
  }

  lemma NothingSpans(c: C.Client)
    requires C.Business(c.yielded) == C.Business(C.AsEvents([]))
    ensures C.Business(c.yielded) == []
  {
    assert C.AsEvents([]) == [];
  }

  lemma CursorEndsSpan(c: C.Client)
    requires C.ClientOk(c) && Delivered(c) == |c.received| && c.cursor != c.start
    ensures |c.received| > 0 && c.cursor.Some? && ClientLow(c) + Delivered(c) == c.cursor.value
  {
  }

  lemma SliceSpans(c: C.Client, rows: seq<Row>)
    requires C.ClientOk(c) && ExactlyDelivered(c, rows) && Delivered(c) == |c.received|
    ensures Span(c, rows)
  {
    if c.cursor == c.start { NothingSpans(c); } else { CursorEndsSpan(c); }
  }

  lemma DeliveredSpan(task: TaskId, start: Option<int>, auto: bool, beats: bool, max: int, run: seq<Step>)
    requires Run(Start(C.NewClient(task, start, auto, beats, max)), run)
    ensures var s := Final(Start(C.NewClient(task, start, auto, beats, max)), run);
            s.client.start == start && Span(s.client, TaskRows(s, task))
  {
    var client := C.NewClient(task, start, auto, beats, max);
    StartInv(client, task, start, auto, beats, max);
    RunKeeps(Start(client), run);
    RunKeepsClient(Start(client), run);
    var s := Final(Start(client), run);
    InvDelivers(s);
    DeliveredIsReceived(s);
    SliceSpans(s.client, TaskRows(s, task));
  }

  lemma StopsAtTerminal(c: C.Client, rows: seq<Row>, t: nat)
    requires ExactlyDelivered(c, rows) && ReturnsAtTerminal(c, rows)
    requires ClientLow(c) <= t < |rows| && IsTerminal(rows[t])
    requires forall i :: 0 <= i < t ==> !IsTerminal(rows[i])
    ensures ClientLow(c) + Delivered(c) <= t + 1
    ensures c.auto && c.phase.Finished? ==> ClientLow(c) + Delivered(c) == t + 1
  {
  }

  /** A client that starts below the first terminal row never gets past it, even when rows follow it;
      with auto-reconnect a normal return means that it has seen exactly up to that row. */
  lemma NeverPastFirstTerminal(task: TaskId, start: Option<int>, auto: bool, beats: bool, max: int, run: seq<Step>, t: nat)
    requires Run(Start(C.NewClient(task, start, auto, beats, max)), run)
    requires var rows := TaskRows(Final(Start(C.NewClient(task, start, auto, beats, max)), run), task);
             && S.Low(C.HeaderCursor(start)) <= t < |rows| && IsTerminal(rows[t])
             && forall i :: 0 <= i < t ==> !IsTerminal(rows[i])
    ensures var c := Final(Start(C.NewClient(task, start, auto, beats, max)), run).client;
            && ClientLow(c) + Delivered(c) <= t + 1
            && (auto && c.phase.Finished? ==> ClientLow(c) + Delivered(c) == t + 1)
  {
    ExactDelivery(task, start, auto, beats, max, run);
    var s := Final(Start(C.NewClient(task, start, auto, beats, max)), run);
    StopsAtTerminal(s.client, TaskRows(s, task), t);
  }
}
