/** The SDK's event iterator: parse server-sent events, remember the cursor, reconnect after a drop. */
module SdkStream {
  import opened Common
  import opened EventLog
  import opened SseSession

  /** A decoded server-sent event: `id` is None when it is missing, empty or not an integer. */
  datatype Sse = Sse(id: Option<int>, event: string, data: string)

  datatype WorkerEvent = WorkerEvent(cursor: int, kind: string, payload: string)

  const HEARTBEAT := "heartbeat"

  /** `_parse_sse_event`, with the payload kept as text. */
  function ParseSse(sse: Sse): Option<WorkerEvent> {
    if sse.id == None then None
    else Some(WorkerEvent(sse.id.value, if sse.event == "" then "message" else sse.event, sse.data))
  }

  /** A server message as the decoder presents it.  A heartbeat carries no id; the decoder may fill in
      the last id it has seen on this connection (WHATWG HTML section 9.2.6). */
  function Decode(m: Msg, lastId: Option<int>, carry: bool): Sse {
    match m
    case EventMsg(row) => Sse(Some(row.eventId), row.kind, row.payload)
    case HeartbeatMsg => Sse(if carry then lastId else None, HEARTBEAT, "{}")
  }

  datatype Phase =
    | Connecting
    | Streaming(session: nat, pos: nat, lastId: Option<int>)
    | Finished          // the iterator returned
    | SseFailure        // WorkerSSEError
    | TransportFailure  // WorkerTransportError handed to the caller

  /** `received` remembers the rows read from the connections. */
  datatype Client = Client(
    task: TaskId, start: Option<int>, auto: bool, includeHeartbeats: bool, maxAttempts: int,
    cursor: Option<int>, attempts: nat, connects: nat, yielded: seq<WorkerEvent>, phase: Phase,
    received: seq<Row>)

  function NewClient(task: TaskId, start: Option<int>, auto: bool, includeHeartbeats: bool, maxAttempts: int): Client {
    Client(task, start, auto, includeHeartbeats, maxAttempts, start, 0, 0, [], Connecting, [])
  }

  /** The value of the Last-Event-ID header as the server reads it. */
  function HeaderCursor(cursor: Option<int>): int { if cursor == None then 0 else cursor.value }

  // ----- transitions -----

  function Connected(c: Client, session: nat): Client {
    c.(phase := Streaming(session, 0, None), connects := c.connects + 1)
  }

  /** A transport error: give up or try again. */
  function Lost(c: Client): Client {
    if !c.auto then c.(phase := TransportFailure)
    else if c.attempts + 1 > c.maxAttempts then c.(attempts := c.attempts + 1, phase := SseFailure)
    else c.(attempts := c.attempts + 1, phase := Connecting)
  }

  /** The stream ended although no terminal event was seen. */
  function Ended(c: Client): Client {
    if !c.auto then c.(phase := Finished) else Lost(c)
  }

  /** The handshake was answered with an error status. */
  function Rejected(c: Client): Client { c.(connects := c.connects + 1, phase := SseFailure) }

  function Unreachable(c: Client): Client { Lost(c.(connects := c.connects + 1)) }

  /** One decoded event reaches the loop body. */
  function OnSse(c: Client, sse: Sse): Client {
    match ParseSse(sse)
    case None => c
    case Some(e) =>
      var c1 := c.(cursor := Some(e.cursor));
      if e.kind == HEARTBEAT && !c.includeHeartbeats then c1
      else
        c1.(yielded := c1.yielded + [e], phase := if IsTerminalKind(e.kind) then Finished else c1.phase)
  }

  function Advance(p: Phase, m: Msg): Phase
    requires p.Streaming?
  {
    Streaming(p.session, p.pos + 1, if m.EventMsg? then Some(m.row.eventId) else p.lastId)
  }

  function Receive(c: Client, m: Msg, carry: bool): Client
    requires c.phase.Streaming?
  {
    OnSse(c.(phase := Advance(c.phase, m), received := if m.EventMsg? then c.received + [m.row] else c.received),
          Decode(m, c.phase.lastId, carry))
  }

  // ----- what the caller sees -----

  function AsEvent(row: Row): WorkerEvent {
    WorkerEvent(row.eventId, if row.kind == "" then "message" else row.kind, row.payload)
  }

  function AsEvents(rows: seq<Row>): seq<WorkerEvent> {
    if rows == [] then [] else AsEvents(rows[..|rows| - 1]) + [AsEvent(rows[|rows| - 1])]
  }

  /** Heartbeats removed. */
  function Business(es: seq<WorkerEvent>): seq<WorkerEvent> {
    if es == [] then []
    else
      var init := Business(es[..|es| - 1]);
      if es[|es| - 1].kind == HEARTBEAT then init else init + [es[|es| - 1]]
  }

  lemma BusinessSnoc(es: seq<WorkerEvent>, e: WorkerEvent)
    ensures Business(es + [e]) == Business(es) + (if e.kind == HEARTBEAT then [] else [e])
  {
    assert (es + [e])[..|es|] == es;
  }

  lemma AsEventsSnoc(rows: seq<Row>, row: Row)
    ensures AsEvents(rows + [row]) == AsEvents(rows) + [AsEvent(row)]
  {
    assert (rows + [row])[..|rows|] == rows;
  }

  /** The yielded events are those of the received rows, heartbeats aside; a terminal row is the last
      one received and ends the iteration. */
  ghost predicate ClientOk(c: Client) {
    && Business(c.yielded) == Business(AsEvents(c.received))
    && (!c.includeHeartbeats ==> c.yielded == Business(c.yielded))
    && (c.received == [] ==> c.cursor == c.start)
    && (forall i :: 0 <= i < |c.received| && IsTerminal(c.received[i]) ==> i == |c.received| - 1 && c.phase.Finished?)
    && (c.auto && c.phase.Finished? ==> c.received != [] && IsTerminal(c.received[|c.received| - 1]))
    && (c.phase.Streaming? && c.phase.lastId.Some? ==> c.received != [] && c.phase.lastId == c.cursor)
    && (c.received != [] ==> c.cursor == Some(c.received[|c.received| - 1].eventId))
  }

  lemma PlainKinds()
    ensures !IsTerminalKind("") && !IsTerminalKind("message") && !IsTerminalKind(HEARTBEAT)
  {
  }

  lemma ReceiveRow(c: Client, row: Row, carry: bool)
    requires c.phase.Streaming?
    ensures var c' := Receive(c, EventMsg(row), carry);
            && c'.received == c.received + [row] && c'.cursor == Some(row.eventId)
            && Business(c'.yielded) == Business(c.yielded + [AsEvent(row)])
            && (c'.phase.Finished? <==> IsTerminal(row))
            && (c'.phase.Finished? || c'.phase == Advance(c.phase, EventMsg(row)))
            && c' == c.(received := c'.received, cursor := c'.cursor, yielded := c'.yielded, phase := c'.phase)
            && c'.yielded == (if row.kind == HEARTBEAT && !c.includeHeartbeats then c.yielded else c.yielded + [AsEvent(row)])
  {
    PlainKinds();
    BusinessSnoc(c.yielded, AsEvent(row));
  }

  lemma ReceiveHeartbeat(c: Client, carry: bool)
    requires c.phase.Streaming?
    ensures var c' := Receive(c, HeartbeatMsg, carry);
            && c'.cursor == (if carry && c.phase.lastId.Some? then c.phase.lastId else c.cursor)
            && (ClientOk(c) ==> c'.cursor == c.cursor)
            && Business(c'.yielded) == Business(c.yielded)
            && c' == c.(cursor := c'.cursor, yielded := c'.yielded, phase := Advance(c.phase, HeartbeatMsg))
            && c'.yielded == (if c.includeHeartbeats && carry && c.phase.lastId.Some?
                              then c.yielded + [WorkerEvent(c.phase.lastId.value, HEARTBEAT, "{}")] else c.yielded)
  {
    PlainKinds();
    BusinessSnoc(c.yielded, WorkerEvent(HeaderCursor(c.phase.lastId), HEARTBEAT, "{}"));
  }

  /** The decoder's last id is that of the last row of the connection; heartbeats in between leave it alone. */
  lemma LastIdIsTheRows(c: Client, row: Row, carry: bool, again: bool)
    requires c.phase.Streaming? && !IsTerminal(row)
    ensures var c1 := Receive(c, EventMsg(row), carry);
            && c1.phase == Streaming(c.phase.session, c.phase.pos + 1, Some(row.eventId))
            && Receive(c1, HeartbeatMsg, again).phase == Streaming(c.phase.session, c.phase.pos + 2, Some(row.eventId))
  {
    ReceiveRow(c, row, carry);
    ReceiveHeartbeat(Receive(c, EventMsg(row), carry), again);
  }

  /** What a caller without heartbeats has seen needs no filtering. */
  lemma PlainSnoc(es: seq<WorkerEvent>, e: WorkerEvent)
    requires es == Business(es) && e.kind != HEARTBEAT
    ensures es + [e] == Business(es + [e])
  {
    BusinessSnoc(es, e);
  }

  lemma ReceiveOk(c: Client, m: Msg, carry: bool)
    requires ClientOk(c) && c.phase.Streaming?
    ensures ClientOk(Receive(c, m, carry))
  {
    match m
    case EventMsg(row) =>
      ReceiveRow(c, row, carry);
      BusinessSnoc(c.yielded, AsEvent(row));
      if !c.includeHeartbeats && row.kind != HEARTBEAT { PlainSnoc(c.yielded, AsEvent(row)); }
      AsEventsSnoc(c.received, row);
      BusinessSnoc(AsEvents(c.received), AsEvent(row));
    case HeartbeatMsg =>
      ReceiveHeartbeat(c, carry);
  }

  /** Connecting, dropping and giving up do not touch what was received. */
  lemma NewPhaseOk(c: Client, c': Client)
    requires ClientOk(c) && !c.phase.Finished?
    requires c' == c.(phase := c'.phase, attempts := c'.attempts, connects := c'.connects)
    requires c'.phase.Streaming? ==> c'.phase.lastId == None
    requires c'.phase.Finished? ==> !c.auto
    ensures ClientOk(c')
  {
  }

  /** The last connection was answered with an error status: it cost no attempt. */
  predicate Refused(c: Client) { c.phase.SseFailure? && c.connects == c.attempts + 1 }

  /** All attempts are used up. */
  predicate Spent(c: Client) {
    c.phase.SseFailure? && c.auto && c.connects == c.attempts == Max(c.maxAttempts, 0) + 1
  }

  /** `attempts` never goes back, so the number of connections is bounded over the whole iteration, and
      the client gives up only when all attempts are used up. */
  ghost predicate AttemptsOk(c: Client) {
    && (c.phase.Connecting? ==> c.connects == c.attempts)
    && (c.phase.Streaming? || c.phase.Finished? || c.phase.TransportFailure? ==> c.connects == c.attempts + 1)
    && (c.phase.SseFailure? ==> Refused(c) || Spent(c))
    && (c.attempts > 0 ==> c.auto && c.attempts <= Max(c.maxAttempts, 0) + (if c.phase.SseFailure? then 1 else 0))
    && c.connects <= (if c.auto then Max(c.maxAttempts, 0) + 1 else 1)
  }

  /** The counters of a later state of the same client: neither goes back. */
  predicate NotReset(c: Client, c': Client) { c'.attempts >= c.attempts && c'.connects >= c.connects }

  lemma AttemptsSteps(c: Client, session: nat, m: Msg, carry: bool)
    requires AttemptsOk(c)
    ensures NotReset(c, Connected(c, session)) && NotReset(c, Unreachable(c)) && NotReset(c, Rejected(c))
    ensures NotReset(c, Lost(c)) && NotReset(c, Ended(c)) && (c.phase.Streaming? ==> NotReset(c, Receive(c, m, carry)))
    ensures c.phase.Connecting? ==> AttemptsOk(Connected(c, session)) && AttemptsOk(Unreachable(c)) && AttemptsOk(Rejected(c))
    ensures c.phase.Streaming? ==> AttemptsOk(Lost(c)) && AttemptsOk(Ended(c)) && AttemptsOk(Receive(c, m, carry))
  {
  }

  lemma NewClientOk(task: TaskId, start: Option<int>, auto: bool, includeHeartbeats: bool, maxAttempts: int)
    ensures ClientOk(NewClient(task, start, auto, includeHeartbeats, maxAttempts))
    ensures AttemptsOk(NewClient(task, start, auto, includeHeartbeats, maxAttempts))
  {
  }
}
