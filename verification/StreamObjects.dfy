/** The server's event generator and the SDK's iterator as the mutable objects and loops they are.
    Every method refines a transition of `SseSession` or `SdkStream`. */
module StreamObjects {
  import opened Common
  import opened EventLog
  import S = SseSession
  import C = SdkStream

  // ----- server side -----

  /** What the environment does to one stream: `tables(i)` is the table at the i-th fetch, the client is
      found gone after `replays` rows of the replay or after `rounds` rounds of the live loop, `beats(i)`
      tells whether round i sends a heartbeat, and `woken(i)` whether it ends by the flag or by the timeout. */
  datatype World = World(tables: nat -> seq<Row>, replays: nat, rounds: nat, beats: nat -> bool, woken: nat -> bool)

  /** The table only grows, and its ids are 1..n. */
  ghost predicate Plausible(w: World) {
    && (forall i: nat :: Contiguous(w.tables(i)))
    && (forall i: nat, j: nat :: i <= j ==> w.tables(i) <= w.tables(j))
  }

  class EventGenerator {
    const task: TaskId
    const bus: nat
    const start: int
    const closing: bool
    var cursor: int
    var flag: bool
    var phase: S.Phase
    var wire: seq<S.Msg>

    ghost function Snapshot(): S.Session
      reads this
    {
      S.Session(task, bus, flag, start, cursor, closing, phase, wire)
    }

    constructor (task: TaskId, bus: nat, start: int, closing: bool)
      ensures Snapshot() == S.Open(task, bus, start, closing)
    {
      this.task, this.bus, this.start, this.closing := task, bus, start, closing;
      cursor, flag, phase, wire := start, false, S.Opening, [];
    }

    /** The stream so far is exactly the rows of the table from the start cursor on. */
    ghost predicate Ok(rows: seq<Row>)
      reads this
    {
      S.SessionOk(Snapshot(), rows)
    }

    /** The last row sent is terminal. */
    ghost predicate EndsTerminal()
      reads this
    {
      var sent := S.Sent(Snapshot());
      sent != [] && IsTerminal(sent[|sent| - 1])
    }

    /** Nothing of the table is left to send. */
    ghost predicate CaughtUp(rows: seq<Row>)
      reads this
    {
      EndsTerminal() || S.Low(start) + |S.Sent(Snapshot())| >= |rows|
    }

    method Fetch(rows: seq<Row>)
      requires Ok(rows) && Contiguous(rows) && S.CanStep(Snapshot(), S.Fetch)
      modifies this`phase
      ensures Ok(rows) && Snapshot() == S.Take(old(Snapshot()), S.Fetch, rows)
      ensures S.Reach(Snapshot()) >= |rows|
    {
      S.FetchOk(Snapshot(), rows);
      var batch := EventsAfter(rows, cursor);
      phase := if phase.Opening? then S.Replay(batch) else S.Drain(batch);
    }

    method Send(ghost rows: seq<Row>)
      requires Ok(rows) && Contiguous(rows) && S.CanStep(Snapshot(), S.Send)
      modifies this
      ensures Ok(rows) && Snapshot() == S.Take(old(Snapshot()), S.Send, rows)
      ensures if phase.Closed? then EndsTerminal() else S.Reach(Snapshot()) == old(S.Reach(Snapshot()))
    {
      S.SendOk(Snapshot(), rows);
      S.SendValues(Snapshot(), rows);
      var row, rest := phase.batch[0], phase.batch[1..];
      cursor := row.eventId;
      wire := wire + [S.EventMsg(row)];
      if IsTerminal(row) {
        phase := S.Closed;
      } else {
        phase := if phase.Replay? then S.Replay(rest) else S.Drain(rest);
      }
    }

    method Drained(ghost rows: seq<Row>)
      requires Ok(rows) && Contiguous(rows) && S.CanStep(Snapshot(), S.Drained)
      modifies this`phase
      ensures Ok(rows) && Snapshot() == S.Take(old(Snapshot()), S.Drained, rows)
      ensures S.Sent(Snapshot()) == old(S.Sent(Snapshot()))
    {
      S.StepOk(Snapshot(), S.Drained, rows);
      if phase.Drain? {
        phase := S.Beating;
      } else {
        phase := if closing then S.Closed else S.Loop;
      }
    }

    method Beat(emit: bool, ghost rows: seq<Row>)
      requires Ok(rows) && Contiguous(rows) && S.CanStep(Snapshot(), S.Beat(emit))
      modifies this`phase, this`wire
      ensures Ok(rows) && Snapshot() == S.Take(old(Snapshot()), S.Beat(emit), rows)
      ensures S.Sent(Snapshot()) == old(S.Sent(Snapshot()))
    {
      S.StepOk(Snapshot(), S.Beat(emit), rows);
      if emit {
        wire := wire + [S.HeartbeatMsg];
      }
      phase := S.Parked;
    }

    /** The wait ends: by the flag, which is then cleared, or by the timeout. */
    method Resume(woken: bool, ghost rows: seq<Row>)
      requires Ok(rows) && Contiguous(rows) && S.CanStep(Snapshot(), if woken then S.Wake else S.Timeout)
      modifies this`phase, this`flag
      ensures Ok(rows) && Snapshot() == S.Take(old(Snapshot()), if woken then S.Wake else S.Timeout, rows)
      ensures S.Sent(Snapshot()) == old(S.Sent(Snapshot()))
    {
      S.StepOk(Snapshot(), if woken then S.Wake else S.Timeout, rows);
      if woken {
        flag := false;
      }
      phase := S.Loop;
    }

    /** Send the whole batch, or up to its first terminal row. */
    method SendBatch(ghost rows: seq<Row>)
      requires Ok(rows) && Contiguous(rows) && (phase.Replay? || phase.Drain?)
      modifies this
      ensures Ok(rows)
      ensures phase.Closed? || (S.CanStep(Snapshot(), S.Drained) && phase.Drain? == old(phase).Drain?)
      ensures if phase.Closed? then EndsTerminal() else S.Reach(Snapshot()) == old(S.Reach(Snapshot()))
    {
      ghost var live := phase.Drain?;
      while !phase.Closed? && S.Batch(phase) != []
        invariant Ok(rows)
        invariant phase.Closed? || (phase.Drain? == live && phase.Replay? != live)
        invariant if phase.Closed? then EndsTerminal() else S.Reach(Snapshot()) == old(S.Reach(Snapshot()))
        decreases |S.Batch(phase)|, !phase.Closed?
      {
        Send(rows);
      }
    }

    /** Send the history; before each row the client may be found gone. */
    method ReplayBatch(ghost rows: seq<Row>, n: nat)
      requires Ok(rows) && Contiguous(rows) && phase.Replay? && S.Sent(Snapshot()) == []
      modifies this
      ensures Ok(rows)
      ensures phase.Closed? || (S.CanStep(Snapshot(), S.Drained) && phase.Replay?)
      ensures if phase.Closed? then EndsTerminal() || |S.Sent(Snapshot())| == n
              else S.Reach(Snapshot()) == old(S.Reach(Snapshot()))
    {
      var sent := 0;
      while !phase.Closed? && S.Batch(phase) != []
        invariant Ok(rows) && (phase.Closed? || phase.Replay?) && sent == |S.Sent(Snapshot())|
        invariant if phase.Closed? then EndsTerminal() else S.Reach(Snapshot()) == old(S.Reach(Snapshot()))
        decreases |S.Batch(phase)|, !phase.Closed?
      {
        if sent == n {
          phase := S.Closed;
          return;
        }
        Send(rows);
        sent := sent + 1;
      }
    }

    /** The generator: replay, then rounds of fetch, drain, heartbeat and wait, until the client hangs
        up.  The wire carries exactly the rows from the start cursor on, none is left behind, and a
        terminal row ends it. */
    method Generate(w: World)
      requires Plausible(w) && Snapshot() == S.Open(task, bus, start, closing)
      modifies this
      ensures phase.Closed?
      ensures (Ok(w.tables(0)) && |S.Sent(Snapshot())| == w.replays) ||
              exists i: nat :: i <= w.rounds && Ok(w.tables(i)) && CaughtUp(w.tables(i)) &&
                               (i == w.rounds || closing || EndsTerminal())
    {
      S.OpenOk(task, bus, start, closing, w.tables(0));
      Fetch(w.tables(0));
      ReplayBatch(w.tables(0), w.replays);
      var i := 0;
      if !phase.Closed? {
        Drained(w.tables(0));
        i := LiveRounds(w);
      }
    }

    method LiveRounds(w: World) returns (i: nat)
      requires Plausible(w) && (phase.Loop? || (phase.Closed? && closing)) && Ok(w.tables(0)) && CaughtUp(w.tables(0))
      modifies this
      ensures phase.Closed? && i <= w.rounds && Ok(w.tables(i)) && CaughtUp(w.tables(i))
      ensures i == w.rounds || closing || EndsTerminal()
    {
      i := 0;
      while !phase.Closed? && i < w.rounds
        invariant i <= w.rounds && Ok(w.tables(i)) && (phase.Closed? || phase.Loop?)
        invariant CaughtUp(w.tables(i)) && (phase.Closed? ==> closing || EndsTerminal())
        decreases w.rounds - i, !phase.Closed?
      {
        S.GrowOk(Snapshot(), w.tables(i), w.tables(i + 1));
        i := i + 1;
        LiveRound(w.tables(i), w.beats(i), w.woken(i));
      }
      HangUp(w.tables(i));
    }

    method HangUp(ghost rows: seq<Row>)
      requires Ok(rows) && (phase.Loop? || phase.Closed?)
      modifies this`phase
      ensures Ok(rows) && phase.Closed? && S.Sent(Snapshot()) == old(S.Sent(Snapshot()))
    {
      phase := S.Closed;
    }

    /** One round of the live loop; `notified` says that a notify arrives while it waits. */
    method LiveRound(rows: seq<Row>, emit: bool, notified: bool)
      requires phase.Loop? && Ok(rows) && Contiguous(rows)
      modifies this
      ensures Ok(rows) && (phase.Closed? || phase.Loop?)
      ensures CaughtUp(rows) && (phase.Closed? ==> EndsTerminal())
    {
      Fetch(rows);
      SendBatch(rows);
      if !phase.Closed? {
        Drained(rows);
        Beat(emit, rows);
        Notify(notified, rows);
        Resume(flag, rows);
      }
    }

    method Notify(notified: bool, ghost rows: seq<Row>)
      requires Ok(rows) && phase.Parked?
      modifies this`flag
      ensures Ok(rows) && phase.Parked? && flag == (old(flag) || notified)
      ensures S.Sent(Snapshot()) == old(S.Sent(Snapshot()))
    {
      flag := flag || notified;
    }
  }

  // ----- SDK side -----

  /** One answer to `connect`: unreachable, an error status, or a stream that ends cleanly or breaks;
      `carry(i)` tells whether message i, if a heartbeat, is presented with the last id. */
  datatype Connection =
    | NoAnswer
    | ErrorStatus
    | Stream(messages: seq<S.Msg>, carry: nat -> bool, clean: bool)

  /** The rows of a connection, up to the first terminal one. */
  function RowsUntilTerminal(messages: seq<S.Msg>): seq<Row> {
    if messages == [] then []
    else
      match messages[0]
      case HeartbeatMsg => RowsUntilTerminal(messages[1..])
      case EventMsg(row) => [row] + if IsTerminal(row) then [] else RowsUntilTerminal(messages[1..])
  }

  predicate HasTerminal(messages: seq<S.Msg>) { exists m :: m in messages && m.EventMsg? && IsTerminal(m.row) }

  function RowsOf(answer: Connection): seq<Row> { if answer.Stream? then RowsUntilTerminal(answer.messages) else [] }

  /** The rows of the first `n` connections. */
  function RowsOfAll(answers: nat -> Connection, n: nat): seq<Row> {
    if n == 0 then [] else RowsOfAll(answers, n - 1) + RowsOf(answers(n - 1))
  }

  /** How an iteration that does not reconnect ends. */
  function SingleEnd(answer: Connection): C.Phase {
    match answer
    case NoAnswer => C.TransportFailure
    case ErrorStatus => C.SseFailure
    case Stream(messages, _, clean) => if clean || HasTerminal(messages) then C.Finished else C.TransportFailure
  }

  /** The first `i` messages have been read, or enough of them to find a terminal row. */
  predicate ReadSoFar(was: seq<Row>, messages: seq<S.Msg>, i: nat, received: seq<Row>, finished: bool) {
    && i <= |messages|
    && received + (if finished then [] else RowsUntilTerminal(messages[i..])) == was + RowsUntilTerminal(messages)
    && (finished <==> HasTerminal(messages[..i]))
  }

  lemma ReadOne(was: seq<Row>, messages: seq<S.Msg>, i: nat, received: seq<Row>)
    requires ReadSoFar(was, messages, i, received, false) && i < |messages|
    ensures var m := messages[i];
            ReadSoFar(was, messages, i + 1, received + (if m.EventMsg? then [m.row] else []), m.EventMsg? && IsTerminal(m.row))
  {
    assert messages[i..][1..] == messages[i + 1..];
    assert messages[..i + 1] == messages[..i] + [messages[i]];
  }

  lemma ReadAll(was: seq<Row>, messages: seq<S.Msg>, i: nat, received: seq<Row>, finished: bool)
    requires ReadSoFar(was, messages, i, received, finished) && (finished || i == |messages|)
    ensures received == was + RowsUntilTerminal(messages) && (finished <==> HasTerminal(messages))
  {
    if finished {
      var m :| m in messages[..i] && m.EventMsg? && IsTerminal(m.row);
      assert m in messages;
    } else {
      assert messages[..i] == messages && messages[i..] == [];
    }
  }

  /** What the connections made so far amount to. */
  ghost predicate Rounds(answers: nat -> Connection, c: C.Client) {
    && c.connects >= 1 && c.received == RowsOfAll(answers, c.connects)
    && (!c.auto ==> c.connects == 1 && c.phase == SingleEnd(answers(0)))
    && (forall i: nat :: i < c.connects - 1 ==> !answers(i).ErrorStatus?)
    && (C.Refused(c) <==> answers(c.connects - 1).ErrorStatus?)
  }

  /** One more connection. */
  lemma OneMoreRound(answers: nat -> Connection, c: C.Client, c': C.Client)
    requires c.connects > 0 ==> Rounds(answers, c) && !C.Refused(c)
    requires c.connects == 0 ==> c.received == []
    requires c'.connects == c.connects + 1 && c'.received == c.received + RowsOf(answers(c.connects))
    requires c'.auto == c.auto && (!c.auto ==> c.connects == 0 && c'.phase == SingleEnd(answers(0)))
    requires C.Refused(c') <==> answers(c.connects).ErrorStatus?
    ensures Rounds(answers, c')
  {
  }

  /** What an iteration that is over amounts to: the rows of all connections made, up to the first terminal
      one, as events.  With auto-reconnect it returns only at a terminal row, and gives up only at an error
      status or when all `max_reconnect_attempts + 1` connections have been made; without, it makes one. */
  ghost predicate IsOutcome(answers: nat -> Connection, c: C.Client) {
    && (c.phase.Finished? || c.phase.SseFailure? || c.phase.TransportFailure?)
    && 1 <= c.connects <= (if c.auto then Max(c.maxAttempts, 0) + 1 else 1)
    && c.received == RowsOfAll(answers, c.connects)
    && C.Business(c.yielded) == C.Business(C.AsEvents(c.received))
    && (!c.includeHeartbeats ==> c.yielded == C.Business(c.yielded))
    && (forall i :: 0 <= i < |c.received| - 1 ==> !IsTerminal(c.received[i]))
    && (forall i: nat :: i < c.connects - 1 ==> !answers(i).ErrorStatus?)
    && (c.auto ==>
          if answers(c.connects - 1).ErrorStatus? then c.phase.SseFailure?
          else if c.phase.Finished? then c.received != [] && IsTerminal(c.received[|c.received| - 1])
          else c.phase.SseFailure? && c.connects == Max(c.maxAttempts, 0) + 1)
    && (!c.auto ==> c.connects == 1 && c.phase == SingleEnd(answers(0)))
  }

  lemma IterationOver(answers: nat -> Connection, c: C.Client)
    requires C.ClientOk(c) && C.AttemptsOk(c) && Rounds(answers, c)
    requires !c.phase.Streaming? && !c.phase.Connecting? && (c.phase.TransportFailure? ==> !c.auto)
    ensures IsOutcome(answers, c)
  {
  }

  ghost predicate Kept(c: C.Client, m: S.Msg, c': C.Client) {
    && C.ClientOk(c') && C.AttemptsOk(c') && (c'.phase.Streaming? || c'.phase.Finished?)
    && c'.attempts == c.attempts && c'.connects == c.connects
    && c'.received == c.received + (if m.EventMsg? then [m.row] else [])
    && (c'.phase.Finished? <==> m.EventMsg? && IsTerminal(m.row))
  }

  /** Reading a message keeps the client in order; only a terminal row finishes the iteration. */
  lemma MessageKeeps(c: C.Client, m: S.Msg, carry: bool)
    requires c.phase.Streaming? && C.ClientOk(c) && C.AttemptsOk(c)
    ensures Kept(c, m, C.Receive(c, m, carry))
  {
    C.ReceiveOk(c, m, carry);
    C.AttemptsSteps(c, 0, m, carry);
    if m.EventMsg? {
      C.ReceiveRow(c, m.row, carry);
    } else {
      C.ReceiveHeartbeat(c, carry);
    }
  }

  lemma ConnectedKeeps(c: C.Client)
    requires c.phase.Connecting? && C.ClientOk(c) && C.AttemptsOk(c)
    ensures C.ClientOk(C.Connected(c, 0)) && C.AttemptsOk(C.Connected(c, 0))
  {
    C.AttemptsSteps(c, 0, S.HeartbeatMsg, false);
    C.NewPhaseOk(c, C.Connected(c, 0));
  }

  class SdkIterator {
    const task: TaskId
    const start: Option<int>
    const auto: bool
    const includeHeartbeats: bool
    const maxAttempts: int
    var lastCursor: Option<int>
    var attempts: nat
    var connects: nat
    var yielded: seq<C.WorkerEvent>
    var phase: C.Phase
    ghost var received: seq<Row>

    ghost function Snapshot(): C.Client
      reads this
    {
      C.Client(task, start, auto, includeHeartbeats, maxAttempts, lastCursor, attempts, connects, yielded, phase, received)
    }

    constructor (task: TaskId, start: Option<int>, auto: bool, includeHeartbeats: bool, maxAttempts: int)
      ensures Snapshot() == C.NewClient(task, start, auto, includeHeartbeats, maxAttempts)
    {
      this.task, this.start, this.auto := task, start, auto;
      this.includeHeartbeats, this.maxAttempts := includeHeartbeats, maxAttempts;
      lastCursor, attempts, connects, yielded, phase, received := start, 0, 0, [], C.Connecting, [];
    }

    /** The loop body for one server message. */
    method OnMessage(m: S.Msg, carry: bool)
      requires phase.Streaming?
      modifies this
      ensures Snapshot() == C.Receive(old(Snapshot()), m, carry)
    {
      var parsed := C.ParseSse(C.Decode(m, phase.lastId, carry));
      phase := C.Advance(phase, m);
      if m.EventMsg? {
        received := received + [m.row];
      }
      if parsed == None {
        return;
      }
      var event := parsed.value;
      lastCursor := Some(event.cursor);
      if event.kind == C.HEARTBEAT && !includeHeartbeats {
        return;
      }
      yielded := yielded + [event];
      if IsTerminalKind(event.kind) {
        phase := C.Finished;
      }
    }

    /** The `except WorkerTransportError` branch. */
    method OnLost()
      modifies this`attempts, this`phase
      ensures Snapshot() == C.Lost(old(Snapshot()))
    {
      if !auto {
        phase := C.TransportFailure;
        return;
      }
      attempts := attempts + 1;
      phase := if attempts > maxAttempts then C.SseFailure else C.Connecting;
    }

    ghost predicate Ok()
      reads this
    {
      C.ClientOk(Snapshot()) && C.AttemptsOk(Snapshot())
    }

    /** One message within the invariant. */
    method ReadMessage(m: S.Msg, carry: bool)
      requires phase.Streaming? && Ok()
      modifies this
      ensures Ok() && (phase.Streaming? || phase.Finished?) && attempts == old(attempts) && connects == old(connects)
      ensures received == old(received) + if m.EventMsg? then [m.row] else []
      ensures phase.Finished? <==> m.EventMsg? && IsTerminal(m.row)
    {
      ghost var c := Snapshot();
      MessageKeeps(c, m, carry);
      OnMessage(m, carry);
      assert Kept(c, m, Snapshot());
    }

    /** Every message is read, up to the first terminal row. */
    method ReadStream(messages: seq<S.Msg>, carry: nat -> bool)
      requires phase.Streaming? && Ok()
      modifies this
      ensures Ok() && (phase.Streaming? || phase.Finished?) && attempts == old(attempts) && connects == old(connects)
      ensures received == old(received) + RowsUntilTerminal(messages)
      ensures phase.Finished? <==> HasTerminal(messages)
    {
      var i := 0;
      while i < |messages| && !phase.Finished?
        invariant i <= |messages| && Ok() && (phase.Streaming? || phase.Finished?)
        invariant attempts == old(attempts) && connects == old(connects)
        invariant ReadSoFar(old(received), messages, i, received, phase.Finished?)
      {
        ghost var before := received;
        ReadMessage(messages[i], carry(i));
        ReadOne(old(received), messages, i, before);
        i := i + 1;
      }
      ReadAll(old(received), messages, i, received, phase.Finished?);
    }

    /** `connect` succeeded. */
    method OnConnected()
      requires phase.Connecting? && Ok()
      modifies this`phase, this`connects
      ensures Ok() && phase.Streaming? && Snapshot() == C.Connected(old(Snapshot()), 0)
    {
      ConnectedKeeps(Snapshot());
      StartReading();
    }

    method StartReading()
      requires phase.Connecting?
      modifies this`phase, this`connects
      ensures Snapshot() == C.Connected(old(Snapshot()), 0)
    {
      phase := C.Streaming(0, 0, None);
      connects := connects + 1;
    }

    /** `connect` failed: unreachable, or an error status. */
    method OnRefused(status: bool)
      requires phase.Connecting? && Ok()
      modifies this`phase, this`connects, this`attempts
      ensures Snapshot() == if status then C.Rejected(old(Snapshot())) else C.Unreachable(old(Snapshot()))
      ensures Ok() && Resumable(old(attempts))
    {
      C.AttemptsSteps(Snapshot(), 0, S.HeartbeatMsg, false);
      C.NewPhaseOk(Snapshot(), if status then C.Rejected(Snapshot()) else C.Unreachable(Snapshot()));
      connects := connects + 1;
      if status {
        phase := C.SseFailure;
      } else {
        OnLost();
      }
    }

    /** The stream ended without a terminal event. */
    method OnStreamEnd(clean: bool)
      requires phase.Streaming? && Ok()
      modifies this`phase, this`attempts
      ensures Snapshot() == if clean then C.Ended(old(Snapshot())) else C.Lost(old(Snapshot()))
      ensures Ok() && Resumable(old(attempts))
    {
      C.AttemptsSteps(Snapshot(), 0, S.HeartbeatMsg, false);
      C.NewPhaseOk(Snapshot(), if clean then C.Ended(Snapshot()) else C.Lost(Snapshot()));
      if clean && !auto {
        phase := C.Finished;
      } else {
        OnLost();
      }
    }

    /** Either the iteration is over or one more attempt has been spent. */
    ghost predicate Resumable(spent: nat)
      reads this
    {
      && !phase.Streaming?
      && (phase.Connecting? ==> auto && attempts == spent + 1 && attempts <= maxAttempts)
      && (phase.TransportFailure? ==> !auto)
    }

    /** One pass of the outer loop. */
    method OnConnection(answer: Connection)
      requires phase.Connecting? && Ok()
      modifies this
      ensures Ok() && Resumable(old(attempts)) && connects == old(connects) + 1
      ensures received == old(received) + RowsOf(answer)
      ensures C.Refused(Snapshot()) <==> answer.ErrorStatus?
      ensures !auto ==> phase == SingleEnd(answer)
    {
      match answer
      case NoAnswer => OnRefused(false);
      case ErrorStatus => OnRefused(true);
      case Stream(messages, carry, clean) => OnStream(messages, carry, clean);
    }

    method OnStream(messages: seq<S.Msg>, carry: nat -> bool, clean: bool)
      requires phase.Connecting? && Ok()
      modifies this
      ensures Ok() && Resumable(old(attempts)) && connects == old(connects) + 1
      ensures received == old(received) + RowsUntilTerminal(messages)
      ensures !C.Refused(Snapshot())
      ensures !auto ==> phase == if clean || HasTerminal(messages) then C.Finished else C.TransportFailure
    {
      OnConnected();
      ReadStream(messages, carry);
      if !phase.Finished? {
        OnStreamEnd(clean);
      }
    }

    /** `stream_events_with_reconnect` against connections that each end. */
    method StreamEvents(answers: nat -> Connection)
      requires Snapshot() == C.NewClient(task, start, auto, includeHeartbeats, maxAttempts)
      modifies this
      ensures IsOutcome(answers, Snapshot())
    {
      C.NewClientOk(task, start, auto, includeHeartbeats, maxAttempts);
      Connections(answers);
      IterationOver(answers, Snapshot());
    }

    /** The outer loop. */
    method Connections(answers: nat -> Connection)
      requires phase.Connecting? && Ok() && connects == 0 && received == []
      modifies this
      ensures Ok() && Rounds(answers, Snapshot()) && !phase.Streaming? && !phase.Connecting?
      ensures phase.TransportFailure? ==> !auto
    {
      Round(answers);
      while phase.Connecting?
        invariant Ok() && Rounds(answers, Snapshot()) && !phase.Streaming?
        invariant phase.Connecting? ==> auto && attempts <= maxAttempts
        invariant phase.TransportFailure? ==> !auto
        decreases phase.Connecting?, maxAttempts - attempts
      {
        Round(answers);
      }
    }

    method Round(answers: nat -> Connection)
      requires phase.Connecting? && Ok()
      requires if connects == 0 then received == [] else auto && Rounds(answers, Snapshot())
      modifies this
      ensures Ok() && Resumable(old(attempts)) && Rounds(answers, Snapshot())
    {
      ghost var before := Snapshot();
      OnConnection(answers(connects));
      OneMoreRound(answers, before, Snapshot());
    }
  }
}
