/** One server-side event stream: subscribe, replay, drain, park.  A step is the code between two
    suspensions of the generator. */
module SseSession {
  import opened Common
  import opened EventLog

  /** What the server writes on the connection; a heartbeat carries no id. */
  datatype Msg = EventMsg(row: Row) | HeartbeatMsg

  datatype Phase =
    | Opening                    // subscribed, history not fetched
    | Replay(batch: seq<Row>)    // sending history
    | Loop                       // about to fetch
    | Drain(batch: seq<Row>)     // sending new rows
    | Beating                    // batch sent; heartbeat decision outstanding
    | Parked                     // waiting for the flag or the next heartbeat
    | Closed

  /** `flag` is the subscriber's wakeup event on bus object `bus`; `closing` says that the task status
      was terminal when the request arrived. */
  datatype Session = Session(task: TaskId, bus: nat, flag: bool, start: int, cursor: int, closing: bool,
                             phase: Phase, wire: seq<Msg>)

  function Open(task: TaskId, bus: nat, start: int, closing: bool): Session {
    Session(task, bus, false, start, start, closing, Opening, [])
  }

  datatype Step = Fetch | Send | Drained | Beat(emit: bool) | Wake | Timeout | HangUp

  function Batch(p: Phase): seq<Row> {
    if p.Replay? || p.Drain? then p.batch else []
  }

  predicate CanStep(x: Session, step: Step) {
    match step
    case Fetch => x.phase.Opening? || x.phase.Loop?
    case Send => Batch(x.phase) != []
    case Drained => (x.phase.Replay? || x.phase.Drain?) && Batch(x.phase) == []
    case Beat(_) => x.phase.Beating?
    case Wake => x.phase.Parked? && x.flag
    case Timeout => x.phase.Parked?
    case HangUp => !x.phase.Closed?
  }

  /** The effect of a step while the table holds `rows` for the task. */
  function Take(x: Session, step: Step, rows: seq<Row>): Session
    requires CanStep(x, step)
  {
    match step
    case Fetch =>
      var batch := EventsAfter(rows, x.cursor);
      x.(phase := if x.phase.Opening? then Replay(batch) else Drain(batch))
    case Send =>
      var row, rest := x.phase.batch[0], x.phase.batch[1..];
      x.(cursor := row.eventId, wire := x.wire + [EventMsg(row)],
         phase := if IsTerminal(row) then Closed else if x.phase.Replay? then Replay(rest) else Drain(rest))
    case Drained =>
      x.(phase := if x.phase.Drain? then Beating else if x.closing then Closed else Loop)
    case Beat(emit) =>
      x.(phase := Parked, wire := if emit then x.wire + [HeartbeatMsg] else x.wire)
    case Wake => x.(phase := Loop, flag := false)
    case Timeout => x.(phase := Loop)
    case HangUp => x.(phase := Closed)
  }

  // ----- what has been written -----

  function Events(wire: seq<Msg>): seq<Row> {
    if wire == [] then []
    else
      var init := Events(wire[..|wire| - 1]);
      match wire[|wire| - 1]
      case EventMsg(row) => init + [row]
      case HeartbeatMsg => init
  }

  lemma EventsSnoc(wire: seq<Msg>, m: Msg)
    ensures Events(wire + [m]) == Events(wire) + (if m.EventMsg? then [m.row] else [])
  {
    assert (wire + [m])[..|wire|] == wire;
  }

  /** Heartbeats written so far. */
  function Heartbeats(wire: seq<Msg>): nat {
    if wire == [] then 0
    else Heartbeats(wire[..|wire| - 1]) + if wire[|wire| - 1].HeartbeatMsg? then 1 else 0
  }

  /** A session writes one row for a send, one heartbeat when one is due, and nothing else. */
  lemma StepWrites(x: Session, step: Step, rows: seq<Row>)
    requires CanStep(x, step)
    ensures var x' := Take(x, step, rows);
            && Heartbeats(x'.wire) == Heartbeats(x.wire) + (if step == Beat(true) then 1 else 0)
            && |x'.wire| == |x.wire| + (if step == Send || step == Beat(true) then 1 else 0)
  {
    var x' := Take(x, step, rows);
    if |x'.wire| == |x.wire| + 1 { assert x'.wire[..|x.wire|] == x.wire; }
  }

  /** A session ends for three reasons only: it has sent a terminal row, its history is sent and the task was
      over when the request arrived, or the reader is gone.  Its wakeup flag is cleared by waking up, which
      like a timeout leads to the next fetch. */
  lemma EndsIff(x: Session, step: Step, rows: seq<Row>)
    requires CanStep(x, step)
    ensures var x' := Take(x, step, rows);
            && (x'.phase.Closed? <==> || step == HangUp
                                      || (step == Send && IsTerminal(Batch(x.phase)[0]))
                                      || (step == Drained && x.phase.Replay? && x.closing))
            && (x'.flag <==> x.flag && step != Wake)
            && (step == Wake || step == Timeout ==> CanStep(x', Fetch) && !x'.phase.Opening?)
            && x' == x.(flag := x'.flag, cursor := x'.cursor, phase := x'.phase, wire := x'.wire)
  {
  }

  /** First row index of interest for a cursor. */
  function Low(cursor: int): nat { Max(cursor, 0) }

  /** Rows `lo .. lo + |part|` of the table. */
  predicate IsSlice(rows: seq<Row>, lo: nat, part: seq<Row>) {
    part == [] || (lo + |part| <= |rows| && part == rows[lo..lo + |part|])
  }

  lemma {:induction false} EventsAfterFrom(rows: seq<Row>, first: int, after: int)
    requires forall i :: 0 <= i < |rows| ==> rows[i].eventId == first + i
    ensures EventsAfter(rows, after) == rows[Min(|rows|, Max(0, after - first + 1))..]
    decreases |rows|
  {
    if rows != [] {
      EventsAfterFrom(rows[1..], first + 1, after);
      if rows[0].eventId > after {
        assert rows[1..][0..] == rows[1..];
        assert rows == [rows[0]] + rows[1..];
      }
    }
  }

  /** On a table with ids 1..n the query returns the rows from the cursor on. */
  lemma EventsAfterSlice(rows: seq<Row>, after: int)
    requires Contiguous(rows)
    ensures EventsAfter(rows, after) == (if Low(after) <= |rows| then rows[Low(after)..] else [])
  {
    var n := Min(|rows|, Low(after));
    assert EventsAfter(rows, after) == rows[n..] by { EventsAfterFrom(rows, 1, after); }
    if Low(after) > |rows| { assert rows[n..] == []; }
  }

  function Sent(x: Session): seq<Row> { Events(x.wire) }

  /** Index of the first row the session has neither sent nor fetched. */
  function Reach(x: Session): nat { Low(x.start) + |Sent(x)| + |Batch(x.phase)| }

  /** The stream is exactly the rows after the start cursor, up to the cursor, and ends at a terminal row. */
  ghost predicate SessionOk(x: Session, rows: seq<Row>) {
    && x.cursor == (if Sent(x) == [] then x.start else Low(x.start) + |Sent(x)|)
    && IsSlice(rows, Low(x.start), Sent(x))
    && IsSlice(rows, Low(x.start) + |Sent(x)|, Batch(x.phase))
    && forall i :: 0 <= i < |Sent(x)| && IsTerminal(Sent(x)[i]) ==> i == |Sent(x)| - 1 && x.phase.Closed?
  }

  lemma OpenOk(task: TaskId, bus: nat, start: int, closing: bool, rows: seq<Row>)
    ensures SessionOk(Open(task, bus, start, closing), rows)
  {
  }

  lemma FetchOk(x: Session, rows: seq<Row>)
    requires SessionOk(x, rows) && CanStep(x, Fetch) && Contiguous(rows)
    ensures SessionOk(Take(x, Fetch, rows), rows)
    ensures Reach(Take(x, Fetch, rows)) == Max(|rows|, Low(x.start) + |Sent(x)|)
  {
    EventsAfterSlice(rows, x.cursor);
    var lo := Low(x.start) + |Sent(x)|;
    assert Low(x.cursor) == lo;
    if lo <= |rows| { assert rows[lo..] == rows[lo..|rows|]; }
  }

  lemma SliceSnoc(rows: seq<Row>, lo: nat, part: seq<Row>, batch: seq<Row>)
    requires batch != [] && IsSlice(rows, lo, part) && IsSlice(rows, lo + |part|, batch)
    ensures lo + |part| < |rows| && batch[0] == rows[lo + |part|]
    ensures IsSlice(rows, lo, part + [batch[0]]) && IsSlice(rows, lo + |part| + 1, batch[1..])
  {
    var mid := lo + |part|;
    assert batch == rows[mid..mid + |batch|];
    assert part == rows[lo..mid] by { if part == [] { assert rows[lo..mid] == []; } }
    assert rows[lo..mid + 1] == rows[lo..mid] + [rows[mid]];
    assert batch[1..] == rows[mid + 1..mid + |batch|];
  }

  lemma SendValues(x: Session, rows: seq<Row>)
    requires CanStep(x, Send)
    ensures var x' := Take(x, Send, rows);
            var batch := Batch(x.phase);
            && Sent(x') == Sent(x) + [batch[0]] && x'.cursor == batch[0].eventId
            && x'.start == x.start && x'.phase.Closed? == IsTerminal(batch[0])
            && Batch(x'.phase) == if x'.phase.Closed? then [] else batch[1..]
  {
    EventsSnoc(x.wire, EventMsg(x.phase.batch[0]));
  }

  lemma SendOk(x: Session, rows: seq<Row>)
    requires SessionOk(x, rows) && CanStep(x, Send) && Contiguous(rows)
    ensures SessionOk(Take(x, Send, rows), rows)
    ensures Take(x, Send, rows).phase.Closed? || Reach(Take(x, Send, rows)) == Reach(x)
    ensures Low(x.start) + |Sent(x)| < |rows|
    ensures Sent(Take(x, Send, rows)) == Sent(x) + [rows[Low(x.start) + |Sent(x)|]]
  {
    SendValues(x, rows);
    SliceSnoc(rows, Low(x.start), Sent(x), Batch(x.phase));
  }

  lemma StepOk(x: Session, step: Step, rows: seq<Row>)
    requires SessionOk(x, rows) && CanStep(x, step) && Contiguous(rows)
    ensures SessionOk(Take(x, step, rows), rows)
    ensures step != Send ==> Sent(Take(x, step, rows)) == Sent(x)
    ensures x.wire <= Take(x, step, rows).wire
  {
    match step
    case Fetch => FetchOk(x, rows);
    case Send => SendOk(x, rows);
    case Beat(_) => EventsSnoc(x.wire, HeartbeatMsg);
    case _ =>
  }

  /** Rows appended later do not disturb a session. */
  lemma GrowOk(x: Session, rows: seq<Row>, more: seq<Row>)
    requires SessionOk(x, rows) && rows <= more
    ensures SessionOk(x, more)
  {
  }

  // ----- bounded progress -----

  /** Own steps a session still has to take before it has sent row `t` (0-based) and closed. */
  function StepsLeft(x: Session, t: nat): int {
    var left := t + 1 - (Low(x.start) + |Sent(x)|);
    if x.phase.Closed? then 0
    else if Reach(x) > t then left
    else left + match x.phase
                case Opening => 1
                case Loop => 1
                case Parked => 2
                case Beating => 3
                case Drain(_) => 4
                case Replay(_) => 5
                case Closed => 0
  }

  /** Once a terminal row is in the table, every step of a session below it brings the end closer:
      at most |rows| + 6 own steps remain, and the session cannot outrun the terminal row. */
  lemma SessionProgress(x: Session, step: Step, rows: seq<Row>, t: nat)
    requires SessionOk(x, rows) && CanStep(x, step) && Contiguous(rows)
    requires Low(x.start) + |Sent(x)| <= t < |rows| && IsTerminal(rows[t])
    ensures 0 <= StepsLeft(Take(x, step, rows), t) < StepsLeft(x, t) <= |rows| + 6
    ensures var x' := Take(x, step, rows);
            x'.phase.Closed? || Low(x'.start) + |Sent(x')| <= t
  {
    StepOk(x, step, rows);
    if step == Fetch { FetchOk(x, rows); }
    if step == Send { SendOk(x, rows); }
  }
}
