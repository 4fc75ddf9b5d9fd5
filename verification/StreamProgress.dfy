/** The iteration ends: once a terminal row lies ahead of the client, the client and its own session can take
    only a bounded number of steps, whatever everybody else does. */
module StreamProgress {
  import opened Common
  import opened EventLog
  import opened StreamProtocol

  /** A terminal row at or beyond the first row the client asked for. */
  predicate Ahead(s: Sys, t: nat) {
    var rows := TaskRows(s, s.client.task);
    ClientLow(s.client) <= t < |rows| && IsTerminal(rows[t])
  }

  /** A step of the client, or of the session it is connected to. */
  predicate Own(s: Sys, step: Step) {
    match step
    case Log(_) => false
    case DiscardBus(_) => false
    case OpenStream(_, _, _, _) => false
    case Server(x, _) => s.client.phase.Streaming? && s.client.phase.session == x
    case _ => true
  }

  // ----- the measure -----

  /** `n` times `k`. */
  function Times(n: nat, k: nat): nat { if n == 0 then 0 else Times(n - 1, k) + k }

  /** Connections that may still be made, the present one included. */
  function Tries(c: C.Client): nat { Max(0, (if c.auto then Max(c.maxAttempts, 0) + 1 else 1) - c.attempts) }

  /** Steps that one connection to a session can still cost: each session step writes at most one message. */
  function Connection(x: S.Session, pos: nat, t: nat): int { 2 * S.StepsLeft(x, t) + |x.wire| - pos }

  /** An upper bound on a whole connection. */
  function Cost(t: nat): nat { 2 * t + 6 }

  /** Connections left first, then what is left of the present one. */
  function Measure(s: Sys, t: nat): int {
    var c := s.client;
    match c.phase
    case Connecting => Times(Tries(c), Cost(t))
    case Streaming(x, pos, _) =>
      if x in s.sessions then Times(Max(0, Tries(c) - 1), Cost(t)) + Connection(s.sessions[x], pos, t) + 1 else 0
    case _ => 0
  }

  // ----- what the invariant gives -----

  /** A client that is not finished has not passed the terminal row, nor has its session's start. */
  lemma NotPast(s: Sys, t: nat)
    requires SysInv(s) && Ahead(s, t) && (s.client.phase.Connecting? || s.client.phase.Streaming?)
    ensures ClientLow(s.client) + |s.client.received| <= t
    ensures Tries(s.client) >= 1
    ensures s.client.phase.Streaming? ==>
              s.client.phase.session in s.sessions && S.Low(s.sessions[s.client.phase.session].start) <= t
  {
    SliceBelow(TaskRows(s, s.client.task), ClientLow(s.client), s.client.received, t);
  }

  /** A stretch without a terminal row that starts below a terminal row ends below it. */
  lemma SliceBelow(rows: seq<Row>, lo: nat, part: seq<Row>, t: nat)
    requires S.IsSlice(rows, lo, part) && lo <= t < |rows| && IsTerminal(rows[t])
    requires forall i :: 0 <= i < |part| ==> !IsTerminal(part[i])
    ensures lo + |part| <= t
  {
    forall i | lo <= i < lo + |part|
      ensures !IsTerminal(rows[i])
    {
      assert rows[i] == part[i - lo];
    }
  }

  /** The next connection asks for the first row that the client has not received. */
  lemma NextCursor(s: Sys)
    requires SysInv(s)
    ensures S.Low(C.HeaderCursor(s.client.cursor)) == ClientLow(s.client) + |s.client.received|
  {
    var c := s.client;
    if c.received != [] {
      assert c.received[|c.received| - 1] == TaskRows(s, c.task)[ClientLow(c) + |c.received| - 1];
    }
  }

  /** An open session that started at or below the terminal row has not sent it. */
  lemma OpenNotPast(x: S.Session, rows: seq<Row>, t: nat)
    requires S.SessionOk(x, rows) && !x.phase.Closed? && S.Low(x.start) <= t < |rows| && IsTerminal(rows[t])
    ensures S.Low(x.start) + |S.Sent(x)| <= t
  {
    SliceBelow(rows, S.Low(x.start), S.Sent(x), t);
  }

  lemma SessionStepLowers(x: S.Session, own: S.Step, rows: seq<Row>, t: nat, pos: nat)
    requires S.SessionOk(x, rows) && Contiguous(rows) && S.CanStep(x, own)
    requires S.Low(x.start) <= t < |rows| && IsTerminal(rows[t])
    ensures Connection(S.Take(x, own, rows), pos, t) < Connection(x, pos, t)
  {
    OpenNotPast(x, rows, t);
    S.SessionProgress(x, own, rows, t);
  }

  /** What is left of the present connection is not negative. */
  ghost predicate Open(s: Sys, t: nat) {
    s.client.phase.Streaming? ==>
      s.client.phase.session in s.sessions && Connection(s.sessions[s.client.phase.session], s.client.phase.pos, t) >= 0
  }

  lemma OpenOk(s: Sys, t: nat)
    requires SysInv(s) && Ahead(s, t)
    ensures Open(s, t) && Measure(s, t) >= 0
  {
    if s.client.phase.Streaming? {
      NotPast(s, t);
      var x := s.sessions[s.client.phase.session];
      if !x.phase.Closed? { OpenNotPast(x, TaskRows(s, s.client.task), t); }
    }
  }

  // ----- own steps -----

  lemma ServerLowers(s: Sys, x: nat, own: S.Step, t: nat)
    requires SysInv(s) && Ahead(s, t) && Can(s, Server(x, own)) && Own(s, Server(x, own))
    ensures Measure(Do'(s, Server(x, own)), t) < Measure(s, t)
  {
    NotPast(s, t);
    SessionStepLowers(s.sessions[x], own, TaskRows(s, s.client.task), t, s.client.phase.pos);
  }

  lemma ConnectLowers(s: Sys, x: nat, closing: bool, t: nat)
    requires Can(s, Connect(x, closing)) && Tries(s.client) >= 1 && S.Low(C.HeaderCursor(s.client.cursor)) <= t
    ensures Measure(Do'(s, Connect(x, closing)), t) < Measure(s, t)
  {
    var s' := Do'(s, Connect(x, closing));
    var y := s'.sessions[x];
    assert y == S.Open(s.client.task, y.bus, C.HeaderCursor(s.client.cursor), closing);
    assert Connection(y, 0, t) + 1 < Cost(t);
  }

  lemma ReceiveShape(c: C.Client, m: S.Msg, carry: bool)
    requires c.phase.Streaming?
    ensures var c' := C.Receive(c, m, carry);
            Tries(c') == Tries(c) && (c'.phase.Finished? || c'.phase == C.Advance(c.phase, m))
  {
    if m.EventMsg? { C.ReceiveRow(c, m.row, carry); } else { C.ReceiveHeartbeat(c, carry); }
  }

  /** One message fewer on the wire, or the end. */
  lemma TakingLowers(s: Sys, c': C.Client, t: nat)
    requires Open(s, t) && s.client.phase.Streaming? && Tries(c') == Tries(s.client)
    requires c'.phase.Finished? ||
             (c'.phase.Streaming? && c'.phase.session == s.client.phase.session && c'.phase.pos == s.client.phase.pos + 1)
    ensures Measure(s.(client := c'), t) < Measure(s, t)
  {
  }

  lemma DeliverLowers(s: Sys, carry: bool, t: nat)
    requires Open(s, t) && Can(s, Deliver(carry))
    ensures Measure(Do'(s, Deliver(carry)), t) < Measure(s, t)
  {
    var m := s.sessions[s.client.phase.session].wire[s.client.phase.pos];
    ReceiveShape(s.client, m, carry);
    TakingLowers(s, C.Receive(s.client, m, carry), t);
  }

  /** A lost connection is paid for by an attempt. */
  lemma LostLowers(s: Sys, step: Step, t: nat)
    requires Open(s, t) && OnlyClient(step) && Can(s, step) && Tries(s.client) >= 1
    ensures Measure(Do'(s, step), t) < Measure(s, t)
  {
    assert Times(Tries(s.client), Cost(t)) == Times(Tries(s.client) - 1, Cost(t)) + Cost(t);
  }

  lemma OwnLowers(s: Sys, step: Step, t: nat)
    requires SysInv(s) && Ahead(s, t) && Can(s, step) && Own(s, step)
    ensures Measure(Do'(s, step), t) < Measure(s, t)
  {
    OpenOk(s, t);
    NotPast(s, t);
    match step
    case Server(x, own) => ServerLowers(s, x, own, t);
    case Connect(x, closing) =>
      NextCursor(s);
      ConnectLowers(s, x, closing, t);
    case Deliver(carry) => DeliverLowers(s, carry, t);
    case _ => LostLowers(s, step, t);
  }

  // ----- everybody else -----

  lemma SameStepsLeft(x: S.Session, flag: bool, t: nat)
    ensures S.StepsLeft(x.(flag := flag), t) == S.StepsLeft(x, t)
  {
  }

  /** The client's session is one of the sessions. */
  predicate Known(s: Sys) { s.client.phase.Streaming? ==> s.client.phase.session in s.sessions }

  lemma LogLeavesMeasure(s: Sys, a: Action, t: nat)
    requires Inv(s.log) && Known(s) && Can(s, Log(a))
    ensures Measure(Do'(s, Log(a)), t) == Measure(s, t)
  {
    LogGrows(s, a);
    var c := s.client;
    if c.phase.Streaming? {
      SameStepsLeft(s.sessions[c.phase.session], Do'(s, Log(a)).sessions[c.phase.session].flag, t);
    }
  }

  lemma OthersLeaveMeasure(s: Sys, step: Step, t: nat)
    requires Inv(s.log) && Known(s) && Can(s, step) && !Own(s, step)
    ensures Measure(Do'(s, step), t) == Measure(s, t)
  {
    if step.Log? { LogLeavesMeasure(s, step.action, t); }
  }

  lemma AheadStays(s: Sys, step: Step, t: nat)
    requires SysInv(s) && Ahead(s, t) && Can(s, step)
    ensures Ahead(Do'(s, step), t)
  {
    StepKeepsClient(s, step);
    if step.Log? { LogGrows(s, step.action); }
  }

  // ----- main results -----

  function OwnSteps(s: Sys, run: seq<Step>): nat
    requires Run(s, run)
    decreases |run|
  {
    if run == [] then 0 else (if Own(s, run[0]) then 1 else 0) + OwnSteps(Do'(s, run[0]), run[1..])
  }

  /** From the moment a terminal row is ahead, the steps of the client and its session are bounded by the
      measure (connections left, steps left of the session, messages left on the wire). */
  lemma {:induction false} IterationEnds(s: Sys, run: seq<Step>, t: nat)
    requires SysInv(s) && Ahead(s, t) && Run(s, run)
    ensures OwnSteps(s, run) + Measure(Final(s, run), t) <= Measure(s, t)
    ensures 0 <= Measure(Final(s, run), t)
    decreases |run|
  {
    OpenOk(s, t);
    if run != [] {
      StepKeeps(s, run[0]);
      AheadStays(s, run[0], t);
      if Own(s, run[0]) { OwnLowers(s, run[0], t); } else { OthersLeaveMeasure(s, run[0], t); }
      IterationEnds(Do'(s, run[0]), run[1..], t);
    }
  }

  /** From the start: at most `max_reconnect_attempts + 1` connections of bounded cost. */
  lemma IterationBound(task: TaskId, start: Option<int>, auto: bool, beats: bool, max: int, before: seq<Step>,
                       run: seq<Step>, t: nat)
    requires Run(Start(C.NewClient(task, start, auto, beats, max)), before)
    requires var s := Final(Start(C.NewClient(task, start, auto, beats, max)), before);
             s.client == C.NewClient(task, start, auto, beats, max) && Ahead(s, t) && Run(s, run)
    ensures var s := Final(Start(C.NewClient(task, start, auto, beats, max)), before);
            OwnSteps(s, run) <= Times(if auto then Max(max, 0) + 1 else 1, Cost(t))
  {
    var client := C.NewClient(task, start, auto, beats, max);
    StartInv(client, task, start, auto, beats, max);
    RunKeeps(Start(client), before);
    IterationEnds(Final(Start(client), before), run, t);
  }

  /** The client can go no further exactly when its iteration has returned or raised. */
  lemma StoppedIff(s: Sys)
    requires SysInv(s)
    ensures (forall step :: Own(s, step) ==> !Can(s, step)) <==>
            s.client.phase.Finished? || s.client.phase.SseFailure? || s.client.phase.TransportFailure?
  {
    if s.client.phase.Connecting? {
      assert Own(s, ConnectFails) && Can(s, ConnectFails);
    } else if s.client.phase.Streaming? {
      assert Own(s, Drop) && Can(s, Drop);
    }
  }

  lemma OpenSessionCanStep(x: S.Session)
    requires !x.phase.Closed?
    ensures exists own :: own != S.HangUp && S.CanStep(x, own)
  {
    var own := match x.phase
               case Replay(batch) => if batch == [] then S.Drained else S.Send
               case Drain(batch) => if batch == [] then S.Drained else S.Send
               case Beating => S.Beat(false)
               case Parked => S.Timeout
               case _ => S.Fetch;
    assert own != S.HangUp && S.CanStep(x, own);
  }

  /** A streaming client that has taken every message has not been sent a terminal row. */
  lemma NothingTerminalTaken(s: Sys, i: nat)
    requires C.ClientOk(s.client) && LinkOk(s) && s.client.phase.Streaming?
    requires var x := s.sessions[s.client.phase.session];
             s.client.phase.pos == |x.wire| && S.SessionOk(x, TaskRows(s, x.task)) && i < |S.Sent(x)|
    ensures !IsTerminal(S.Sent(s.sessions[s.client.phase.session])[i])
  {
    var c := s.client;
    var x := s.sessions[c.phase.session];
    assert x.wire[..|x.wire|] == x.wire;
    assert c.received[S.Low(x.start) + i - ClientLow(c)] == TaskRows(s, c.task)[S.Low(x.start) + i];
  }

  /** It is not only drops that keep it going: while its session is open the session can step, and once the
      session has written a terminal row the client has a message to take. */
  lemma StreamGoesOn(s: Sys, i: nat)
    requires SysInv(s) && s.client.phase.Streaming?
    ensures var x := s.sessions[s.client.phase.session];
            && (!x.phase.Closed? ==> exists own :: own != S.HangUp && S.CanStep(x, own))
            && (i < |S.Sent(x)| && IsTerminal(S.Sent(x)[i]) ==> Can(s, Deliver(false)))
  {
    var x := s.sessions[s.client.phase.session];
    if !x.phase.Closed? { OpenSessionCanStep(x); }
    if s.client.phase.pos == |x.wire| && i < |S.Sent(x)| { NothingTerminalTaken(s, i); }
  }

  // ----- when the client reconnects, and when it gives up -----

  /** After a lost or ended connection the client connects again, from where it was, exactly when auto-reconnect
      is on and attempts are left; otherwise it returns at the end of a stream and raises after an error. */
  lemma ReconnectsIff(s: Sys, step: Step)
    requires Can(s, step) && (step.ConnectFails? || step.Drop? || step.Eof?)
    ensures var c, c' := s.client, Do'(s, step).client;
            && (c'.phase.Connecting? <==> c.auto && c.attempts < c.maxAttempts)
            && (c'.phase.Finished? <==> !c.auto && step.Eof?)
            && (c'.phase.TransportFailure? <==> !c.auto && !step.Eof?)
            && (c'.phase.SseFailure? <==> c.auto && c.attempts >= c.maxAttempts)
            && c'.attempts == c.attempts + (if c.auto then 1 else 0)
            && c'.cursor == c.cursor && c'.received == c.received && c'.yielded == c.yielded
  {
  }

  /** A rejected handshake is raised at once, whatever attempts are left; it costs no attempt. */
  lemma RejectionRaises(s: Sys)
    requires Can(s, ConnectRejected)
    ensures var c, c' := s.client, Do'(s, ConnectRejected).client;
            && c'.phase.SseFailure? && c'.attempts == c.attempts && c'.connects == c.connects + 1
            && c'.cursor == c.cursor && c'.received == c.received && c'.yielded == c.yielded
  {
  }

  predicate NoRejection(run: seq<Step>) { forall i :: 0 <= i < |run| ==> !run[i].ConnectRejected? }

  lemma NeverRefused(s: Sys, step: Step)
    requires C.AttemptsOk(s.client) && Can(s, step) && !step.ConnectRejected? && !C.Refused(s.client)
    ensures !C.Refused(Do'(s, step).client)
  {
    if step.Deliver? {
      ReceiveShape(s.client, s.sessions[s.client.phase.session].wire[s.client.phase.pos], step.carry);
    }
  }

  lemma {:induction false} RunNeverRefused(s: Sys, run: seq<Step>)
    requires SysInv(s) && Run(s, run) && NoRejection(run) && !C.Refused(s.client)
    ensures SysInv(Final(s, run)) && !C.Refused(Final(s, run).client)
    decreases |run|
  {
    if run != [] {
      NeverRefused(s, run[0]);
      StepKeeps(s, run[0]);
      RunNeverRefused(Do'(s, run[0]), run[1..]);
    }
  }

  /** With no handshake rejected, a client raises the stream error only when auto-reconnect is on and all its
      `max_reconnect_attempts + 1` connections have been made. */
  lemma GivesUpWhenSpent(task: TaskId, start: Option<int>, auto: bool, beats: bool, max: int, run: seq<Step>)
    requires Run(Start(C.NewClient(task, start, auto, beats, max)), run) && NoRejection(run)
    ensures var c := Final(Start(C.NewClient(task, start, auto, beats, max)), run).client;
            c.phase.SseFailure? ==> auto && c.connects == c.attempts == Max(max, 0) + 1
  {
    var client := C.NewClient(task, start, auto, beats, max);
    StartInv(client, task, start, auto, beats, max);
    RunNeverRefused(Start(client), run);
    RunKeepsClient(Start(client), run);
  }
}
