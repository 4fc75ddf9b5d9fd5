/** Human decisions: permission handlers that share one driver object and one decisions table.
    A step is the stretch of a handler between two awaits. */
module Hitl {
  import opened Common
  import Decisions

  type DecisionId = Decisions.DecisionId
  type Choice = Decisions.Choice

  const REJECT_THRESHOLD: nat := 3

  // ---------- timeout policy ----------

  function Lower(s: string): (r: string)
    ensures |r| == |s| && forall i :: 0 <= i < |s| ==> r[i] == LowerChar(s[i])
  {
    seq(|s|, i requires 0 <= i < |s| => LowerChar(s[i]))
  }

  /** The normalised action and the choice that stands in for the missing answer. */
  function ResolveHitlTimeoutPolicy(onTimeout: Option<string>): (r: (string, Choice))
    ensures r.0 == "abort" || r.0 == "continue" || r.0 == "escalate"
    ensures r.0 == "continue" <==> onTimeout.Some? && Lower(onTimeout.value) == "continue"
    ensures r.0 == "escalate" <==> onTimeout.Some? && Lower(onTimeout.value) == "escalate"
    ensures r.1 == Decisions.Approve <==> r.0 != "abort"
    ensures r.1 == Decisions.Approve || r.1 == Decisions.Abort
  {
    var action := Lower(if onTimeout.None? || onTimeout.value == "" then "abort" else onTimeout.value);
    if action == "continue" || action == "escalate" then (action, Decisions.Approve) else ("abort", Decisions.Abort)
  }

  /** `auto` says which tools an auto-approve pattern matches. */
  datatype Config = Config(auto: string -> bool, onTimeout: Option<string>)

  predicate TimeoutContinues(c: Config) { ResolveHitlTimeoutPolicy(c.onTimeout).1 == Decisions.Approve }

  // ---------- the driver object ----------

  datatype Reason = PermissionRejected | RejectThresholdExceeded | HitlTimeout | PlanRejected

  datatype Signal = Signal(reason: Reason, decision: DecisionId)

  /** `_reject_count`, `_abort_event`, `_abort_reason` and `_abort_decision_id`. */
  datatype Driver = Driver(rejectCount: nat, aborted: bool, reason: Option<Reason>, decision: Option<DecisionId>)

  const NEW_DRIVER := Driver(0, false, None, None)

  function WithSignal(d: Driver, g: Signal): Driver {
    if d.aborted then d else d.(aborted := true, reason := Some(g.reason), decision := Some(g.decision))
  }

  /** What ended the wait of a handler. */
  datatype Cause =
    | Auto
    | Human(id: DecisionId, choice: Choice)
    | Timeout(id: DecisionId, expired: bool)

  function Count(n: nat, cause: Cause): nat {
    match cause
    case Auto => 0
    case Human(_, Approve) => 0
    case Human(_, Abort) => n
    case Human(_, _) => n + 1
    case Timeout(_, _) => n
  }

  function Verdict(c: Config, cause: Cause): string {
    match cause
    case Auto => "once"
    case Human(_, choice) => if choice == Decisions.Approve then "once" else "reject"
    case Timeout(_, _) => if TimeoutContinues(c) then "once" else "reject"
  }

  // ---------- handlers ----------

  /** A permission id, and the pass over the event stream that reported it. */
  datatype Key = Key(pass: nat, permission: string)

  datatype Pc =
    | Start
    | AutoNoting
    | Waiting(id: DecisionId)
    | Got(id: DecisionId, choice: Choice)
    | Escalating(id: DecisionId, choice: Choice, at: nat)
    | Expiring(id: DecisionId)
    | Expired(id: DecisionId, won: bool)
    | Done(cause: Cause, at: nat)

  datatype Handler = Handler(tool: string, pc: Pc)

  /** `outcomes` is the order in which handlers ended their waits, `signals` every call of
      `_signal_abort`, `responses` every call of `respond_permission`. */
  datatype State = State(
    table: Decisions.Table,
    driver: Driver,
    pass: nat,
    seen: set<string>,
    handlers: map<Key, Handler>,
    outcomes: seq<(Key, Cause)>,
    signals: seq<Signal>,
    responses: seq<(Key, string)>)

  const INITIAL := State(map[], NEW_DRIVER, 0, {}, map[], [], [], [])

  datatype Step =
    | Ask(permission: string, tool: string)
    | NextPass
    | Begin(k: Key, id: DecisionId)
    | AutoAnswer(k: Key)
    | Store(op: Decisions.Op)
    | PollHit(k: Key)
    | PollMiss(k: Key)
    | Process(k: Key)
    | Escalate(k: Key)
    | Expire(k: Key)
    | TimeoutAct(k: Key)
    | RejectPlan(plan: DecisionId)

  function DecisionOf(pc: Pc): Option<DecisionId> {
    match pc
    case Start => None
    case AutoNoting => None
    case Done(cause, _) => if cause.Auto? then None else Some(cause.id)
    case Waiting(id) => Some(id)
    case Got(id, _) => Some(id)
    case Escalating(id, _, _) => Some(id)
    case Expiring(id) => Some(id)
    case Expired(id, _) => Some(id)
  }

  predicate Owned(s: State, id: DecisionId) {
    exists k :: k in s.handlers && DecisionOf(s.handlers[k].pc) == Some(id)
  }

  predicate IsResolved(t: Decisions.Table, id: DecisionId) { id in t && t[id].status == Decisions.Resolved }

  predicate At(s: State, k: Key) { k in s.handlers }

  predicate IsDone(s: State, k: Key) { At(s, k) && s.handlers[k].pc.Done? }

  /** Submitters resolve any row; other code inserts and expires only rows of its own. */
  predicate Can(c: Config, s: State, step: Step) {
    match step
    case Ask(_, _) => !s.driver.aborted
    case NextPass => true
    case Begin(k, id) => At(s, k) && s.handlers[k].pc == Start && id !in s.table
    case AutoAnswer(k) => At(s, k) && s.handlers[k].pc == AutoNoting
    case Store(op) => op.Resolve? || !Owned(s, op.id)
    case PollHit(k) => At(s, k) && s.handlers[k].pc.Waiting? && IsResolved(s.table, s.handlers[k].pc.id)
    case PollMiss(k) => At(s, k) && s.handlers[k].pc.Waiting? && !IsResolved(s.table, s.handlers[k].pc.id)
    case Process(k) => At(s, k) && s.handlers[k].pc.Got?
    case Escalate(k) => At(s, k) && s.handlers[k].pc.Escalating?
    case Expire(k) => At(s, k) && s.handlers[k].pc.Expiring?
    case TimeoutAct(k) => At(s, k) && s.handlers[k].pc.Expired?
    case RejectPlan(plan) => !Owned(s, plan)
  }

  function Move(s: State, k: Key, pc: Pc): State
    requires At(s, k)
  {
    s.(handlers := s.handlers[k := s.handlers[k].(pc := pc)])
  }

  function Raise(s: State, g: Signal): State {
    s.(driver := WithSignal(s.driver, g), signals := s.signals + [g])
  }

  /** The wait is over: the counter moves. */
  function Note(s: State, k: Key, cause: Cause): State {
    s.(outcomes := s.outcomes + [(k, cause)],
       driver := s.driver.(rejectCount := Count(s.driver.rejectCount, cause)))
  }

  /** `respond_permission`, the last act of a handler. */
  function Respond(c: Config, s: State, k: Key, cause: Cause, at: nat): State
    requires At(s, k)
  {
    Move(s, k, Done(cause, at)).(responses := s.responses + [(k, Verdict(c, cause))])
  }

  function Do(c: Config, s: State, step: Step): State
    requires Can(c, s, step)
  {
    match step
    case Ask(permission, tool) =>
      if permission in s.seen then s
      else s.(seen := s.seen + {permission}, handlers := s.handlers[Key(s.pass, permission) := Handler(tool, Start)])
    case NextPass => s.(pass := s.pass + 1, seen := {})
    case Begin(k, id) =>
      if c.auto(s.handlers[k].tool) then Move(s, k, AutoNoting)
      else Move(s, k, Waiting(id)).(table := Decisions.Apply(s.table, Decisions.Insert(id)).0)
    case AutoAnswer(k) => Respond(c, Note(s, k, Auto), k, Auto, |s.outcomes|)
    case Store(op) => s.(table := Decisions.Apply(s.table, op).0)
    case PollHit(k) =>
      var id := s.handlers[k].pc.id;
      if s.table[id].choice.None? then Move(s, k, Expiring(id)) else Move(s, k, Got(id, s.table[id].choice.value))
    case PollMiss(k) => Move(s, k, Expiring(s.handlers[k].pc.id))
    case Process(k) => ProcessAnswer(c, s, k, s.handlers[k].pc.id, s.handlers[k].pc.choice)
    case Escalate(k) =>
      var pc := s.handlers[k].pc;
      Respond(c, Raise(s, Signal(RejectThresholdExceeded, pc.id)), k, Human(pc.id, pc.choice), pc.at)
    case Expire(k) =>
      var id := s.handlers[k].pc.id;
      var (t, outcome) := Decisions.Apply(s.table, Decisions.Expire(id));
      Move(s, k, Expired(id, outcome == Decisions.Changed)).(table := t)
    case TimeoutAct(k) => ActOnTimeout(c, s, k, s.handlers[k].pc.id, s.handlers[k].pc.won)
    case RejectPlan(plan) => Raise(s, Signal(PlanRejected, plan))
  }

  function ProcessAnswer(c: Config, s: State, k: Key, id: DecisionId, choice: Choice): State
    requires At(s, k)
  {
    var cause := Human(id, choice);
    var s' := Note(s, k, cause);
    match choice
    case Approve => Respond(c, s', k, cause, |s.outcomes|)
    case Abort => Respond(c, Raise(s', Signal(PermissionRejected, id)), k, cause, |s.outcomes|)
    case _ =>
      if s'.driver.rejectCount >= REJECT_THRESHOLD then Move(s', k, Escalating(id, choice, |s.outcomes|))
      else Respond(c, s', k, cause, |s.outcomes|)
  }

  /** The result of `expire_decision` plays no part in the branch taken. */
  function ActOnTimeout(c: Config, s: State, k: Key, id: DecisionId, won: bool): State
    requires At(s, k)
  {
    var cause := Timeout(id, won);
    var s' := Note(s, k, cause);
    Respond(c, if TimeoutContinues(c) then s' else Raise(s', Signal(HitlTimeout, id)), k, cause, |s.outcomes|)
  }

  // ---------- what the history says ----------

  /** Refusals since the last approval. */
  function SinceReset(outcomes: seq<(Key, Cause)>): nat {
    if outcomes == [] then 0
    else
      var last := outcomes[|outcomes| - 1].1;
      if last.Auto? || (last.Human? && last.choice == Decisions.Approve) then 0
      else
        SinceReset(outcomes[..|outcomes| - 1]) +
        if last.Human? && (last.choice == Decisions.Reject || last.choice == Decisions.Revise) then 1 else 0
  }

  function Answers(responses: seq<(Key, string)>, k: Key): nat {
    if responses == [] then 0
    else Answers(responses[..|responses| - 1], k) + if responses[|responses| - 1].0 == k then 1 else 0
  }

  /** The abort that the outcome at position `at` calls for. */
  function AbortFor(c: Config, outcomes: seq<(Key, Cause)>, at: nat): Option<Reason>
    requires at < |outcomes|
  {
    match outcomes[at].1
    case Auto => None
    case Human(_, Approve) => None
    case Human(_, Abort) => Some(PermissionRejected)
    case Human(_, _) =>
      if SinceReset(outcomes[..at + 1]) >= REJECT_THRESHOLD then Some(RejectThresholdExceeded) else None
    case Timeout(_, _) => if TimeoutContinues(c) then None else Some(HitlTimeout)
  }

  // ---------- the invariant ----------

  ghost predicate CauseOk(c: Config, s: State, tool: string, cause: Cause) {
    match cause
    case Auto => c.auto(tool)
    case Human(id, choice) => !c.auto(tool) && IsResolved(s.table, id) && s.table[id].choice == Some(choice)
    case Timeout(id, won) =>
      && !c.auto(tool)
      && id in s.table
      && s.table[id].status == if won then Decisions.TimedOut else Decisions.Resolved
  }

  predicate Noted(s: State, k: Key, cause: Cause, at: nat) {
    at < |s.outcomes| && s.outcomes[at] == (k, cause)
  }

  ghost predicate HandlerOk(c: Config, s: State, k: Key)
    requires At(s, k)
  {
    var h := s.handlers[k];
    match h.pc
    case Start => true
    case AutoNoting => c.auto(h.tool)
    case Waiting(id) => !c.auto(h.tool) && id in s.table && s.table[id].status != Decisions.TimedOut
    case Expiring(id) => !c.auto(h.tool) && id in s.table && s.table[id].status != Decisions.TimedOut
    case Got(id, choice) => CauseOk(c, s, h.tool, Human(id, choice))
    case Escalating(id, choice, at) =>
      && CauseOk(c, s, h.tool, Human(id, choice))
      && Noted(s, k, Human(id, choice), at)
      && AbortFor(c, s.outcomes, at) == Some(RejectThresholdExceeded)
    case Expired(id, won) => CauseOk(c, s, h.tool, Timeout(id, won))
    case Done(cause, at) =>
      && CauseOk(c, s, h.tool, cause)
      && Noted(s, k, cause, at)
      && (AbortFor(c, s.outcomes, at).Some? ==> Signal(AbortFor(c, s.outcomes, at).value, cause.id) in s.signals)
  }

  /** The handler that raised a signal. */
  predicate RaisedBy(c: Config, s: State, g: Signal, k: Key) {
    && IsDone(s, k)
    && var pc := s.handlers[k].pc;
    && DecisionOf(pc) == Some(g.decision)
    && pc.at < |s.outcomes|
    && AbortFor(c, s.outcomes, pc.at) == Some(g.reason)
  }

  ghost predicate HandlersOk(c: Config, s: State) {
    && (forall k :: At(s, k) ==> HandlerOk(c, s, k))
    && (forall j, k :: At(s, j) && At(s, k) && j != k && DecisionOf(s.handlers[j].pc).Some? ==>
          DecisionOf(s.handlers[j].pc) != DecisionOf(s.handlers[k].pc))
  }

  ghost predicate SignalsOk(c: Config, s: State) {
    forall g :: g in s.signals && g.reason != PlanRejected ==> exists k :: RaisedBy(c, s, g, k)
  }

  ghost predicate DriverOk(s: State) {
    && s.driver.rejectCount == SinceReset(s.outcomes)
    && (s.driver.aborted <==> s.signals != [])
    && (s.driver.aborted ==>
          s.driver.reason == Some(s.signals[0].reason) && s.driver.decision == Some(s.signals[0].decision))
  }

  ghost predicate ResponsesOk(c: Config, s: State) {
    && (forall k :: Answers(s.responses, k) == if IsDone(s, k) then 1 else 0)
    && (forall i :: 0 <= i < |s.responses| ==>
          var k := s.responses[i].0;
          && IsDone(s, k)
          && s.responses[i].1 == Verdict(c, s.handlers[k].pc.cause))
  }

  ghost predicate PassOk(s: State) {
    && (forall k :: At(s, k) ==> k.pass < s.pass || (k.pass == s.pass && k.permission in s.seen))
    && (forall p :: p in s.seen ==> At(s, Key(s.pass, p)))
  }

  ghost predicate Inv(c: Config, s: State) {
    && Decisions.Inv(s.table)
    && HandlersOk(c, s)
    && SignalsOk(c, s)
    && DriverOk(s)
    && ResponsesOk(c, s)
    && PassOk(s)
  }

  // ---------- frames ----------

  /** Rows may be added; a pending row may be resolved, nothing else moves. */
  ghost predicate RowEvolves(t: Decisions.Table, t': Decisions.Table, id: DecisionId) {
    id in t ==>
      id in t' && (t'[id] == t[id] || (t[id].status == Decisions.Pending && t'[id].status == Decisions.Resolved))
  }

  lemma PrefixStable(outcomes: seq<(Key, Cause)>, more: seq<(Key, Cause)>, c: Config, at: nat)
    requires at < |outcomes| && outcomes <= more
    ensures AbortFor(c, more, at) == AbortFor(c, outcomes, at)
  {
    assert more[..at + 1] == outcomes[..at + 1];
  }

  ghost predicate Extends(s: State, s': State) {
    s.outcomes <= s'.outcomes && s.signals <= s'.signals
  }

  lemma HandlerFrame(c: Config, s: State, s': State, k: Key)
    requires At(s, k) && HandlerOk(c, s, k)
    requires At(s', k) && s'.handlers[k] == s.handlers[k]
    requires Extends(s, s')
    requires DecisionOf(s.handlers[k].pc).Some? ==> RowEvolves(s.table, s'.table, DecisionOf(s.handlers[k].pc).value)
    ensures HandlerOk(c, s', k)
  {
    var pc := s.handlers[k].pc;
    if pc.Escalating? || pc.Done? {
      PrefixStable(s.outcomes, s'.outcomes, c, pc.at);
      assert s'.outcomes[pc.at] == s.outcomes[pc.at];
    }
    if pc.Done? && AbortFor(c, s.outcomes, pc.at).Some? {
      var g := Signal(AbortFor(c, s.outcomes, pc.at).value, pc.cause.id);
      assert g in s.signals;
    }
  }

  /** All handlers but `k` stand still; `k` is again in order. */
  lemma HandlersFrame(c: Config, s: State, s': State, k: Key)
    requires HandlersOk(c, s) && At(s, k)
    requires s'.handlers.Keys == s.handlers.Keys
    requires forall j :: At(s, j) && j != k ==> s'.handlers[j] == s.handlers[j]
    requires Extends(s, s')
    requires forall j :: At(s, j) && j != k && DecisionOf(s.handlers[j].pc).Some? ==>
               RowEvolves(s.table, s'.table, DecisionOf(s.handlers[j].pc).value)
    requires HandlerOk(c, s', k)
    requires DecisionOf(s'.handlers[k].pc) == DecisionOf(s.handlers[k].pc) || !OwnedId(s, DecisionOf(s'.handlers[k].pc))
    ensures HandlersOk(c, s')
  {
    forall j | At(s', j)
      ensures HandlerOk(c, s', j)
    {
      if j != k { HandlerFrame(c, s, s', j); }
    }
  }

  predicate OwnedId(s: State, id: Option<DecisionId>) { id.Some? && Owned(s, id.value) }

  lemma SignalsFrame(c: Config, s: State, s': State)
    requires SignalsOk(c, s)
    requires forall j :: IsDone(s, j) ==> At(s', j) && s'.handlers[j] == s.handlers[j]
    requires Extends(s, s')
    requires forall g :: g in s'.signals && g !in s.signals && g.reason != PlanRejected ==> exists k :: RaisedBy(c, s', g, k)
    ensures SignalsOk(c, s')
  {
    forall g | g in s'.signals && g.reason != PlanRejected
      ensures exists k :: RaisedBy(c, s', g, k)
    {
      if g in s.signals {
        var k :| RaisedBy(c, s, g, k);
        PrefixStable(s.outcomes, s'.outcomes, c, s.handlers[k].pc.at);
        assert RaisedBy(c, s', g, k);
      }
    }
  }

  lemma NoteKeepsDriver(s: State, k: Key, cause: Cause)
    requires DriverOk(s)
    ensures DriverOk(Note(s, k, cause))
  {
    var o := Note(s, k, cause).outcomes;
    assert o[..|o| - 1] == s.outcomes;
  }

  lemma RaiseKeepsDriver(s: State, g: Signal)
    requires DriverOk(s)
    ensures DriverOk(Raise(s, g))
  {
  }

  lemma RespondKeepsResponses(c: Config, s: State, s1: State, k: Key, cause: Cause, at: nat)
    requires ResponsesOk(c, s) && At(s, k) && !s.handlers[k].pc.Done?
    requires s1.handlers == s.handlers && s1.responses == s.responses
    ensures ResponsesOk(c, Respond(c, s1, k, cause, at))
  {
    var s' := Respond(c, s1, k, cause, at);
    var r := s'.responses;
    assert r[..|r| - 1] == s.responses;
    forall j
      ensures Answers(r, j) == if IsDone(s', j) then 1 else 0
    {
      assert Answers(r, j) == Answers(s.responses, j) + if j == k then 1 else 0;
    }
  }

  lemma MoveKeepsResponses(c: Config, s: State, s': State)
    requires ResponsesOk(c, s) && s'.responses == s.responses
    requires forall j :: IsDone(s', j) <==> IsDone(s, j)
    requires forall j :: IsDone(s, j) ==> At(s', j) && s'.handlers[j] == s.handlers[j]
    ensures ResponsesOk(c, s')
  {
  }

  // ---------- one lemma per kind of step ----------

  /** A handler ends: its outcome is at `at`, any abort it calls for has been raised. */
  lemma Finishes(c: Config, s: State, s1: State, k: Key, cause: Cause, at: nat)
    requires Inv(c, s) && At(s, k) && !s.handlers[k].pc.Done?
    requires s1.table == s.table && s1.handlers == s.handlers && s1.responses == s.responses
    requires s1.pass == s.pass && s1.seen == s.seen
    requires Extends(s, s1) && DriverOk(s1)
    requires CauseOk(c, s, s.handlers[k].tool, cause) && Noted(s1, k, cause, at)
    requires DecisionOf(Done(cause, at)) == DecisionOf(s.handlers[k].pc)
    requires AbortFor(c, s1.outcomes, at).Some? ==> Signal(AbortFor(c, s1.outcomes, at).value, cause.id) in s1.signals
    requires forall g :: g in s1.signals && g !in s.signals ==>
               AbortFor(c, s1.outcomes, at) == Some(g.reason) && DecisionOf(Done(cause, at)) == Some(g.decision)
    ensures Inv(c, Respond(c, s1, k, cause, at))
  {
    var s' := Respond(c, s1, k, cause, at);
    RespondKeepsResponses(c, s, s1, k, cause, at);
    HandlersFrame(c, s, s', k);
    forall g | g in s'.signals && g !in s.signals && g.reason != PlanRejected
      ensures exists j :: RaisedBy(c, s', g, j)
    {
      assert RaisedBy(c, s', g, k);
    }
    SignalsFrame(c, s, s');
  }

  /** The outcome just noted is the last one, and what it calls for can be read off the driver. */
  lemma LastOutcome(c: Config, s: State, k: Key, cause: Cause)
    requires DriverOk(s)
    ensures DriverOk(Note(s, k, cause)) && Noted(Note(s, k, cause), k, cause, |s.outcomes|)
    ensures AbortFor(c, Note(s, k, cause).outcomes, |s.outcomes|) == AbortNow(c, s.driver.rejectCount, cause)
  {
    NoteKeepsDriver(s, k, cause);
    var o := Note(s, k, cause).outcomes;
    assert o[..|s.outcomes| + 1] == o;
  }

  function AbortNow(c: Config, rejects: nat, cause: Cause): Option<Reason> {
    match cause
    case Auto => None
    case Human(_, Approve) => None
    case Human(_, Abort) => Some(PermissionRejected)
    case Human(_, _) => if rejects + 1 >= REJECT_THRESHOLD then Some(RejectThresholdExceeded) else None
    case Timeout(_, _) => if TimeoutContinues(c) then None else Some(HitlTimeout)
  }

  function RaiseIf(s: State, reason: Option<Reason>, cause: Cause): State
    requires reason.Some? ==> !cause.Auto?
  {
    if reason.None? then s else Raise(s, Signal(reason.value, cause.id))
  }

  lemma Ends(c: Config, s: State, k: Key, cause: Cause)
    requires Inv(c, s) && At(s, k) && !s.handlers[k].pc.Done?
    requires CauseOk(c, s, s.handlers[k].tool, cause)
    requires DecisionOf(Done(cause, 0)) == DecisionOf(s.handlers[k].pc)
    ensures Inv(c, Respond(c, RaiseIf(Note(s, k, cause), AbortNow(c, s.driver.rejectCount, cause), cause), k, cause, |s.outcomes|))
  {
    var s1 := Note(s, k, cause);
    LastOutcome(c, s, k, cause);
    var reason := AbortNow(c, s.driver.rejectCount, cause);
    var s2 := RaiseIf(s1, reason, cause);
    if reason.Some? {
      assert s2.signals[|s.signals|] == Signal(reason.value, cause.id);
    }
    Finishes(c, s, s2, k, cause, |s.outcomes|);
  }

  lemma AutoAnswerKeeps(c: Config, s: State, k: Key)
    requires Inv(c, s) && At(s, k) && s.handlers[k].pc == AutoNoting && HandlerOk(c, s, k)
    ensures Inv(c, Respond(c, Note(s, k, Auto), k, Auto, |s.outcomes|))
  {
    Ends(c, s, k, Auto);
  }

  lemma ProcessKeeps(c: Config, s: State, k: Key, id: DecisionId, choice: Choice)
    requires Inv(c, s) && At(s, k) && s.handlers[k].pc == Got(id, choice) && HandlerOk(c, s, k)
    ensures Inv(c, ProcessAnswer(c, s, k, id, choice))
  {
    if (choice == Decisions.Reject || choice == Decisions.Revise) && s.driver.rejectCount + 1 >= REJECT_THRESHOLD {
      EscalatingKeeps(c, s, k, id, choice);
    } else {
      Ends(c, s, k, Human(id, choice));
    }
  }

  lemma EscalatingKeeps(c: Config, s: State, k: Key, id: DecisionId, choice: Choice)
    requires Inv(c, s) && At(s, k) && s.handlers[k].pc == Got(id, choice) && HandlerOk(c, s, k)
    requires choice == Decisions.Reject || choice == Decisions.Revise
    requires s.driver.rejectCount + 1 >= REJECT_THRESHOLD
    ensures Inv(c, Move(Note(s, k, Human(id, choice)), k, Escalating(id, choice, |s.outcomes|)))
  {
    var s' := Move(Note(s, k, Human(id, choice)), k, Escalating(id, choice, |s.outcomes|));
    LastOutcome(c, s, k, Human(id, choice));
    HandlersFrame(c, s, s', k);
    SignalsFrame(c, s, s');
    MoveKeepsResponses(c, s, s');
  }

  lemma EscalateKeeps(c: Config, s: State, k: Key, id: DecisionId, choice: Choice, at: nat)
    requires Inv(c, s) && At(s, k) && s.handlers[k].pc == Escalating(id, choice, at) && HandlerOk(c, s, k)
    ensures Inv(c, Respond(c, Raise(s, Signal(RejectThresholdExceeded, id)), k, Human(id, choice), at))
  {
    var g := Signal(RejectThresholdExceeded, id);
    RaiseKeepsDriver(s, g);
    assert Raise(s, g).signals[|s.signals|] == g;
    Finishes(c, s, Raise(s, g), k, Human(id, choice), at);
  }

  lemma TimeoutActKeeps(c: Config, s: State, k: Key, id: DecisionId, won: bool)
    requires Inv(c, s) && At(s, k) && s.handlers[k].pc == Expired(id, won) && HandlerOk(c, s, k)
    ensures Inv(c, ActOnTimeout(c, s, k, id, won))
  {
    Ends(c, s, k, Timeout(id, won));
  }

  /** Steps that only move one handler, or one handler and its own row. */
  lemma MovesKeep(c: Config, s: State, k: Key, pc: Pc, t: Decisions.Table)
    requires Inv(c, s) && At(s, k) && !s.handlers[k].pc.Done? && !pc.Done?
    requires Decisions.Inv(t)
    requires forall id :: RowEvolves(s.table, t, id) || DecisionOf(s.handlers[k].pc) == Some(id)
    requires HandlerOk(c, Move(s, k, pc).(table := t), k)
    requires DecisionOf(pc) == DecisionOf(s.handlers[k].pc) || !OwnedId(s, DecisionOf(pc))
    ensures Inv(c, Move(s, k, pc).(table := t))
  {
    var s' := Move(s, k, pc).(table := t);
    HandlersFrame(c, s, s', k);
    SignalsFrame(c, s, s');
    MoveKeepsResponses(c, s, s');
  }

  lemma OwnedInTable(c: Config, s: State, id: DecisionId)
    requires HandlersOk(c, s) && Owned(s, id)
    ensures id in s.table
  {
    var k :| k in s.handlers && DecisionOf(s.handlers[k].pc) == Some(id);
    assert HandlerOk(c, s, k);
  }

  lemma BeginKeeps(c: Config, s: State, k: Key, id: DecisionId)
    requires Inv(c, s) && Can(c, s, Begin(k, id))
    ensures Inv(c, Do(c, s, Begin(k, id)))
  {
    if c.auto(s.handlers[k].tool) {
      MovesKeep(c, s, k, AutoNoting, s.table);
    } else {
      if Owned(s, id) { OwnedInTable(c, s, id); }
      Decisions.ApplyKeepsInv(s.table, Decisions.Insert(id));
      MovesKeep(c, s, k, Waiting(id), Decisions.Apply(s.table, Decisions.Insert(id)).0);
    }
  }

  lemma PollKeeps(c: Config, s: State, k: Key, step: Step)
    requires Inv(c, s) && Can(c, s, step) && (step == PollHit(k) || step == PollMiss(k))
    ensures Inv(c, Do(c, s, step))
  {
    var id := s.handlers[k].pc.id;
    assert HandlerOk(c, s, k);
    var pc := Do(c, s, step).handlers[k].pc;
    MovesKeep(c, s, k, pc, s.table);
  }

  lemma ExpireKeeps(c: Config, s: State, k: Key)
    requires Inv(c, s) && Can(c, s, Expire(k)) && HandlerOk(c, s, k)
    ensures Inv(c, Do(c, s, Expire(k)))
  {
    var id := s.handlers[k].pc.id;
    Decisions.ApplyKeepsInv(s.table, Decisions.Expire(id));
    var (t, outcome) := Decisions.Apply(s.table, Decisions.Expire(id));
    MovesKeep(c, s, k, Expired(id, outcome == Decisions.Changed), t);
  }

  /** No handler moves. */
  lemma QuietKeeps(c: Config, s: State, s': State)
    requires Inv(c, s) && s'.handlers == s.handlers && s'.outcomes == s.outcomes && s'.responses == s.responses
    requires s.signals <= s'.signals
    requires forall g :: g in s'.signals && g !in s.signals ==> g.reason == PlanRejected
    requires forall id :: RowEvolves(s.table, s'.table, id) || !Owned(s, id)
    ensures HandlersOk(c, s') && SignalsOk(c, s') && ResponsesOk(c, s')
  {
    forall k | At(s', k)
      ensures HandlerOk(c, s', k)
    {
      HandlerFrame(c, s, s', k);
    }
    SignalsFrame(c, s, s');
    MoveKeepsResponses(c, s, s');
  }

  lemma StoreKeeps(c: Config, s: State, op: Decisions.Op)
    requires Inv(c, s) && (op.Resolve? || !Owned(s, op.id))
    ensures Inv(c, s.(table := Decisions.Apply(s.table, op).0))
  {
    Decisions.ApplyKeepsInv(s.table, op);
    QuietKeeps(c, s, s.(table := Decisions.Apply(s.table, op).0));
  }

  /** A new handler. */
  lemma StartKeeps(c: Config, s: State, s': State, k: Key, tool: string)
    requires HandlersOk(c, s) && SignalsOk(c, s) && ResponsesOk(c, s) && !At(s, k)
    requires s'.handlers == s.handlers[k := Handler(tool, Start)] && s'.outcomes == s.outcomes
    requires s'.responses == s.responses && s'.signals == s.signals && s'.table == s.table
    ensures HandlersOk(c, s') && SignalsOk(c, s') && ResponsesOk(c, s')
  {
    forall j | At(s', j)
      ensures HandlerOk(c, s', j)
    {
      if j != k { HandlerFrame(c, s, s', j); }
    }
    SignalsFrame(c, s, s');
    MoveKeepsResponses(c, s, s');
  }

  lemma AskKeeps(c: Config, s: State, permission: string, tool: string)
    requires Inv(c, s) && Can(c, s, Ask(permission, tool))
    ensures Inv(c, Do(c, s, Ask(permission, tool)))
  {
    if permission !in s.seen {
      StartKeeps(c, s, Do(c, s, Ask(permission, tool)), Key(s.pass, permission), tool);
    }
  }

  lemma OtherStepsKeep(c: Config, s: State, step: Step)
    requires Inv(c, s) && (step.NextPass? || step.RejectPlan?) && Can(c, s, step)
    ensures Inv(c, Do(c, s, step))
  {
    QuietKeeps(c, s, Do(c, s, step));
  }

  /** The invariant survives every step of every handler, submitter and reader. */
  lemma StepKeeps(c: Config, s: State, step: Step)
    requires Inv(c, s) && Can(c, s, step)
    ensures Inv(c, Do(c, s, step))
  {
    match step
    case Ask(permission, tool) => AskKeeps(c, s, permission, tool);
    case NextPass => OtherStepsKeep(c, s, step);
    case Begin(k, id) => BeginKeeps(c, s, k, id);
    case AutoAnswer(k) => AutoAnswerKeeps(c, s, k);
    case Store(op) => StoreKeeps(c, s, op);
    case PollHit(k) => PollKeeps(c, s, k, step);
    case PollMiss(k) => PollKeeps(c, s, k, step);
    case Process(k) => ProcessKeeps(c, s, k, s.handlers[k].pc.id, s.handlers[k].pc.choice);
    case Escalate(k) => EscalateKeeps(c, s, k, s.handlers[k].pc.id, s.handlers[k].pc.choice, s.handlers[k].pc.at);
    case Expire(k) => ExpireKeeps(c, s, k);
    case TimeoutAct(k) => TimeoutActKeeps(c, s, k, s.handlers[k].pc.id, s.handlers[k].pc.won);
    case RejectPlan(plan) => OtherStepsKeep(c, s, step);
  }

  // ---------- runs ----------

  predicate IsRun(c: Config, s: State, steps: seq<Step>)
    decreases |steps|
  {
    steps == [] || (Can(c, s, steps[0]) && IsRun(c, Do(c, s, steps[0]), steps[1..]))
  }

  function Final(c: Config, s: State, steps: seq<Step>): State
    requires IsRun(c, s, steps)
    decreases |steps|
  {
    if steps == [] then s else Final(c, Do(c, s, steps[0]), steps[1..])
  }

  lemma {:induction false} RunKeeps(c: Config, s: State, steps: seq<Step>)
    requires Inv(c, s) && IsRun(c, s, steps)
    ensures Inv(c, Final(c, s, steps))
    decreases |steps|
  {
    if steps != [] {
      StepKeeps(c, s, steps[0]);
      RunKeeps(c, Do(c, s, steps[0]), steps[1..]);
    }
  }

  lemma StepExtends(c: Config, s: State, step: Step)
    requires Can(c, s, step)
    ensures Extends(s, Do(c, s, step)) && s.responses <= Do(c, s, step).responses
    ensures s.driver.aborted ==>
              var d := Do(c, s, step).driver;
              d.aborted && d.reason == s.driver.reason && d.decision == s.driver.decision
  {
  }

  /** Once set, the abort flag stays set, with the reason and the decision of the first signal. */
  lemma {:induction false} AbortIsSticky(c: Config, s: State, steps: seq<Step>)
    requires IsRun(c, s, steps) && s.driver.aborted
    ensures var d := Final(c, s, steps).driver;
            d.aborted && d.reason == s.driver.reason && d.decision == s.driver.decision
    decreases |steps|
  {
    if steps != [] {
      StepExtends(c, s, steps[0]);
      AbortIsSticky(c, Do(c, s, steps[0]), steps[1..]);
    }
  }

  lemma InitialInv(c: Config)
    ensures Inv(c, INITIAL)
  {
  }

  // ---------- main results ----------

  lemma {:induction false} AnswersPositive(responses: seq<(Key, string)>, k: Key)
    ensures Answers(responses, k) > 0 <==> exists i :: 0 <= i < |responses| && responses[i].0 == k
  {
    if responses != [] {
      var last := |responses| - 1;
      AnswersPositive(responses[..last], k);
      if Answers(responses[..last], k) > 0 {
        var i :| 0 <= i < last && responses[..last][i].0 == k;
        assert responses[i].0 == k;
      } else if responses[last].0 != k {
        forall i | 0 <= i < |responses|
          ensures responses[i].0 != k
        {
          assert i < last ==> responses[..last][i] == responses[i];
        }
      }
    }
  }

  /** The wait of `h` ended in a way that lets the tool run. */
  predicate LetsRun(c: Config, h: Handler)
    requires h.pc.Done?
  {
    || c.auto(h.tool)
    || (h.pc.cause.Human? && h.pc.cause.choice == Decisions.Approve)
    || (h.pc.cause.Timeout? && TimeoutContinues(c))
  }

  /** In every reachable state a permission id of a pass has been answered once if its handler is done
      and not at all otherwise, and the answer is "once" exactly when the tool may run. */
  lemma {:induction false} AnsweredOnce(c: Config, steps: seq<Step>, k: Key)
    requires IsRun(c, INITIAL, steps)
    ensures var s := Final(c, INITIAL, steps);
            && Answers(s.responses, k) == (if IsDone(s, k) then 1 else 0)
            && ((k, "once") in s.responses <==> IsDone(s, k) && LetsRun(c, s.handlers[k]))
            && ((k, "reject") in s.responses <==> IsDone(s, k) && !LetsRun(c, s.handlers[k]))
            && (k.pass == s.pass ==> (At(s, k) <==> k.permission in s.seen))
  {
    InitialInv(c);
    RunKeeps(c, INITIAL, steps);
    var s := Final(c, INITIAL, steps);
    AnswersPositive(s.responses, k);
    if IsDone(s, k) {
      assert HandlerOk(c, s, k);
      var cause := s.handlers[k].pc.cause;
      assert Verdict(c, cause) == if LetsRun(c, s.handlers[k]) then "once" else "reject";
      var i :| 0 <= i < |s.responses| && s.responses[i].0 == k;
      assert s.responses[i] == (k, Verdict(c, cause));
    }
  }

  /** The reject counter is the number of refusals processed since the last approval,
      whoever processed them; timeouts and aborts leave it alone. */
  lemma RejectCountIsSinceReset(c: Config, steps: seq<Step>)
    requires IsRun(c, INITIAL, steps)
    ensures var s := Final(c, INITIAL, steps);
            s.driver.rejectCount == SinceReset(s.outcomes)
  {
    InitialInv(c);
    RunKeeps(c, INITIAL, steps);
  }

  /** A handler that is done has signalled an abort for its decision exactly when its outcome calls for
      one: for a refusal, when it brought the counter to the threshold or beyond. */
  lemma SignalledIff(c: Config, steps: seq<Step>, k: Key, reason: Reason)
    requires IsRun(c, INITIAL, steps)
    requires var s := Final(c, INITIAL, steps);
             IsDone(s, k) && !s.handlers[k].pc.cause.Auto? && reason != PlanRejected
    ensures var s := Final(c, INITIAL, steps);
            var pc := s.handlers[k].pc;
            && pc.at < |s.outcomes| && s.outcomes[pc.at] == (k, pc.cause)
            && (Signal(reason, pc.cause.id) in s.signals <==> AbortFor(c, s.outcomes, pc.at) == Some(reason))
  {
    InitialInv(c);
    RunKeeps(c, INITIAL, steps);
    var s := Final(c, INITIAL, steps);
    var pc := s.handlers[k].pc;
    assert HandlerOk(c, s, k);
    var g := Signal(reason, pc.cause.id);
    if g in s.signals {
      var j :| RaisedBy(c, s, g, j);
      assert j == k;
    }
  }

  /** The driver's abort is the first signal ever raised. */
  lemma AbortIsFirstSignal(c: Config, steps: seq<Step>)
    requires IsRun(c, INITIAL, steps)
    ensures var s := Final(c, INITIAL, steps);
            && (s.driver.aborted <==> s.signals != [])
            && (s.driver.aborted ==> s.driver.reason == Some(s.signals[0].reason) &&
                                     s.driver.decision == Some(s.signals[0].decision))
  {
    InitialInv(c);
    RunKeeps(c, INITIAL, steps);
  }

  /** What a handler acted on and what its row says: an acted-on answer is the row's answer, and after a
      timeout the row is `timed_out` exactly when the expiry reported success. */
  lemma RowAgreesWithHandler(c: Config, steps: seq<Step>, k: Key)
    requires IsRun(c, INITIAL, steps)
    requires IsDone(Final(c, INITIAL, steps), k)
    ensures var s := Final(c, INITIAL, steps);
            var cause := s.handlers[k].pc.cause;
            && (cause.Auto? <==> c.auto(s.handlers[k].tool))
            && (cause.Human? ==> IsResolved(s.table, cause.id) && s.table[cause.id].choice == Some(cause.choice))
            && (cause.Timeout? ==>
                  cause.id in s.table &&
                  (cause.expired <==> s.table[cause.id].status == Decisions.TimedOut) &&
                  (!cause.expired <==> IsResolved(s.table, cause.id)))
  {
    InitialInv(c);
    RunKeeps(c, INITIAL, steps);
    assert HandlerOk(c, Final(c, INITIAL, steps), k);
  }

  // ---------- an answer that is not acted on ----------

  lemma RunJoin(c: Config, s: State, step: Step, rest: seq<Step>)
    requires Can(c, s, step) && IsRun(c, Do(c, s, step), rest)
    ensures IsRun(c, s, [step] + rest) && Final(c, s, [step] + rest) == Final(c, Do(c, s, step), rest)
  {
    assert ([step] + rest)[1..] == rest;
  }

  const LATE := Key(0, "p")

  function LateOp(choice: Choice): Decisions.Op { Decisions.Resolve("d", choice, None) }

  function LateSteps(choice: Choice): seq<Step> { [Store(LateOp(choice)), Expire(LATE), TimeoutAct(LATE)] }

  /** The handler has seen no answer at its deadline and is about to expire its row. */
  function AtDeadline(tool: string): State {
    State(map["d" := Decisions.Row(Decisions.Pending, None, None)], NEW_DRIVER, 0, {"p"},
          map[LATE := Handler(tool, Expiring("d"))], [], [], [])
  }

  function AfterLateAnswer(tool: string, choice: Choice): State {
    AtDeadline(tool).(table := map["d" := Decisions.Row(Decisions.Resolved, Some(choice), None)])
  }

  function AfterLateExpiry(tool: string, choice: Choice): State {
    AfterLateAnswer(tool, choice).(handlers := map[LATE := Handler(tool, Expired("d", false))])
  }

  lemma LateAct(c: Config, tool: string, choice: Choice)
    ensures Can(c, AfterLateExpiry(tool, choice), TimeoutAct(LATE))
    ensures IgnoredAnswer(c, Do(c, AfterLateExpiry(tool, choice), TimeoutAct(LATE)), LATE, choice)
  {
    var s6 := Do(c, AfterLateExpiry(tool, choice), TimeoutAct(LATE));
    assert s6.responses[0] == (LATE, if TimeoutContinues(c) then "once" else "reject");
  }

  lemma LateSteps12(c: Config, tool: string, choice: Choice)
    ensures Do(c, AtDeadline(tool), Store(LateOp(choice))) == AfterLateAnswer(tool, choice)
    ensures Can(c, AfterLateAnswer(tool, choice), Expire(LATE))
    ensures Do(c, AfterLateAnswer(tool, choice), Expire(LATE)) == AfterLateExpiry(tool, choice)
  {
  }

  lemma LateEnd(c: Config, tool: string, choice: Choice)
    ensures IsRun(c, AtDeadline(tool), LateSteps(choice))
    ensures IgnoredAnswer(c, Final(c, AtDeadline(tool), LateSteps(choice)), LATE, choice)
  {
    LateAct(c, tool, choice);
    LateSteps12(c, tool, choice);
    RunJoin(c, AfterLateExpiry(tool, choice), TimeoutAct(LATE), []);
    RunJoin(c, AfterLateAnswer(tool, choice), Expire(LATE), [TimeoutAct(LATE)]);
    assert [Expire(LATE)] + [TimeoutAct(LATE)] == [Expire(LATE), TimeoutAct(LATE)];
    RunJoin(c, AtDeadline(tool), Store(LateOp(choice)), [Expire(LATE), TimeoutAct(LATE)]);
    assert [Store(LateOp(choice))] + [Expire(LATE), TimeoutAct(LATE)] == LateSteps(choice);
  }

  lemma LateStart(c: Config, tool: string)
    requires !c.auto(tool)
    ensures var steps := [Ask("p", tool), Begin(LATE, "d"), PollMiss(LATE)];
            IsRun(c, INITIAL, steps) && Final(c, INITIAL, steps) == AtDeadline(tool)
  {
    var s1 := INITIAL.(seen := {"p"}, handlers := map[LATE := Handler(tool, Start)]);
    assert Do(c, INITIAL, Ask("p", tool)) == s1;
    var s2 := AtDeadline(tool).(handlers := map[LATE := Handler(tool, Waiting("d"))]);
    assert Do(c, s1, Begin(LATE, "d")) == s2;
    assert Do(c, s2, PollMiss(LATE)) == AtDeadline(tool);
    RunJoin(c, s2, PollMiss(LATE), []);
    RunJoin(c, s1, Begin(LATE, "d"), [PollMiss(LATE)]);
    RunJoin(c, INITIAL, Ask("p", tool), [Begin(LATE, "d"), PollMiss(LATE)]);
    assert [Begin(LATE, "d")] + [PollMiss(LATE)] == [Begin(LATE, "d"), PollMiss(LATE)];
    assert [Ask("p", tool)] + [Begin(LATE, "d"), PollMiss(LATE)] == [Ask("p", tool), Begin(LATE, "d"), PollMiss(LATE)];
  }

  lemma {:induction false} RunConcat(c: Config, s: State, first: seq<Step>, second: seq<Step>)
    requires IsRun(c, s, first) && IsRun(c, Final(c, s, first), second)
    ensures IsRun(c, s, first + second) && Final(c, s, first + second) == Final(c, Final(c, s, first), second)
    decreases |first|
  {
    if first == [] {
      assert first + second == second;
    } else {
      RunConcat(c, Do(c, s, first[0]), first[1..], second);
      RunJoin(c, s, first[0], first[1..] + second);
      assert [first[0]] + (first[1..] + second) == first + second;
    }
  }

  /** Whatever is answered between the last poll and the expiry is accepted and then ignored. Under abort an
      approved tool is rejected and the run aborted; under continue or escalate a rejected tool runs. */
  lemma LateAnswerIgnored(c: Config, tool: string, choice: Choice)
    requires !c.auto(tool)
    ensures exists steps :: IsRun(c, INITIAL, steps) && IgnoredAnswer(c, Final(c, INITIAL, steps), LATE, choice)
  {
    LateStart(c, tool);
    LateEnd(c, tool, choice);
    var steps := [Ask("p", tool), Begin(LATE, "d"), PollMiss(LATE)];
    RunConcat(c, INITIAL, steps, LateSteps(choice));
    assert IsRun(c, INITIAL, steps + LateSteps(choice));
  }

  ghost predicate IgnoredAnswer(c: Config, s: State, k: Key, choice: Choice) {
    && IsDone(s, k) && s.handlers[k].pc.cause.Timeout?
    && var id := s.handlers[k].pc.cause.id;
    && IsResolved(s.table, id) && s.table[id].choice == Some(choice)
    && (if TimeoutContinues(c) then (k, "once") in s.responses && !s.driver.aborted
        else (k, "reject") in s.responses && s.driver.reason == Some(HitlTimeout))
  }

  // ---------- the objects ----------

  /** The state that all permission handlers of a task share. */
  class OpenCodeDriver {
    var rejectCount: nat
    var aborted: bool
    var abortReason: Option<Reason>
    var abortDecisionId: Option<DecisionId>
    const config: Config

    function View(): Driver
      reads this
    {
      Driver(rejectCount, aborted, abortReason, abortDecisionId)
    }

    constructor (config: Config)
      ensures View() == NEW_DRIVER && this.config == config
    {
      this.config := config;
      rejectCount, aborted, abortReason, abortDecisionId := 0, false, None, None;
    }

    method SignalAbort(reason: Reason, id: DecisionId)
      modifies this
      ensures View() == WithSignal(old(View()), Signal(reason, id))
    {
      if !aborted {
        abortReason := Some(reason);
        abortDecisionId := Some(id);
      }
      aborted := true;
    }

    /** From the answer read to the next await: `None` when the escalation event comes first. */
    method ActOnAnswer(ghost s: State, ghost k: Key, id: DecisionId, choice: Choice) returns (response: Option<string>)
      requires At(s, k) && s.driver == View()
      modifies this
      ensures View() == ProcessAnswer(config, s, k, id, choice).driver
      ensures response.Some? <==> ProcessAnswer(config, s, k, id, choice).handlers[k].pc.Done?
      ensures response.Some? ==>
                ProcessAnswer(config, s, k, id, choice).responses == s.responses + [(k, response.value)]
    {
      response := Some("reject");
      if choice == Decisions.Approve {
        response := Some("once");
        rejectCount := 0;
      } else if choice == Decisions.Abort {
        SignalAbort(PermissionRejected, id);
      } else {
        rejectCount := rejectCount + 1;
        if rejectCount >= REJECT_THRESHOLD {
          response := None;
        }
      }
    }

    /** From the escalation event to the answer. */
    method ActOnEscalation(ghost s: State, ghost k: Key, id: DecisionId) returns (response: string)
      requires At(s, k) && s.handlers[k].pc.Escalating? && s.handlers[k].pc.id == id && s.driver == View()
      requires s.handlers[k].pc.choice == Decisions.Reject || s.handlers[k].pc.choice == Decisions.Revise
      modifies this
      ensures View() == Do(config, s, Escalate(k)).driver
      ensures Do(config, s, Escalate(k)).responses == s.responses + [(k, response)]
    {
      SignalAbort(RejectThresholdExceeded, id);
      response := "reject";
    }

    /** From the timeout event to the answer. */
    method TakeTimeoutBranch(ghost s: State, ghost k: Key, id: DecisionId, ghost won: bool) returns (response: string)
      requires At(s, k) && s.driver == View()
      modifies this
      ensures View() == ActOnTimeout(config, s, k, id, won).driver
      ensures ActOnTimeout(config, s, k, id, won).responses == s.responses + [(k, response)]
    {
      var (_, choice) := ResolveHitlTimeoutPolicy(config.onTimeout);
      if choice == Decisions.Abort {
        SignalAbort(HitlTimeout, id);
        response := "reject";
      } else {
        response := "once";
      }
    }

    method AutoApprovePermission(ghost s: State, ghost k: Key) returns (response: string)
      requires At(s, k) && s.handlers[k].pc == AutoNoting && s.driver == View()
      modifies this
      ensures View() == Do(config, s, AutoAnswer(k)).driver
      ensures Do(config, s, AutoAnswer(k)).responses == s.responses + [(k, response)]
    {
      rejectCount := 0;
      response := "once";
    }
  }

  /** Poll `i` found no answer and the deadline still ahead. */
  predicate Missed(script: nat -> Option<Choice>, clock: nat -> real, timeout: real, i: nat) {
    script(i) == None && clock(i + 1) < clock(0) + timeout
  }

  /** The polling loop against a script of reads and clock values: the first answer read while every earlier
      clock reading was before the deadline, or `None` once the deadline has passed. A last read is always made
      before giving up. */
  method WaitForDecision(script: nat -> Option<Choice>, clock: nat -> real, timeout: real, ghost last: nat)
    returns (answer: Option<Choice>, polls: nat)
    requires clock(last + 1) >= clock(0) + timeout
    ensures polls <= last
    ensures answer == script(polls)
    ensures forall i: nat :: i < polls ==> Missed(script, clock, timeout, i)
    ensures answer == None ==> clock(polls + 1) >= clock(0) + timeout
  {
    var deadline := clock(0) + timeout;
    polls := 0;
    while true
      invariant polls <= last
      invariant forall i: nat :: i < polls ==> Missed(script, clock, timeout, i)
      decreases last - polls
    {
      assert polls == last ==> clock(polls + 1) >= deadline;
      answer := script(polls);
      if answer != None {
        return;
      }
      var remaining := deadline - clock(polls + 1);
      if remaining <= 0.0 {
        return;
      }
      assert Missed(script, clock, timeout, polls);
      polls := polls + 1;
    }
  }
}
