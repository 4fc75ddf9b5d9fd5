/** What permission handlers do with what they see: a request starts a handler, an answer that was read is
    acted on, and every handler comes to its end. */
module HitlProgress {
  import opened Common
  import opened Hitl
  import Decisions

  // ---------- a request starts a handler ----------

  /** A new permission id of the pass gets a handler for its tool, a known one changes nothing. */
  lemma AskDispatches(c: Config, s: State, permission: string, tool: string)
    requires Inv(c, s) && Can(c, s, Ask(permission, tool))
    ensures var s' := Do(c, s, Ask(permission, tool));
            var k := Key(s.pass, permission);
            && s'.handlers == (if At(s, k) then s.handlers else s.handlers[k := Handler(tool, Start)])
            && s' == s.(handlers := s'.handlers, seen := s.seen + {permission})
  {
  }

  /** Tools that a pattern matches never ask a human, all others do. */
  lemma BeginAsks(c: Config, s: State, k: Key, id: DecisionId)
    requires Can(c, s, Begin(k, id))
    ensures var s' := Do(c, s, Begin(k, id));
            if c.auto(s.handlers[k].tool) then s'.table == s.table && s'.handlers[k].pc == AutoNoting
            else s'.handlers[k].pc == Waiting(id) && s'.table == s.table[id := Decisions.Row(Decisions.Pending, None, None)]
  {
  }

  /** A poll sees what the row says. */
  lemma PollReads(c: Config, s: State, k: Key, id: DecisionId)
    requires Inv(c, s) && At(s, k) && s.handlers[k].pc == Waiting(id)
    ensures id in s.table
    ensures Can(c, s, PollHit(k)) <==> s.table[id].choice.Some?
    ensures Can(c, s, PollMiss(k)) <==> s.table[id].choice.None?
    ensures s.table[id].choice.Some? ==>
              Do(c, s, PollHit(k)) == s.(handlers := s.handlers[k := s.handlers[k].(pc := Got(id, s.table[id].choice.value))])
    ensures s.table[id].choice.None? ==>
              Do(c, s, PollMiss(k)) == s.(handlers := s.handlers[k := s.handlers[k].(pc := Expiring(id))])
  {
    assert HandlerOk(c, s, k);
  }

  /** A rejected plan is signalled. */
  lemma PlanSignals(c: Config, s: State, plan: DecisionId)
    requires Can(c, s, RejectPlan(plan))
    ensures var s' := Do(c, s, RejectPlan(plan));
            s'.signals == s.signals + [Signal(PlanRejected, plan)] && s'.driver.aborted && s'.handlers == s.handlers
  {
  }

  // ---------- one handler at a time ----------

  /** Steps that a handler may still have to take. */
  function Rank(pc: Pc): nat {
    match pc
    case Start => 4
    case AutoNoting => 1
    case Waiting(_) => 3
    case Got(_, _) => 2
    case Escalating(_, _, _) => 1
    case Expiring(_) => 2
    case Expired(_, _) => 1
    case Done(_, _) => 0
  }

  function Owner(step: Step): Option<Key> {
    match step
    case Begin(k, _) => Some(k)
    case AutoAnswer(k) => Some(k)
    case PollHit(k) => Some(k)
    case PollMiss(k) => Some(k)
    case Process(k) => Some(k)
    case Escalate(k) => Some(k)
    case Expire(k) => Some(k)
    case TimeoutAct(k) => Some(k)
    case _ => None
  }

  /** Where an own step may take a handler. */
  predicate Follows(pc: Pc, pc': Pc) {
    match pc
    case Start => pc' == AutoNoting || pc'.Waiting?
    case AutoNoting => pc'.Done? && pc'.cause == Auto
    case Waiting(id) => pc' == Expiring(id) || (pc'.Got? && pc'.id == id)
    case Got(id, choice) =>
      (pc'.Escalating? && pc'.id == id && pc'.choice == choice) || (pc'.Done? && pc'.cause == Human(id, choice))
    case Escalating(id, choice, at) => pc' == Done(Human(id, choice), at)
    case Expiring(id) => pc'.Expired? && pc'.id == id
    case Expired(id, won) => pc'.Done? && pc'.cause == Timeout(id, won)
    case Done(_, _) => false
  }

  lemma OwnMove(c: Config, s: State, step: Step, k: Key)
    requires Can(c, s, step) && Owner(step) == Some(k)
    ensures At(s, k) && At(Do(c, s, step), k)
    ensures Follows(s.handlers[k].pc, Do(c, s, step).handlers[k].pc)
  {
  }

  lemma OthersStay(c: Config, s: State, step: Step, k: Key)
    requires PassOk(s) && Can(c, s, step) && At(s, k) && Owner(step) != Some(k)
    ensures At(Do(c, s, step), k) && Do(c, s, step).handlers[k] == s.handlers[k]
  {
  }

  // ---------- what was read is acted on ----------

  /** The handler has read an answer, or has acted on it. */
  predicate Heard(s: State, k: Key, id: DecisionId, choice: Choice) {
    At(s, k) &&
    match s.handlers[k].pc
    case Got(d, ch) => d == id && ch == choice
    case Escalating(d, ch, _) => d == id && ch == choice
    case Done(cause, _) => cause == Human(id, choice)
    case _ => false
  }

  /** The handler has given up waiting. */
  predicate GaveUp(s: State, k: Key, id: DecisionId) {
    At(s, k) &&
    match s.handlers[k].pc
    case Expiring(d) => d == id
    case Expired(d, _) => d == id
    case Done(cause, _) => cause.Timeout? && cause.id == id
    case _ => false
  }

  lemma HeardStays(c: Config, s: State, step: Step, k: Key, id: DecisionId, choice: Choice)
    requires PassOk(s) && Can(c, s, step)
    ensures Heard(s, k, id, choice) ==> Heard(Do(c, s, step), k, id, choice)
    ensures GaveUp(s, k, id) ==> GaveUp(Do(c, s, step), k, id)
  {
    if At(s, k) {
      if Owner(step) == Some(k) { OwnMove(c, s, step, k); } else { OthersStay(c, s, step, k); }
    }
  }

  lemma {:induction false} HeardForGood(c: Config, s: State, steps: seq<Step>, k: Key, id: DecisionId, choice: Choice)
    requires Inv(c, s) && IsRun(c, s, steps)
    ensures Heard(s, k, id, choice) ==> Heard(Final(c, s, steps), k, id, choice)
    ensures GaveUp(s, k, id) ==> GaveUp(Final(c, s, steps), k, id)
    decreases |steps|
  {
    if steps != [] {
      HeardStays(c, s, steps[0], k, id, choice);
      StepKeeps(c, s, steps[0]);
      HeardForGood(c, Do(c, s, steps[0]), steps[1..], k, id, choice);
    }
  }

  ghost predicate Acts(s: State, k: Key) { exists id, choice :: Heard(s, k, id, choice) }

  ghost predicate TimesOut(s: State, k: Key) { exists id :: GaveUp(s, k, id) }

  lemma PolledNow(c: Config, s: State, step: Step, rest: seq<Step>, k: Key)
    requires Inv(c, s) && Can(c, s, step) && IsRun(c, Do(c, s, step), rest)
    ensures step == PollHit(k) ==> Acts(Final(c, Do(c, s, step), rest), k)
    ensures step == PollMiss(k) ==> TimesOut(Final(c, Do(c, s, step), rest), k)
  {
    if step == PollHit(k) || step == PollMiss(k) {
      var id := s.handlers[k].pc.id;
      PollReads(c, s, k, id);
      StepKeeps(c, s, step);
      var choice := if s.table[id].choice.Some? then s.table[id].choice.value else Decisions.Approve;
      HeardForGood(c, Do(c, s, step), rest, k, id, choice);
    }
  }

  lemma {:induction false} PollIsActedOn(c: Config, s: State, steps: seq<Step>, i: nat, k: Key)
    requires Inv(c, s) && IsRun(c, s, steps) && i < |steps|
    ensures steps[i] == PollHit(k) ==> Acts(Final(c, s, steps), k)
    ensures steps[i] == PollMiss(k) ==> TimesOut(Final(c, s, steps), k)
    decreases i
  {
    if i > 0 {
      StepKeeps(c, s, steps[0]);
      PollIsActedOn(c, Do(c, s, steps[0]), steps[1..], i - 1, k);
    } else {
      PolledNow(c, s, steps[0], steps[1..], k);
    }
  }

  /** In every run a handler that has read an answer ends, if it ends, by acting on the answer in its row, and one
      that has polled in vain past its deadline ends with a timeout. */
  lemma PollDecides(c: Config, steps: seq<Step>, i: nat, k: Key)
    requires IsRun(c, INITIAL, steps) && i < |steps| && IsDone(Final(c, INITIAL, steps), k)
    ensures var s := Final(c, INITIAL, steps);
            var cause := s.handlers[k].pc.cause;
            && (steps[i] == PollHit(k) ==>
                  cause.Human? && IsResolved(s.table, cause.id) && s.table[cause.id].choice == Some(cause.choice))
            && (steps[i] == PollMiss(k) ==> cause.Timeout?)
  {
    Hitl.InitialInv(c);
    PollIsActedOn(c, INITIAL, steps, i, k);
    RowAgreesWithHandler(c, steps, k);
  }

  /** Three refusals in a row are too many. */
  lemma ThirdRefusalAborts(c: Config, steps: seq<Step>, k: Key)
    requires IsRun(c, INITIAL, steps) && IsDone(Final(c, INITIAL, steps), k)
    requires var cause := Final(c, INITIAL, steps).handlers[k].pc.cause;
             cause.Human? && (cause.choice == Decisions.Reject || cause.choice == Decisions.Revise)
    ensures var s := Final(c, INITIAL, steps);
            var pc := s.handlers[k].pc;
            && pc.at < |s.outcomes| && s.outcomes[pc.at] == (k, pc.cause)
            && (Signal(RejectThresholdExceeded, pc.cause.id) in s.signals <==> SinceReset(s.outcomes[..pc.at + 1]) >= 3)
  {
    SignalledIff(c, steps, k, RejectThresholdExceeded);
  }

  /** Once the abort is signalled no further request starts a handler. */
  lemma {:induction false} AbortStopsDispatch(c: Config, s: State, steps: seq<Step>)
    requires IsRun(c, s, steps) && s.driver.aborted
    ensures Final(c, s, steps).handlers.Keys == s.handlers.Keys
    decreases |steps|
  {
    if steps != [] {
      StepExtends(c, s, steps[0]);
      SameHandlers(c, s, steps[0]);
      AbortStopsDispatch(c, Do(c, s, steps[0]), steps[1..]);
    }
  }

  lemma SameHandlers(c: Config, s: State, step: Step)
    requires Can(c, s, step) && s.driver.aborted
    ensures Do(c, s, step).handlers.Keys == s.handlers.Keys
  {
  }

  // ---------- every handler comes to its end ----------

  lemma OwnStepLowers(c: Config, s: State, step: Step, k: Key)
    requires PassOk(s) && Can(c, s, step) && At(s, k)
    ensures At(Do(c, s, step), k)
    ensures if Owner(step) == Some(k) then Rank(Do(c, s, step).handlers[k].pc) < Rank(s.handlers[k].pc)
            else Do(c, s, step).handlers[k] == s.handlers[k]
  {
    if Owner(step) == Some(k) { OwnMove(c, s, step, k); } else { OthersStay(c, s, step, k); }
  }

  function OwnSteps(steps: seq<Step>, k: Key): nat {
    if steps == [] then 0 else (if Owner(steps[0]) == Some(k) then 1 else 0) + OwnSteps(steps[1..], k)
  }

  lemma {:induction false} HandlerEnds(c: Config, s: State, steps: seq<Step>, k: Key)
    requires Inv(c, s) && IsRun(c, s, steps) && At(s, k)
    ensures At(Final(c, s, steps), k)
    ensures OwnSteps(steps, k) + Rank(Final(c, s, steps).handlers[k].pc) <= Rank(s.handlers[k].pc)
    decreases |steps|
  {
    if steps != [] {
      OwnStepLowers(c, s, steps[0], k);
      StepKeeps(c, s, steps[0]);
      HandlerEnds(c, Do(c, s, steps[0]), steps[1..], k);
    }
  }

  lemma FreshDecision(t: Decisions.Table) returns (id: DecisionId)
    ensures id !in t
  {
    var sizes: set<nat> := set d | d in t :: |d|;
    var n := FreshNat(sizes);
    id := seq(n, i => 'x');
    forall d | d in t
      ensures |d| < n
    {
      assert |d| in sizes;
    }
  }

  /** A handler is stuck only when it is done; until then one of its own steps is possible, whatever the others do,
      and four of them suffice. */
  lemma HandlerGoesOn(c: Config, s: State, k: Key)
    requires Inv(c, s) && At(s, k)
    ensures IsDone(s, k) <==> !exists step :: Owner(step) == Some(k) && Can(c, s, step)
    ensures Rank(s.handlers[k].pc) <= 4
  {
    assert HandlerOk(c, s, k);
    forall step | Owner(step) == Some(k) && Can(c, s, step)
      ensures !IsDone(s, k)
    {
      OwnMove(c, s, step, k);
    }
    var id := FreshDecision(s.table);
    match s.handlers[k].pc
    case Start => assert Can(c, s, Begin(k, id)) && Owner(Begin(k, id)) == Some(k);
    case AutoNoting => assert Can(c, s, AutoAnswer(k)) && Owner(AutoAnswer(k)) == Some(k);
    case Waiting(d) =>
      var poll := if IsResolved(s.table, d) then PollHit(k) else PollMiss(k);
      assert Can(c, s, poll) && Owner(poll) == Some(k);
    case Got(_, _) => assert Can(c, s, Process(k)) && Owner(Process(k)) == Some(k);
    case Escalating(_, _, _) => assert Can(c, s, Escalate(k)) && Owner(Escalate(k)) == Some(k);
    case Expiring(_) => assert Can(c, s, Expire(k)) && Owner(Expire(k)) == Some(k);
    case Expired(_, _) => assert Can(c, s, TimeoutAct(k)) && Owner(TimeoutAct(k)) == Some(k);
    case Done(_, _) =>
  }
}
