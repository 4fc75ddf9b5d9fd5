/** The in-process queue: dispatch, semaphore slots, execution and the counters around it. */
module Scheduler {
  import opened Common
  import EventLog
  import Metrics

  /** The n-th call of `enqueue_task`; one task id may be enqueued several times. */
  type Ticket = nat

  datatype Outcome = Completed | TimedOut | Aborted(reason: Option<string>) | Failed

  function StatusOf(outcome: Outcome): string {
    match outcome
    case Completed => "completed"
    case TimedOut => "timed_out"
    case Aborted(_) => "aborted"
    case Failed => "failed"
  }

  /** The reason an outcome adds to the abort counter. */
  function AbortReason(outcome: Outcome): Option<string> {
    if outcome.Aborted? then Some(OrElse(outcome.reason, "unknown")) else None
  }

  /** Where a coroutine that holds a slot is. */
  datatype Pc =
    | Holding
    | Executing(start: real)
    | Ending(start: real, outcome: Outcome)

  /** `slots` is the semaphore's counter. */
  datatype State = State(
    limit: nat,
    issued: nat,
    queue: seq<Ticket>,
    waiting: set<Ticket>,
    slots: int,
    running: map<Ticket, Pc>,
    done: map<Ticket, Outcome>,
    metrics: Metrics.Counts)

  function Initial(limit: nat): State { State(limit, 0, [], {}, limit, map[], map[], Metrics.ZERO) }

  datatype Step =
    | Enqueue
    | Dispatch
    | Acquire(t: Ticket)
    | Start(t: Ticket, now: real)
    | Raise(t: Ticket, outcome: Outcome)
    | Close(t: Ticket, outcome: Outcome, now: real)

  /** A completed executor closes in the same stretch; any exception first writes its terminal event. */
  predicate Can(s: State, step: Step) {
    match step
    case Enqueue => true
    case Dispatch => s.queue != []
    case Acquire(t) => t in s.waiting && s.slots > 0
    case Start(t, _) => t in s.running && s.running[t].Holding?
    case Raise(t, outcome) => t in s.running && s.running[t].Executing? && outcome != Completed
    case Close(t, outcome, _) =>
      && t in s.running
      && ((outcome == Completed && s.running[t].Executing?) ||
          (s.running[t].Ending? && s.running[t].outcome == outcome))
  }

  /** What closing an execution adds to the counters. */
  function Counted(m: Metrics.Counts, outcome: Outcome, seconds: real): Metrics.Counts {
    m.(tasks := Metrics.Bumped(m.tasks, StatusOf(outcome)),
       aborts := AbortsAfter(m.aborts, outcome),
       durationCount := m.durationCount + 1,
       durationSum := m.durationSum + seconds,
       active := Max(0, m.active - 1))
  }

  function AbortsAfter(aborts: map<string, nat>, outcome: Outcome): map<string, nat> {
    var reason := AbortReason(outcome);
    if reason.Some? then Metrics.Bumped(aborts, reason.value) else aborts
  }

  function Do(s: State, step: Step): State
    requires Can(s, step)
  {
    match step
    case Enqueue => s.(issued := s.issued + 1, queue := s.queue + [s.issued])
    case Dispatch => s.(queue := s.queue[1..], waiting := s.waiting + {s.queue[0]})
    case Acquire(t) => s.(waiting := s.waiting - {t}, slots := s.slots - 1, running := s.running[t := Holding])
    case Start(t, now) =>
      s.(running := s.running[t := Executing(now)], metrics := s.metrics.(active := s.metrics.active + 1))
    case Raise(t, outcome) => s.(running := s.running[t := Ending(s.running[t].start, outcome)])
    case Close(t, outcome, now) =>
      s.(running := s.running - {t}, slots := s.slots + 1, done := s.done[t := outcome],
         metrics := Counted(s.metrics, outcome, now - s.running[t].start))
  }

  // ---------- the invariant ----------

  /** The queue holds the latest tickets in order. */
  predicate QueueOk(s: State) {
    && |s.queue| <= s.issued
    && forall i :: 0 <= i < |s.queue| ==> s.queue[i] == s.issued - |s.queue| + i
  }

  /** Every dispatched ticket is in exactly one place. */
  ghost predicate PlacesOk(s: State) {
    && (forall t :: t in s.waiting || t in s.running || t in s.done <==> 0 <= t < s.issued - |s.queue|)
    && s.waiting !! s.running.Keys && s.waiting !! s.done.Keys && s.running.Keys !! s.done.Keys
  }

  function Started(running: map<Ticket, Pc>): set<Ticket> { set t | t in running && !running[t].Holding? }

  function WithStatus(done: map<Ticket, Outcome>, status: string): set<Ticket> {
    set t | t in done && StatusOf(done[t]) == status
  }

  function WithReason(done: map<Ticket, Outcome>, reason: string): set<Ticket> {
    set t | t in done && AbortReason(done[t]) == Some(reason)
  }

  ghost predicate CountersOk(s: State) {
    && s.metrics.active == |Started(s.running)|
    && s.metrics.durationCount == |s.done|
    && CountsDone(s.metrics, s.done)
  }

  ghost predicate CountsDone(m: Metrics.Counts, done: map<Ticket, Outcome>) {
    && TasksCount(m.tasks, done)
    && AbortsCount(m.aborts, done)
  }

  ghost predicate TasksCount(tasks: map<string, nat>, done: map<Ticket, Outcome>) {
    && (forall status :: Metrics.Value(tasks, status) == |WithStatus(done, status)|)
    && Sum(tasks) == |done|
  }

  ghost predicate AbortsCount(aborts: map<string, nat>, done: map<Ticket, Outcome>) {
    && (forall reason :: Metrics.Value(aborts, reason) == |WithReason(done, reason)|)
    && Sum(aborts) == |WithStatus(done, "aborted")|
  }

  predicate SlotsOk(s: State) { s.slots >= 0 && s.slots + |s.running| == s.limit }

  ghost predicate Inv(s: State) { QueueOk(s) && PlacesOk(s) && SlotsOk(s) && CountersOk(s) }

  // ---------- every step keeps it ----------

  /** One more finished ticket moves exactly the counters of its own status and reason. */
  lemma StatusCount(done: map<Ticket, Outcome>, t: Ticket, outcome: Outcome, status: string)
    requires t !in done
    ensures |WithStatus(done[t := outcome], status)| ==
            |WithStatus(done, status)| + if StatusOf(outcome) == status then 1 else 0
  {
    var more: set<Ticket> := if StatusOf(outcome) == status then {t} else {};
    assert WithStatus(done[t := outcome], status) == WithStatus(done, status) + more;
  }

  lemma ReasonCount(done: map<Ticket, Outcome>, t: Ticket, outcome: Outcome, reason: string)
    requires t !in done
    ensures |WithReason(done[t := outcome], reason)| ==
            |WithReason(done, reason)| + if AbortReason(outcome) == Some(reason) then 1 else 0
  {
    var more: set<Ticket> := if AbortReason(outcome) == Some(reason) then {t} else {};
    assert WithReason(done[t := outcome], reason) == WithReason(done, reason) + more;
  }

  lemma BumpValues(m: map<string, nat>, key: string)
    ensures forall k :: Metrics.Value(Metrics.Bumped(m, key), k) == Metrics.Value(m, k) + if k == key then 1 else 0
    ensures Sum(Metrics.Bumped(m, key)) == Sum(m) + 1
  {
    Metrics.BumpAddsOne(m, key);
  }

  lemma CloseCountsTask(tasks: map<string, nat>, done: map<Ticket, Outcome>, t: Ticket, outcome: Outcome)
    requires TasksCount(tasks, done) && t !in done
    ensures TasksCount(Metrics.Bumped(tasks, StatusOf(outcome)), done[t := outcome])
  {
    var tasks', done' := Metrics.Bumped(tasks, StatusOf(outcome)), done[t := outcome];
    BumpValues(tasks, StatusOf(outcome));
    forall status
      ensures Metrics.Value(tasks', status) == |WithStatus(done', status)|
    {
      StatusCount(done, t, outcome, status);
    }
    assert done'.Keys == done.Keys + {t};
  }

  lemma CloseCountsAbort(aborts: map<string, nat>, done: map<Ticket, Outcome>, t: Ticket, outcome: Outcome)
    requires AbortsCount(aborts, done) && t !in done
    ensures AbortsCount(AbortsAfter(aborts, outcome), done[t := outcome])
  {
    var aborts', done' := AbortsAfter(aborts, outcome), done[t := outcome];
    if AbortReason(outcome).Some? { BumpValues(aborts, AbortReason(outcome).value); }
    forall reason
      ensures Metrics.Value(aborts', reason) == |WithReason(done', reason)|
    {
      ReasonCount(done, t, outcome, reason);
    }
    AbortedStatus(outcome);
    StatusCount(done, t, outcome, "aborted");
  }

  lemma AbortedStatus(outcome: Outcome)
    ensures StatusOf(outcome) == "aborted" <==> outcome.Aborted?
  {
    assert StatusOf(Failed)[0] == 'f' && StatusOf(TimedOut)[0] == 't' && StatusOf(Completed)[0] == 'c';
  }

  lemma CloseKeepsCounters(s: State, t: Ticket, outcome: Outcome, now: real)
    requires CountersOk(s) && Can(s, Close(t, outcome, now)) && t !in s.done
    ensures CountersOk(Do(s, Close(t, outcome, now)))
  {
    var s' := Do(s, Close(t, outcome, now));
    CloseCountsTask(s.metrics.tasks, s.done, t, outcome);
    CloseCountsAbort(s.metrics.aborts, s.done, t, outcome);
    assert |s'.done| == |s.done| + 1 by { assert s'.done.Keys == s.done.Keys + {t}; }
    CloseStops(s, t, outcome, now);
  }

  lemma CloseStops(s: State, t: Ticket, outcome: Outcome, now: real)
    requires Can(s, Close(t, outcome, now))
    ensures |Started(Do(s, Close(t, outcome, now)).running)| == |Started(s.running)| - 1
  {
    assert Started(Do(s, Close(t, outcome, now)).running) == Started(s.running) - {t};
    assert t in Started(s.running);
  }

  lemma StartedMoves(running: map<Ticket, Pc>, t: Ticket, pc: Pc)
    requires t in running || pc.Holding?
    ensures |Started(running[t := pc])| ==
            |Started(running)| - (if t in Started(running) then 1 else 0) + if pc.Holding? then 0 else 1
  {
    var more: set<Ticket> := if pc.Holding? then {} else {t};
    assert Started(running[t := pc]) == Started(running) - {t} + more;
  }

  lemma OthersKeepCounters(s: State, step: Step)
    requires s.waiting !! s.running.Keys && CountersOk(s) && Can(s, step) && !step.Close?
    ensures CountersOk(Do(s, step))
  {
    match step
    case Acquire(t) => StartedMoves(s.running, t, Holding);
    case Start(t, now) => StartedMoves(s.running, t, Executing(now));
    case Raise(t, outcome) => StartedMoves(s.running, t, Ending(s.running[t].start, outcome));
    case _ =>
  }

  lemma StepKeepsPlaces(s: State, step: Step)
    requires QueueOk(s) && PlacesOk(s) && Can(s, step)
    ensures QueueOk(Do(s, step)) && PlacesOk(Do(s, step))
  {
  }

  lemma RunningSize(running: map<Ticket, Pc>, t: Ticket, pc: Pc)
    ensures |running[t := pc]| == |running| + if t in running then 0 else 1
    ensures t in running ==> |running - {t}| == |running| - 1
  {
    assert running[t := pc].Keys == running.Keys + {t};
    if t in running {
      assert running.Keys == (running - {t}).Keys + {t};
    }
  }

  lemma StepKeepsSlots(s: State, step: Step)
    requires s.waiting !! s.running.Keys && SlotsOk(s) && Can(s, step)
    ensures SlotsOk(Do(s, step))
  {
    match step
    case Enqueue =>
    case Dispatch =>
    case Acquire(t) => RunningSize(s.running, t, Holding);
    case Start(t, now) => RunningSize(s.running, t, Executing(now));
    case Raise(t, outcome) => RunningSize(s.running, t, Ending(s.running[t].start, outcome));
    case Close(t, _, _) => RunningSize(s.running, t, Holding);
  }

  lemma StepKeepsInv(s: State, step: Step)
    requires Inv(s) && Can(s, step)
    ensures Inv(Do(s, step)) && Do(s, step).limit == s.limit
  {
    StepKeepsPlaces(s, step);
    StepKeepsSlots(s, step);
    if step.Close? { CloseKeepsCounters(s, step.t, step.outcome, step.now); } else { OthersKeepCounters(s, step); }
  }

  // ---------- runs ----------

  predicate IsRun(s: State, steps: seq<Step>)
    decreases |steps|
  {
    steps == [] || (Can(s, steps[0]) && IsRun(Do(s, steps[0]), steps[1..]))
  }

  function Final(s: State, steps: seq<Step>): State
    requires IsRun(s, steps)
    decreases |steps|
  {
    if steps == [] then s else Final(Do(s, steps[0]), steps[1..])
  }

  lemma {:induction false} RunKeepsInv(s: State, steps: seq<Step>)
    requires Inv(s) && IsRun(s, steps)
    ensures Inv(Final(s, steps)) && Final(s, steps).limit == s.limit
    decreases |steps|
  {
    if steps != [] {
      StepKeepsInv(s, steps[0]);
      RunKeepsInv(Do(s, steps[0]), steps[1..]);
    }
  }

  lemma InitialInv(limit: nat)
    ensures Inv(Initial(limit))
  {
    assert Started(Initial(limit).running) == {};
    assert forall x :: WithStatus(Initial(limit).done, x) == {} && WithReason(Initial(limit).done, x) == {};
  }

  /** The number of places a ticket is in. */
  function Places(s: State, t: Ticket): nat {
    (if t in s.queue then 1 else 0) + (if t in s.waiting then 1 else 0) +
    (if t in s.running then 1 else 0) + (if t in s.done then 1 else 0)
  }

  /** Every enqueued task is in exactly one place, none is lost, and at most `limit` are running. */
  lemma Conservation(limit: nat, steps: seq<Step>, t: Ticket)
    requires IsRun(Initial(limit), steps)
    ensures var s := Final(Initial(limit), steps);
            && Places(s, t) == (if t < s.issued then 1 else 0)
            && |s.running| <= limit
            && |s.queue| + |s.waiting| + |s.running| + |s.done| == s.issued
  {
    InitialInv(limit);
    RunKeepsInv(Initial(limit), steps);
    var s := Final(Initial(limit), steps);
    var d := s.issued - |s.queue|;
    if d <= t < s.issued { assert s.queue[t - d] == t; }
    SizeOfRange(d);
    assert s.waiting + s.running.Keys + s.done.Keys == Range(d);
  }

  function Range(n: nat): set<nat> { if n == 0 then {} else Range(n - 1) + {n - 1} }

  lemma {:induction false} SizeOfRange(n: nat)
    ensures |Range(n)| == n && forall i: nat :: i in Range(n) <==> i < n
  {
    if n > 0 { SizeOfRange(n - 1); }
  }

  /** The gauge is the number of executions under way, so its clip at 0 never acts, and the counters agree
      with the finished tasks one by one and in total. */
  lemma CountersAgree(limit: nat, steps: seq<Step>, step: Step)
    requires IsRun(Initial(limit), steps) && Can(Final(Initial(limit), steps), step)
    ensures var s := Final(Initial(limit), steps);
            && s.metrics.active == |Started(s.running)| <= limit
            && (step.Close? ==> s.metrics.active >= 1)
            && Sum(s.metrics.tasks) == s.metrics.durationCount == |s.done|
            && Sum(s.metrics.aborts) == Metrics.Value(s.metrics.tasks, "aborted")
            && (forall status :: Metrics.Value(s.metrics.tasks, status) == |WithStatus(s.done, status)|)
            && (forall reason :: Metrics.Value(s.metrics.aborts, reason) == |WithReason(s.done, reason)|)
  {
    InitialInv(limit);
    RunKeepsInv(Initial(limit), steps);
    var s := Final(Initial(limit), steps);
    assert Started(s.running) <= s.running.Keys;
    SubsetSize(Started(s.running), s.running.Keys);
    if step.Close? {
      assert step.t in Started(s.running);
    }
  }

  /** The counters by name: one for each way to finish, and aborts by their reason, or `unknown` without one. */
  lemma CountersByName(limit: nat, steps: seq<Step>, reason: string)
    requires IsRun(Initial(limit), steps)
    ensures var s := Final(Initial(limit), steps);
            && Metrics.Value(s.metrics.tasks, "completed") == |set t | t in s.done && s.done[t].Completed?|
            && Metrics.Value(s.metrics.tasks, "timed_out") == |set t | t in s.done && s.done[t].TimedOut?|
            && Metrics.Value(s.metrics.tasks, "aborted") == |set t | t in s.done && s.done[t].Aborted?|
            && Metrics.Value(s.metrics.tasks, "failed") == |set t | t in s.done && s.done[t].Failed?|
            && (reason != "unknown" && reason != "" ==>
                  Metrics.Value(s.metrics.aborts, reason) == |set t | t in s.done && s.done[t] == Aborted(Some(reason))|)
            && Metrics.Value(s.metrics.aborts, "unknown") ==
               |set t | t in s.done && s.done[t].Aborted? && s.done[t].reason in {None, Some(""), Some("unknown")}|
  {
    InitialInv(limit);
    RunKeepsInv(Initial(limit), steps);
    var done := Final(Initial(limit), steps).done;
    NamedTasks(done);
    NamedAborts(done, reason);
    assert CountsDone(Final(Initial(limit), steps).metrics, done);
  }

  lemma NamedTasks(done: map<Ticket, Outcome>)
    ensures WithStatus(done, "completed") == set t | t in done && done[t].Completed?
    ensures WithStatus(done, "timed_out") == set t | t in done && done[t].TimedOut?
    ensures WithStatus(done, "aborted") == set t | t in done && done[t].Aborted?
    ensures WithStatus(done, "failed") == set t | t in done && done[t].Failed?
  {
    forall t | t in done
      ensures StatusOf(done[t]) == "completed" <==> done[t].Completed?
      ensures StatusOf(done[t]) == "timed_out" <==> done[t].TimedOut?
      ensures StatusOf(done[t]) == "aborted" <==> done[t].Aborted?
      ensures StatusOf(done[t]) == "failed" <==> done[t].Failed?
    {
      StatusNames(done[t]);
    }
  }

  lemma NamedAborts(done: map<Ticket, Outcome>, reason: string)
    ensures WithReason(done, "unknown") ==
            set t | t in done && done[t].Aborted? && done[t].reason in {None, Some(""), Some("unknown")}
    ensures reason != "unknown" && reason != "" ==>
              WithReason(done, reason) == set t | t in done && done[t] == Aborted(Some(reason))
  {
  }

  /** Time spent between the start and the close of each execution of a run. */
  function Elapsed(starts: map<Ticket, real>, steps: seq<Step>): real
    decreases |steps|
  {
    if steps == [] then 0.0
    else
      match steps[0]
      case Start(t, now) => Elapsed(starts[t := now], steps[1..])
      case Close(t, _, now) => (if t in starts then now - starts[t] else 0.0) + Elapsed(starts, steps[1..])
      case _ => Elapsed(starts, steps[1..])
  }

  predicate KnowsStarts(s: State, starts: map<Ticket, real>) {
    forall t :: t in s.running && !s.running[t].Holding? ==> t in starts && starts[t] == s.running[t].start
  }

  lemma {:induction false} DurationAdvances(s: State, starts: map<Ticket, real>, steps: seq<Step>)
    requires IsRun(s, steps) && KnowsStarts(s, starts)
    ensures Final(s, steps).metrics.durationSum == s.metrics.durationSum + Elapsed(starts, steps)
    decreases |steps|
  {
    if steps != [] {
      var starts' := if steps[0].Start? then starts[steps[0].t := steps[0].now] else starts;
      assert KnowsStarts(Do(s, steps[0]), starts');
      DurationAdvances(Do(s, steps[0]), starts', steps[1..]);
    }
  }

  /** The duration sum is the time from start to close, over all finished executions. */
  lemma DurationSum(limit: nat, steps: seq<Step>)
    requires IsRun(Initial(limit), steps)
    ensures Final(Initial(limit), steps).metrics.durationSum == Elapsed(map[], steps)
  {
    DurationAdvances(Initial(limit), map[], steps);
  }

  lemma StatusNames(outcome: Outcome)
    ensures StatusOf(outcome) == "completed" <==> outcome.Completed?
    ensures StatusOf(outcome) == "timed_out" <==> outcome.TimedOut?
    ensures StatusOf(outcome) == "aborted" <==> outcome.Aborted?
    ensures StatusOf(outcome) == "failed" <==> outcome.Failed?
  {
    assert "completed"[0] == 'c' && "timed_out"[0] == 't' && "aborted"[0] == 'a' && "failed"[0] == 'f';
  }

  /** The terminal event kinds are those that announce an outcome. */
  lemma TerminalKinds(kind: string)
    ensures EventLog.IsTerminalKind(kind) <==> exists outcome :: kind == "task_" + StatusOf(outcome)
  {
    assert "task_" + StatusOf(Completed) == "task_completed";
    assert "task_" + StatusOf(TimedOut) == "task_timed_out";
    assert "task_" + StatusOf(Aborted(None)) == "task_aborted";
    assert "task_" + StatusOf(Failed) == "task_failed";
    forall outcome
      ensures StatusOf(outcome) in {"completed", "timed_out", "aborted", "failed"}
    {
      StatusNames(outcome);
    }
  }

  // ---------- progress ----------

  function PcLeft(pc: Pc): nat {
    match pc
    case Holding => 3
    case Executing(_) => 2
    case Ending(_, _) => 1
  }

  function RunningLeft(running: map<Ticket, Pc>): map<Ticket, nat> {
    map t | t in running :: PcLeft(running[t])
  }

  /** A bound on the steps that the tickets issued so far can still take. */
  ghost function Left(s: State): nat { 5 * |s.queue| + 4 * |s.waiting| + Sum(RunningLeft(s.running)) }

  lemma RunningUsesUp(running: map<Ticket, Pc>, t: Ticket, pc: Pc)
    ensures t !in running ==> Sum(RunningLeft(running[t := pc])) == Sum(RunningLeft(running)) + PcLeft(pc)
    ensures t in running ==>
              && Sum(RunningLeft(running[t := pc])) == Sum(RunningLeft(running)) - PcLeft(running[t]) + PcLeft(pc)
              && Sum(RunningLeft(running - {t})) == Sum(RunningLeft(running)) - PcLeft(running[t])
  {
    var r := RunningLeft(running);
    assert RunningLeft(running[t := pc]) == r[t := PcLeft(pc)];
    SumUpdate(r, t, PcLeft(pc));
    if t in running {
      assert RunningLeft(running - {t}) == r - {t};
      SumRemove(r, t);
    }
  }

  lemma StepUsesUp(s: State, step: Step)
    requires s.waiting !! s.running.Keys && Can(s, step) && !step.Enqueue?
    ensures Left(Do(s, step)) < Left(s)
  {
    match step
    case Dispatch =>
    case Acquire(t) => RunningUsesUp(s.running, t, Holding);
    case Start(t, now) => RunningUsesUp(s.running, t, Executing(now));
    case Raise(t, outcome) => RunningUsesUp(s.running, t, Ending(s.running[t].start, outcome));
    case Close(t, _, _) => RunningUsesUp(s.running, t, Holding);
  }

  /** Without new arrivals a run is finite: its length is bounded by what was left at its start. */
  lemma {:induction false} RunIsBounded(s: State, steps: seq<Step>)
    requires Inv(s) && IsRun(s, steps)
    requires forall i :: 0 <= i < |steps| ==> !steps[i].Enqueue?
    ensures |steps| + Left(Final(s, steps)) <= Left(s)
    decreases |steps|
  {
    if steps != [] {
      StepUsesUp(s, steps[0]);
      StepKeepsInv(s, steps[0]);
      RunIsBounded(Do(s, steps[0]), steps[1..]);
    }
  }

  lemma AllDone(s: State)
    requires PlacesOk(s) && s.queue == [] && s.waiting == {} && s.running == map[]
    ensures |s.done| == s.issued
  {
    SizeOfRange(s.issued);
    assert s.done.Keys == Range(s.issued);
  }

  /** A task that executes can end in every way: completed in one step, anything else through an exception. */
  lemma AnyOutcome(s: State, t: Ticket, outcome: Outcome, now: real)
    requires t in s.running && s.running[t].Executing?
    ensures var steps := if outcome == Completed then [Close(t, outcome, now)]
                         else [Raise(t, outcome), Close(t, outcome, now)];
            IsRun(s, steps) && t in Final(s, steps).done && Final(s, steps).done[t] == outcome
  {
    if outcome == Completed {
      OneStep(s, Close(t, outcome, now));
    } else {
      var s' := Do(s, Raise(t, outcome));
      OneStep(s', Close(t, outcome, now));
      assert [Raise(t, outcome), Close(t, outcome, now)][1..] == [Close(t, outcome, now)];
    }
  }

  lemma OneStep(s: State, step: Step)
    requires Can(s, step)
    ensures IsRun(s, [step]) && Final(s, [step]) == Do(s, step)
  {
    assert [step][1..] == [];
  }

  /** The scheduler is never stuck: while a task is unfinished, some step of the scheduler or of a running
      task is possible, and a waiting task is held back only by a full house. */
  lemma NeverStuck(s: State)
    requires Inv(s)
    ensures s.limit > 0 && |s.done| < s.issued ==> exists step: Step :: !step.Enqueue? && Can(s, step)
    ensures forall t :: t in s.waiting && !Can(s, Acquire(t)) ==> |s.running| == s.limit
  {
    if s.limit > 0 && |s.done| < s.issued {
      if s.queue != [] {
        assert Can(s, Dispatch);
      } else if t :| t in s.running {
        match s.running[t]
        case Holding => assert Can(s, Start(t, 0.0));
        case Executing(_) => assert Can(s, Raise(t, Failed));
        case Ending(_, outcome) => assert Can(s, Close(t, outcome, 0.0));
      } else if t :| t in s.waiting {
        assert Can(s, Acquire(t));
      } else {
        AllDone(s);
      }
    }
  }

  // ---------- the object ----------

  /** The module's globals. A coroutine's own place is its argument and result. */
  class TaskQueue {
    const limit: nat
    var issued: nat
    var queue: seq<Ticket>
    var waiting: set<Ticket>
    var slots: int
    var running: map<Ticket, Pc>
    var done: map<Ticket, Outcome>
    const metrics: Metrics.Registry

    ghost predicate Valid()
      reads this, metrics
    {
      metrics.Valid() && Inv(View())
    }

    function View(): State
      reads this, metrics
      requires metrics.Valid()
    {
      State(limit, issued, queue, waiting, slots, running, done, metrics.View())
    }

    constructor (limit: nat)
      ensures Valid() && View() == Initial(limit) && fresh(metrics)
    {
      this.limit := limit;
      issued, queue, waiting, slots, running, done := 0, [], {}, limit, map[], map[];
      metrics := new Metrics.Registry();
      new;
      InitialInv(limit);
    }

    method EnqueueTask()
      requires Valid()
      modifies this
      ensures Valid() && View() == Do(old(View()), Enqueue)
    {
      StepKeepsInv(View(), Enqueue);
      queue := queue + [issued];
      issued := issued + 1;
    }

    /** One round of the worker loop. */
    method DispatchNext() returns (t: Ticket)
      requires Valid() && Can(View(), Dispatch)
      modifies this
      ensures Valid() && View() == Do(old(View()), Dispatch) && t == old(queue)[0]
    {
      StepKeepsInv(View(), Dispatch);
      t := queue[0];
      queue := queue[1..];
      waiting := waiting + {t};
    }

    method AcquireSlot(t: Ticket)
      requires Valid() && Can(View(), Acquire(t))
      modifies this
      ensures Valid() && View() == Do(old(View()), Acquire(t))
    {
      StepKeepsInv(View(), Acquire(t));
      slots := slots - 1;
      waiting := waiting - {t};
      running := running[t := Holding];
    }

    method StartExecution(t: Ticket, now: real)
      requires Valid() && Can(View(), Start(t, now))
      modifies this, metrics
      ensures Valid() && View() == Do(old(View()), Start(t, now))
    {
      StepKeepsInv(View(), Start(t, now));
      metrics.IncActiveTasks();
      running := running[t := Executing(now)];
    }

    /** The exception is caught; its terminal event is being written. */
    method CatchException(t: Ticket, outcome: Outcome)
      requires Valid() && Can(View(), Raise(t, outcome))
      modifies this
      ensures Valid() && View() == Do(old(View()), Raise(t, outcome))
    {
      StepKeepsInv(View(), Raise(t, outcome));
      running := running[t := Ending(running[t].start, outcome)];
    }

    method CountExecution(outcome: Outcome, seconds: real)
      requires metrics.Valid()
      modifies metrics
      ensures metrics.Valid() && metrics.View() == Counted(old(metrics.View()), outcome, seconds)
    {
      metrics.IncTaskCount(StatusOf(outcome));
      if outcome.Aborted? {
        metrics.IncAbortCount(OrElse(outcome.reason, "unknown"));
      }
      metrics.ObserveTaskDuration(seconds);
      metrics.DecActiveTasks();
    }

    /** From the counters to the release of the slot. */
    method CloseExecution(t: Ticket, outcome: Outcome, now: real)
      requires Valid() && Can(View(), Close(t, outcome, now))
      modifies this, metrics
      ensures Valid() && View() == Do(old(View()), Close(t, outcome, now))
    {
      ghost var before := View();
      StepKeepsInv(before, Close(t, outcome, now));
      CountExecution(outcome, now - running[t].start);
      running := running - {t};
      done := done[t := outcome];
      slots := slots + 1;
      assert View() == Do(before, Close(t, outcome, now));
    }
  }
}
