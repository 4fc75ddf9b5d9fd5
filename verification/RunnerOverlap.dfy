/** Dispatches that overlap: handler tasks dispatch while the stream reader does, so an interceptor may have
    several calls under way when its budget runs out. */
module RunnerOverlap {
  import opened Common
  import Runner

  type Name = Runner.Name

  /** A dispatch starts calls on every interceptor that is not disabled; later each call ends. */
  datatype Step = Open | End(name: Name, raises: bool)

  /** `calls` counts the calls started, `flying` those under way. */
  datatype Load = Load(calls: nat, flying: nat, errors: nat, disabled: bool)

  const IDLE := Load(0, 0, 0, false)

  /** What concerns a single interceptor. */
  datatype Mine = Opened | Ended(raises: bool)

  function Bear(l: Load, budget: int, m: Mine): Load {
    match m
    case Opened => if l.disabled then l else l.(calls := l.calls + 1, flying := l.flying + 1)
    case Ended(raises) =>
      if l.flying == 0 then l
      else if raises then
        l.(flying := l.flying - 1, errors := l.errors + 1, disabled := l.disabled || l.errors + 1 >= budget)
      else l.(flying := l.flying - 1)
  }

  function Alone(budget: int, ms: seq<Mine>): Load {
    if ms == [] then IDLE else Bear(Alone(budget, ms[..|ms| - 1]), budget, ms[|ms| - 1])
  }

  // ----- the runner -----

  type State = map<Name, Load>

  function Take(s: State, budget: int, step: Step): State {
    match step
    case Open => map name | name in s :: Bear(s[name], budget, Opened)
    case End(name, raises) => if name in s then s[name := Bear(s[name], budget, Ended(raises))] else s
  }

  function Run(names: seq<Name>, budget: int, steps: seq<Step>): State {
    if steps == [] then map name | name in names :: IDLE
    else Take(Run(names, budget, steps[..|steps| - 1]), budget, steps[|steps| - 1])
  }

  /** The part of a run that an interceptor takes part in. */
  function Part(steps: seq<Step>, name: Name): seq<Mine> {
    if steps == [] then []
    else
      var last := steps[|steps| - 1];
      Part(steps[..|steps| - 1], name) +
      if last.Open? then [Opened] else if last.name == name then [Ended(last.raises)] else []
  }

  /** Every interceptor is where it would be with no siblings. */
  lemma {:induction false} Isolation(names: seq<Name>, budget: int, steps: seq<Step>, name: Name)
    requires name in names
    ensures name in Run(names, budget, steps)
    ensures Run(names, budget, steps)[name] == Alone(budget, Part(steps, name))
  {
    if steps != [] {
      var before := steps[..|steps| - 1];
      Isolation(names, budget, before, name);
      var mine := Part(before, name);
      assert mine + [] == mine;
      forall m {
        AloneSnoc(budget, mine, m);
      }
    }
  }

  lemma AloneSnoc(budget: int, ms: seq<Mine>, m: Mine)
    ensures Alone(budget, ms + [m]) == Bear(Alone(budget, ms), budget, m)
    ensures Width(budget, ms + [m]) == Max(Width(budget, ms), Bear(Alone(budget, ms), budget, m).flying)
  {
    assert (ms + [m])[..|ms|] == ms;
  }

  /** Two runners, with whatever other interceptors and whatever these do, treat an interceptor alike when it
      is dispatched to and ends its calls in the same order. */
  lemma NonInterference(fs: seq<Name>, gs: seq<Name>, budget: int, f: seq<Step>, g: seq<Step>, name: Name)
    requires name in fs && name in gs && Part(f, name) == Part(g, name)
    ensures name in Run(fs, budget, f) && name in Run(gs, budget, g)
    ensures Run(fs, budget, f)[name] == Run(gs, budget, g)[name]
  {
    Isolation(fs, budget, f, name);
    Isolation(gs, budget, g, name);
  }

  // ----- how far the budget stretches -----

  /** The most calls ever under way at once. */
  /** Every end is the end of a call under way. */
  predicate Paired(budget: int, ms: seq<Mine>) {
    ms == [] ||
    (Paired(budget, ms[..|ms| - 1]) && (ms[|ms| - 1].Ended? ==> Alone(budget, ms[..|ms| - 1]).flying > 0))
  }

  function Failed(ms: seq<Mine>): nat {
    if ms == [] then 0 else Failed(ms[..|ms| - 1]) + if ms[|ms| - 1] == Ended(true) then 1 else 0
  }

  function Over(ms: seq<Mine>): nat {
    if ms == [] then 0 else Over(ms[..|ms| - 1]) + if ms[|ms| - 1].Ended? then 1 else 0
  }

  /** The errors are the calls that failed, and the calls under way those that were started and have not ended. */
  lemma {:induction false} LoadCounts(budget: int, ms: seq<Mine>)
    requires Paired(budget, ms)
    ensures Alone(budget, ms).errors == Failed(ms)
    ensures Alone(budget, ms).calls == Alone(budget, ms).flying + Over(ms)
  {
    if ms != [] { LoadCounts(budget, ms[..|ms| - 1]); }
  }

  function Width(budget: int, ms: seq<Mine>): nat {
    if ms == [] then 0 else Max(Width(budget, ms[..|ms| - 1]), Alone(budget, ms).flying)
  }

  /** Errors exceed the budget by at most the calls that were under way beside the one that used it up. */
  lemma {:induction false} ErrorBound(budget: int, ms: seq<Mine>)
    ensures var l := Alone(budget, ms);
            && l.errors + l.flying <= Max(1, budget) - 1 + Width(budget, ms)
            && l.flying <= Width(budget, ms)
            && (l.disabled <==> l.errors >= 1 && l.errors >= budget)
            && l.errors + l.flying <= l.calls
  {
    if ms != [] {
      ErrorBound(budget, ms[..|ms| - 1]);
      AloneSnoc(budget, ms[..|ms| - 1], ms[|ms| - 1]);
    }
  }

  /** `k` times `m` after `ms`. */
  function More(ms: seq<Mine>, m: Mine, k: nat): seq<Mine> { if k == 0 then ms else More(ms, m, k - 1) + [m] }

  /** A run that fails one call after another. */
  function FailingOneByOne(n: nat): seq<Mine> {
    if n == 0 then [] else FailingOneByOne(n - 1) + [Opened] + [Ended(true)]
  }

  lemma {:induction false} SpendsBudget(budget: int, n: nat)
    requires n < Max(1, budget)
    ensures Alone(budget, FailingOneByOne(n)) == Load(n, 0, n, false)
    ensures Width(budget, FailingOneByOne(n)) <= 1
  {
    if n > 0 {
      SpendsBudget(budget, n - 1);
      var before := FailingOneByOne(n - 1);
      AloneSnoc(budget, before, Opened);
      AloneSnoc(budget, before + [Opened], Ended(true));
    }
  }

  lemma {:induction false} OpensSome(budget: int, ms: seq<Mine>, k: nat)
    requires !Alone(budget, ms).disabled && Alone(budget, ms).flying == 0
    ensures var l := Alone(budget, ms);
            Alone(budget, More(ms, Opened, k)) == l.(calls := l.calls + k, flying := k)
    ensures Width(budget, More(ms, Opened, k)) <= Max(k, Width(budget, ms))
  {
    if k > 0 {
      OpensSome(budget, ms, k - 1);
      AloneSnoc(budget, More(ms, Opened, k - 1), Opened);
    }
  }

  lemma {:induction false} FailsMany(budget: int, ms: seq<Mine>, k: nat)
    requires Alone(budget, ms).flying >= k
    ensures var l, l' := Alone(budget, ms), Alone(budget, More(ms, Ended(true), k));
            l'.errors == l.errors + k && l'.flying == l.flying - k
    ensures Width(budget, More(ms, Ended(true), k)) <= Max(Alone(budget, ms).flying, Width(budget, ms))
  {
    if k > 0 {
      FailsMany(budget, ms, k - 1);
      AloneSnoc(budget, More(ms, Ended(true), k - 1), Ended(true));
    }
  }

  /** The bound is reached: for every budget and every width there is a run with that many errors. */
  lemma ErrorBoundIsTight(budget: int, width: nat) returns (ms: seq<Mine>)
    requires width >= 1
    ensures Width(budget, ms) <= width
    ensures Alone(budget, ms).errors == Max(1, budget) - 1 + width
  {
    var spent := FailingOneByOne(Max(1, budget) - 1);
    SpendsBudget(budget, Max(1, budget) - 1);
    OpensSome(budget, spent, width);
    FailsMany(budget, More(spent, Opened, width), width);
    ms := More(More(spent, Opened, width), Ended(true), width);
  }
}
