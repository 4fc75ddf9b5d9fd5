/** The interceptor runner: every interceptor spends an error budget of its own. */
module Runner {
  import opened Common

  type Name = string

  predicate NameChar(c: char) { 'a' <= c <= 'z' || '0' <= c <= '9' || c == '-' }

  predicate IsName(s: string) {
    3 <= |s| <= 41 && 'a' <= s[0] <= 'z' && forall i :: 1 <= i < |s| ==> NameChar(s[i])
  }

  /** `$` also matches before a final newline. */
  predicate ValidName(s: string) {
    IsName(s) || (|s| > 0 && s[|s| - 1] == '\n' && IsName(s[..|s| - 1]))
  }

  /** Three to forty-one characters, a letter first, then letters, digits and dashes; a final newline passes. */
  lemma NameShapes(s: string)
    ensures ValidName("mcp-fields") && ValidName("abc") && ValidName("a1-") && ValidName("abc\n")
    ensures !ValidName("ab") && !ValidName("1ab") && !ValidName("aBc") && !ValidName("a_b") && !ValidName("abc\n\n")
    ensures ValidName(s) ==> 3 <= |s| <= 42
    ensures |s| == 41 && (forall i :: 0 <= i < 41 ==> s[i] == 'x') ==> ValidName(s)
  {
    assert "abc\n"[..3] == "abc" && "abc\n\n"[..4] == "abc\n";
    assert "aBc"[1] == 'B' && "a_b"[1] == '_' && "abc\n"[3] == '\n';
  }

  /** `fails(name, n)`: does the call that dispatch number n makes to this interceptor raise? */
  type Script = (Name, nat) -> bool

  // ---------- one interceptor on its own ----------

  datatype Lone = Lone(calls: seq<nat>, errors: nat, disabled: bool)

  const FRESH := Lone([], 0, false)

  /** One dispatch as a single interceptor sees it. */
  function Call(l: Lone, budget: int, n: nat, fails: bool): Lone {
    if l.disabled then l
    else if fails then Lone(l.calls + [n], l.errors + 1, l.errors + 1 >= budget)
    else l.(calls := l.calls + [n])
  }

  function Alone(fails: Script, name: Name, budget: int, n: nat): Lone {
    if n == 0 then FRESH else Call(Alone(fails, name, budget, n - 1), budget, n - 1, fails(name, n - 1))
  }

  /** Failures among the first n dispatches. */
  function Failures(fails: Script, name: Name, n: nat): nat {
    if n == 0 then 0 else Failures(fails, name, n - 1) + if fails(name, n - 1) then 1 else 0
  }

  /** The first n dispatches. */
  function FirstCalls(n: nat): seq<nat> { seq(n, i => i) }

  /** Failure number `max(1, budget)` is at dispatch k - 1. */
  predicate SpentAt(fails: Script, name: Name, budget: int, k: nat) {
    k > 0 && fails(name, k - 1) && Failures(fails, name, k) == Max(1, budget)
  }

  /** The calls delivered are the prefix that ends at the interceptor's own budget-th failure, or all of them. */
  lemma {:induction false} DeliveredPrefix(fails: Script, name: Name, budget: int, n: nat)
    ensures var l := Alone(fails, name, budget, n);
            var k := |l.calls|;
            && k <= n && l.calls == FirstCalls(k)
            && l.errors == Failures(fails, name, k)
            && (l.disabled <==> SpentAt(fails, name, budget, k))
            && (!l.disabled ==> k == n)
            && (forall j: nat :: j < k ==> Failures(fails, name, j) < Max(1, budget))
            && l.errors <= Max(1, budget)
            && (l.disabled <==> l.errors >= 1 && l.errors >= budget)
  {
    if n > 0 {
      DeliveredPrefix(fails, name, budget, n - 1);
      var l := Alone(fails, name, budget, n - 1);
      if !l.disabled {
        assert FirstCalls(n) == FirstCalls(n - 1) + [n - 1];
      }
    }
  }

  // ---------- all interceptors ----------

  /** `_error_counts` and `_disabled`, with the calls each interceptor has received. */
  datatype State = State(errors: map<Name, nat>, disabled: set<Name>, calls: map<Name, seq<nat>>)

  ghost predicate Shaped(names: seq<Name>, s: State) {
    forall name :: name in names ==> name in s.errors && name in s.calls
  }

  function LoneOf(s: State, name: Name): Lone
    requires name in s.errors && name in s.calls
  {
    Lone(s.calls[name], s.errors[name], name in s.disabled)
  }

  /** Every interceptor is where it would be without its siblings. */
  ghost predicate Isolated(fails: Script, names: seq<Name>, budget: int, n: nat, s: State) {
    Shaped(names, s) && forall name :: name in names ==> LoneOf(s, name) == Alone(fails, name, budget, n)
  }

  class InterceptorRunner {
    const names: seq<Name>
    const errorBudget: int
    var errorCounts: map<Name, nat>
    var disabled: set<Name>
    var calls: map<Name, seq<nat>>
    var dispatched: nat

    ghost predicate Valid(fails: Script)
      reads this
    {
      Distinct(names) && Isolated(fails, names, errorBudget, dispatched, View())
    }

    function View(): State
      reads this
    {
      State(errorCounts, disabled, calls)
    }

    constructor (names: seq<Name>, errorBudget: int)
      requires Distinct(names)
      ensures this.names == names && this.errorBudget == errorBudget && dispatched == 0
      ensures forall fails: Script :: Isolated(fails, names, errorBudget, 0, View())
    {
      this.names, this.errorBudget := names, errorBudget;
      errorCounts := map name | name in names :: 0;
      calls := map name | name in names :: [];
      disabled := {};
      dispatched := 0;
    }

    method RecordError(name: Name)
      requires name in errorCounts
      modifies this`errorCounts, this`disabled
      ensures errorCounts == old(errorCounts)[name := old(errorCounts)[name] + 1]
      ensures disabled == old(disabled) + if errorCounts[name] >= errorBudget then {name} else {}
    {
      errorCounts := errorCounts[name := errorCounts[name] + 1];
      if errorCounts[name] >= errorBudget {
        disabled := disabled + {name};
      }
    }

    /** One guarded call: it moves the state of its own interceptor and of no other. */
    method SafeCall(name: Name, n: nat, raises: bool)
      requires Shaped(names, View()) && name in names && name !in disabled
      modifies this`errorCounts, this`disabled, this`calls
      ensures Shaped(names, View())
      ensures LoneOf(View(), name) == Call(old(LoneOf(View(), name)), errorBudget, n, raises)
      ensures forall other :: other in names && other != name ==> LoneOf(View(), other) == LoneOf(old(View()), other)
    {
      calls := calls[name := calls[name] + [n]];
      if raises {
        RecordError(name);
      }
    }

    /** One dispatch, of an event or of the terminal signal. The active interceptors are picked first;
        their calls complete in any order. */
    method Dispatch(fails: Script)
      requires Valid(fails)
      modifies this
      ensures Valid(fails) && dispatched == old(dispatched) + 1
    {
      var n := dispatched;
      var active := set name | name in names && name !in disabled;
      ghost var was := View();
      var pending := active;
      while pending != {}
        invariant pending <= active && Shaped(names, View()) && dispatched == n
        invariant forall name :: name in names ==>
                    LoneOf(View(), name) ==
                    if name in active && name !in pending then Call(LoneOf(was, name), errorBudget, n, fails(name, n))
                    else LoneOf(was, name)
        decreases |pending|
      {
        var name :| name in pending;
        SafeCall(name, n, fails(name, n));
        pending := pending - {name};
      }
      dispatched := n + 1;
    }

    /** The final flush, one interceptor after the other; `None` from `flush` means that it raises. */
    method CollectArtifacts<A>(flush: Name -> Option<Option<A>>) returns (out: seq<A>)
      requires Distinct(names) && Shaped(names, View())
      modifies this`errorCounts, this`disabled
      ensures out == Declared(names, old(disabled), flush)
      ensures Shaped(names, View())
      ensures forall name :: name in names ==>
                LoneOf(View(), name) == AfterFlush(LoneOf(old(View()), name), errorBudget, flush(name).None?)
    {
      ghost var was := View();
      out := [];
      for i := 0 to |names|
        invariant Shaped(names, View()) && calls == was.calls
        invariant out == Declared(names[..i], was.disabled, flush)
        invariant forall j :: 0 <= j < |names| ==>
                    LoneOf(View(), names[j]) ==
                    if j < i then AfterFlush(LoneOf(was, names[j]), errorBudget, flush(names[j]).None?)
                    else LoneOf(was, names[j])
      {
        var name := names[i];
        assert names[..i + 1][..i] == names[..i];
        assert LoneOf(View(), name) == LoneOf(was, name);
        if name in disabled {
          continue;
        }
        var result := flush(name);
        if result.None? {
          RecordError(name);
        } else if result.value.Some? {
          out := out + [result.value.value];
        }
      }
      assert names[..|names|] == names;
    }
  }

  /** What the interceptors that are still enabled declare, in registration order. */
  function Declared<A>(names: seq<Name>, disabled: set<Name>, flush: Name -> Option<Option<A>>): seq<A> {
    if names == [] then []
    else
      var name := names[|names| - 1];
      Declared(names[..|names| - 1], disabled, flush) +
      if name !in disabled && flush(name).Some? && flush(name).value.Some? then [flush(name).value.value] else []
  }

  /** The interceptor at position `i` is enabled and declares an artifact. */
  predicate Declares<A>(names: seq<Name>, disabled: set<Name>, flush: Name -> Option<Option<A>>, i: nat)
    requires i < |names|
  {
    names[i] !in disabled && flush(names[i]).Some? && flush(names[i]).value.Some?
  }

  /** The collected artifacts are those of exactly the declaring interceptors, in registration order. */
  lemma {:induction false} DeclaredInOrder<A>(names: seq<Name>, disabled: set<Name>, flush: Name -> Option<Option<A>>,
                                              n: nat) returns (at: seq<nat>)
    requires n <= |names|
    ensures ListsDeclared(names, disabled, flush, n, at, Declared(names[..n], disabled, flush))
  {
    if n == 0 {
      at := [];
    } else {
      at := DeclaredInOrder(names, disabled, flush, n - 1);
      DeclaredStep(names, disabled, flush, n - 1);
      if Declares(names, disabled, flush, n - 1) { at := at + [n - 1]; }
    }
  }

  /** `at` are the declaring positions below `n`, in order, and `out` what they declare. */
  ghost predicate ListsDeclared<A>(names: seq<Name>, disabled: set<Name>, flush: Name -> Option<Option<A>>, n: nat,
                                   at: seq<nat>, out: seq<A>)
    requires n <= |names|
  {
    && |at| == |out|
    && (forall j :: 0 <= j < |at| ==> at[j] < n && flush(names[at[j]]) == Some(Some(out[j])))
    && (forall i, j :: 0 <= i < j < |at| ==> at[i] < at[j])
    && (forall i: nat :: i in at <==> i < n && Declares(names, disabled, flush, i))
  }

  lemma DeclaredStep<A>(names: seq<Name>, disabled: set<Name>, flush: Name -> Option<Option<A>>, n: nat)
    requires n < |names|
    ensures Declared(names[..n + 1], disabled, flush) ==
            Declared(names[..n], disabled, flush) +
            if Declares(names, disabled, flush, n) then [flush(names[n]).value.value] else []
  {
    assert names[..n + 1][..n] == names[..n];
  }

  function AfterFlush(l: Lone, budget: int, raises: bool): Lone {
    if l.disabled || !raises then l else l.(errors := l.errors + 1, disabled := l.errors + 1 >= budget)
  }

  /** A failing flush costs what a failing call does, but is not counted among the calls. */
  lemma FlushCostsACall(l: Lone, budget: int, n: nat, raises: bool)
    ensures AfterFlush(l, budget, raises) == Call(l, budget, n, raises).(calls := l.calls)
  {
  }

  /** Any two runners in which every interceptor is where it would be alone agree on an interceptor with the
      same failures, whatever the siblings are and do. */
  lemma {:induction false} SiblingsDoNotMatter(f: Script, g: Script, fs: seq<Name>, gs: seq<Name>, s: State, t: State,
                                               name: Name, budget: int, n: nat)
    requires Isolated(f, fs, budget, n, s) && Isolated(g, gs, budget, n, t)
    requires name in fs && name in gs
    requires forall i: nat :: i < n ==> f(name, i) == g(name, i)
    ensures LoneOf(s, name) == LoneOf(t, name)
    ensures s.errors[name] <= Max(1, budget)
    ensures name in s.disabled <==> s.errors[name] >= 1 && s.errors[name] >= budget
  {
    SameAlone(f, g, name, budget, n);
    DeliveredPrefix(f, name, budget, n);
    assert LoneOf(s, name) == Alone(f, name, budget, n);
  }

  lemma {:induction false} SameAlone(f: Script, g: Script, name: Name, budget: int, n: nat)
    requires forall i: nat :: i < n ==> f(name, i) == g(name, i)
    ensures Alone(f, name, budget, n) == Alone(g, name, budget, n)
  {
    if n > 0 { SameAlone(f, g, name, budget, n - 1); }
  }

  /** Registration: names are checked in order and must not repeat. */
  method Register(names: seq<Name>, errorBudget: int) returns (r: Option<InterceptorRunner>)
    ensures r.Some? <==> Distinct(names) && forall i :: 0 <= i < |names| ==> ValidName(names[i])
    ensures r.Some? ==> fresh(r.value) && r.value.names == names && r.value.errorBudget == errorBudget
    ensures r.Some? ==> r.value.dispatched == 0 && forall fails: Script :: r.value.Valid(fails)
  {
    var seen: set<Name> := {};
    for i := 0 to |names|
      invariant Distinct(names[..i]) && seen == set j | 0 <= j < i :: names[j]
      invariant forall j :: 0 <= j < i ==> ValidName(names[j])
    {
      if !ValidName(names[i]) || names[i] in seen {
        return None;
      }
      seen := seen + {names[i]};
    }
    assert names[..|names|] == names;
    var runner := new InterceptorRunner(names, errorBudget);
    r := Some(runner);
  }
}
