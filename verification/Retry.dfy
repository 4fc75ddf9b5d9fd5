/** The SDK's HTTP retry loop and its back-off arithmetic, over reals. */
module Retry {
  import opened Common

  // ---------- policy ----------

  datatype RetryPolicy = RetryPolicy(
    maxAttempts: int,
    initialBackoff: real,
    maxBackoff: real,
    multiplier: real,
    jitter: real,
    on5xx: bool,
    onTransportError: bool,
    respectRetryAfter: bool)

  const DEFAULT := RetryPolicy(3, 0.5, 8.0, 2.0, 0.25, true, true, true)
  const DISABLED := DEFAULT.(maxAttempts := 1)

  datatype PolicyError = BadAttempts | BadInitial | BadMaximum | BadMultiplier | BadJitter

  predicate Valid(p: RetryPolicy) { CheckPolicy(p) == None }

  /** `__post_init__`: the first rule broken. */
  function CheckPolicy(p: RetryPolicy): (r: Option<PolicyError>)
    ensures r == None <==>
              p.maxAttempts >= 1 && 0.0 <= p.initialBackoff <= p.maxBackoff && p.multiplier >= 1.0 &&
              0.0 <= p.jitter <= 1.0
  {
    if p.maxAttempts < 1 then Some(BadAttempts)
    else if p.initialBackoff < 0.0 then Some(BadInitial)
    else if p.maxBackoff < p.initialBackoff then Some(BadMaximum)
    else if p.multiplier < 1.0 then Some(BadMultiplier)
    else if !(0.0 <= p.jitter <= 1.0) then Some(BadJitter)
    else None
  }

  function Pow(base: real, n: nat): real { if n == 0 then 1.0 else base * Pow(base, n - 1) }

  function MinReal(a: real, b: real): real { if a <= b then a else b }

  function MaxReal(a: real, b: real): real { if a >= b then a else b }

  /** The wait after failure number `attempt`, before jitter. */
  function Capped(p: RetryPolicy, attempt: nat): real
    requires attempt >= 1
  {
    MinReal(p.initialBackoff * Pow(p.multiplier, attempt - 1), p.maxBackoff)
  }

  /** The bounds of the interval around a wait of `c` seconds. */
  function Low(c: real, j: real): real { c * (1.0 - j) }

  function High(c: real, j: real): real { c * (1.0 + j) }

  function Uniform(lo: real, hi: real, draw: real): real { lo + (hi - lo) * draw }

  function Jittered(c: real, j: real, draw: real): real {
    if j == 0.0 then c else Uniform(Low(c, j), High(c, j), draw)
  }

  /** `draw` in [0, 1] is the random number behind `uniform`. */
  function BackoffForAttempt(p: RetryPolicy, attempt: int, draw: real): Option<real> {
    if attempt < 1 then None else Some(Jittered(Capped(p, attempt), p.jitter, draw))
  }

  lemma Product(a: real, b: real, c: real)
    requires 0.0 <= a && b <= c
    ensures a * b <= a * c
  {
  }

  /** One more factor keeps the order and does not shrink. */
  lemma OneMoreFactor(base: real, x: real, y: real)
    requires base >= 1.0 && 1.0 <= x <= y
    ensures 1.0 <= x <= base * x <= base * y
  {
    Product(x, 1.0, base);
    Product(base, x, y);
  }

  lemma {:induction false} PowGrows(base: real, m: nat, n: nat)
    requires base >= 1.0 && m <= n
    ensures 1.0 <= Pow(base, m) <= Pow(base, n)
  {
    if n > 0 {
      var y := Pow(base, n - 1);
      PowGrows(base, if m > 0 then m - 1 else 0, n - 1);
      assert Pow(base, n) == base * y;
      if m > 0 {
        var x := Pow(base, m - 1);
        assert Pow(base, m) == base * x;
        OneMoreFactor(base, x, y);
      } else {
        OneMoreFactor(base, y, y);
      }
    }
  }

  /** Before jitter the waits never shrink, and they stay under the cap. */
  lemma CappedGrows(p: RetryPolicy, m: nat, n: nat)
    requires Valid(p) && 1 <= m <= n
    ensures p.initialBackoff <= Capped(p, m) <= Capped(p, n) <= p.maxBackoff
  {
    PowGrows(p.multiplier, m - 1, n - 1);
    Scaled(p.initialBackoff, Pow(p.multiplier, m - 1), Pow(p.multiplier, n - 1));
  }

  lemma Scaled(a: real, x: real, y: real)
    requires 0.0 <= a && 1.0 <= x <= y
    ensures a <= a * x <= a * y
  {
    Product(a, 1.0, x);
    Product(a, x, y);
  }

  lemma UniformBetween(lo: real, hi: real, draw: real)
    requires lo <= hi && 0.0 <= draw <= 1.0
    ensures lo <= Uniform(lo, hi, draw) <= hi
  {
    Product(hi - lo, 0.0, draw);
    Product(hi - lo, draw, 1.0);
  }

  lemma Interval(c: real, j: real)
    requires 0.0 <= c && 0.0 <= j <= 1.0
    ensures 0.0 <= Low(c, j) <= c <= High(c, j)
  {
    Product(c, 0.0, 1.0 - j);
    Product(c, 1.0 - j, 1.0);
    Product(c, 1.0, 1.0 + j);
  }

  lemma NoJitter(c: real)
    ensures Low(c, 0.0) == c == High(c, 0.0)
  {
  }

  lemma HighGrows(c: real, d: real, j: real)
    requires c <= d && 0.0 <= j
    ensures High(c, j) <= High(d, j)
  {
    Product(1.0 + j, c, d);
  }

  lemma JitteredBetween(c: real, j: real, draw: real)
    requires 0.0 <= c && 0.0 <= j <= 1.0 && 0.0 <= draw <= 1.0
    ensures 0.0 <= Low(c, j) <= Jittered(c, j, draw) <= High(c, j)
  {
    if j == 0.0 { NoJitter(c); }
    Interval(c, j);
    UniformBetween(Low(c, j), High(c, j), draw);
  }

  /** With the largest draw a wait reaches the upper end of its interval. */
  lemma JitteredTop(c: real, j: real)
    requires 0.0 <= c && 0.0 <= j <= 1.0
    ensures Jittered(c, j, 1.0) == High(c, j)
  {
    if j == 0.0 { NoJitter(c); }
  }

  /** With jitter a wait stays in its interval; the cap may be exceeded by the factor 1 + jitter. */
  lemma BackoffInInterval(p: RetryPolicy, attempt: nat, draw: real)
    requires Valid(p) && attempt >= 1 && 0.0 <= draw <= 1.0
    ensures var w := BackoffForAttempt(p, attempt, draw);
            && w.Some?
            && 0.0 <= Low(Capped(p, attempt), p.jitter) <= w.value <= High(Capped(p, attempt), p.jitter)
            && w.value <= MaxWait(p)
  {
    CappedGrows(p, attempt, attempt);
    JitteredBetween(Capped(p, attempt), p.jitter, draw);
    HighGrows(Capped(p, attempt), p.maxBackoff, p.jitter);
  }

  /** The waits that jitter can produce are exactly those within the factors 1 - jitter and 1 + jitter. */
  lemma JitterSpans(p: RetryPolicy, attempt: nat, w: real)
    requires Valid(p) && attempt >= 1
    ensures (exists draw :: 0.0 <= draw <= 1.0 && BackoffForAttempt(p, attempt, draw) == Some(w)) <==>
            Capped(p, attempt) * (1.0 - p.jitter) <= w <= Capped(p, attempt) * (1.0 + p.jitter)
  {
    var c, j := Capped(p, attempt), p.jitter;
    CappedGrows(p, attempt, attempt);
    if draw: real :| 0.0 <= draw <= 1.0 && BackoffForAttempt(p, attempt, draw) == Some(w) {
      JitteredBetween(c, j, draw);
    }
    if c * (1.0 - j) <= w <= c * (1.0 + j) {
      var draw := DrawFor(c, j, w);
      assert BackoffForAttempt(p, attempt, draw) == Some(w);
    }
  }

  lemma DrawFor(c: real, j: real, w: real) returns (draw: real)
    requires 0.0 <= c && 0.0 <= j <= 1.0 && c * (1.0 - j) <= w <= c * (1.0 + j)
    ensures 0.0 <= draw <= 1.0 && Jittered(c, j, draw) == w
  {
    var lo, hi := Low(c, j), High(c, j);
    if j == 0.0 {
      NoJitter(c);
      draw := 0.0;
    } else if lo == hi {
      draw := 0.0;
    } else {
      draw := (w - lo) / (hi - lo);
      Fraction(w - lo, hi - lo);
    }
  }

  lemma Fraction(a: real, b: real)
    requires 0.0 <= a <= b && 0.0 < b
    ensures 0.0 <= a / b <= 1.0 && b * (a / b) == a
  {
    var q := a / b;
    assert q * b == a;
    if q > 1.0 { Product(b, 1.0, q); }
    if q < 0.0 { Product(b, q, 0.0); }
  }

  function MaxWait(p: RetryPolicy): real { High(p.maxBackoff, p.jitter) }

  // ---------- replies ----------

  /** `retryAfter` is the header read as a number, if it is one. */
  datatype Reply = TransportError | Response(status: int, retryAfter: Option<real>)

  datatype Result = Returned(status: int) | RaisedTransport | RaisedHttp(status: int)

  function ParseRetryAfter(header: Option<real>): Option<real> {
    if header.Some? && header.value < 0.0 then None else header
  }

  predicate Success(r: Reply) { r.Response? && 200 <= r.status < 300 }

  predicate Transient(p: RetryPolicy, r: Reply) {
    if r.TransportError? then p.onTransportError else p.on5xx && 500 <= r.status < 600
  }

  /** What a final reply turns into. */
  function Verdict(r: Reply): Result {
    if r.TransportError? then RaisedTransport else if Success(r) then Returned(r.status) else RaisedHttp(r.status)
  }

  /** The server's suggestion counts only when it is the longer one, and only for responses. */
  function WaitAfter(p: RetryPolicy, attempt: nat, r: Reply, draw: real): real
    requires attempt >= 1
  {
    var own := BackoffForAttempt(p, attempt, draw).value;
    var server := if r.Response? && p.respectRetryAfter then ParseRetryAfter(r.retryAfter) else None;
    if server.Some? then MaxReal(server.value, own) else own
  }

  function UpperChar(c: char): char { if 'a' <= c <= 'z' then c - 'a' + 'A' else c }

  function Upper(s: string): string { seq(|s|, i requires 0 <= i < |s| => UpperChar(s[i])) }

  function ShouldRetry(verb: string, override: Option<bool>): bool {
    if override.Some? then override.value else Upper(verb) == "GET" || Upper(verb) == "HEAD"
  }

  function Effective(p: RetryPolicy, verb: string, override: Option<bool>): RetryPolicy {
    if ShouldRetry(verb, override) then p else DISABLED
  }

  // ---------- the loop ----------

  type Script = nat -> Reply
  type Draws = nat -> real

  predicate Fair(draws: Draws, i: nat) { 0.0 <= draws(i) <= 1.0 }

  /** Reply i is followed by another send. */
  predicate Again(p: RetryPolicy, script: Script, i: nat) { Transient(p, script(i)) && i + 1 < p.maxAttempts }

  /** Exactly the first `sends` replies were asked for, the last of them decided. */
  predicate Decides(p: RetryPolicy, script: Script, sends: nat, result: Result) {
    && 1 <= sends <= p.maxAttempts
    && (forall i: nat :: i < sends - 1 ==> Again(p, script, i))
    && !Again(p, script, sends - 1)
    && result == Verdict(script(sends - 1))
  }

  predicate WaitsOf(p: RetryPolicy, script: Script, draws: Draws, waits: seq<real>) {
    forall i :: 0 <= i < |waits| ==> waits[i] == WaitAfter(p, i + 1, script(i), draws(i))
  }

  /** The code after the loop is unreachable: the last assertion says so. */
  method Request(p: RetryPolicy, verb: string, override: Option<bool>, script: Script, draws: Draws)
    returns (result: Result, sends: nat, waits: seq<real>)
    requires Valid(p)
    ensures Decides(Effective(p, verb, override), script, sends, result)
    ensures WaitsOf(Effective(p, verb, override), script, draws, waits)
    ensures sends == |waits| + 1
  {
    var policy := if ShouldRetry(verb, override) then p else DISABLED;
    var attempt: nat := 0;
    waits := [];
    sends := 0;
    result := RaisedTransport;
    while attempt < policy.maxAttempts
      invariant attempt < policy.maxAttempts
      invariant sends == attempt == |waits|
      invariant forall i: nat :: i < attempt ==> Again(policy, script, i)
      invariant WaitsOf(policy, script, draws, waits)
      decreases policy.maxAttempts - attempt
    {
      var reply := script(attempt);
      attempt := attempt + 1;
      sends := attempt;
      if reply.TransportError? {
        if !policy.onTransportError || attempt >= policy.maxAttempts {
          result := RaisedTransport;
          return;
        }
        var wait := BackoffForAttempt(policy, attempt, draws(attempt - 1)).value;
        waits := waits + [wait];
        assert Again(policy, script, attempt - 1);
        continue;
      }
      if 200 <= reply.status < 300 {
        result := Returned(reply.status);
        return;
      }
      if policy.on5xx && 500 <= reply.status < 600 && attempt < policy.maxAttempts {
        var wait := BackoffForAttempt(policy, attempt, draws(attempt - 1)).value;
        if policy.respectRetryAfter {
          var server := ParseRetryAfter(reply.retryAfter);
          if server.Some? {
            wait := MaxReal(server.value, wait);
          }
        }
        waits := waits + [wait];
        assert Again(policy, script, attempt - 1);
        continue;
      }
      result := RaisedHttp(reply.status);
      return;
    }
    assert false;
  }

  // ---------- what the loop promises ----------

  /** Only a transport error or a 5xx answer is ever repeated, and only if its own switch is on. */
  predicate Repeatable(p: RetryPolicy, r: Reply) {
    && !Success(r)
    && (r.TransportError? ==> p.onTransportError)
    && (r.Response? ==> p.on5xx && 500 <= r.status <= 599)
  }

  /** The outcome is determined: the first success among the replies asked for, or the error of the last. */
  lemma OutcomeIsDetermined(p: RetryPolicy, script: Script, m: nat, n: nat, a: Result, b: Result)
    requires Decides(p, script, m, a) && Decides(p, script, n, b)
    ensures m == n && a == b
    ensures a.Returned? <==> Success(script(m - 1))
    ensures a.RaisedTransport? <==> script(m - 1).TransportError?
    ensures script(m - 1).Response? ==>
              a == if 200 <= script(m - 1).status < 300 then Returned(script(m - 1).status)
                   else RaisedHttp(script(m - 1).status)
    ensures forall i: nat :: i < m - 1 ==> Repeatable(p, script(i))
    ensures m < p.maxAttempts ==> !Repeatable(p, script(m - 1))
  {
    forall i: nat | i < m - 1
      ensures Repeatable(p, script(i))
    {
      assert Again(p, script, i);
    }
  }

  /** Without an override only GET and HEAD are ever repeated. */
  lemma DefaultPostSentOnce(p: RetryPolicy, verb: string, script: Script, sends: nat, result: Result)
    requires Upper(verb) != "GET" && Upper(verb) != "HEAD"
    requires Decides(Effective(p, verb, None), script, sends, result)
    ensures sends == 1 && result == Verdict(script(0))
  {
  }

  /** An override is followed; without one GET and HEAD are repeated, in any letter case. */
  lemma WhoIsRetried(p: RetryPolicy, verb: string, b: bool)
    ensures Effective(p, verb, Some(true)) == p && Effective(p, verb, Some(false)).maxAttempts == 1
    ensures Upper(verb) == "GET" || Upper(verb) == "HEAD" ==> Effective(p, verb, None) == p
    ensures Upper("get") == "GET" && Upper("Head") == "HEAD" && Upper("post") == "POST"
  {
    assert Upper("get") == "GET";
    assert Upper("Head") == "HEAD";
    assert Upper("post") == "POST";
  }

  /** While the replies stay transient, a request that is retried is sent as often as the policy allows. */
  lemma SentUntilSpent(p: RetryPolicy, verb: string, override: Option<bool>, script: Script, sends: nat, result: Result)
    requires Valid(p) && ShouldRetry(verb, override)
    requires forall i: nat :: i < p.maxAttempts ==> TransientAt(p, script, i)
    requires Decides(Effective(p, verb, override), script, sends, result)
    ensures sends == p.maxAttempts
  {
    assert TransientAt(p, script, sends - 1);
  }

  /** A transport error or a 5xx answer, with its switch on. */
  predicate TransientAt(p: RetryPolicy, script: Script, i: nat) {
    (script(i).TransportError? && p.onTransportError) ||
    (script(i).Response? && 500 <= script(i).status <= 599 && p.on5xx)
  }

  function Total(waits: seq<real>): real {
    if waits == [] then 0.0 else Total(waits[..|waits| - 1]) + waits[|waits| - 1]
  }

  predicate NoAdvice(p: RetryPolicy, r: Reply) {
    !p.respectRetryAfter || r.TransportError? || ParseRetryAfter(r.retryAfter) == None
  }

  /** `n` waits of `x` seconds each. */
  function Repeated(n: nat, x: real): real { if n == 0 then 0.0 else Repeated(n - 1, x) + x }

  lemma {:induction false} RepeatedIsProduct(n: nat, x: real)
    ensures Repeated(n, x) == n as real * x
  {
    if n > 0 {
      RepeatedIsProduct(n - 1, x);
      Distribute((n - 1) as real, x);
    }
  }

  lemma Distribute(k: real, x: real)
    ensures (k + 1.0) * x == k * x + x
  {
  }

  lemma {:induction false} TotalBound(waits: seq<real>, bound: real, n: nat)
    requires forall i :: 0 <= i < |waits| ==> waits[i] <= bound
    requires |waits| <= n && 0.0 <= bound
    ensures Total(waits) <= Repeated(n, bound)
  {
    if waits != [] {
      TotalBound(waits[..|waits| - 1], bound, n - 1);
    } else if n > 0 {
      TotalBound(waits, bound, n - 1);
    }
  }

  lemma OwnWaitBound(p: RetryPolicy, attempt: nat, r: Reply, draw: real)
    requires Valid(p) && attempt >= 1 && 0.0 <= draw <= 1.0 && NoAdvice(p, r)
    ensures 0.0 <= WaitAfter(p, attempt, r, draw) <= MaxWait(p)
  {
    BackoffInInterval(p, attempt, draw);
  }

  lemma SleepAtMost(p: RetryPolicy, script: Script, draws: Draws, waits: seq<real>)
    requires Valid(p) && |waits| < p.maxAttempts && WaitsOf(p, script, draws, waits)
    requires forall i: nat :: i < |waits| ==> Fair(draws, i) && NoAdvice(p, script(i))
    ensures Total(waits) <= Repeated(p.maxAttempts - 1, MaxWait(p))
  {
    forall i | 0 <= i < |waits|
      ensures waits[i] <= MaxWait(p)
    {
      assert Fair(draws, i) && NoAdvice(p, script(i));
      OwnWaitBound(p, i + 1, script(i), draws(i));
    }
    MaxWaitPositive(p);
    TotalBound(waits, MaxWait(p), p.maxAttempts - 1);
  }

  /** Without server advice the whole request sleeps at most (max_attempts - 1) * max_backoff * (1 + jitter). */
  lemma SleepBound(p: RetryPolicy, script: Script, draws: Draws, waits: seq<real>, result: Result, n: nat, w: real)
    requires Valid(p) && Decides(p, script, |waits| + 1, result) && WaitsOf(p, script, draws, waits)
    requires forall i: nat :: i < |waits| ==> Fair(draws, i) && NoAdvice(p, script(i))
    requires n == p.maxAttempts - 1 && w == MaxWait(p)
    ensures Total(waits) <= n as real * w
  {
    SleepAtMost(p, script, draws, waits);
    RepeatedIsProduct(n, w);
  }

  lemma MaxWaitPositive(p: RetryPolicy)
    requires Valid(p)
    ensures 0.0 <= MaxWait(p)
  {
    Interval(p.maxBackoff, p.jitter);
  }

  /** Server advice can only lengthen a wait, and there is no cap on it. */
  lemma AdviceLengthens(p: RetryPolicy, attempt: nat, status: int, advice: real, draw: real)
    requires Valid(p) && p.respectRetryAfter && attempt >= 1 && 0.0 <= draw <= 1.0
    ensures var w := WaitAfter(p, attempt, Response(status, Some(advice)), draw);
            var own := WaitAfter(p, attempt, TransportError, draw);
            && w >= own
            && (advice >= own ==> w == advice)
            && (advice < own ==> w == own)
    ensures NoAdvice(p, Response(status, Some(advice))) <==> advice < 0.0
  {
    BackoffInInterval(p, attempt, draw);
  }

  // ---------- when the cap is kept ----------

  /** No wait that the loop can ask for exceeds the cap. */
  ghost predicate CapKept(p: RetryPolicy) {
    forall n: nat, draw: real :: 1 <= n < p.maxAttempts && 0.0 <= draw <= 1.0 ==>
      BackoffForAttempt(p, n, draw).value <= p.maxBackoff
  }

  /** The longest wait of the policy, as a caller can compute it. */
  function LongestWait(p: RetryPolicy): real
    requires p.maxAttempts >= 2
  {
    High(Capped(p, p.maxAttempts - 1), p.jitter)
  }

  lemma LongestWaitIsReached(p: RetryPolicy)
    requires Valid(p) && p.maxAttempts >= 2
    ensures BackoffForAttempt(p, p.maxAttempts - 1, 1.0) == Some(LongestWait(p))
  {
    CappedGrows(p, p.maxAttempts - 1, p.maxAttempts - 1);
    JitteredTop(Capped(p, p.maxAttempts - 1), p.jitter);
  }

  lemma LongestWaitIsLongest(p: RetryPolicy, n: nat, draw: real)
    requires Valid(p) && 1 <= n < p.maxAttempts && 0.0 <= draw <= 1.0
    ensures BackoffForAttempt(p, n, draw).value <= LongestWait(p)
  {
    CappedGrows(p, n, p.maxAttempts - 1);
    JitteredBetween(Capped(p, n), p.jitter, draw);
    HighGrows(Capped(p, n), Capped(p, p.maxAttempts - 1), p.jitter);
  }

  /** Jitter comes after the cap. The cap is kept exactly when the last wait with full jitter is within it. */
  lemma CapKeptIff(p: RetryPolicy)
    requires Valid(p) && p.maxAttempts >= 2
    ensures CapKept(p) <==> LongestWait(p) <= p.maxBackoff
  {
    LongestWaitIsReached(p);
    if CapKept(p) {
      assert BackoffForAttempt(p, p.maxAttempts - 1, 1.0).value <= p.maxBackoff;
    }
    if LongestWait(p) <= p.maxBackoff {
      forall n: nat, draw: real | 1 <= n < p.maxAttempts && 0.0 <= draw <= 1.0
        ensures BackoffForAttempt(p, n, draw).value <= p.maxBackoff
      {
        LongestWaitIsLongest(p, n, draw);
      }
    }
  }

  /** A request whose waits all stay under the cap. */
  predicate WithinCap(p: RetryPolicy, waits: seq<real>) {
    forall i :: 0 <= i < |waits| ==> waits[i] <= p.maxBackoff
  }

  /** Under the condition no request without server advice ever waits longer than the cap. */
  lemma RequestsKeepCap(p: RetryPolicy, script: Script, draws: Draws, waits: seq<real>, result: Result)
    requires Valid(p) && Decides(p, script, |waits| + 1, result) && WaitsOf(p, script, draws, waits)
    requires forall i: nat :: i < |waits| ==> Fair(draws, i) && NoAdvice(p, script(i))
    requires p.maxAttempts >= 2 ==> LongestWait(p) <= p.maxBackoff
    ensures WithinCap(p, waits)
  {
    if p.maxAttempts >= 2 { CapKeptIff(p); }
    forall i | 0 <= i < |waits|
      ensures waits[i] <= p.maxBackoff
    {
      assert Fair(draws, i) && NoAdvice(p, script(i));
      assert BackoffForAttempt(p, i + 1, draws(i)).value <= p.maxBackoff;
    }
  }

  /** Without it there is a request that does: every reply is transient, every draw the largest. */
  lemma CapExceeded(p: RetryPolicy) returns (script: Script, draws: Draws, waits: seq<real>, result: Result)
    requires Valid(p) && p.maxAttempts >= 2 && (p.on5xx || p.onTransportError)
    requires LongestWait(p) > p.maxBackoff
    ensures Decides(p, script, |waits| + 1, result) && WaitsOf(p, script, draws, waits)
    ensures forall i: nat :: i < |waits| ==> Fair(draws, i) && NoAdvice(p, script(i))
    ensures !WithinCap(p, waits)
  {
    var reply := if p.on5xx then Response(503, None) else TransportError;
    script := (i: nat) => reply;
    draws := (i: nat) => 1.0;
    waits := seq(p.maxAttempts - 1, i requires 0 <= i < p.maxAttempts - 1 => WaitAfter(p, i + 1, reply, 1.0));
    result := Verdict(reply);
    assert forall i: nat :: i < |waits| ==> Again(p, script, i);
    var last := p.maxAttempts - 1;
    LongestWaitIsReached(p);
    assert waits[last - 1] == LongestWait(p);
  }

  /** The server could not be reached or answered 5xx. */
  predicate Trouble(script: Script, i: nat) {
    script(i).TransportError? || 500 <= script(i).status <= 599
  }

  lemma DefaultWait(attempt: nat, r: Reply, draw: real)
    requires 1 <= attempt <= 2 && 0.0 <= draw <= 1.0
    ensures var w, c := WaitAfter(DEFAULT, attempt, r, draw), if attempt == 1 then 0.5 else 1.0;
            var advice := if r.Response? && r.retryAfter.Some? then r.retryAfter.value else 0.0;
            && 0.75 * c <= w && advice <= w
            && (advice <= 0.75 * c ==> w <= 1.25 * c)
            && (advice >= 1.25 * c ==> w == advice)
  {
    assert Pow(2.0, 0) == 1.0 && Pow(2.0, 1) == 2.0;
    assert Capped(DEFAULT, 1) == 0.5 && Capped(DEFAULT, 2) == 1.0;
    BackoffInInterval(DEFAULT, attempt, draw);
  }

  /** By default a request that may be repeated is sent three times while there is trouble, with waits of 0.5 s
      and 1 s give or take a quarter, unless the server asks for a longer one. */
  lemma DefaultSends(verb: string, override: Option<bool>, script: Script, draws: Draws, waits: seq<real>, result: Result)
    requires ShouldRetry(verb, override)
    requires forall i: nat :: i < 3 ==> Trouble(script, i) && Fair(draws, i)
    requires Decides(Effective(DEFAULT, verb, override), script, |waits| + 1, result)
    requires WaitsOf(Effective(DEFAULT, verb, override), script, draws, waits)
    ensures |waits| == 2
    ensures forall i :: 0 <= i < 2 ==>
              var c := if i == 0 then 0.5 else 1.0;
              var advice := if script(i).Response? && script(i).retryAfter.Some? then script(i).retryAfter.value else 0.0;
              && 0.75 * c <= waits[i] && advice <= waits[i]
              && (advice <= 0.75 * c ==> waits[i] <= 1.25 * c)
              && (advice >= 1.25 * c ==> waits[i] == advice)
  {
    assert Trouble(script, |waits|);
    assert Fair(draws, 0) && Fair(draws, 1);
    DefaultWait(1, script(0), draws(0));
    DefaultWait(2, script(1), draws(1));
  }

  /** The default policy keeps its cap; with six attempts it would not. */
  lemma DefaultKeepsCap()
    ensures CapKept(DEFAULT)
    ensures Valid(DEFAULT.(maxAttempts := 6)) && !CapKept(DEFAULT.(maxAttempts := 6))
  {
    assert Pow(2.0, 0) == 1.0 && Pow(2.0, 1) == 2.0 && Pow(2.0, 2) == 4.0 && Pow(2.0, 3) == 8.0 && Pow(2.0, 4) == 16.0;
    assert LongestWait(DEFAULT) == 1.25;
    assert LongestWait(DEFAULT.(maxAttempts := 6)) == 10.0;
    CapKeptIff(DEFAULT);
    CapKeptIff(DEFAULT.(maxAttempts := 6));
  }
}
