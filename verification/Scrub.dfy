/** The secret scrubber of the conversation recorder: seven regular expressions applied one after
    the other with `re.sub`.  On ASCII text the predicates below are the classes of Python's `re`
    (`\w`, `\d`, `\s`, `\b`).  The main result is that scrubbing is idempotent. */
module Scrub {
  import Common

  datatype Pattern = ApiKey | StripeKey | SlackToken | AwsKey | GithubToken | IdNumber | BearerToken

  // ----- character classes -----

  predicate IsDigit(c: char) { '0' <= c <= '9' }

  predicate IsUpper(c: char) { 'A' <= c <= 'Z' }

  predicate IsLower(c: char) { 'a' <= c <= 'z' }

  predicate IsAlnum(c: char) { IsDigit(c) || IsUpper(c) || IsLower(c) }

  predicate IsWord(c: char) { IsAlnum(c) || c == '_' }

  predicate IsSpace(c: char) { 9 <= c as int <= 13 || 28 <= c as int <= 32 }

  /** `\b` between position `i - 1` and `i` of `t`, where `before` tells whether a word character
      precedes `t`. */
  predicate Boundary(before: bool, t: string, i: nat)
    requires i <= |t|
  {
    (if i == 0 then before else IsWord(t[i - 1])) != (i < |t| && IsWord(t[i]))
  }

  // ----- the shape of a pattern: head, white space (Bearer only), tail -----

  function HeadLen(k: Pattern): nat {
    match k
    case ApiKey => 3
    case StripeKey => 8
    case SlackToken => 5
    case AwsKey => 4
    case GithubToken => 4
    case IdNumber => 17
    case BearerToken => 6
  }

  predicate HeadAt(k: Pattern, t: string) {
    |t| >= HeadLen(k) &&
    match k
    case ApiKey => t[0] == 's' && t[1] == 'k' && t[2] == '-'
    case StripeKey =>
      && t[0] == 's' && t[1] == 'k' && t[2] == '_' && t[7] == '_'
      && (|| (t[3] == 'l' && t[4] == 'i' && t[5] == 'v' && t[6] == 'e')
          || (t[3] == 't' && t[4] == 'e' && t[5] == 's' && t[6] == 't'))
    case SlackToken =>
      t[0] == 'x' && t[1] == 'o' && t[2] == 'x' && t[3] in {'a', 'b', 'p', 'r'} && t[4] == '-'
    case AwsKey => t[0] == 'A' && t[1] == 'K' && t[2] == 'I' && t[3] == 'A'
    case GithubToken => t[0] == 'g' && t[1] == 'h' && t[2] in {'p', 'o', 'u', 's', 'r'} && t[3] == '_'
    case IdNumber => forall i :: 0 <= i < 17 ==> IsDigit(t[i])
    case BearerToken =>
      && Common.LowerChar(t[0]) == 'b' && Common.LowerChar(t[1]) == 'e' && Common.LowerChar(t[2]) == 'a'
      && Common.LowerChar(t[3]) == 'r' && Common.LowerChar(t[4]) == 'e' && Common.LowerChar(t[5]) == 'r'
  }

  predicate InTail(k: Pattern, c: char) {
    match k
    case ApiKey => IsAlnum(c)
    case StripeKey => IsAlnum(c)
    case SlackToken => IsAlnum(c) || c == '-'
    case AwsKey => IsDigit(c) || IsUpper(c)
    case GithubToken => IsAlnum(c)
    case IdNumber => IsDigit(c) || c == 'X' || c == 'x'
    case BearerToken => IsAlnum(c) || c == '.' || c == '_' || c == '-'
  }

  function MinTail(k: Pattern): nat {
    match k
    case ApiKey => 20
    case StripeKey => 16
    case SlackToken => 10
    case AwsKey => 16
    case GithubToken => 36
    case IdNumber => 1
    case BearerToken => 20
  }

  predicate WithinMax(k: Pattern, m: nat) {
    match k
    case AwsKey => m <= 16
    case GithubToken => m <= 255
    case IdNumber => m <= 1
    case _ => true
  }

  /** The expression starts with `\b`. */
  predicate Anchored(k: Pattern) { !k.BearerToken? }

  /** The expression ends with `\b`. */
  predicate Closed(k: Pattern) { k.AwsKey? || k.GithubToken? || k.IdNumber? }

  function Replacement(k: Pattern): string {
    match k
    case ApiKey => "<REDACTED:api_key>"
    case StripeKey => "<REDACTED:api_key>"
    case SlackToken => "<REDACTED:slack_token>"
    case AwsKey => "<REDACTED:aws_access_key>"
    case GithubToken => "<REDACTED:github_token>"
    case IdNumber => "<REDACTED:id_number>"
    case BearerToken => "Bearer <REDACTED>"
  }

  // ----- what the expression accepts (reference definition) -----

  /** Pattern `k` accepts a prefix of `t` with `g` white space characters and `m` tail characters. */
  predicate Fits(k: Pattern, before: bool, t: string, g: nat, m: nat) {
    && HeadLen(k) + g + m <= |t|
    && (Anchored(k) ==> Boundary(before, t, 0))
    && HeadAt(k, t)
    && (if k.BearerToken? then g >= 1 else g == 0)
    && (forall i {:trigger IsSpace(t[i])} :: HeadLen(k) <= i < HeadLen(k) + g ==> IsSpace(t[i]))
    && (forall i {:trigger InTail(k, t[i])} :: HeadLen(k) + g <= i < HeadLen(k) + g + m ==> InTail(k, t[i]))
    && MinTail(k) <= m && WithinMax(k, m)
    && (Closed(k) ==> Boundary(before, t, HeadLen(k) + g + m))
  }

  // ----- the greedy matcher -----

  /** Length of the longest run of white space starting at `t[i]`. */
  function Spaces(t: string, i: nat): (n: nat)
    requires i <= |t|
    ensures i + n <= |t|
    ensures forall j {:trigger IsSpace(t[j])} :: i <= j < i + n ==> IsSpace(t[j])
    ensures i + n < |t| ==> !IsSpace(t[i + n])
    decreases |t| - i
  {
    if i < |t| && IsSpace(t[i]) then 1 + Spaces(t, i + 1) else 0
  }

  /** Length of the longest run of tail characters starting at `t[i]`. */
  function TailRun(k: Pattern, t: string, i: nat): (n: nat)
    requires i <= |t|
    ensures i + n <= |t|
    ensures forall j {:trigger InTail(k, t[j])} :: i <= j < i + n ==> InTail(k, t[j])
    ensures i + n < |t| ==> !InTail(k, t[i + n])
    decreases |t| - i
  {
    if i < |t| && InTail(k, t[i]) then 1 + TailRun(k, t, i + 1) else 0
  }

  /** Greedy repetition with backtracking: the largest admissible tail of at most `m` characters
      after position `a`, or 0 when there is none. */
  function Backtrack(k: Pattern, t: string, a: nat, m: nat): (r: nat)
    requires a + m <= |t|
    ensures r <= m
    ensures r > 0 ==> MinTail(k) <= r && WithinMax(k, r) && (Closed(k) ==> Boundary(false, t, a + r))
    ensures forall j :: r < j <= m && MinTail(k) <= j && WithinMax(k, j) && Closed(k) ==> !Boundary(false, t, a + j)
    ensures forall j :: r < j <= m && MinTail(k) <= j && WithinMax(k, j) ==> Closed(k)
  {
    if m < MinTail(k) then 0
    else if WithinMax(k, m) && (Closed(k) ==> Boundary(false, t, a + m)) then m
    else Backtrack(k, t, a, m - 1)
  }

  /** Length of the match of `k` at the start of `t`, 0 when there is none. */
  function MatchLen(k: Pattern, before: bool, t: string): (n: nat)
    ensures n <= |t|
  {
    if !HeadAt(k, t) || (Anchored(k) && !Boundary(before, t, 0)) then 0
    else
      var g := if k.BearerToken? then Spaces(t, HeadLen(k)) else 0;
      if k.BearerToken? && g == 0 then 0
      else
        var a := HeadLen(k) + g;
        var m := Backtrack(k, t, a, TailRun(k, t, a));
        if m == 0 then 0 else a + m
  }

  /** The greedy matcher returns an accepted prefix; `MatchLenComplete` says it is the longest one. */
  lemma MatchLenSound(k: Pattern, before: bool, t: string) returns (g: nat, m: nat)
    requires MatchLen(k, before, t) > 0
    ensures Fits(k, before, t, g, m) && MatchLen(k, before, t) == HeadLen(k) + g + m
  {
    g := if k.BearerToken? then Spaces(t, HeadLen(k)) else 0;
    m := MatchedTail(k, before, t, HeadLen(k) + g);
    assert HeadAt(k, t) && m > 0;
  }

  lemma MatchedTail(k: Pattern, before: bool, t: string, a: nat) returns (m: nat)
    requires 0 < a <= |t|
    ensures m == Backtrack(k, t, a, TailRun(k, t, a)) && a + m <= |t|
    ensures m > 0 ==>
              && MinTail(k) <= m && WithinMax(k, m)
              && (forall i {:trigger InTail(k, t[i])} :: a <= i < a + m ==> InTail(k, t[i]))
              && (Closed(k) ==> Boundary(before, t, a + m))
  {
    m := Backtrack(k, t, a, TailRun(k, t, a));
    assert Boundary(before, t, a + m) == Boundary(false, t, a + m);
  }

  lemma SpacesIs(t: string, i: nat, g: nat)
    requires i + g < |t| && !IsSpace(t[i + g])
    requires forall j {:trigger IsSpace(t[j])} :: i <= j < i + g ==> IsSpace(t[j])
    ensures Spaces(t, i) == g
  {
    var g' := Spaces(t, i);
    assert g' <= g;
    assert g <= g';
  }

  lemma BacktrackFinds(k: Pattern, before: bool, t: string, a: nat, m: nat)
    requires 0 < a && 0 < m && a + m <= |t| && MinTail(k) <= m && WithinMax(k, m)
    requires forall i {:trigger InTail(k, t[i])} :: a <= i < a + m ==> InTail(k, t[i])
    requires Closed(k) ==> Boundary(before, t, a + m)
    ensures Backtrack(k, t, a, TailRun(k, t, a)) >= m
  {
    var r := TailRun(k, t, a);
    assert m <= r;
    assert Boundary(before, t, a + m) == Boundary(false, t, a + m);
  }

  lemma MatchLenIs(k: Pattern, before: bool, t: string, g: nat)
    requires HeadAt(k, t) && (Anchored(k) ==> Boundary(before, t, 0)) && HeadLen(k) <= |t|
    requires if k.BearerToken? then g == Spaces(t, HeadLen(k)) > 0 else g == 0
    ensures var a := HeadLen(k) + g;
            MatchLen(k, before, t) ==
            if Backtrack(k, t, a, TailRun(k, t, a)) == 0 then 0 else a + Backtrack(k, t, a, TailRun(k, t, a))
  {
  }

  lemma MatchLenComplete(k: Pattern, before: bool, t: string, g: nat, m: nat)
    requires Fits(k, before, t, g, m)
    ensures MatchLen(k, before, t) >= HeadLen(k) + g + m
  {
    assert InTail(k, t[HeadLen(k) + g]);
    if k.BearerToken? { SpacesIs(t, HeadLen(k), g); }
    BacktrackFinds(k, before, t, HeadLen(k) + g, m);
    MatchLenIs(k, before, t, g);
  }

  /** A match starts with an alphanumeric character and is never followed by one. */
  lemma MatchEdges(k: Pattern, before: bool, t: string)
    requires MatchLen(k, before, t) > 0
    ensures IsAlnum(t[0])
    ensures Anchored(k) ==> !before
    ensures var n := MatchLen(k, before, t); n < |t| ==> !IsAlnum(t[n])
  {
    assert IsAlnum(t[0]);
    var n := MatchLen(k, before, t);
    var g := if k.BearerToken? then Spaces(t, HeadLen(k)) else 0;
    var a := HeadLen(k) + g;
    var r := TailRun(k, t, a);
    var m := Backtrack(k, t, a, r);
    if n < |t| {
      if Closed(k) {
        assert InTail(k, t[n - 1]);
        assert IsWord(t[n - 1]);
        assert !IsWord(t[n]);
      } else {
        assert m == r;
      }
    }
  }

  // ----- substitution -----

  /** `re.sub`: replace the leftmost matches, left to right, without overlaps. */
  function Sub(k: Pattern, before: bool, t: string): string
    decreases |t|
  {
    if t == [] then []
    else
      var n := MatchLen(k, before, t);
      if n == 0 then [t[0]] + Sub(k, IsWord(t[0]), t[1..])
      else Replacement(k) + Sub(k, IsWord(t[n - 1]), t[n..])
  }

  // ----- what a substitution keeps -----

  /** A text cut into kept characters and secrets. */
  datatype Piece = Kept(c: char) | Secret(text: string)

  function Original(ps: seq<Piece>): string {
    if ps == [] then [] else (if ps[0].Kept? then [ps[0].c] else ps[0].text) + Original(ps[1..])
  }

  function Redacted(k: Pattern, ps: seq<Piece>): string {
    if ps == [] then [] else (if ps[0].Kept? then [ps[0].c] else Replacement(k)) + Redacted(k, ps[1..])
  }

  ghost predicate NoneFits(k: Pattern, before: bool, t: string) { forall g, m :: !Fits(k, before, t, g, m) }

  ghost predicate LongestFit(k: Pattern, before: bool, t: string, n: nat) {
    && (exists g, m :: Fits(k, before, t, g, m) && n == HeadLen(k) + g + m)
    && (forall g, m :: Fits(k, before, t, g, m) ==> HeadLen(k) + g + m <= n)
  }

  /** The cut of the expression, from left to right: a character is kept when nothing is accepted at its
      position, and otherwise the longest accepted text is a secret. */
  ghost predicate IsCut(k: Pattern, before: bool, ps: seq<Piece>)
    decreases |ps|
  {
    ps == [] ||
    match ps[0]
    case Kept(c) => NoneFits(k, before, Original(ps)) && IsCut(k, IsWord(c), ps[1..])
    case Secret(x) =>
      x != [] && LongestFit(k, before, Original(ps), |x|) && IsCut(k, IsWord(x[|x| - 1]), ps[1..])
  }

  lemma MatchLenIff(k: Pattern, before: bool, t: string)
    ensures NoneFits(k, before, t) <==> MatchLen(k, before, t) == 0
    ensures MatchLen(k, before, t) > 0 ==> LongestFit(k, before, t, MatchLen(k, before, t))
  {
    if MatchLen(k, before, t) > 0 {
      var g, m := MatchLenSound(k, before, t);
    }
    forall g, m | Fits(k, before, t, g, m)
      ensures 0 < HeadLen(k) + g + m <= MatchLen(k, before, t)
    {
      MatchLenComplete(k, before, t, g, m);
    }
  }

  lemma LongestIsMatchLen(k: Pattern, before: bool, t: string, n: nat)
    requires LongestFit(k, before, t, n)
    ensures MatchLen(k, before, t) == n > 0
  {
    var g, m :| Fits(k, before, t, g, m) && n == HeadLen(k) + g + m;
    MatchLenComplete(k, before, t, g, m);
    var g', m' := MatchLenSound(k, before, t);
  }

  lemma SubMatch(k: Pattern, before: bool, t: string)
    requires t != [] && MatchLen(k, before, t) > 0
    ensures var n := MatchLen(k, before, t); Sub(k, before, t) == Replacement(k) + Sub(k, IsWord(t[n - 1]), t[n..])
  {
  }

  lemma SubNoMatch(k: Pattern, before: bool, t: string)
    requires t != [] && MatchLen(k, before, t) == 0
    ensures Sub(k, before, t) == [t[0]] + Sub(k, IsWord(t[0]), t[1..])
  {
  }

  lemma Cons(p: Piece, rest: seq<Piece>)
    ensures ([p] + rest)[1..] == rest
    ensures Original([p] + rest) == (if p.Kept? then [p.c] else p.text) + Original(rest)
  {
  }

  /** One more kept character. */
  lemma KeepOne(k: Pattern, before: bool, t: string, c: char, rest: seq<Piece>)
    requires t == [c] + Original(rest) && NoneFits(k, before, t) && IsCut(k, IsWord(c), rest)
    ensures Original([Kept(c)] + rest) == t && IsCut(k, before, [Kept(c)] + rest)
  {
    Cons(Kept(c), rest);
  }

  /** One more secret. */
  lemma HideOne(k: Pattern, before: bool, t: string, x: string, rest: seq<Piece>)
    requires t == x + Original(rest) && x != [] && LongestFit(k, before, t, |x|) && IsCut(k, IsWord(x[|x| - 1]), rest)
    ensures Original([Secret(x)] + rest) == t && IsCut(k, before, [Secret(x)] + rest)
  {
    Cons(Secret(x), rest);
  }

  lemma {:induction false} CutExists(k: Pattern, before: bool, t: string) returns (ps: seq<Piece>)
    ensures Original(ps) == t && IsCut(k, before, ps)
    decreases |t|
  {
    ps := [];
    if t != [] {
      if NoneFits(k, before, t) {
        ps := CutExists(k, IsWord(t[0]), t[1..]);
        KeepOne(k, before, t, t[0], ps);
        ps := [Kept(t[0])] + ps;
      } else {
        var x, rest := LongestSecret(k, before, t);
        ps := CutExists(k, IsWord(x[|x| - 1]), rest);
        HideOne(k, before, t, x, ps);
        ps := [Secret(x)] + ps;
      }
    }
  }

  lemma LongestSecret(k: Pattern, before: bool, t: string) returns (x: string, rest: string)
    requires !NoneFits(k, before, t)
    ensures t == x + rest && x != [] && LongestFit(k, before, t, |x|)
  {
    MatchLenIff(k, before, t);
    x, rest := t[..MatchLen(k, before, t)], t[MatchLen(k, before, t)..];
  }

  lemma CutKept(k: Pattern, before: bool, c: char, rest: seq<Piece>)
    requires NoneFits(k, before, [c] + Original(rest)) && Redacted(k, rest) == Sub(k, IsWord(c), Original(rest))
    ensures [c] + Redacted(k, rest) == Sub(k, before, [c] + Original(rest))
  {
    var t := [c] + Original(rest);
    MatchLenIff(k, before, t);
    SubNoMatch(k, before, t);
    assert t[1..] == Original(rest);
  }

  lemma CutSecret(k: Pattern, before: bool, x: string, rest: seq<Piece>)
    requires x != [] && LongestFit(k, before, x + Original(rest), |x|)
    requires Redacted(k, rest) == Sub(k, IsWord(x[|x| - 1]), Original(rest))
    ensures Replacement(k) + Redacted(k, rest) == Sub(k, before, x + Original(rest))
  {
    LongestIsMatchLen(k, before, x + Original(rest), |x|);
    SubSecret(k, before, x, Original(rest));
  }

  lemma SubSecret(k: Pattern, before: bool, x: string, u: string)
    requires MatchLen(k, before, x + u) == |x| > 0
    ensures Sub(k, before, x + u) == Replacement(k) + Sub(k, IsWord(x[|x| - 1]), u)
  {
    var t := x + u;
    SubMatch(k, before, t);
    assert t[|x|..] == u && t[|x| - 1] == x[|x| - 1];
  }

  lemma {:induction false} CutIsSub(k: Pattern, before: bool, ps: seq<Piece>)
    requires IsCut(k, before, ps)
    ensures Redacted(k, ps) == Sub(k, before, Original(ps))
    decreases |ps|
  {
    if ps != [] {
      match ps[0]
      case Kept(c) =>
        CutIsSub(k, IsWord(c), ps[1..]);
        CutKept(k, before, c, ps[1..]);
      case Secret(x) =>
        CutIsSub(k, IsWord(x[|x| - 1]), ps[1..]);
        CutSecret(k, before, x, ps[1..]);
    }
  }

  /** A substitution keeps every character outside the secrets, in order, and puts the replacement in the
      place of each secret: its result is that of the one cut of the text. */
  lemma SubIff(k: Pattern, before: bool, t: string, u: string)
    ensures u == Sub(k, before, t) <==> exists ps :: Original(ps) == t && IsCut(k, before, ps) && Redacted(k, ps) == u
  {
    var cut := CutExists(k, before, t);
    forall ps | Original(ps) == t && IsCut(k, before, ps)
      ensures Redacted(k, ps) == Sub(k, before, t)
    {
      CutIsSub(k, before, ps);
    }
  }

  /** The expression accepts all of `t`. */
  ghost predicate Whole(k: Pattern, t: string) { exists g, m :: Fits(k, false, t, g, m) && HeadLen(k) + g + m == |t| }

  /** A text that is accepted as a whole is replaced as a whole. */
  lemma WholeSecret(k: Pattern, t: string)
    requires Whole(k, t)
    ensures Sub(k, false, t) == Replacement(k)
  {
    var g, m :| Fits(k, false, t, g, m) && HeadLen(k) + g + m == |t|;
    LongestIsMatchLen(k, false, t, |t|);
    assert t + [] == t;
    SubSecret(k, false, t, []);
  }

  // The seven shapes, spelled out: exactly these texts are secrets as a whole.

  predicate Alnum(c: char) { '0' <= c <= '9' || 'A' <= c <= 'Z' || 'a' <= c <= 'z' }

  predicate IsApiKey(t: string) {
    |t| >= 23 && t[0] == 's' && t[1] == 'k' && t[2] == '-' && forall i :: 3 <= i < |t| ==> Alnum(t[i])
  }

  lemma ApiKeyShape(t: string)
    ensures IsApiKey(t) <==> Whole(ApiKey, t)
    ensures Replacement(ApiKey) == "<REDACTED:api_key>"
  {
    if IsApiKey(t) { assert Fits(ApiKey, false, t, 0, |t| - 3); }
    if Whole(ApiKey, t) {
      forall i | 3 <= i < |t|
        ensures Alnum(t[i])
      {
        assert InTail(ApiKey, t[i]);
      }
    }
  }

  predicate IsStripeKey(t: string) {
    && |t| >= 24 && t[0] == 's' && t[1] == 'k' && t[2] == '_' && t[7] == '_'
    && ((t[3] == 'l' && t[4] == 'i' && t[5] == 'v' && t[6] == 'e') ||
        (t[3] == 't' && t[4] == 'e' && t[5] == 's' && t[6] == 't'))
    && forall i :: 8 <= i < |t| ==> Alnum(t[i])
  }

  lemma StripeKeyShape(t: string)
    ensures IsStripeKey(t) <==> Whole(StripeKey, t)
    ensures Replacement(StripeKey) == "<REDACTED:api_key>"
  {
    if IsStripeKey(t) { assert Fits(StripeKey, false, t, 0, |t| - 8); }
    if Whole(StripeKey, t) {
      forall i | 8 <= i < |t|
        ensures Alnum(t[i])
      {
        assert InTail(StripeKey, t[i]);
      }
    }
  }

  predicate IsSlackToken(t: string) {
    && |t| >= 15 && t[0] == 'x' && t[1] == 'o' && t[2] == 'x' && t[4] == '-'
    && (t[3] == 'a' || t[3] == 'b' || t[3] == 'p' || t[3] == 'r')
    && forall i :: 5 <= i < |t| ==> Alnum(t[i]) || t[i] == '-'
  }

  lemma SlackTokenShape(t: string)
    ensures IsSlackToken(t) <==> Whole(SlackToken, t)
    ensures Replacement(SlackToken) == "<REDACTED:slack_token>"
  {
    if IsSlackToken(t) { assert Fits(SlackToken, false, t, 0, |t| - 5); }
    if Whole(SlackToken, t) {
      forall i | 5 <= i < |t|
        ensures Alnum(t[i]) || t[i] == '-'
      {
        assert InTail(SlackToken, t[i]);
      }
    }
  }

  predicate IsAwsKey(t: string) {
    && |t| == 20 && t[0] == 'A' && t[1] == 'K' && t[2] == 'I' && t[3] == 'A'
    && forall i :: 4 <= i < 20 ==> '0' <= t[i] <= '9' || 'A' <= t[i] <= 'Z'
  }

  lemma AwsKeyShape(t: string)
    ensures IsAwsKey(t) <==> Whole(AwsKey, t)
    ensures Replacement(AwsKey) == "<REDACTED:aws_access_key>"
  {
    if IsAwsKey(t) { assert Fits(AwsKey, false, t, 0, 16); }
    if Whole(AwsKey, t) {
      forall i | 4 <= i < |t|
        ensures '0' <= t[i] <= '9' || 'A' <= t[i] <= 'Z'
      {
        assert InTail(AwsKey, t[i]);
      }
    }
  }

  predicate IsGithubToken(t: string) {
    && 40 <= |t| <= 259 && t[0] == 'g' && t[1] == 'h' && t[3] == '_'
    && (t[2] == 'p' || t[2] == 'o' || t[2] == 'u' || t[2] == 's' || t[2] == 'r')
    && forall i :: 4 <= i < |t| ==> Alnum(t[i])
  }

  lemma GithubTokenShape(t: string)
    ensures IsGithubToken(t) <==> Whole(GithubToken, t)
    ensures Replacement(GithubToken) == "<REDACTED:github_token>"
  {
    if IsGithubToken(t) { assert Fits(GithubToken, false, t, 0, |t| - 4); }
    if Whole(GithubToken, t) {
      forall i | 4 <= i < |t|
        ensures Alnum(t[i])
      {
        assert InTail(GithubToken, t[i]);
      }
    }
  }

  predicate IsIdNumber(t: string) {
    && |t| == 18 && (forall i :: 0 <= i < 17 ==> '0' <= t[i] <= '9')
    && ('0' <= t[17] <= '9' || t[17] == 'X' || t[17] == 'x')
  }

  lemma IdNumberShape(t: string)
    ensures IsIdNumber(t) <==> Whole(IdNumber, t)
    ensures Replacement(IdNumber) == "<REDACTED:id_number>"
  {
    if IsIdNumber(t) { assert Fits(IdNumber, false, t, 0, 1); }
    if Whole(IdNumber, t) {
      forall i | 17 <= i < |t|
        ensures '0' <= t[i] <= '9' || t[i] == 'X' || t[i] == 'x'
      {
        assert InTail(IdNumber, t[i]);
      }
    }
  }

  /** White space is that of Python's `re` on ASCII text. */
  predicate White(c: char) { c == ' ' || '\t' <= c <= '\r' || 28 <= c as int <= 31 }

  predicate IsBearerToken(t: string, gap: nat) {
    && gap >= 1 && |t| >= 26 + gap
    && (t[0] == 'B' || t[0] == 'b') && (t[1] == 'E' || t[1] == 'e') && (t[2] == 'A' || t[2] == 'a')
    && (t[3] == 'R' || t[3] == 'r') && (t[4] == 'E' || t[4] == 'e') && (t[5] == 'R' || t[5] == 'r')
    && (forall i :: 6 <= i < 6 + gap ==> White(t[i]))
    && forall i :: 6 + gap <= i < |t| ==> Alnum(t[i]) || t[i] == '.' || t[i] == '_' || t[i] == '-'
  }

  lemma BearerTokenShape(t: string)
    ensures (exists gap :: IsBearerToken(t, gap)) <==> Whole(BearerToken, t)
    ensures Replacement(BearerToken) == "Bearer <REDACTED>"
  {
    if gap :| IsBearerToken(t, gap) { BearerFits(t, gap); }
    if Whole(BearerToken, t) {
      var g, m :| Fits(BearerToken, false, t, g, m) && HeadLen(BearerToken) + g + m == |t|;
      FitsIsBearer(t, g, m);
    }
  }

  lemma BearerFits(t: string, gap: nat)
    requires IsBearerToken(t, gap)
    ensures Fits(BearerToken, false, t, gap, |t| - 6 - gap)
  {
  }

  lemma FitsIsBearer(t: string, g: nat, m: nat)
    requires Fits(BearerToken, false, t, g, m) && HeadLen(BearerToken) + g + m == |t|
    ensures IsBearerToken(t, g)
  {
    forall i | 6 <= i < 6 + g
      ensures White(t[i])
    {
      assert IsSpace(t[i]);
    }
    forall i | 6 + g <= i < |t|
      ensures Alnum(t[i]) || t[i] == '.' || t[i] == '_' || t[i] == '-'
    {
      assert InTail(BearerToken, t[i]);
    }
  }

  /** How long the secrets of each shape are. */
  lemma SecretSizes(k: Pattern, before: bool, t: string, n: nat)
    requires LongestFit(k, before, t, n)
    ensures match k
            case ApiKey => n >= 23
            case StripeKey => n >= 24
            case SlackToken => n >= 15
            case AwsKey => n == 20
            case GithubToken => 40 <= n <= 259
            case IdNumber => n == 18
            case BearerToken => n >= 27
  {
  }

  /** No match of `k` anywhere in `t`. */
  predicate Clean(k: Pattern, before: bool, t: string)
    decreases |t|
  {
    t == [] || (MatchLen(k, before, t) == 0 && Clean(k, IsWord(t[0]), t[1..]))
  }

  lemma {:induction false} CleanIsUntouched(k: Pattern, before: bool, t: string)
    requires Clean(k, before, t)
    ensures Sub(k, before, t) == t
    decreases |t|
  {
    if t != [] {
      CleanIsUntouched(k, IsWord(t[0]), t[1..]);
    }
  }

  lemma {:induction false} CleanDrop(k: Pattern, before: bool, t: string, n: nat)
    requires Clean(k, before, t) && 0 < n <= |t|
    ensures Clean(k, IsWord(t[n - 1]), t[n..])
    decreases n
  {
    if n > 1 {
      CleanDrop(k, IsWord(t[0]), t[1..], n - 1);
      assert t[1..][n - 1..] == t[n..];
    }
  }

  /** The preceding character matters only to a text that starts with an alphanumeric one. */
  lemma CleanOtherContext(k: Pattern, before: bool, other: bool, t: string)
    requires Clean(k, before, t)
    requires t == [] || !IsAlnum(t[0])
    ensures Clean(k, other, t)
  {
    if t != [] && MatchLen(k, other, t) > 0 {
      MatchEdges(k, other, t);
      assert false;
    }
  }

  // ----- where a substitution first changes the text -----

  /** Position of the first match, or `|t|`. */
  function Hit(k: Pattern, before: bool, t: string): (h: nat)
    ensures h <= |t|
    decreases |t|
  {
    if t == [] || MatchLen(k, before, t) > 0 then 0 else 1 + Hit(k, IsWord(t[0]), t[1..])
  }

  function WordBefore(before: bool, t: string, i: nat): bool
    requires i <= |t|
  {
    if i == 0 then before else IsWord(t[i - 1])
  }

  lemma {:induction false} HitIsMatch(k: Pattern, before: bool, t: string)
    requires Hit(k, before, t) < |t|
    ensures var h := Hit(k, before, t); MatchLen(k, WordBefore(before, t, h), t[h..]) > 0
    decreases |t|
  {
    var h := Hit(k, before, t);
    if h == 0 {
      assert t[0..] == t;
    } else {
      HitIsMatch(k, IsWord(t[0]), t[1..]);
      assert t[1..][h - 1..] == t[h..];
      assert WordBefore(before, t, h) == WordBefore(IsWord(t[0]), t[1..], h - 1);
    }
  }

  lemma SubPassesOver(k: Pattern, before: bool, t: string)
    requires t != [] && MatchLen(k, before, t) == 0
    ensures Sub(k, before, t) == [t[0]] + Sub(k, IsWord(t[0]), t[1..])
    ensures Hit(k, before, t) == 1 + Hit(k, IsWord(t[0]), t[1..])
  {
  }

  lemma SubReplaces(k: Pattern, before: bool, t: string) returns (rest: string)
    requires t != [] && MatchLen(k, before, t) > 0
    ensures Hit(k, before, t) == 0 && Sub(k, before, t) == Replacement(k) + rest
  {
    rest := Sub(k, IsWord(t[MatchLen(k, before, t) - 1]), t[MatchLen(k, before, t)..]);
  }

  /** `u` is `t` with the text from position `h` on replaced, or `t` itself when `h` is its end. */
  predicate FirstChange(t: string, u: string, h: nat, r: string, rest: string) {
    h <= |t| && u == if h == |t| then t else t[..h] + r + rest
  }

  lemma ChangeShifts(t: string, u: string, h: nat, r: string, rest: string)
    requires t != [] && FirstChange(t[1..], u, h, r, rest)
    ensures FirstChange(t, [t[0]] + u, h + 1, r, rest)
  {
    SubShift(t, h + 1, r, rest);
  }

  lemma ChangeAtStart(t: string, r: string, rest: string)
    requires t != []
    ensures FirstChange(t, r + rest, 0, r, rest)
  {
    assert t[..0] + r == r;
  }

  /** The text is unchanged up to the first match, which the replacement follows. */
  lemma {:induction false} SubAtHit(k: Pattern, before: bool, t: string) returns (rest: string)
    ensures FirstChange(t, Sub(k, before, t), Hit(k, before, t), Replacement(k), rest)
    decreases |t|
  {
    if t == [] {
      rest := [];
    } else if MatchLen(k, before, t) > 0 {
      rest := SubReplaces(k, before, t);
      ChangeAtStart(t, Replacement(k), rest);
    } else {
      rest := SubAtHit(k, IsWord(t[0]), t[1..]);
      SubPassesOver(k, before, t);
      ChangeShifts(t, Sub(k, IsWord(t[0]), t[1..]), Hit(k, IsWord(t[0]), t[1..]), Replacement(k), rest);
    }
  }

  lemma SubShift(t: string, h: nat, r: string, rest: string)
    requires 0 < h <= |t|
    ensures [t[0]] + (t[1..][..h - 1] + r + rest) == t[..h] + r + rest
    ensures [t[0]] + t[1..] == t
  {
    assert [t[0]] + t[1..][..h - 1] == t[..h];
  }

  lemma HeadChar(k: Pattern, t: string, i: nat)
    requires HeadAt(k, t) && i < HeadLen(k)
    ensures t[i] != '<' && !IsSpace(t[i])
    ensures i > 0 ==> t[i] != 'B'
  {
  }

  /** Every character of a match is a head, white space or tail character. */
  lemma FitChar(k: Pattern, before: bool, t: string, g: nat, m: nat, i: nat)
    requires Fits(k, before, t, g, m) && i < HeadLen(k) + g + m
    ensures t[i] != '<'
    ensures i > 0 && t[i] == 'B' ==> i >= HeadLen(k) + g
  {
    if i < HeadLen(k) { HeadChar(k, t, i); }
    else if i < HeadLen(k) + g { assert IsSpace(t[i]); }
    else { assert InTail(k, t[i]); }
  }

  lemma HeadPrefix(k: Pattern, x: string, y: string)
    requires HeadAt(k, y) && HeadLen(k) <= |x| && x[..HeadLen(k)] == y[..HeadLen(k)]
    ensures HeadAt(k, x)
  {
    forall i | 0 <= i < HeadLen(k) ensures x[i] == y[i] {
      assert x[..HeadLen(k)][i] == y[..HeadLen(k)][i];
    }
  }

  /** A match that ends before the first difference is a match of the original text. */
  lemma FitsBeforeDifference(q: Pattern, before: bool, x: string, y: string, h: nat, g: nat, m: nat)
    requires h <= |x| && h <= |y| && x[..h] == y[..h]
    requires Fits(q, before, y, g, m) && HeadLen(q) + g + m <= h
    requires HeadLen(q) + g + m == h ==> !Closed(q) || (h < |x| ==> !IsWord(x[h]))
    ensures Fits(q, before, x, g, m)
  {
    forall i | 0 <= i < h ensures x[i] == y[i] { assert x[..h][i] == y[..h][i]; }
    var n := HeadLen(q) + g + m;
    assert x[..HeadLen(q)] == y[..HeadLen(q)];
    HeadPrefix(q, x, y);
    assert InTail(q, y[n - 1]);
  }

  // ----- a substitution creates no match in the text it keeps -----

  /** The text up to the first match, then the replacement: the first `h` characters are those of `x`. */
  predicate Replaced(p: Pattern, x: string, y: string, h: nat, rest: string)
  {
    && 0 < h < |x| && y == x[..h] + Replacement(p) + rest
    && MatchLen(p, IsWord(x[h - 1]), x[h..]) > 0
  }

  lemma AngleStops(q: Pattern, before: bool, y: string, h: nat, g: nat, m: nat)
    requires Fits(q, before, y, g, m) && 0 < h < |y| && y[h] == '<'
    ensures HeadLen(q) + g + m <= h
    ensures HeadLen(q) + g + m == h && Closed(q) ==> IsWord(y[h - 1])
  {
    var n := HeadLen(q) + g + m;
    if n > h { FitChar(q, before, y, g, m, h); assert false; }
    assert InTail(q, y[n - 1]);
  }

  /** Replacements that start with `<`: a new match would have to end before them. */
  lemma OldMatchAngle(q: Pattern, p: Pattern, before: bool, x: string, y: string, h: nat, rest: string, g: nat, m: nat)
    requires Replaced(p, x, y, h, rest) && !p.BearerToken?
    requires Fits(q, before, y, g, m)
    ensures Fits(q, before, x, g, m)
  {
    assert y[h] == '<' && y[..h] == x[..h] && y[h - 1] == x[h - 1];
    AngleStops(q, before, y, h, g, m);
    MatchEdges(p, IsWord(x[h - 1]), x[h..]);
    FitsBeforeDifference(q, before, x, y, h, g, m);
  }

  lemma BearerLetters(t: string, b: bool)
    requires MatchLen(BearerToken, b, t) > 0
    ensures |t| > 6 && IsSpace(t[6])
    ensures forall i :: 0 <= i < 6 ==> IsUpper(t[i]) || IsLower(t[i])
  {
    var g, m := MatchLenSound(BearerToken, b, t);
  }

  /** `Bearer <REDACTED>` keeps its first word, which may be the end of another match. */
  lemma OldMatchBearer(q: Pattern, before: bool, x: string, y: string, h: nat, rest: string, g: nat, m: nat)
    requires Replaced(BearerToken, x, y, h, rest)
    requires Fits(q, before, y, g, m)
    ensures Fits(q, before, x, g, m)
  {
    var n := HeadLen(q) + g + m;
    OverlapText(x, y, h, rest);
    if n <= h {
      assert InTail(q, y[n - 1]);
      assert n == h ==> !Closed(q);
      FitsBeforeDifference(q, before, x, y, h, g, m);
    } else {
      OverlapTail(q, before, y, h, g, m);
      OverlapBearer(q, before, x, y, h, g, m);
    }
  }

  /** A match of the new text that reaches into `Bearer ` does so with its tail and stops at the space. */
  lemma OverlapTail(q: Pattern, before: bool, y: string, h: nat, g: nat, m: nat)
    requires Fits(q, before, y, g, m) && 0 < h < HeadLen(q) + g + m
    requires h + 6 < |y| && y[h] == 'B' && y[h + 1] == 'e' && y[h + 2] == 'a' && y[h + 3] == 'r'
    requires y[h + 4] == 'e' && y[h + 5] == 'r' && y[h + 6] == ' '
    ensures HeadLen(q) + g <= h && HeadLen(q) + g + m <= h + 6
    ensures !q.IdNumber? && !q.AwsKey?
    ensures Closed(q) ==> HeadLen(q) + g + m == h + 6
  {
    var n := HeadLen(q) + g + m;
    FitChar(q, before, y, g, m, h);
    assert InTail(q, y[h]);
    assert !InTail(q, y[h + 6]);
    assert n <= h + 6;
    assert q.AwsKey? ==> !InTail(q, y[h + 1]);
  }

  lemma OverlapText(x: string, y: string, h: nat, rest: string)
    requires Replaced(BearerToken, x, y, h, rest)
    ensures x[..h] == y[..h] && |x| > h + 6 && |y| > h + 6
    ensures forall i :: h <= i < h + 6 ==> IsUpper(x[i]) || IsLower(x[i])
    ensures IsSpace(x[h + 6])
    ensures y[h] == 'B' && y[h + 1] == 'e' && y[h + 2] == 'a' && y[h + 3] == 'r' && y[h + 4] == 'e'
            && y[h + 5] == 'r' && y[h + 6] == ' '
  {
    var z := x[h..];
    BearerLetters(z, IsWord(x[h - 1]));
    assert forall i :: 0 <= i < 7 ==> z[i] == x[h + i];
    assert y == x[..h] + ("Bearer <REDACTED>" + rest);
  }

  lemma OverlapBearer(q: Pattern, before: bool, x: string, y: string, h: nat, g: nat, m: nat)
    requires 0 < h && |x| > h + 6 && |y| > h + 6 && x[..h] == y[..h]
    requires forall i :: h <= i < h + 6 ==> IsUpper(x[i]) || IsLower(x[i])
    requires IsSpace(x[h + 6])
    requires Fits(q, before, y, g, m) && HeadLen(q) + g <= h < HeadLen(q) + g + m <= h + 6
    requires !q.IdNumber? && !q.AwsKey?
    requires Closed(q) ==> HeadLen(q) + g + m == h + 6
    ensures Fits(q, before, x, g, m)
  {
    var a := HeadLen(q) + g;
    var n := a + m;
    forall i | 0 <= i < h ensures x[i] == y[i] { assert x[..h][i] == y[..h][i]; }
    assert x[..HeadLen(q)] == y[..HeadLen(q)];
    HeadPrefix(q, x, y);
    forall i | a <= i < n ensures InTail(q, x[i]) {
      if i < h { assert InTail(q, y[i]); }
    }
  }

  /** Whatever matches at a kept character after the substitution matched there before it. */
  lemma {:induction false} OldMatch(q: Pattern, p: Pattern, before: bool, t: string, g: nat, m: nat)
    requires t != [] && MatchLen(p, before, t) == 0
    requires Fits(q, before, Sub(p, before, t), g, m)
    ensures Fits(q, before, t, g, m)
  {
    var h := Hit(p, before, t);
    var rest := SubAtHit(p, before, t);
    if h < |t| {
      HitIsMatch(p, before, t);
      if p.BearerToken? {
        OldMatchBearer(q, before, t, Sub(p, before, t), h, rest, g, m);
      } else {
        OldMatchAngle(q, p, before, t, Sub(p, before, t), h, rest, g, m);
      }
    }
  }

  // ----- no match inside a replacement -----

  /** The first two characters of some head other than `Bearer`. */
  predicate Pair(c: char, d: char) {
    || (c == 's' && d == 'k') || (c == 'x' && d == 'o') || (c == 'A' && d == 'K') || (c == 'g' && d == 'h')
    || (IsDigit(c) && IsDigit(d))
  }

  /** No head starts inside `r`. */
  predicate NoPair(r: string) {
    && (forall i :: 0 <= i < |r| - 1 ==> !Pair(r[i], r[i + 1]))
    && (forall i :: 0 <= i < |r| - 2 && (r[i] == 'b' || r[i] == 'B') ==> r[i + 2] != 'a' && r[i + 2] != 'A')
  }

  lemma NoPairInApiKey()
    ensures NoPair("<REDACTED:api_key>")
  {
    var r := "<REDACTED:api_key>";
    assert |r| == 18;
    forall i | 0 <= i < 17 ensures !Pair(r[i], r[i + 1]) { }
    forall i | 0 <= i < 18 ensures r[i] != 'b' && r[i] != 'B' { }
  }

  lemma NoPairInSlackToken()
    ensures NoPair("<REDACTED:slack_token>")
  {
    var r := "<REDACTED:slack_token>";
    assert |r| == 22;
    forall i | 0 <= i < 21 ensures !Pair(r[i], r[i + 1]) { }
    forall i | 0 <= i < 22 ensures r[i] != 'b' && r[i] != 'B' { }
  }

  lemma NoPairInAwsKey()
    ensures NoPair("<REDACTED:aws_access_key>")
  {
    var r := "<REDACTED:aws_access_key>";
    assert |r| == 25;
    forall i | 0 <= i < 24 ensures !Pair(r[i], r[i + 1]) { }
    forall i | 0 <= i < 25 ensures r[i] != 'b' && r[i] != 'B' { }
  }

  lemma NoPairInGithubToken()
    ensures NoPair("<REDACTED:github_token>")
  {
    var r := "<REDACTED:github_token>";
    assert |r| == 23;
    forall i | 0 <= i < 22 ensures !Pair(r[i], r[i + 1]) { }
    forall i | 0 <= i < 21 && (r[i] == 'b' || r[i] == 'B') ensures r[i + 2] != 'a' && r[i + 2] != 'A' { }
  }

  lemma NoPairInIdNumber()
    ensures NoPair("<REDACTED:id_number>")
  {
    var r := "<REDACTED:id_number>";
    assert |r| == 20;
    forall i | 0 <= i < 19 ensures !Pair(r[i], r[i + 1]) { }
    forall i | 0 <= i < 18 && (r[i] == 'b' || r[i] == 'B') ensures r[i + 2] != 'a' && r[i + 2] != 'A' { }
  }

  lemma NoPairInBearerTail()
    ensures NoPair("earer <REDACTED>")
  {
    var r := "earer <REDACTED>";
    assert |r| == 16;
    forall i | 0 <= i < 15 ensures !Pair(r[i], r[i + 1]) { }
    forall i | 0 <= i < 16 ensures r[i] != 'b' && r[i] != 'B' { }
  }

  lemma ReplacementHasNoPair(p: Pattern)
    requires !p.BearerToken?
    ensures NoPair(Replacement(p))
  {
    match p
    case ApiKey => NoPairInApiKey();
    case StripeKey => NoPairInApiKey();
    case SlackToken => NoPairInSlackToken();
    case AwsKey => NoPairInAwsKey();
    case GithubToken => NoPairInGithubToken();
    case IdNumber => NoPairInIdNumber();
  }

  lemma HeadIsPair(q: Pattern, t: string)
    requires HeadAt(q, t)
    ensures q.BearerToken? || Pair(t[0], t[1])
    ensures q.BearerToken? ==> (t[0] == 'b' || t[0] == 'B') && t[1] != '>' && (t[2] == 'a' || t[2] == 'A')
    ensures t[0] == 'B' ==> q.BearerToken?
    ensures t[0] != '>' && t[1] != '>'
  {
  }

  lemma NoMatchInText(q: Pattern, before: bool, r: string, u: string)
    requires r != [] && r[|r| - 1] == '>' && NoPair(r)
    ensures MatchLen(q, before, r + u) == 0
  {
    var t := r + u;
    if HeadAt(q, t) { HeadIsPair(q, t); }
  }

  lemma {:induction false} CleanAfter(q: Pattern, before: bool, r: string, u: string)
    requires r != [] && r[|r| - 1] == '>' && NoPair(r)
    requires Clean(q, false, u)
    ensures Clean(q, before, r + u)
    decreases |r|
  {
    var t := r + u;
    NoMatchInText(q, before, r, u);
    if |r| == 1 {
      assert t == [r[0]] + u;
      CleanCons(q, before, r[0], u);
    } else {
      assert t == [r[0]] + (r[1..] + u);
      CleanAfter(q, IsWord(r[0]), r[1..], u);
      CleanCons(q, before, r[0], r[1..] + u);
    }
  }

  lemma NoMatchAtBearerReplacement(q: Pattern, before: bool, t: string)
    requires |t| > 7 && t[0] == 'B' && t[7] == '<'
    ensures MatchLen(q, before, t) == 0
  {
    if MatchLen(q, before, t) > 0 {
      var g, m := MatchLenSound(q, before, t);
      HeadIsPair(q, t);
      FitChar(q, before, t, g, m, 7);
      assert false;
    }
  }

  lemma CleanAfterBearer(q: Pattern, before: bool, u: string)
    requires Clean(q, false, u)
    ensures Clean(q, before, "Bearer <REDACTED>" + u)
  {
    var tail := "earer <REDACTED>";
    NoPairInBearerTail();
    CleanAfter(q, IsWord('B'), tail, u);
    var t := "Bearer <REDACTED>" + u;
    NoMatchAtBearerReplacement(q, before, t);
    assert t == ['B'] + (tail + u);
    CleanCons(q, before, 'B', tail + u);
  }

  lemma CleanAfterReplacement(q: Pattern, p: Pattern, before: bool, u: string)
    requires Clean(q, false, u)
    ensures Clean(q, before, Replacement(p) + u)
  {
    if p.BearerToken? {
      CleanAfterBearer(q, before, u);
    } else {
      ReplacementHasNoPair(p);
      var r := Replacement(p);
      assert r[|r| - 1] == '>';
      CleanAfter(q, before, r, u);
    }
  }

  lemma CleanCons(q: Pattern, before: bool, c: char, u: string)
    requires MatchLen(q, before, [c] + u) == 0 && Clean(q, IsWord(c), u)
    ensures Clean(q, before, [c] + u)
  {
    assert ([c] + u)[1..] == u;
  }

  // ----- main results -----

  lemma CleanBeforeFirst(q: Pattern, p: Pattern, before: bool, t: string)
    requires t != [] && MatchLen(p, before, t) == 0 && MatchLen(q, before, t) == 0
    ensures MatchLen(q, before, Sub(p, before, t)) == 0
  {
    var y := Sub(p, before, t);
    if MatchLen(q, before, y) > 0 {
      var g, m := MatchLenSound(q, before, y);
      OldMatch(q, p, before, t, g, m);
      MatchLenComplete(q, before, t, g, m);
      assert false;
    }
  }

  /** Substituting `p` removes every match of `p` and creates no match of any pattern `q`. */
  lemma {:induction false} SubIsClean(q: Pattern, p: Pattern, before: bool, t: string)
    requires q == p || Clean(q, before, t)
    ensures Clean(q, before, Sub(p, before, t))
    decreases |t|
  {
    if t != [] {
      var n := MatchLen(p, before, t);
      if n == 0 {
        SubIsClean(q, p, IsWord(t[0]), t[1..]);
        CleanBeforeFirst(q, p, before, t);
        CleanCons(q, before, t[0], Sub(p, IsWord(t[0]), t[1..]));
      } else {
        if q != p { CleanDrop(q, before, t, n); }
        var w := IsWord(t[n - 1]);
        var u := Sub(p, w, t[n..]);
        SubIsClean(q, p, w, t[n..]);
        MatchEdges(p, before, t);
        SubKeepsFirst(p, w, t[n..]);
        CleanOtherContext(q, w, false, u);
        CleanAfterReplacement(q, p, before, u);
      }
    }
  }

  lemma SubKeepsFirst(p: Pattern, before: bool, t: string)
    requires t == [] || !IsAlnum(t[0])
    ensures var u := Sub(p, before, t); u == [] || !IsAlnum(u[0])
  {
    if t != [] && MatchLen(p, before, t) > 0 {
      MatchEdges(p, before, t);
      assert false;
    }
  }

  const ORDER: seq<Pattern> := [ApiKey, StripeKey, SlackToken, AwsKey, GithubToken, IdNumber, BearerToken]

  /** The substitutions of `ps`, in order. */
  function Apply(ps: seq<Pattern>, t: string): string {
    if ps == [] then t else Apply(ps[1..], Sub(ps[0], false, t))
  }

  function Scrub(text: string): string { Apply(ORDER, text) }

  lemma {:induction false} ApplyEmpty(ps: seq<Pattern>)
    ensures Apply(ps, []) == []
    decreases |ps|
  {
    if ps != [] { ApplyEmpty(ps[1..]); }
  }

  /** The loop over the substitution table. */
  method ScrubText(text: string) returns (out: string)
    ensures out == Scrub(text)
  {
    out := text;
    if text == [] {
      ApplyEmpty(ORDER);
      return;
    }
    for i := 0 to |ORDER|
      invariant Apply(ORDER[i..], out) == Scrub(text)
    {
      assert ORDER[i..][1..] == ORDER[i + 1..];
      out := Sub(ORDER[i], false, out);
    }
  }

  lemma {:induction false} ApplyKeepsClean(q: Pattern, ps: seq<Pattern>, t: string)
    requires Clean(q, false, t)
    ensures Clean(q, false, Apply(ps, t))
    decreases |ps|
  {
    if ps != [] {
      SubIsClean(q, ps[0], false, t);
      ApplyKeepsClean(q, ps[1..], Sub(ps[0], false, t));
    }
  }

  lemma {:induction false} ApplyCleans(q: Pattern, ps: seq<Pattern>, t: string)
    requires q in ps
    ensures Clean(q, false, Apply(ps, t))
    decreases |ps|
  {
    var u := Sub(ps[0], false, t);
    if q == ps[0] {
      SubIsClean(q, q, false, t);
      ApplyKeepsClean(q, ps[1..], u);
    } else {
      ApplyCleans(q, ps[1..], u);
    }
  }

  lemma {:induction false} ApplyToClean(ps: seq<Pattern>, t: string)
    requires forall q :: q in ps ==> Clean(q, false, t)
    ensures Apply(ps, t) == t
    decreases |ps|
  {
    if ps != [] {
      CleanIsUntouched(ps[0], false, t);
      ApplyToClean(ps[1..], t);
    }
  }

  lemma ScrubIsClean(text: string, q: Pattern)
    ensures Clean(q, false, Scrub(text))
  {
    assert q in ORDER;
    ApplyCleans(q, ORDER, text);
  }

  /** The expression `q` accepts nothing at any position of `t`. */
  ghost predicate Free(q: Pattern, t: string) {
    forall i, g, m :: 0 <= i <= |t| ==> !Fits(q, WordBefore(false, t, i), t[i..], g, m)
  }

  lemma CleanIsFree(q: Pattern, t: string)
    requires Clean(q, false, t)
    ensures Free(q, t)
  {
    forall i, g, m | 0 <= i <= |t|
      ensures !Fits(q, WordBefore(false, t, i), t[i..], g, m)
    {
      if i > 0 { CleanDrop(q, false, t, i); } else { assert t[0..] == t; }
      MatchLenIff(q, WordBefore(false, t, i), t[i..]);
    }
  }

  /** No secret of any of the seven shapes survives, wherever it stood. */
  lemma ScrubLeavesNoMatch(text: string, q: Pattern)
    ensures Free(q, Scrub(text))
  {
    ScrubIsClean(text, q);
    CleanIsFree(q, Scrub(text));
  }

  /** The expressions are applied one after the other. */
  lemma ScrubInOrder(text: string)
    ensures Scrub(text) == Sub(BearerToken, false, Sub(IdNumber, false, Sub(GithubToken, false, Sub(AwsKey, false,
                           Sub(SlackToken, false, Sub(StripeKey, false, Sub(ApiKey, false, text)))))))
  {
    var t1 := Sub(ApiKey, false, text);
    var t2 := Sub(StripeKey, false, t1);
    var t3 := Sub(SlackToken, false, t2);
    var t4 := Sub(AwsKey, false, t3);
    var t5 := Sub(GithubToken, false, t4);
    var t6 := Sub(IdNumber, false, t5);
    ApplyCons(BearerToken, [], t6);
    ApplyCons(IdNumber, [BearerToken], t5);
    ApplyCons(GithubToken, [IdNumber, BearerToken], t4);
    ApplyCons(AwsKey, [GithubToken, IdNumber, BearerToken], t3);
    ApplyCons(SlackToken, [AwsKey, GithubToken, IdNumber, BearerToken], t2);
    ApplyCons(StripeKey, [SlackToken, AwsKey, GithubToken, IdNumber, BearerToken], t1);
    ApplyCons(ApiKey, [StripeKey, SlackToken, AwsKey, GithubToken, IdNumber, BearerToken], text);
  }

  lemma ApplyCons(p: Pattern, ps: seq<Pattern>, t: string)
    ensures Apply([p] + ps, t) == Apply(ps, Sub(p, false, t))
  {
    assert ([p] + ps)[1..] == ps;
  }

  lemma ScrubIdempotent(text: string)
    ensures Scrub(Scrub(text)) == Scrub(text)
  {
    forall q | q in ORDER ensures Clean(q, false, Scrub(text)) { ScrubIsClean(text, q); }
    ApplyToClean(ORDER, Scrub(text));
  }
}
