/** Shared vocabulary. */
module Common {

  datatype Option<+T> = None | Some(value: T)

  function Min(a: int, b: int): int { if a <= b then a else b }

  function Max(a: int, b: int): int { if a >= b then a else b }

  /** Python's `s[:n]`. */
  function Before<T>(s: seq<T>, n: int): seq<T> {
    if n >= 0 then s[..Min(n, |s|)] else s[..Max(0, |s| + n)]
  }

  /** Python's `s[n:]`. */
  function From<T>(s: seq<T>, n: int): seq<T> {
    if n >= 0 then s[Min(n, |s|)..] else s[Max(0, |s| + n)..]
  }

  /** ASCII lower case. */
  function LowerChar(c: char): char { if 'A' <= c <= 'Z' then c - 'A' + 'a' else c }

  predicate Distinct<T(==)>(s: seq<T>) { forall i, j :: 0 <= i < j < |s| ==> s[i] != s[j] }

  /** Python's `value or default` for an optional string. */
  function OrElse(value: Option<string>, default: string): string {
    if value == None || value.value == "" then default else value.value
  }

  /** A number above a finite set. */
  lemma {:induction false} FreshNat(xs: set<nat>) returns (n: nat)
    ensures forall x :: x in xs ==> x < n
  {
    if xs == {} { return 0; }
    var x :| x in xs;
    n := FreshNat(xs - {x});
    if n <= x { n := x + 1; }
    assert xs == (xs - {x}) + {x};
  }

  /** The sum of all values of a map. */
  ghost function Sum<K>(m: map<K, nat>): nat {
    if m == map[] then 0
    else
      var k :| k in m;
      m[k] + Sum(m - {k})
  }

  lemma {:induction false} SubsetSize<T>(a: set<T>, b: set<T>)
    requires a <= b
    ensures |a| <= |b|
  {
    assert b == a + (b - a);
  }

  /** Any key may be taken out first. */
  lemma {:induction false} SumRemove<K>(m: map<K, nat>, k: K)
    requires k in m
    ensures Sum(m) == m[k] + Sum(m - {k})
    decreases |m|
  {
    var j :| j in m && Sum(m) == m[j] + Sum(m - {j});
    if j != k {
      SumRemove(m - {j}, k);
      SumRemove(m - {k}, j);
      assert m - {j} - {k} == m - {k} - {j};
    }
  }

  lemma SumUpdate<K>(m: map<K, nat>, k: K, v: nat)
    ensures Sum(m[k := v]) == Sum(m) - (if k in m then m[k] else 0) + v
  {
    SumRemove(m[k := v], k);
    if k in m {
      SumRemove(m, k);
      assert m[k := v] - {k} == m - {k};
    } else {
      assert m[k := v] - {k} == m;
    }
  }
}
