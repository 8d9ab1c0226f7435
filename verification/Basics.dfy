/** Values and small facts shared by every model in this project. */
module Basics {

  datatype Option<+T> = None | Some(value: T)

  datatype Result<+T, +E> = Ok(value: T) | Err(error: E)

  /** The white space of JavaScript, which is wider than the four characters of RFC 8259. */
  predicate IsSpace(u: int) {
    9 <= u <= 13 || u == 32 || u == 0xA0 || u == 0x1680 || 0x2000 <= u <= 0x200A
    || u == 0x2028 || u == 0x2029 || u == 0x202F || u == 0x205F || u == 0x3000 || u == 0xFEFF
  }

  predicate IsReasonChar(c: char) { 'A' <= c <= 'Z' || '0' <= c <= '9' || c == '_' }

  /** Upper-case words of letters and digits joined by single underscores, the first starting with a letter. */
  predicate IsReason(s: string) {
    && |s| > 0 && 'A' <= s[0] <= 'Z' && s[|s| - 1] != '_'
    && (forall i | 0 <= i < |s| :: IsReasonChar(s[i]))
    && (forall i | 0 < i < |s| :: s[i] == '_' ==> s[i - 1] != '_')
  }

  ghost predicate NoRepeats<T>(s: seq<T>) { forall i, j | 0 <= i < j < |s| :: s[i] != s[j] }

  ghost predicate Within<T>(a: seq<T>, b: seq<T>) { forall x | x in a :: x in b }

  lemma {:induction false} CountElements<T>(s: seq<T>) returns (all: set<T>)
    ensures |all| <= |s| && forall x :: x in all <==> x in s
    ensures NoRepeats(s) ==> |all| == |s|
  {
    if s == [] {
      all := {};
    } else {
      var rest := CountElements(s[1..]);
      all := {s[0]} + rest;
      assert s == [s[0]] + s[1..];
      assert NoRepeats(s) ==> s[0] !in rest;
    }
  }

  lemma ProperSubset<T>(a: set<T>, b: set<T>)
    requires a < b
    ensures |a| < |b|
  {
    assert b == a + (b - a);
    assert b - a != {};
  }

  /** Distinct elements that all occur in a sequence that is no longer are all there is in it. */
  lemma DistinctWithin<T>(a: seq<T>, b: seq<T>)
    requires NoRepeats(a) && |b| <= |a| && Within(a, b)
    ensures Within(b, a)
  {
    var all := CountElements(a);
    var other := CountElements(b);
    if all < other {
      ProperSubset(all, other);
    }
    assert all == other;
  }

  lemma {:induction false} SomeFreshId(issued: set<nat>) returns (n: nat)
    ensures forall m | m in issued :: m < n
    decreases |issued|
  {
    if issued == {} {
      n := 0;
    } else {
      var m :| m in issued;
      var bound := SomeFreshId(issued - {m});
      n := if bound > m then bound else m + 1;
      assert issued == (issued - {m}) + {m};
    }
  }

  /** The sum of `f` over the values of a map. */
  ghost function Sum<K(!new), V(!new)>(m: map<K, V>, f: V -> nat): nat
    decreases |m|
  {
    if m == map[] then 0 else
    var key :| key in m;
    f(m[key]) + Sum(m - {key}, f)
  }

  lemma {:induction false} SumWithout<K(!new), V(!new)>(m: map<K, V>, f: V -> nat, key: K)
    requires key in m
    ensures Sum(m, f) == f(m[key]) + Sum(m - {key}, f)
    decreases |m|
  {
    var first :| first in m && Sum(m, f) == f(m[first]) + Sum(m - {first}, f);
    if first != key {
      SumWithout(m - {first}, f, key);
      SumWithout(m - {key}, f, first);
      assert m - {first} - {key} == m - {key} - {first};
    }
  }

  lemma SumReplaced<K(!new), V(!new)>(m: map<K, V>, f: V -> nat, key: K, value: V)
    ensures Sum(m[key := value], f) == Sum(m, f) - (if key in m then f(m[key]) else 0) + f(value)
  {
    var next := m[key := value];
    SumWithout(next, f, key);
    if key in m {
      SumWithout(m, f, key);
      assert next - {key} == m - {key};
    } else {
      assert next - {key} == m;
    }
  }
}
