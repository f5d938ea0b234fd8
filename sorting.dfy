/** Python's `sorted` on a list whose elements share one total order:
    insertion sort, proved to return an ordered permutation of its input. */
module Sorting {

  ghost predicate Total<T(!new)>(leq: (T, T) -> bool) {
    forall a, b :: leq(a, b) || leq(b, a)
  }

  /** Every element is at most its successor. */
  predicate Sorted<T>(s: seq<T>, leq: (T, T) -> bool) {
    forall i :: 0 < i < |s| ==> leq(s[i - 1], s[i])
  }

  function Insert<T(!new)>(x: T, s: seq<T>, leq: (T, T) -> bool): (r: seq<T>)
    requires Total(leq) && Sorted(s, leq)
    ensures multiset(r) == multiset(s) + multiset{x}
    ensures Sorted(r, leq)
    ensures |r| == |s| + 1
    ensures r[0] == x || (s != [] && r[0] == s[0])
  {
    if s == [] then [x]
    else if leq(x, s[0]) then [x] + s
    else
      var t := Insert(x, s[1..], leq);
      assert s == [s[0]] + s[1..];
      assert leq(s[0], x);
      assert Sorted(s[1..], leq) by {
        forall i | 0 < i < |s[1..]| ensures leq(s[1..][i - 1], s[1..][i]) {
          assert s[1..][i - 1] == s[i] && s[1..][i] == s[i + 1];
        }
      }
      [s[0]] + t
  }

  function Sort<T(!new)>(s: seq<T>, leq: (T, T) -> bool): (r: seq<T>)
    requires Total(leq)
    ensures multiset(r) == multiset(s)
    ensures Sorted(r, leq)
  {
    if s == [] then []
    else
      assert s == [s[0]] + s[1..];
      Insert(s[0], Sort(s[1..], leq), leq)
  }

  function IntLeq(a: int, b: int): bool { a <= b }

  /** Python's ordering of strings: code point by code point, a proper
      prefix first. */
  function StrLeq(a: string, b: string): bool {
    a == [] || (b != [] && (a[0] < b[0] || (a[0] == b[0] && StrLeq(a[1..], b[1..]))))
  }

  lemma IntLeqTotal()
    ensures Total(IntLeq)
  {
  }

  lemma {:induction false} StrLeqTotalAt(a: string, b: string)
    ensures StrLeq(a, b) || StrLeq(b, a)
    decreases |a|
  {
    if a != [] && b != [] && a[0] == b[0] {
      StrLeqTotalAt(a[1..], b[1..]);
    }
  }

  lemma StrLeqTotal()
    ensures Total(StrLeq)
  {
    forall a, b ensures StrLeq(a, b) || StrLeq(b, a) {
      StrLeqTotalAt(a, b);
    }
  }
}
