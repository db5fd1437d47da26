/**
 * Python's `list.sort()` on strings: ascending in the order Python compares `str`
 * values (code point by code point, a proper prefix first).
 */
module Sorting {

  /** `a <= b` for Python strings. */
  predicate Below(a: string, b: string)
    decreases |a|
  {
    |a| == 0 || (|b| > 0 && (a[0] < b[0] || (a[0] == b[0] && Below(a[1..], b[1..]))))
  }

  predicate Sorted(s: seq<string>) {
    forall i, j :: 0 <= i < j < |s| ==> Below(s[i], s[j])
  }

  lemma {:induction false} BelowTotal(a: string, b: string)
    ensures Below(a, b) || Below(b, a)
    decreases |a|
  {
    if |a| > 0 && |b| > 0 && a[0] == b[0] {
      BelowTotal(a[1..], b[1..]);
    }
  }

  lemma {:induction false} BelowTransitive(a: string, b: string, c: string)
    requires Below(a, b) && Below(b, c)
    ensures Below(a, c)
    decreases |a|
  {
    if |a| > 0 && a[0] == b[0] && b[0] == c[0] {
      BelowTransitive(a[1..], b[1..], c[1..]);
    }
  }

  lemma {:induction false} BelowAntisymmetric(a: string, b: string)
    requires Below(a, b) && Below(b, a)
    ensures a == b
    decreases |a|
  {
    if |a| > 0 {
      BelowAntisymmetric(a[1..], b[1..]);
      assert a == [a[0]] + a[1..] && b == [b[0]] + b[1..];
    }
  }

  /** A head that is below every element of a sorted tail keeps the sequence sorted. */
  lemma SortedCons(h: string, t: seq<string>)
    requires Sorted(t)
    requires forall y :: y in t ==> Below(h, y)
    ensures Sorted([h] + t)
  {
    var s := [h] + t;
    forall i, j | 0 <= i < j < |s| ensures Below(s[i], s[j]) {
      if i == 0 {
        assert s[j] == t[j - 1];
      } else {
        assert s[i] == t[i - 1] && s[j] == t[j - 1];
      }
    }
  }

  /** Inserts `x` before the first element it is below. */
  function Insert(x: string, s: seq<string>): (r: seq<string>)
    requires Sorted(s)
    ensures Sorted(r)
    ensures multiset(r) == multiset(s) + multiset{x}
    decreases |s|
  {
    if s == [] then [x]
    else if Below(x, s[0]) then
      assert forall y :: y in s ==> Below(x, y) by {
        forall y | y in s ensures Below(x, y) {
          var k :| 0 <= k < |s| && s[k] == y;
          if k > 0 { BelowTransitive(x, s[0], y); }
        }
      }
      SortedCons(x, s);
      [x] + s
    else
      BelowTotal(x, s[0]);
      var t := Insert(x, s[1..]);
      assert s == [s[0]] + s[1..];
      assert forall y :: y in t ==> Below(s[0], y) by {
        forall y | y in t ensures Below(s[0], y) {
          assert y in multiset(t);
          if y != x {
            assert y in multiset(s[1..]);
            var k :| 0 <= k < |s[1..]| && s[1..][k] == y;
            assert s[k + 1] == y;
          }
        }
      }
      SortedCons(s[0], t);
      [s[0]] + t
  }

  /** Insertion sort: the sorted permutation of `s`. */
  function Sort(s: seq<string>): (r: seq<string>)
    ensures Sorted(r)
    ensures multiset(r) == multiset(s)
    decreases |s|
  {
    if s == [] then []
    else
      assert s == [s[0]] + s[1..];
      Insert(s[0], Sort(s[1..]))
  }

  /** The least element of a sorted sequence comes first. */
  lemma SortedHeadBelow(s: seq<string>, y: string)
    requires Sorted(s) && y in s
    ensures Below(s[0], y)
  {
    var k :| 0 <= k < |s| && s[k] == y;
    if k == 0 { BelowTotal(y, y); } else { assert Below(s[0], s[k]); }
  }

  /** Sorting does not depend on the order of its input: two permutations sort alike. */
  lemma {:induction false} SortedPermutationsEqual(a: seq<string>, b: seq<string>)
    requires Sorted(a) && Sorted(b)
    requires multiset(a) == multiset(b)
    ensures a == b
    decreases |a|
  {
    if a != [] {
      assert |b| == |a| by { assert |multiset(b)| == |multiset(a)|; }
      assert a[0] in multiset(b);
      assert b[0] in multiset(a);
      SortedHeadBelow(b, a[0]);
      SortedHeadBelow(a, b[0]);
      BelowAntisymmetric(a[0], b[0]);
      assert a == [a[0]] + a[1..];
      assert b == [b[0]] + b[1..];
      assert multiset(a[1..]) == multiset(b[1..]) by {
        calc {
          multiset{a[0]} + multiset(a[1..]);
          multiset([a[0]] + a[1..]);
          multiset(a);
          multiset(b);
          multiset([b[0]] + b[1..]);
          multiset{b[0]} + multiset(b[1..]);
        }
        assert multiset(a[1..]) == (multiset{a[0]} + multiset(a[1..])) - multiset{a[0]};
        assert multiset(b[1..]) == (multiset{b[0]} + multiset(b[1..])) - multiset{b[0]};
      }
      SortedPermutationsEqual(a[1..], b[1..]);
    }
  }

  lemma SortIndependentOfOrder(a: seq<string>, b: seq<string>)
    requires multiset(a) == multiset(b)
    ensures Sort(a) == Sort(b)
  {
    SortedPermutationsEqual(Sort(a), Sort(b));
  }
}
