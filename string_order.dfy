/**
 * Python's ordering of `str` values and the `sorted` call that orders the CSV columns.
 * Python compares strings code point by code point; a proper prefix sorts first.
 */
module StringOrder {

  /** `a < b` on Python strings. */
  predicate Less(a: string, b: string)
    decreases |a|
  {
    |b| > 0 && (|a| == 0 || a[0] < b[0] || (a[0] == b[0] && Less(a[1..], b[1..])))
  }

  lemma {:induction false} LessIrreflexive(a: string)
    ensures !Less(a, a)
    decreases |a|
  {
    if |a| > 0 {
      LessIrreflexive(a[1..]);
    }
  }

  lemma {:induction false} LessAsymmetric(a: string, b: string)
    requires Less(a, b)
    ensures !Less(b, a)
    decreases |a|
  {
    if |a| > 0 && a[0] == b[0] {
      LessAsymmetric(a[1..], b[1..]);
    }
  }

  lemma {:induction false} LessTransitive(a: string, b: string, c: string)
    requires Less(a, b) && Less(b, c)
    ensures Less(a, c)
    decreases |a|
  {
    if |a| > 0 && a[0] == b[0] && b[0] == c[0] {
      LessTransitive(a[1..], b[1..], c[1..]);
    }
  }

  /** Any two different strings are ordered one way or the other. */
  lemma {:induction false} LessTotal(a: string, b: string)
    ensures a == b || Less(a, b) || Less(b, a)
    decreases |a|
  {
    if |a| > 0 && |b| > 0 && a[0] == b[0] {
      LessTotal(a[1..], b[1..]);
      if a[1..] == b[1..] {
        assert a == [a[0]] + a[1..] && b == [b[0]] + b[1..];
      }
    }
  }

  /** Strictly ascending, which for the elements of a set is the order `sorted` returns. */
  predicate IsSorted(s: seq<string>) {
    forall i, j :: 0 <= i < j < |s| ==> Less(s[i], s[j])
  }

  predicate IsLeast(m: string, s: set<string>) {
    m in s && forall x :: x in s && x != m ==> Less(m, x)
  }

  lemma {:induction false} LeastExists(s: set<string>)
    requires s != {}
    ensures exists m :: IsLeast(m, s)
    decreases s
  {
    var x :| x in s;
    if s - {x} == {} {
      assert s == {x};
      assert IsLeast(x, s);
    } else {
      LeastExists(s - {x});
      var m :| IsLeast(m, s - {x});
      LessTotal(x, m);
      if Less(x, m) {
        forall y | y in s && y != x
          ensures Less(x, y)
        {
          if y != m {
            LessTransitive(x, m, y);
          }
        }
        assert IsLeast(x, s);
      } else {
        assert IsLeast(m, s);
      }
    }
  }

  lemma LeastUnique(s: set<string>)
    ensures forall m, m' :: IsLeast(m, s) && IsLeast(m', s) ==> m == m'
  {
    forall m, m' | IsLeast(m, s) && IsLeast(m', s)
      ensures m == m'
    {
      if m != m' {
        LessAsymmetric(m, m');
      }
    }
  }

  /** A sequence whose neighbours are in order is ascending. */
  lemma {:induction false} SortedFromAdjacent(s: seq<string>)
    requires forall i :: 0 <= i < |s| - 1 ==> Less(s[i], s[i + 1])
    ensures IsSorted(s)
    decreases |s|
  {
    if |s| > 1 {
      SortedFromAdjacent(s[1..]);
      forall j | 1 < j < |s|
        ensures Less(s[0], s[j])
      {
        LessTransitive(s[0], s[1], s[j]);
      }
    }
  }

  /** `sorted(list(s))`: the elements of `s` in ascending order. */
  function Sorted(s: set<string>): (r: seq<string>)
    ensures IsSorted(r) && |r| == |s|
    ensures forall x :: x in r <==> x in s
    decreases s
  {
    if s == {} then []
    else
      LeastExists(s);
      LeastUnique(s);
      var m :| IsLeast(m, s);
      var rest := Sorted(s - {m});
      assert forall j :: 0 <= j < |rest| ==> rest[j] in s - {m};
      [m] + rest
  }

  /** There is only one ascending sequence of a given set of strings. */
  lemma {:induction false} SortedUnique(a: seq<string>, b: seq<string>)
    requires IsSorted(a) && IsSorted(b)
    requires forall x :: x in a <==> x in b
    ensures a == b
    decreases |a|
  {
    assert a != [] ==> a[0] in a;
    assert b != [] ==> b[0] in b;
    if a != [] && b != [] {
      assert a[0] == b[0] by {
        if a[0] != b[0] {
          var i :| 0 <= i < |b| && b[i] == a[0];
          var j :| 0 <= j < |a| && a[j] == b[0];
          LessAsymmetric(b[0], a[0]);
        }
      }
      forall x
        ensures x in a[1..] <==> x in b[1..]
      {
        assert a == [a[0]] + a[1..] && b == [b[0]] + b[1..];
        if x in a[1..] {
          var k :| 0 <= k < |a[1..]| && a[1..][k] == x;
          assert Less(a[0], a[k + 1]);
          LessIrreflexive(x);
          assert x in b;
          var i :| 0 <= i < |b| && b[i] == x;
          assert b[1..][i - 1] == x;
        }
        if x in b[1..] {
          var k :| 0 <= k < |b[1..]| && b[1..][k] == x;
          assert Less(b[0], b[k + 1]);
          LessIrreflexive(x);
          assert x in a;
          var i :| 0 <= i < |a| && a[i] == x;
          assert a[1..][i - 1] == x;
        }
      }
      SortedUnique(a[1..], b[1..]);
    }
  }
}
