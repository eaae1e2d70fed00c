/** The order in which a `BTreeSet<String>` hands out its elements.

    Rust orders `String`s by their UTF-8 bytes, lexicographically; for UTF-8 that
    is the same as comparing code points one after another, which is what `Less`
    does on Dafny's `char`s. `Sorted(s)` is the sequence a `BTreeSet` iterator
    yields for the set `s`. */
module Lexicographic {

  /** `a` comes strictly before `b`. */
  predicate Less(a: string, b: string)
    decreases |a|
  {
    b != [] && (a == [] || a[0] < b[0] || (a[0] == b[0] && Less(a[1..], b[1..])))
  }

  lemma {:induction false} LessIrreflexive(a: string)
    ensures !Less(a, a)
    decreases |a|
  {
    if a != [] { LessIrreflexive(a[1..]); }
  }

  lemma {:induction false} LessAsymmetric(a: string, b: string)
    requires Less(a, b)
    ensures !Less(b, a)
    decreases |a|
  {
    if a != [] && a[0] == b[0] { LessAsymmetric(a[1..], b[1..]); }
  }

  lemma {:induction false} LessTransitive(a: string, b: string, c: string)
    requires Less(a, b) && Less(b, c)
    ensures Less(a, c)
    decreases |a|
  {
    if a != [] && a[0] == b[0] && b[0] == c[0] { LessTransitive(a[1..], b[1..], c[1..]); }
  }

  lemma {:induction false} LessTotal(a: string, b: string)
    requires a != b
    ensures Less(a, b) || Less(b, a)
    decreases |a|
  {
    if a != [] && b != [] && a[0] == b[0] {
      assert a == [a[0]] + a[1..] && b == [b[0]] + b[1..];
      LessTotal(a[1..], b[1..]);
    }
  }

  /** `m` is the element of `s` that comes before all the others. */
  predicate IsLeast(m: string, s: set<string>) {
    m in s && forall x :: x in s && x != m ==> Less(m, x)
  }

  lemma {:induction false} LeastExists(s: set<string>)
    requires s != {}
    ensures exists m :: IsLeast(m, s)
    decreases |s|
  {
    var x :| x in s;
    if s == {x} {
      assert IsLeast(x, s);
    } else {
      var rest := s - {x};
      LeastExists(rest);
      var m :| IsLeast(m, rest);
      if Less(x, m) {
        forall y | y in s && y != x ensures Less(x, y) {
          if y != m { LessTransitive(x, m, y); }
        }
        assert IsLeast(x, s);
      } else {
        LessTotal(x, m);
        assert IsLeast(m, s);
      }
    }
  }

  lemma LeastUnique(a: string, b: string, s: set<string>)
    requires IsLeast(a, s) && IsLeast(b, s)
    ensures a == b
  {
    if a != b { LessAsymmetric(a, b); }
  }

  /** The elements of `s` in ascending order, each once. */
  ghost function Sorted(s: set<string>): (r: seq<string>)
    ensures |r| == |s|
    ensures forall x :: x in r <==> x in s
    ensures forall i, j :: 0 <= i < j < |r| ==> Less(r[i], r[j])
    decreases |s|
  {
    if s == {} then []
    else
      LeastExists(s);
      var m :| IsLeast(m, s);
      var rest := Sorted(s - {m});
      assert forall j :: 0 < j < |rest| + 1 ==> Less(m, ([m] + rest)[j]) by {
        forall j | 0 < j < |rest| + 1 ensures Less(m, ([m] + rest)[j]) {
          assert ([m] + rest)[j] == rest[j - 1];
          assert rest[j - 1] in s - {m};
        }
      }
      [m] + rest
  }

  /** Any ascending sequence holding exactly the elements of `s` is `Sorted(s)`:
      the iteration order of a set is determined by its elements alone. */
  lemma {:induction false} SortedUnique(s: set<string>, r: seq<string>)
    requires forall x :: x in r <==> x in s
    requires forall i, j :: 0 <= i < j < |r| ==> Less(r[i], r[j])
    ensures r == Sorted(s)
    decreases |r|
  {
    var q := Sorted(s);
    if r == [] {
      assert s == {};
    } else {
      assert r[0] in s;
      assert |q| > 0;
      LeastOfAscending(s, r);
      LeastOfAscending(s, q);
      LeastUnique(r[0], q[0], s);
      var m := r[0];
      TailOfAscending(s, r);
      TailOfAscending(s, q);
      SortedUnique(s - {m}, r[1..]);
      SortedUnique(s - {m}, q[1..]);
      assert r == [m] + r[1..] && q == [m] + q[1..];
    }
  }

  lemma LeastOfAscending(s: set<string>, r: seq<string>)
    requires r != []
    requires forall x :: x in r <==> x in s
    requires forall i, j :: 0 <= i < j < |r| ==> Less(r[i], r[j])
    ensures IsLeast(r[0], s)
  {
    forall x | x in s && x != r[0] ensures Less(r[0], x) {
      var j :| 0 <= j < |r| && r[j] == x;
    }
  }

  lemma TailOfAscending(s: set<string>, r: seq<string>)
    requires r != []
    requires forall x :: x in r <==> x in s
    requires forall i, j :: 0 <= i < j < |r| ==> Less(r[i], r[j])
    ensures forall x :: x in r[1..] <==> x in s - {r[0]}
    ensures forall i, j :: 0 <= i < j < |r[1..]| ==> Less(r[1..][i], r[1..][j])
  {
    forall x ensures x in r[1..] <==> x in s - {r[0]} {
      if x in r[1..] {
        var j :| 0 <= j < |r[1..]| && r[1..][j] == x;
        assert r[j + 1] == x;
        LessIrreflexive(r[0]);
      }
      if x in s - {r[0]} {
        var j :| 0 <= j < |r| && r[j] == x;
        assert j != 0;
        assert r[1..][j - 1] == x;
      }
    }
    forall i, j | 0 <= i < j < |r[1..]| ensures Less(r[1..][i], r[1..][j]) {
      assert r[1..][i] == r[i + 1] && r[1..][j] == r[j + 1];
    }
  }

  /** `Sorted` starts with the least element and continues with the others. */
  lemma SortedUnfold(s: set<string>, m: string)
    requires IsLeast(m, s)
    ensures Sorted(s) == [m] + Sorted(s - {m})
  {
    var r := [m] + Sorted(s - {m});
    forall x ensures x in r <==> x in s {
      if x != m { assert x in r <==> x in Sorted(s - {m}); }
    }
    forall i, j | 0 <= i < j < |r| ensures Less(r[i], r[j]) {
      assert r[j] == Sorted(s - {m})[j - 1];
      if i > 0 { assert r[i] == Sorted(s - {m})[i - 1]; }
      else { assert r[j] in s - {m}; }
    }
    SortedUnique(s, r);
  }
}
