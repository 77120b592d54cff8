/** Python's ordering of strings (code point by code point, a proper prefix first)
    and `sorted(set(xs))`: the duplicate-free ascending arrangement of a collection. */
module Ordering {

  /** `a < b` on Python strings. */
  predicate Less(a: string, b: string)
    decreases |a|
  {
    |b| > 0 && (|a| == 0 || a[0] < b[0] || (a[0] == b[0] && Less(a[1..], b[1..])))
  }

  lemma {:induction false} LessIrreflexive(a: string)
    ensures !Less(a, a)
    decreases |a|
  {
    if |a| > 0 {
      LessIrreflexive(a[1..]);
    }
  }

  lemma {:induction false} LessTransitive(a: string, b: string, c: string)
    requires Less(a, b) && Less(b, c)
    ensures Less(a, c)
    decreases |a|
  {
    if |a| > 0 && a[0] == b[0] && b[0] == c[0] {
      LessTransitive(a[1..], b[1..], c[1..]);
    }
  }

  /** Any two different strings are ordered one way or the other. */
  lemma {:induction false} LessTotal(a: string, b: string)
    requires a != b
    ensures Less(a, b) || Less(b, a)
    decreases |a|
  {
    if |a| > 0 && |b| > 0 && a[0] == b[0] {
      assert a[1..] != b[1..] by {
        assert a == [a[0]] + a[1..] && b == [b[0]] + b[1..];
      }
      LessTotal(a[1..], b[1..]);
    }
  }

  lemma LessAsymmetric(a: string, b: string)
    requires Less(a, b)
    ensures !Less(b, a)
  {
    if Less(b, a) {
      LessTransitive(a, b, a);
      LessIrreflexive(a);
    }
  }

  /** Strictly ascending, hence free of duplicates. */
  predicate StrictlySorted(s: seq<string>) {
    forall i, j :: 0 <= i < j < |s| ==> Less(s[i], s[j])
  }

  function Elems(s: seq<string>): set<string> {
    set x | x in s
  }

  /** Inserts `x` into a strictly sorted sequence, keeping it strictly sorted. */
  function Insert(s: seq<string>, x: string): (r: seq<string>)
    requires StrictlySorted(s)
    ensures StrictlySorted(r)
    ensures Elems(r) == Elems(s) + {x}
  {
    if s == [] then [x]
    else if x == s[0] then s
    else if Less(x, s[0]) then
      assert forall j :: 0 < j < |s| ==> Less(x, s[j]) by {
        forall j | 0 < j < |s| ensures Less(x, s[j]) {
          LessTransitive(x, s[0], s[j]);
        }
      }
      assert Elems([x] + s) == Elems(s) + {x};
      [x] + s
    else
      LessTotal(x, s[0]);
      var t := Insert(s[1..], x);
      assert Elems(s) == {s[0]} + Elems(s[1..]);
      assert forall y :: y in t ==> Less(s[0], y) by {
        forall y | y in t ensures Less(s[0], y) {
          assert y in Elems(t);
          if y != x {
            var j :| 0 <= j < |s[1..]| && s[1..][j] == y;
            assert s[j + 1] == y;
          }
        }
      }
      assert Elems([s[0]] + t) == {s[0]} + Elems(t);
      [s[0]] + t
  }

  /** `sorted(set(xs))`. */
  function SortUnique(xs: seq<string>): (r: seq<string>)
    ensures StrictlySorted(r)
    ensures Elems(r) == Elems(xs)
  {
    if xs == [] then []
    else
      var r := Insert(SortUnique(xs[..|xs| - 1]), xs[|xs| - 1]);
      assert Elems(xs) == Elems(xs[..|xs| - 1]) + {xs[|xs| - 1]} by {
        assert xs == xs[..|xs| - 1] + [xs[|xs| - 1]];
      }
      r
  }

  /** A strictly sorted sequence is determined by its elements. */
  lemma {:induction false} SortedUnique(a: seq<string>, b: seq<string>)
    requires StrictlySorted(a) && StrictlySorted(b)
    requires Elems(a) == Elems(b)
    ensures a == b
    decreases |a|
  {
    ElemsEmpty(a);
    ElemsEmpty(b);
    if a != [] && b != [] {
      assert a[0] == b[0] by {
        assert a[0] in Elems(b) && b[0] in Elems(a);
        if a[0] != b[0] {
          var i :| 0 <= i < |b| && b[i] == a[0];
          var j :| 0 <= j < |a| && a[j] == b[0];
          assert Less(b[0], a[0]) && Less(a[0], b[0]);
          LessAsymmetric(a[0], b[0]);
        }
      }
      TailElems(a);
      TailElems(b);
      SortedUnique(a[1..], b[1..]);
      assert a == [a[0]] + a[1..] && b == [b[0]] + b[1..];
    }
  }

  lemma ElemsEmpty(s: seq<string>)
    ensures Elems(s) == {} <==> s == []
  {
    if s != [] {
      assert s[0] in Elems(s);
    }
  }

  lemma TailElems(a: seq<string>)
    requires StrictlySorted(a) && a != []
    ensures StrictlySorted(a[1..])
    ensures Elems(a[1..]) == Elems(a) - {a[0]}
  {
    assert a == [a[0]] + a[1..];
    forall y | y in a[1..] ensures y != a[0] {
      var j :| 0 <= j < |a[1..]| && a[1..][j] == y;
      assert Less(a[0], a[j + 1]);
      LessIrreflexive(a[0]);
    }
  }

  /** Every finite set of strings has a strictly sorted arrangement. */
  lemma {:induction false} SortedExists(xs: set<string>)
    ensures exists r :: StrictlySorted(r) && Elems(r) == xs
    decreases |xs|
  {
    if xs == {} {
      assert StrictlySorted([]) && Elems([]) == xs;
    } else {
      var x :| x in xs;
      SortedExists(xs - {x});
      var r :| StrictlySorted(r) && Elems(r) == xs - {x};
      var r' := Insert(r, x);
      assert StrictlySorted(r') && Elems(r') == xs;
    }
  }

  /** The strictly sorted arrangement of a finite set (`sorted(s)` in Python). */
  ghost function SortedOf(xs: set<string>): (r: seq<string>)
    ensures StrictlySorted(r) && Elems(r) == xs
  {
    SortedExists(xs);
    var r :| StrictlySorted(r) && Elems(r) == xs;
    r
  }

  /** Sorting with duplicates removed is the sorted arrangement of the set of elements. */
  lemma SortUniqueIsSortedOf(xs: seq<string>)
    ensures SortUnique(xs) == SortedOf(Elems(xs))
  {
    SortedUnique(SortUnique(xs), SortedOf(Elems(xs)));
  }
}
