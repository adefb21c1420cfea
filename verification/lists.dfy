/** List operations several components share: flattening, subsequences,
    first occurrences and de-duplication in first-occurrence order. */
module Lists {

  function Flatten<T>(gs: seq<seq<T>>): seq<T> {
    if gs == [] then [] else gs[0] + Flatten(gs[1..])
  }

  lemma {:induction false} FlattenSnoc<T>(gs: seq<seq<T>>, g: seq<T>)
    ensures Flatten(gs + [g]) == Flatten(gs) + g
  {
    if gs != [] {
      assert (gs + [g])[1..] == gs[1..] + [g];
      FlattenSnoc(gs[1..], g);
    }
  }

  /** `a` can be obtained from `b` by deleting elements. */
  predicate IsSubsequence<T(==)>(a: seq<T>, b: seq<T>)
    decreases |b|
  {
    if a == [] then true
    else if b == [] then false
    else if a[|a| - 1] == b[|b| - 1] then IsSubsequence(a[..|a| - 1], b[..|b| - 1])
    else IsSubsequence(a, b[..|b| - 1])
  }

  lemma {:induction false} SubsequenceOfPrefix<T>(a: seq<T>, b: seq<T>, x: T)
    requires IsSubsequence(a, b)
    ensures IsSubsequence(a, b + [x])
    decreases |b|, 1
  {
    var bx := b + [x];
    assert bx[..|bx| - 1] == b;
    if a != [] && a[|a| - 1] == x {
      SubsequenceDropLast(a, b);
    }
  }

  lemma {:induction false} SubsequenceDropLast<T>(a: seq<T>, b: seq<T>)
    requires a != [] && IsSubsequence(a, b)
    ensures IsSubsequence(a[..|a| - 1], b)
    decreases |b|, 0
  {
    var b' := b[..|b| - 1];
    assert b' + [b[|b| - 1]] == b;
    if a[|a| - 1] == b[|b| - 1] {
      SubsequenceOfPrefix(a[..|a| - 1], b', b[|b| - 1]);
    } else {
      SubsequenceDropLast(a, b');
      SubsequenceOfPrefix(a[..|a| - 1], b', b[|b| - 1]);
    }
  }

  lemma {:induction false} SubsequenceSnoc<T>(a: seq<T>, b: seq<T>, x: T)
    requires IsSubsequence(a, b)
    ensures IsSubsequence(a + [x], b + [x])
  {
    var ax := a + [x];
    var bx := b + [x];
    assert ax[..|ax| - 1] == a;
    assert bx[..|bx| - 1] == b;
  }

  /** Each element of a subsequence is an element of the whole, at an index no
      smaller than its own. */
  lemma {:induction false} SubsequenceElements<T>(a: seq<T>, b: seq<T>)
    requires IsSubsequence(a, b)
    ensures forall i :: 0 <= i < |a| ==> a[i] in b
    decreases |b|
  {
    if a != [] {
      var b' := b[..|b| - 1];
      if a[|a| - 1] == b[|b| - 1] {
        SubsequenceElements(a[..|a| - 1], b');
        forall i | 0 <= i < |a| ensures a[i] in b {
          if i < |a| - 1 {
            assert a[i] == a[..|a| - 1][i];
            assert a[i] in b';
          }
        }
      } else {
        SubsequenceElements(a, b');
      }
    }
  }

  /** Relations that hold between every ordered pair of `b` hold between every
      ordered pair of a subsequence of `b`. */
  lemma {:induction false} SubsequencePairs<T>(a: seq<T>, b: seq<T>, r: (T, T) -> bool)
    requires IsSubsequence(a, b)
    requires forall i, j :: 0 <= i < j < |b| ==> r(b[i], b[j])
    ensures forall i, j :: 0 <= i < j < |a| ==> r(a[i], a[j])
    decreases |b|
  {
    if a != [] {
      var b' := b[..|b| - 1];
      assert forall i, j :: 0 <= i < j < |b'| ==> r(b'[i], b'[j]) by {
        forall i, j | 0 <= i < j < |b'| ensures r(b'[i], b'[j]) {
          assert b'[i] == b[i] && b'[j] == b[j];
        }
      }
      if a[|a| - 1] == b[|b| - 1] {
        var a' := a[..|a| - 1];
        SubsequencePairs(a', b', r);
        SubsequenceElements(a', b');
        forall i, j | 0 <= i < j < |a| ensures r(a[i], a[j]) {
          if j == |a| - 1 {
            assert a[i] == a'[i];
            assert a[i] in b';
            var k :| 0 <= k < |b'| && b'[k] == a[i];
            assert r(b[k], b[|b| - 1]);
          } else {
            assert a[i] == a'[i] && a[j] == a'[j];
          }
        }
      } else {
        SubsequencePairs(a, b', r);
      }
    }
  }

  /** The index of the first `x` in `xs`, or `|xs|` when there is none. */
  function FirstIndex<T(==)>(xs: seq<T>, x: T): (i: nat)
    ensures i <= |xs|
    ensures i < |xs| <==> x in xs
    ensures i < |xs| ==> xs[i] == x
    ensures forall k :: 0 <= k < i ==> xs[k] != x
  {
    if xs == [] then 0
    else if xs[0] == x then 0
    else 1 + FirstIndex(xs[1..], x)
  }

  lemma FirstIndexSnoc<T>(xs: seq<T>, y: T, x: T)
    requires x in xs
    ensures FirstIndex(xs + [y], x) == FirstIndex(xs, x)
  {
    var i := FirstIndex(xs, x);
    var j := FirstIndex(xs + [y], x);
    assert (xs + [y])[i] == x;
    assert xs[j] == (xs + [y])[j] by {
      assert j <= i;
    }
  }

  lemma FirstIndexOfNew<T>(xs: seq<T>, x: T)
    requires x !in xs
    ensures FirstIndex(xs + [x], x) == |xs|
  {
    var i := FirstIndex(xs + [x], x);
    assert forall k :: 0 <= k < |xs| ==> (xs + [x])[k] == xs[k];
  }

  predicate NoDuplicates<T(==)>(xs: seq<T>) {
    forall i, j :: 0 <= i < j < |xs| ==> xs[i] != xs[j]
  }

  /** The distinct elements of `xs` in the order they first occur, as a dict
      keyed by them or a seen-list would collect them. */
  function Distinct<T(==)>(xs: seq<T>): (r: seq<T>)
    ensures NoDuplicates(r)
    ensures |r| <= |xs|
  {
    if xs == [] then []
    else
      var d := Distinct(xs[..|xs| - 1]);
      var x := xs[|xs| - 1];
      assert xs == xs[..|xs| - 1] + [x];
      if x in d then d else d + [x]
  }

  /** `Distinct` keeps exactly the elements of its input. */
  lemma {:induction false} DistinctContains<T>(xs: seq<T>, x: T)
    ensures x in Distinct(xs) <==> x in xs
  {
    if xs != [] {
      var init := xs[..|xs| - 1];
      assert xs == init + [xs[|xs| - 1]];
      DistinctContains(init, x);
      DistinctContains(init, xs[|xs| - 1]);
    }
  }

  predicate FirstOccurrenceOrder<T(==)>(r: seq<T>, xs: seq<T>) {
    forall i, j :: 0 <= i < j < |r| ==> FirstIndex(xs, r[i]) < FirstIndex(xs, r[j])
  }

  /** `Distinct` lists the elements in the order of their first occurrence. */
  lemma {:induction false} DistinctOrder<T>(xs: seq<T>)
    ensures FirstOccurrenceOrder(Distinct(xs), xs)
  {
    if xs != [] {
      var init := xs[..|xs| - 1];
      var x := xs[|xs| - 1];
      assert xs == init + [x];
      DistinctOrder(init);
      DistinctContains(init, x);
      if x in Distinct(init) {
        DistinctOrderKeep(init, x);
      } else {
        DistinctOrderAdd(init, x);
      }
    }
  }

  lemma DistinctOrderKeep<T>(init: seq<T>, x: T)
    requires FirstOccurrenceOrder(Distinct(init), init)
    ensures FirstOccurrenceOrder(Distinct(init), init + [x])
  {
    var d := Distinct(init);
    forall i, j | 0 <= i < j < |d| ensures FirstIndex(init + [x], d[i]) < FirstIndex(init + [x], d[j]) {
      DistinctContains(init, d[i]);
      DistinctContains(init, d[j]);
      FirstIndexSnoc(init, x, d[i]);
      FirstIndexSnoc(init, x, d[j]);
    }
  }

  lemma DistinctOrderAdd<T>(init: seq<T>, x: T)
    requires FirstOccurrenceOrder(Distinct(init), init)
    requires x !in init
    ensures FirstOccurrenceOrder(Distinct(init) + [x], init + [x])
  {
    var d := Distinct(init);
    var r := d + [x];
    forall i, j | 0 <= i < j < |r| ensures FirstIndex(init + [x], r[i]) < FirstIndex(init + [x], r[j]) {
      DistinctOrderAddPair(init, x, i, j);
    }
  }

  lemma DistinctOrderAddPair<T>(init: seq<T>, x: T, i: nat, j: nat)
    requires FirstOccurrenceOrder(Distinct(init), init)
    requires x !in init
    requires i < j <= |Distinct(init)|
    ensures var r := Distinct(init) + [x];
            FirstIndex(init + [x], r[i]) < FirstIndex(init + [x], r[j])
  {
    var d := Distinct(init);
    var r := d + [x];
    assert r[i] == d[i];
    DistinctContains(init, d[i]);
    FirstIndexSnoc(init, x, d[i]);
    if j < |d| {
      assert r[j] == d[j];
      DistinctContains(init, d[j]);
      FirstIndexSnoc(init, x, d[j]);
    } else {
      FirstIndexOfNew(init, x);
      assert FirstIndex(init, d[i]) < |init|;
    }
  }
}
