/** Sorting a slice by a comparison, as sort.Slice does, for comparisons that leave no ties. */
module Sorting {

  /** `before` orders the elements of `s` without ties. */
  ghost predicate StrictOrder<T>(before: (T, T) -> bool, s: set<T>) {
    && (forall a | a in s :: !before(a, a))
    && (forall a, b | a in s && b in s :: a == b || before(a, b) || before(b, a))
    && (forall a, b, c | a in s && b in s && c in s && before(a, b) && before(b, c) :: before(a, c))
  }

  ghost predicate Sorted<T>(before: (T, T) -> bool, s: seq<T>) {
    forall i, j | 0 <= i < j < |s| :: before(s[i], s[j])
  }

  function Insert<T>(before: (T, T) -> bool, x: T, s: seq<T>): seq<T> {
    if s == [] then [x]
    else if before(x, s[0]) then [x] + s
    else [s[0]] + Insert(before, x, s[1..])
  }

  lemma {:induction false} InsertElements<T>(before: (T, T) -> bool, x: T, s: seq<T>)
    ensures forall y | y in Insert(before, x, s) :: y == x || y in s
    ensures forall y | y == x || y in s :: y in Insert(before, x, s)
    ensures |Insert(before, x, s)| == |s| + 1
  {
    if s != [] && !before(x, s[0]) {
      InsertElements(before, x, s[1..]);
    }
  }

  lemma {:induction false} InsertSorted<T>(before: (T, T) -> bool, elements: set<T>, x: T, s: seq<T>)
    requires StrictOrder(before, elements) && Sorted(before, s) && x !in s
    requires x in elements && forall y | y in s :: y in elements
    ensures Sorted(before, Insert(before, x, s))
  {
    if s != [] && !before(x, s[0]) {
      InsertSorted(before, elements, x, s[1..]);
      InsertElements(before, x, s[1..]);
      var rest := Insert(before, x, s[1..]);
      forall j | 0 <= j < |rest| ensures before(s[0], rest[j]) {
        assert rest[j] in rest;
      }
    }
  }

  /** Only one order of the same elements is sorted. */
  lemma {:induction false} SortedUnique<T>(before: (T, T) -> bool, elements: set<T>, a: seq<T>, b: seq<T>)
    requires StrictOrder(before, elements) && Sorted(before, a) && Sorted(before, b)
    requires forall x | x in a :: x in elements
    requires forall x :: x in a <==> x in b
    ensures a == b
  {
    HasElement(b);
    if a != [] {
      assert a[0] in b;
      var j :| 0 <= j < |b| && b[j] == a[0];
      assert b[0] in a;
      var i :| 0 <= i < |a| && a[i] == b[0];
      assert a[0] == b[0];
      NotAgain(before, elements, a);
      NotAgain(before, elements, b);
      assert a == [a[0]] + a[1..] && b == [b[0]] + b[1..];
      forall x ensures x in a[1..] <==> x in b[1..] {
        assert x in a <==> x == a[0] || x in a[1..];
        assert x in b <==> x == b[0] || x in b[1..];
      }
      SortedUnique(before, elements, a[1..], b[1..]);
    }
  }

  lemma HasElement<T>(s: seq<T>)
    ensures s != [] ==> exists x :: x in s
  {
    if s != [] {
      assert s[0] in s;
    }
  }

  lemma NotAgain<T>(before: (T, T) -> bool, elements: set<T>, a: seq<T>)
    requires StrictOrder(before, elements) && Sorted(before, a) && a != [] && a[0] in elements
    ensures a[0] !in a[1..]
  {
  }

  /** The elements of a set in the order of the comparison. Sets, like Go's maps, are walked in an
      order of their own; the order of the result does not depend on it. */
  method SortSet<T(==)>(before: (T, T) -> bool, elements: set<T>) returns (s: seq<T>)
    requires StrictOrder(before, elements)
    ensures Sorted(before, s)
    ensures forall x | x in s :: x in elements
    ensures forall x | x in elements :: x in s
    ensures |s| == |elements|
  {
    s := [];
    var rest := elements;
    while rest != {}
      invariant Sorted(before, s)
      invariant rest <= elements
      invariant forall x | x in s :: x in elements && x !in rest
      invariant forall x | x in elements && x !in rest :: x in s
      invariant |s| + |rest| == |elements|
      decreases rest
    {
      var x :| x in rest;
      InsertSorted(before, elements, x, s);
      InsertElements(before, x, s);
      s := Insert(before, x, s);
      rest := rest - {x};
    }
  }

  /** Bytewise order on strings. */
  predicate StringLess(a: string, b: string) {
    if b == "" then false
    else if a == "" then true
    else a[0] < b[0] || (a[0] == b[0] && StringLess(a[1..], b[1..]))
  }

  lemma {:induction false} StringLessIrreflexive(a: string)
    ensures !StringLess(a, a)
  {
    if a != "" {
      StringLessIrreflexive(a[1..]);
    }
  }

  lemma {:induction false} StringLessTotal(a: string, b: string)
    ensures a == b || StringLess(a, b) || StringLess(b, a)
  {
    if a != "" && b != "" && a[0] == b[0] {
      StringLessTotal(a[1..], b[1..]);
      if a[1..] == b[1..] {
        assert a == [a[0]] + a[1..] && b == [b[0]] + b[1..];
      }
    }
  }

  lemma {:induction false} StringLessTransitive(a: string, b: string, c: string)
    requires StringLess(a, b) && StringLess(b, c)
    ensures StringLess(a, c)
  {
    if a != "" && a[0] == b[0] && b[0] == c[0] {
      StringLessTransitive(a[1..], b[1..], c[1..]);
    }
  }
}
