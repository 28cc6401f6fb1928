/** Python's stable `sorted`, and when its result does not depend on the order it was given. */
module Sorting {

  function Insert<T>(le: (T, T) -> bool, x: T, xs: seq<T>): seq<T> {
    if xs == [] then [x]
    else if le(x, xs[0]) then [x] + xs
    else [xs[0]] + Insert(le, x, xs[1..])
  }

  function Sort<T>(le: (T, T) -> bool, xs: seq<T>): seq<T> {
    if xs == [] then [] else Insert(le, xs[0], Sort(le, xs[1..]))
  }

  ghost predicate TotalPreorder<T(!new)>(le: (T, T) -> bool) {
    && (forall x, y :: le(x, y) || le(y, x))
    && (forall x, y, z :: le(x, y) && le(y, z) ==> le(x, z))
  }

  ghost predicate Sorted<T>(le: (T, T) -> bool, xs: seq<T>) {
    forall i, j :: 0 <= i < j < |xs| ==> le(xs[i], xs[j])
  }

  /** No two different members share a key. */
  ghost predicate DistinctKeys<T>(le: (T, T) -> bool, xs: seq<T>) {
    forall x, y :: x in xs && y in xs && le(x, y) && le(y, x) ==> x == y
  }

  lemma {:induction false} InsertPermutes<T>(le: (T, T) -> bool, x: T, xs: seq<T>)
    ensures multiset(Insert(le, x, xs)) == multiset([x] + xs)
  {
    if xs != [] && !le(x, xs[0]) {
      InsertPermutes(le, x, xs[1..]);
      assert xs == [xs[0]] + xs[1..];
      assert multiset([x] + xs) == multiset{x} + multiset{xs[0]} + multiset(xs[1..]);
    }
  }

  lemma {:induction false} SortPermutes<T>(le: (T, T) -> bool, xs: seq<T>)
    ensures multiset(Sort(le, xs)) == multiset(xs)
  {
    if xs != [] {
      SortPermutes(le, xs[1..]);
      InsertPermutes(le, xs[0], Sort(le, xs[1..]));
      assert xs == [xs[0]] + xs[1..];
    }
  }

  lemma {:induction false} InsertSorts<T(!new)>(le: (T, T) -> bool, x: T, xs: seq<T>)
    requires TotalPreorder(le) && Sorted(le, xs)
    ensures Sorted(le, Insert(le, x, xs))
  {
    if xs != [] {
      if le(x, xs[0]) {
        forall i | 0 <= i < |xs| ensures le(x, xs[i]) {
          if i > 0 { assert le(xs[0], xs[i]); }
        }
      } else {
        var rest := Insert(le, x, xs[1..]);
        assert Sorted(le, xs[1..]);
        InsertSorts(le, x, xs[1..]);
        InsertPermutes(le, x, xs[1..]);
        forall i | 0 <= i < |rest| ensures le(xs[0], rest[i]) {
          assert rest[i] in multiset(rest);
          assert rest[i] == x || rest[i] in xs[1..];
        }
      }
    }
  }

  lemma {:induction false} SortSorts<T(!new)>(le: (T, T) -> bool, xs: seq<T>)
    requires TotalPreorder(le)
    ensures Sorted(le, Sort(le, xs))
  {
    if xs != [] {
      SortSorts(le, xs[1..]);
      InsertSorts(le, xs[0], Sort(le, xs[1..]));
    }
  }

  lemma SameMembers<T>(a: seq<T>, b: seq<T>)
    requires multiset(a) == multiset(b)
    ensures |a| == |b| && forall x :: x in a <==> x in b
  {
    assert |a| == |multiset(a)| == |multiset(b)| == |b|;
    assert forall x :: x in a <==> x in multiset(a);
    assert forall x :: x in b <==> x in multiset(b);
  }

  lemma HeadIsLeast<T>(le: (T, T) -> bool, xs: seq<T>, x: T)
    requires Sorted(le, xs) && x in xs
    ensures xs[0] == x || le(xs[0], x)
  {
  }

  lemma TailOf<T>(xs: seq<T>)
    requires xs != []
    ensures multiset(xs[1..]) == multiset(xs) - multiset{xs[0]}
  {
    assert xs == [xs[0]] + xs[1..];
  }

  lemma SameHead<T>(le: (T, T) -> bool, a: seq<T>, b: seq<T>)
    requires Sorted(le, a) && Sorted(le, b) && multiset(a) == multiset(b) && DistinctKeys(le, a) && a != []
    ensures b != [] && a[0] == b[0] && multiset(a[1..]) == multiset(b[1..])
  {
    SameMembers(a, b);
    assert a[0] in a && b[0] in b;
    HeadIsLeast(le, a, b[0]);
    HeadIsLeast(le, b, a[0]);
    TailOf(a);
    TailOf(b);
  }

  /** Two sorted arrangements of the same members with distinct keys are the same sequence. */
  lemma {:induction false} SortedUnique<T>(le: (T, T) -> bool, a: seq<T>, b: seq<T>)
    requires Sorted(le, a) && Sorted(le, b) && multiset(a) == multiset(b) && DistinctKeys(le, a)
    ensures a == b
  {
    SameMembers(a, b);
    if a != [] {
      SameHead(le, a, b);
      SortedUnique(le, a[1..], b[1..]);
      assert a == [a[0]] + a[1..] && b == [b[0]] + b[1..];
    }
  }

  /** With distinct keys, sorting forgets the order it was given. */
  lemma SortForgetsOrder<T(!new)>(le: (T, T) -> bool, xs: seq<T>, ys: seq<T>)
    requires TotalPreorder(le) && multiset(xs) == multiset(ys) && DistinctKeys(le, xs)
    ensures Sort(le, xs) == Sort(le, ys)
  {
    SortSorts(le, xs);
    SortSorts(le, ys);
    SortPermutes(le, xs);
    SortPermutes(le, ys);
    SameMembers(Sort(le, xs), xs);
    SortedUnique(le, Sort(le, xs), Sort(le, ys));
  }

  /** A sorted sequence with distinct keys is its own sort. */
  lemma SortOfSorted<T(!new)>(le: (T, T) -> bool, xs: seq<T>)
    requires TotalPreorder(le) && Sorted(le, xs) && DistinctKeys(le, xs)
    ensures Sort(le, xs) == xs
  {
  }

  // ---- Lexicographic order ---------------------------------------------------------------------

  /** The first difference of two sequences is at `i`, and the first one is smaller there. */
  predicate FirstSmaller<T(==)>(lt: (T, T) -> bool, a: seq<T>, b: seq<T>, i: int) {
    0 <= i < |a| && i < |b| && a[..i] == b[..i] && lt(a[i], b[i])
  }

  /** At the first difference the smaller element, or a proper prefix. */
  ghost predicate Before<T>(lt: (T, T) -> bool, a: seq<T>, b: seq<T>) {
    (exists i :: FirstSmaller(lt, a, b, i)) || (|a| < |b| && a == b[..|a|])
  }

  lemma FirstSmallerTail<T>(lt: (T, T) -> bool, a: seq<T>, b: seq<T>, i: nat)
    requires a != [] && b != [] && a[0] == b[0]
    ensures FirstSmaller(lt, a, b, i + 1) <==> FirstSmaller(lt, a[1..], b[1..], i)
  {
    var x, y := a[1..], b[1..];
    if i <= |x| && i <= |y| {
      assert a[..i + 1] == [a[0]] + x[..i] && b[..i + 1] == [b[0]] + y[..i];
      assert a[..i + 1][1..] == x[..i] && b[..i + 1][1..] == y[..i];
    }
  }

  lemma BeforeTail<T>(lt: (T, T) -> bool, a: seq<T>, b: seq<T>)
    requires a != [] && b != [] && a[0] == b[0] && !lt(a[0], a[0])
    ensures Before(lt, a, b) <==> Before(lt, a[1..], b[1..])
  {
    var x, y := a[1..], b[1..];
    if i :| FirstSmaller(lt, a, b, i) {
      FirstSmallerTail(lt, a, b, i - 1);
    }
    if i :| FirstSmaller(lt, x, y, i) {
      FirstSmallerTail(lt, a, b, i);
      assert FirstSmaller(lt, a, b, i + 1);
    }
    if |a| < |b| {
      assert b[..|a|] == [b[0]] + y[..|x|];
      assert b[..|a|][1..] == y[..|x|];
      assert a == [a[0]] + x;
    }
  }

  /** With different heads the heads decide. */
  lemma BeforeHead<T>(lt: (T, T) -> bool, a: seq<T>, b: seq<T>)
    requires a != [] && b != [] && a[0] != b[0]
    ensures Before(lt, a, b) <==> lt(a[0], b[0])
  {
    if lt(a[0], b[0]) {
      assert FirstSmaller(lt, a, b, 0);
    }
    assert forall i :: 0 < i <= |a| && i <= |b| ==> a[..i][0] != b[..i][0];
    if |a| < |b| { assert b[..|a|][0] != a[0]; }
  }
}
