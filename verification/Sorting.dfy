/** The library sort, for any comparison: a stable sort that puts x in front of y when le(x, y). */
module Sorting {
  import opened Prelude

  /** Any two elements compare, transitively. */
  ghost predicate IsOrder<T(!new)>(le: (T, T) -> bool) {
    && (forall x, y :: le(x, y) || le(y, x))
    && (forall x, y, z :: le(x, y) && le(y, z) ==> le(x, z))
  }

  ghost predicate IsSorted<T>(s: seq<T>, le: (T, T) -> bool) {
    forall i, j :: 0 <= i < j < |s| ==> le(s[i], s[j])
  }

  /** x behind all leading elements that stay in front of it. */
  function Inserted<T(!new)>(x: T, s: seq<T>, le: (T, T) -> bool): (r: seq<T>)
    ensures multiset(r) == multiset(s) + multiset{x}
    ensures forall y :: y in r <==> y == x || y in s
  {
    if s == [] then [x]
    else if le(s[0], x) then
      assert s == [s[0]] + s[1..];
      [s[0]] + Inserted(x, s[1..], le)
    else [x] + s
  }

  function SortedBy<T(!new)>(s: seq<T>, le: (T, T) -> bool): (r: seq<T>)
    ensures multiset(r) == multiset(s)
    ensures forall y :: y in r <==> y in s
  {
    if s == [] then []
    else
      assert s == s[..|s| - 1] + [s[|s| - 1]];
      Inserted(s[|s| - 1], SortedBy(s[..|s| - 1], le), le)
  }

  lemma {:induction false} InsertedIsSorted<T(!new)>(x: T, s: seq<T>, le: (T, T) -> bool)
    requires IsOrder(le) && IsSorted(s, le)
    ensures IsSorted(Inserted(x, s, le), le)
  {
    if s != [] && le(s[0], x) {
      InsertedIsSorted(x, s[1..], le);
      var tail := Inserted(x, s[1..], le);
      forall j | 0 <= j < |tail| ensures le(s[0], tail[j]) {
        assert tail[j] in tail;
      }
    } else if s != [] {
      assert le(x, s[0]);
    }
  }

  lemma {:induction false} SortedByIsSorted<T(!new)>(s: seq<T>, le: (T, T) -> bool)
    requires IsOrder(le)
    ensures IsSorted(SortedBy(s, le), le)
  {
    if s != [] {
      SortedByIsSorted(s[..|s| - 1], le);
      InsertedIsSorted(s[|s| - 1], SortedBy(s[..|s| - 1], le), le);
    }
  }

  function Mapped<T, U>(f: T -> U, s: seq<T>): (r: seq<U>)
    ensures |r| == |s|
  {
    seq(|s|, i requires 0 <= i < |s| => f(s[i]))
  }

  lemma DropAt<T>(s: seq<T>, i: nat)
    requires i < |s|
    ensures multiset(s) == multiset(s[..i] + s[i + 1..]) + multiset{s[i]}
  {
    assert s == s[..i] + ([s[i]] + s[i + 1..]);
  }

  lemma MappedWithout<T, U>(f: T -> U, s: seq<T>, i: nat)
    requires i < |s|
    ensures multiset(Mapped(f, s)) == multiset(Mapped(f, s[..i] + s[i + 1..])) + multiset{f(s[i])}
  {
    var image := Mapped(f, s);
    DropAt(image, i);
    assert Mapped(f, s[..i] + s[i + 1..]) == image[..i] + image[i + 1..];
  }

  /** Images of permutations are permutations. */
  lemma {:induction false} MappedPermutes<T, U>(f: T -> U, a: seq<T>, b: seq<T>)
    requires multiset(a) == multiset(b)
    ensures multiset(Mapped(f, a)) == multiset(Mapped(f, b))
  {
    if a == [] {
      assert |multiset(a)| == |multiset(b)|;
    } else {
      var i := SamePlace(a, b);
      MappedPermutes(f, a[1..], b[..i] + b[i + 1..]);
      MappedWithout(f, b, i);
      MappedWithout(f, a, 0);
      assert a[..0] + a[1..] == a[1..];
    }
  }

  /** Where the second holds the first element of the first, and that the rest still agrees. */
  lemma SamePlace<T>(a: seq<T>, b: seq<T>) returns (i: nat)
    requires a != [] && multiset(a) == multiset(b)
    ensures i < |b| && b[i] == a[0] && multiset(a[1..]) == multiset(b[..i] + b[i + 1..])
  {
    assert a[0] in multiset(b);
    i :| i < |b| && b[i] == a[0];
    DropAt(b, i);
    DropFirst(a);
  }
}
