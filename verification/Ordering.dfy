/** Sorting and lexicographic order, as the standard library's `sort` family and `Ord` for slices give them. */
module Ordering {
  ghost predicate TotalPreorder<T(!new)>(leq: (T, T) -> bool) {
    && (forall x, y :: leq(x, y) || leq(y, x))
    && (forall x, y, z :: leq(x, y) && leq(y, z) ==> leq(x, z))
  }

  ghost predicate TotalOrder<T(!new)>(leq: (T, T) -> bool) {
    && TotalPreorder(leq)
    && (forall x, y :: leq(x, y) && leq(y, x) ==> x == y)
  }

  /** Equivalent elements of `s` are equal. */
  ghost predicate Separates<T>(leq: (T, T) -> bool, s: multiset<T>) {
    forall x, y :: x in s && y in s && leq(x, y) && leq(y, x) ==> x == y
  }

  ghost predicate Sorted<T>(leq: (T, T) -> bool, s: seq<T>) {
    forall i, j :: 0 <= i < j < |s| ==> leq(s[i], s[j])
  }

  /** The place of `x` is before the first element that is not smaller. */
  function Insert<T>(leq: (T, T) -> bool, x: T, s: seq<T>): (r: seq<T>)
    ensures multiset(r) == multiset(s) + multiset{x}
  {
    if s == [] then [x]
    else if leq(x, s[0]) then [x] + s
    else
      assert s == [s[0]] + s[1..];
      [s[0]] + Insert(leq, x, s[1..])
  }

  function Sort<T>(leq: (T, T) -> bool, s: seq<T>): (r: seq<T>)
    ensures multiset(r) == multiset(s)
  {
    if s == [] then []
    else
      assert s == [s[0]] + s[1..];
      Insert(leq, s[0], Sort(leq, s[1..]))
  }

  lemma {:induction false} InsertSorted<T(!new)>(leq: (T, T) -> bool, x: T, s: seq<T>)
    requires TotalPreorder(leq) && Sorted(leq, s)
    ensures Sorted(leq, Insert(leq, x, s))
  {
    if s != [] && !leq(x, s[0]) {
      var r := Insert(leq, x, s[1..]);
      InsertSorted(leq, x, s[1..]);
      forall j | 0 <= j < |r|
        ensures leq(s[0], r[j])
      {
        assert r[j] in multiset(r);
        assert r[j] in s[1..] || r[j] == x;
      }
    }
  }

  lemma {:induction false} SortSorts<T(!new)>(leq: (T, T) -> bool, s: seq<T>)
    requires TotalPreorder(leq)
    ensures Sorted(leq, Sort(leq, s))
  {
    if s != [] {
      SortSorts(leq, s[1..]);
      InsertSorted(leq, s[0], Sort(leq, s[1..]));
    }
  }

  lemma HeadAndTail<T>(s: seq<T>)
    requires s != []
    ensures multiset(s) == multiset{s[0]} + multiset(s[1..])
  {
    assert s == [s[0]] + s[1..];
  }

  lemma SameLength<T>(a: seq<T>, b: seq<T>)
    requires multiset(a) == multiset(b)
    ensures |a| == |b|
  {
    assert |a| == |multiset(a)| && |b| == |multiset(b)|;
  }

  lemma SameTail<T>(a: seq<T>, b: seq<T>)
    requires multiset(a) == multiset(b) && a != [] && b != [] && a[0] == b[0]
    ensures multiset(a[1..]) == multiset(b[1..])
  {
    HeadAndTail(a);
    HeadAndTail(b);
    assert multiset(a[1..]) == multiset(a) - multiset{a[0]};
    assert multiset(b[1..]) == multiset(b) - multiset{a[0]};
  }

  lemma SameHead<T(!new)>(leq: (T, T) -> bool, a: seq<T>, b: seq<T>)
    requires TotalPreorder(leq) && Separates(leq, multiset(a))
    requires Sorted(leq, a) && Sorted(leq, b) && multiset(a) == multiset(b) && a != [] && b != []
    ensures a[0] == b[0]
  {
    assert a[0] in multiset(a) && b[0] in multiset(b);
    assert a[0] in b && b[0] in a;
    assert leq(a[0], b[0]) && leq(b[0], a[0]);
  }

  /** What sorting needs of a sequence, of its tail. */
  lemma TailOf<T(!new)>(leq: (T, T) -> bool, s: seq<T>)
    requires s != [] && Sorted(leq, s) && Separates(leq, multiset(s))
    ensures Sorted(leq, s[1..]) && Separates(leq, multiset(s[1..]))
  {
    HeadAndTail(s);
    assert forall x :: x in multiset(s[1..]) ==> x in multiset(s);
  }

  /** Two sorted arrangements of the same elements are the same, if the order tells the elements apart. */
  lemma {:induction false} SortedUnique<T(!new)>(leq: (T, T) -> bool, a: seq<T>, b: seq<T>)
    requires TotalPreorder(leq) && Separates(leq, multiset(a))
    requires Sorted(leq, a) && Sorted(leq, b) && multiset(a) == multiset(b)
    ensures a == b
    decreases |a|
  {
    hide TotalPreorder, Separates, Sorted;
    SameLength(a, b);
    if a != [] {
      SameHead(leq, a, b);
      TailOf(leq, a);
      TailOf(leq, b);
      SameTail(a, b);
      SortedUnique(leq, a[1..], b[1..]);
      assert a == [a[0]] + a[1..] && b == [b[0]] + b[1..];
    }
  }

  /** Sorting forgets the order in which the elements came. */
  lemma SortForgetsOrder<T(!new)>(leq: (T, T) -> bool, a: seq<T>, b: seq<T>)
    requires TotalPreorder(leq) && Separates(leq, multiset(a)) && multiset(a) == multiset(b)
    ensures Sort(leq, a) == Sort(leq, b)
  {
    SortSorts(leq, a);
    SortSorts(leq, b);
    SortedUnique(leq, Sort(leq, a), Sort(leq, b));
  }

  // ---------------------------------------------------------------- lexicographic order

  predicate CharLeq(x: char, y: char) {
    x <= y
  }

  predicate LexLeq<T(==)>(leq: (T, T) -> bool, a: seq<T>, b: seq<T>) {
    if a == [] then true
    else if b == [] then false
    else if a[0] == b[0] then LexLeq(leq, a[1..], b[1..])
    else leq(a[0], b[0])
  }

  predicate StringLeq(a: string, b: string) {
    LexLeq(CharLeq, a, b)
  }

  lemma {:induction false} LexTotal<T(!new)>(leq: (T, T) -> bool, a: seq<T>, b: seq<T>)
    requires TotalOrder(leq)
    ensures LexLeq(leq, a, b) || LexLeq(leq, b, a)
    ensures LexLeq(leq, a, b) && LexLeq(leq, b, a) ==> a == b
    decreases |a|
  {
    if a != [] && b != [] && a[0] == b[0] {
      LexTotal(leq, a[1..], b[1..]);
      assert a == [a[0]] + a[1..] && b == [b[0]] + b[1..];
    }
  }

  lemma {:induction false} LexTransitive<T(!new)>(leq: (T, T) -> bool, a: seq<T>, b: seq<T>, c: seq<T>)
    requires TotalOrder(leq) && LexLeq(leq, a, b) && LexLeq(leq, b, c)
    ensures LexLeq(leq, a, c)
    decreases |a|
  {
    if a != [] && a[0] == b[0] == c[0] {
      LexTransitive(leq, a[1..], b[1..], c[1..]);
    }
  }

  lemma StringOrder()
    ensures TotalOrder(StringLeq)
  {
    forall a, b
      ensures StringLeq(a, b) || StringLeq(b, a)
      ensures StringLeq(a, b) && StringLeq(b, a) ==> a == b
    {
      LexTotal(CharLeq, a, b);
    }
    forall a, b, c | StringLeq(a, b) && StringLeq(b, c)
      ensures StringLeq(a, c)
    {
      LexTransitive(CharLeq, a, b, c);
    }
  }

  // ---------------------------------------------------------------- mapping

  function Mapped<T, U>(f: T -> U, s: seq<T>): (r: seq<U>)
    ensures |r| == |s|
    ensures forall i :: 0 <= i < |s| ==> r[i] == f(s[i])
  {
    if s == [] then [] else [f(s[0])] + Mapped(f, s[1..])
  }

  function Without<T>(s: seq<T>, i: nat): (r: seq<T>)
    requires i < |s|
    ensures |r| == |s| - 1
    ensures forall k :: 0 <= k < |r| ==> r[k] == s[if k < i then k else k + 1]
  {
    s[..i] + s[i + 1..]
  }

  lemma WithoutOne<T>(s: seq<T>, i: nat)
    requires i < |s|
    ensures multiset(s) == multiset{s[i]} + multiset(Without(s, i))
  {
    assert s == s[..i] + [s[i]] + s[i + 1..];
  }

  lemma MappedWithout<T, U>(f: T -> U, s: seq<T>, i: nat)
    requires i < |s|
    ensures Mapped(f, Without(s, i)) == Without(Mapped(f, s), i)
  {
    var a, b := Mapped(f, Without(s, i)), Without(Mapped(f, s), i);
    assert |a| == |b|;
    assert forall k :: 0 <= k < |a| ==> a[k] == b[k];
  }

  /** Mapping a rearrangement gives a rearrangement. */
  lemma {:induction false} MappedPermutation<T, U>(f: T -> U, a: seq<T>, b: seq<T>)
    requires multiset(a) == multiset(b)
    ensures multiset(Mapped(f, a)) == multiset(Mapped(f, b))
    decreases |a|
  {
    SameLength(a, b);
    if a != [] {
      assert a[0] in multiset(b);
      var i :| 0 <= i < |b| && b[i] == a[0];
      var rest := Without(b, i);
      HeadAndTail(a);
      WithoutOne(b, i);
      assert multiset(a[1..]) == multiset(a) - multiset{a[0]} == multiset(rest);
      MappedPermutation(f, a[1..], rest);
      MappedWithout(f, b, i);
      WithoutOne(Mapped(f, b), i);
      assert Mapped(f, a) == [f(a[0])] + Mapped(f, a[1..]);
    }
  }
}
