/** Sorting by a strict total order, where every correct sort gives the same list. */
module Sorting {

  predicate Ascending<T>(less: (T, T) -> bool, r: seq<T>) {
    forall i, j :: 0 <= i < j < |r| ==> less(r[i], r[j])
  }

  ghost predicate SameElements<T(!new)>(a: seq<T>, b: seq<T>) {
    && (forall i :: 0 <= i < |a| ==> a[i] in b)
    && (forall i :: 0 <= i < |b| ==> b[i] in a)
  }

  predicate NoDuplicates<T(==)>(s: seq<T>) {
    forall i, j :: 0 <= i < j < |s| ==> s[i] != s[j]
  }

  /** The order is strict and total on the elements of a list. */
  ghost predicate StrictTotal<T(!new)>(less: (T, T) -> bool, s: seq<T>) {
    && (forall x, y :: x in s && y in s ==> !(less(x, y) && less(y, x)))
    && (forall x, y :: x in s && y in s && x != y ==> less(x, y) || less(y, x))
    && (forall x, y, z :: x in s && y in s && z in s && less(x, y) && less(y, z) ==> less(x, z))
  }

  function Insert<T>(less: (T, T) -> bool, x: T, r: seq<T>): (s: seq<T>)
    ensures |s| == |r| + 1
  {
    if r == [] || less(x, r[0]) then [x] + r else [r[0]] + Insert(less, x, r[1..])
  }

  function SortBy<T>(less: (T, T) -> bool, s: seq<T>): (r: seq<T>)
    ensures |r| == |s|
  {
    if s == [] then [] else Insert(less, s[0], SortBy(less, s[1..]))
  }

  lemma {:induction false} InsertElements<T(!new)>(less: (T, T) -> bool, x: T, r: seq<T>)
    ensures forall y :: y in Insert(less, x, r) <==> y == x || y in r
  {
    if r != [] && !less(x, r[0]) {
      InsertElements(less, x, r[1..]);
      assert r == [r[0]] + r[1..];
    }
  }

  lemma {:induction false} SortElements<T(!new)>(less: (T, T) -> bool, s: seq<T>)
    ensures forall y :: y in SortBy(less, s) <==> y in s
  {
    hide Insert;
    if s != [] {
      SortElements(less, s[1..]);
      InsertElements(less, s[0], SortBy(less, s[1..]));
      assert s == [s[0]] + s[1..];
    }
  }

  lemma AscendingCons<T(!new)>(less: (T, T) -> bool, x: T, r: seq<T>)
    requires Ascending(less, r) && forall y :: y in r ==> less(x, y)
    ensures Ascending(less, [x] + r)
  {
  }

  lemma AscendingTail<T(!new)>(less: (T, T) -> bool, r: seq<T>)
    requires Ascending(less, r) && r != []
    ensures Ascending(less, r[1..]) && forall y :: y in r[1..] ==> less(r[0], y)
  {
    assert forall i :: 0 <= i < |r| - 1 ==> r[1..][i] == r[i + 1];
  }

  lemma {:induction false} InsertAscends<T(!new)>(less: (T, T) -> bool, x: T, r: seq<T>, all: seq<T>)
    requires StrictTotal(less, all) && x in all && x !in r && forall y :: y in r ==> y in all
    requires Ascending(less, r)
    ensures Ascending(less, Insert(less, x, r))
  {
    hide Ascending, Insert, StrictTotal;
    InsertStep(less, x, r);
    if r == [] {
      AscendingOne(less, x);
    } else {
      var tail := r[1..];
      AscendingTail(less, r);
      TotalAt(less, all, x, r[0]);
      assert forall y :: y in r ==> y == r[0] || y in tail;
      if less(x, r[0]) {
        forall y | y in r ensures less(x, y) { if y != r[0] { TransitiveAt(less, all, x, r[0], y); } }
        AscendingCons(less, x, r);
      } else {
        InsertAscends(less, x, tail, all);
        InsertElements(less, x, tail);
        AscendingCons(less, r[0], Insert(less, x, tail));
      }
    }
  }

  lemma InsertStep<T(!new)>(less: (T, T) -> bool, x: T, r: seq<T>)
    ensures Insert(less, x, r) == if r == [] || less(x, r[0]) then [x] + r else [r[0]] + Insert(less, x, r[1..])
  {
  }

  lemma TotalAt<T(!new)>(less: (T, T) -> bool, all: seq<T>, x: T, y: T)
    requires StrictTotal(less, all) && x in all && y in all && x != y
    ensures less(x, y) || less(y, x)
  {
  }

  lemma TransitiveAt<T(!new)>(less: (T, T) -> bool, all: seq<T>, x: T, y: T, z: T)
    requires StrictTotal(less, all) && x in all && y in all && z in all && less(x, y) && less(y, z)
    ensures less(x, z)
  {
  }

  lemma AscendingOne<T(!new)>(less: (T, T) -> bool, x: T)
    ensures Ascending(less, [x] + []) && Ascending<T>(less, [])
  {
  }

  /** The sorted list is ascending and has the elements of the unsorted one. */
  lemma {:induction false} SortAscends<T(!new)>(less: (T, T) -> bool, s: seq<T>, all: seq<T>)
    requires StrictTotal(less, all) && NoDuplicates(s) && forall y :: y in s ==> y in all
    ensures Ascending(less, SortBy(less, s)) && SameElements(s, SortBy(less, s))
  {
    hide Insert, Ascending, StrictTotal;
    SortElements(less, s);
    MembersAreElements(s, SortBy(less, s));
    if s == [] {
      EmptyAscends(less);
    } else {
      SortAscends(less, s[1..], all);
      SortElements(less, s[1..]);
      assert s[0] !in s[1..] by { assert forall i :: 0 <= i < |s| - 1 ==> s[1..][i] == s[i + 1]; }
      InsertAscends(less, s[0], SortBy(less, s[1..]), all);
    }
  }

  lemma MembersAreElements<T(!new)>(a: seq<T>, b: seq<T>)
    requires forall y :: y in b <==> y in a
    ensures SameElements(a, b)
  {
  }

  lemma EmptyAscends<T(!new)>(less: (T, T) -> bool)
    ensures Ascending<T>(less, [])
  {
  }

  /** Whatever the sorting algorithm and the order it starts from, the result is the same. */
  lemma {:induction false} AscendingUnique<T(!new)>(less: (T, T) -> bool, a: seq<T>, b: seq<T>)
    requires StrictTotal(less, a) && Ascending(less, a) && Ascending(less, b) && SameElements(a, b)
    ensures a == b
    decreases |a|
  {
    if a == [] {
      assert b == [];
    } else {
      FirstIsLeast(less, a, b);
      AscendingTail(less, a);
      AscendingTail(less, b);
      TailElements(less, a, b);
      AscendingUnique(less, a[1..], b[1..]);
      assert a == [a[0]] + a[1..] && b == [b[0]] + b[1..];
    }
  }

  lemma FirstIsLeast<T(!new)>(less: (T, T) -> bool, a: seq<T>, b: seq<T>)
    requires StrictTotal(less, a) && Ascending(less, a) && Ascending(less, b) && SameElements(a, b) && a != []
    ensures b != [] && a[0] == b[0]
  {
    assert a[0] in b && b[0] in a;
  }

  lemma TailElements<T(!new)>(less: (T, T) -> bool, a: seq<T>, b: seq<T>)
    requires StrictTotal(less, a) && Ascending(less, a) && Ascending(less, b) && SameElements(a, b)
    requires a != [] && b != [] && a[0] == b[0]
    ensures SameElements(a[1..], b[1..]) && StrictTotal(less, a[1..])
  {
    assert forall x :: x in a[1..] ==> x in a;
    forall x | x in a[1..] ensures x in b[1..] {
      TailMember(less, a, b, x);
    }
    forall x | x in b[1..] ensures x in a[1..] {
      TailMember(less, b, a, x);
    }
  }

  lemma TailMember<T(!new)>(less: (T, T) -> bool, a: seq<T>, b: seq<T>, x: T)
    requires forall y :: y in a ==> !less(y, y)
    requires Ascending(less, a) && a != [] && b != [] && a[0] == b[0] && x in a[1..]
    requires forall i :: 0 <= i < |a| ==> a[i] in b
    ensures x in b[1..]
  {
    var i :| 0 <= i < |a| - 1 && a[1..][i] == x;
    assert a[i + 1] == x && less(a[0], x);
    var j :| 0 <= j < |b| && b[j] == x;
    if j > 0 { assert b[1..][j - 1] == x; }
  }

  lemma DistinctAppend<T(!new)>(a: seq<T>, b: seq<T>)
    requires NoDuplicates(a) && NoDuplicates(b) && forall x :: x in a ==> x !in b
    ensures NoDuplicates(a + b)
  {
    var all := a + b;
    forall i, j | 0 <= i < j < |all| ensures all[i] != all[j] {
      if i < |a| <= j {
        assert all[i] in a && all[j] in b;
      } else if i >= |a| {
        assert all[i] == b[i - |a|] && all[j] == b[j - |a|];
      }
    }
  }

  // ----- Stable sorting

  function StableInsert<T>(less: (T, T) -> bool, x: T, r: seq<T>): (s: seq<T>)
    ensures |s| == |r| + 1
  {
    if r == [] || !less(r[0], x) then [x] + r else [r[0]] + StableInsert(less, x, r[1..])
  }

  /** sort.SliceStable */
  function StableSort<T>(less: (T, T) -> bool, s: seq<T>): (r: seq<T>)
    ensures |r| == |s|
  {
    if s == [] then [] else StableInsert(less, s[0], StableSort(less, s[1..]))
  }

  function Reversed<T>(s: seq<T>): (r: seq<T>)
    ensures |r| == |s| && forall i :: 0 <= i < |s| ==> r[i] == s[|s| - 1 - i]
  {
    if s == [] then [] else Reversed(s[1..]) + [s[0]]
  }

  lemma {:induction false} StableInsertLast<T(!new)>(less: (T, T) -> bool, x: T, r: seq<T>)
    requires forall y :: y in r ==> less(y, x)
    ensures StableInsert(less, x, r) == r + [x]
  {
    if r != [] {
      assert forall y :: y in r[1..] ==> y in r;
      StableInsertLast(less, x, r[1..]);
      assert r[0] in r && r == [r[0]] + r[1..];
    }
  }

  /** A list in which every element comes after all it should precede is reversed. */
  lemma {:induction false} StableSortReverses<T(!new)>(less: (T, T) -> bool, s: seq<T>)
    requires forall i, j :: 0 <= i < j < |s| ==> less(s[j], s[i])
    ensures StableSort(less, s) == Reversed(s)
  {
    hide StableInsert;
    if s != [] {
      var rest := s[1..];
      assert forall i :: 0 <= i < |rest| ==> rest[i] == s[i + 1];
      StableSortReverses(less, rest);
      forall y | y in Reversed(rest) ensures less(y, s[0]) {
        var i :| 0 <= i < |rest| && Reversed(rest)[i] == y;
        assert y == s[|rest| - i];
      }
      StableInsertLast(less, s[0], Reversed(rest));
    }
  }

  lemma {:induction false} StableInsertElements<T(!new)>(less: (T, T) -> bool, x: T, r: seq<T>)
    ensures forall y :: y in StableInsert(less, x, r) <==> y == x || y in r
  {
    if r != [] && less(r[0], x) {
      StableInsertElements(less, x, r[1..]);
      assert r == [r[0]] + r[1..];
    }
  }

  lemma {:induction false} StableSortElements<T(!new)>(less: (T, T) -> bool, s: seq<T>)
    ensures forall y :: y in StableSort(less, s) <==> y in s
  {
    hide StableInsert;
    if s != [] {
      StableSortElements(less, s[1..]);
      StableInsertElements(less, s[0], StableSort(less, s[1..]));
      assert s == [s[0]] + s[1..];
    }
  }

  lemma {:induction false} StableInsertIsInsert<T(!new)>(less: (T, T) -> bool, x: T, r: seq<T>, all: seq<T>)
    requires StrictTotal(less, all) && x in all && x !in r && forall y :: y in r ==> y in all
    ensures StableInsert(less, x, r) == Insert(less, x, r)
  {
    hide StrictTotal;
    if r != [] {
      assert r[0] in r;
      TotalAt(less, all, x, r[0]);
      AsymmetricAt(less, all, x, r[0]);
      assert forall y :: y in r[1..] ==> y in r;
      StableInsertIsInsert(less, x, r[1..], all);
    }
  }

  lemma AsymmetricAt<T(!new)>(less: (T, T) -> bool, all: seq<T>, x: T, y: T)
    requires StrictTotal(less, all) && x in all && y in all
    ensures !(less(x, y) && less(y, x))
  {
  }

  /** Without ties a stable sort is any sort. */
  lemma {:induction false} StableSortIsSort<T(!new)>(less: (T, T) -> bool, s: seq<T>, all: seq<T>)
    requires StrictTotal(less, all) && NoDuplicates(s) && forall y :: y in s ==> y in all
    ensures StableSort(less, s) == SortBy(less, s)
  {
    hide Insert, StableInsert, StrictTotal;
    if s != [] {
      var rest := s[1..];
      assert forall i :: 0 <= i < |rest| ==> rest[i] == s[i + 1];
      StableSortIsSort(less, rest, all);
      SortElements(less, rest);
      StableInsertIsInsert(less, s[0], SortBy(less, rest), all);
    }
  }

  // ----- Ranks

  /** How many elements of the list come before y. */
  function Before<T>(less: (T, T) -> bool, s: seq<T>, y: T): nat {
    if s == [] then 0 else (if less(s[0], y) then 1 else 0) + Before(less, s[1..], y)
  }

  lemma BeforeCons<T(!new)>(less: (T, T) -> bool, x: T, s: seq<T>, y: T)
    ensures Before(less, [x] + s, y) == (if less(x, y) then 1 else 0) + Before(less, s, y)
    ensures Before(less, [], y) == 0
  {
    assert ([x] + s)[1..] == s;
  }

  lemma {:induction false} InsertKeepsRank<T(!new)>(less: (T, T) -> bool, x: T, r: seq<T>, y: T)
    ensures Before(less, StableInsert(less, x, r), y) == (if less(x, y) then 1 else 0) + Before(less, r, y)
  {
    hide Before;
    if r == [] || !less(r[0], x) {
      BeforeCons(less, x, r, y);
    } else {
      InsertKeepsRank(less, x, r[1..], y);
      BeforeCons(less, r[0], r[1..], y);
      BeforeCons(less, r[0], StableInsert(less, x, r[1..]), y);
      assert r == [r[0]] + r[1..];
    }
  }

  /** Sorting changes no rank. */
  lemma {:induction false} SortKeepsRank<T(!new)>(less: (T, T) -> bool, s: seq<T>, y: T)
    ensures Before(less, StableSort(less, s), y) == Before(less, s, y)
  {
    hide Before, StableInsert;
    if s != [] {
      SortKeepsRank(less, s[1..], y);
      InsertKeepsRank(less, s[0], StableSort(less, s[1..]), y);
      BeforeCons(less, s[0], s[1..], y);
      assert s == [s[0]] + s[1..];
    }
  }

  lemma {:induction false} NoneBefore<T(!new)>(less: (T, T) -> bool, s: seq<T>, y: T)
    requires forall x :: x in s ==> !less(x, y)
    ensures Before(less, s, y) == 0
  {
    if s != [] {
      assert forall x :: x in s[1..] ==> x in s;
      NoneBefore(less, s[1..], y);
    }
  }

  /** In an ascending list the rank of an element is its position. */
  lemma {:induction false} RankIsPosition<T(!new)>(less: (T, T) -> bool, s: seq<T>, i: nat, all: seq<T>)
    requires StrictTotal(less, all) && Ascending(less, s) && i < |s| && forall y :: y in s ==> y in all
    ensures Before(less, s, s[i]) == i
  {
    hide Before, StrictTotal;
    var rest := s[1..];
    BeforeCons(less, s[0], rest, s[i]);
    assert s == [s[0]] + rest && forall j :: 0 <= j < |rest| ==> rest[j] == s[j + 1];
    if i == 0 {
      forall x | x in rest ensures !less(x, s[0]) {
        var j :| 0 <= j < |rest| && rest[j] == x;
        assert less(s[0], s[j + 1]);
        AsymmetricAt(less, all, s[0], x);
      }
      AsymmetricAt(less, all, s[0], s[0]);
      NoneBefore(less, rest, s[0]);
    } else {
      RankIsPosition(less, rest, i - 1, all);
    }
  }

  // ----- Strings

  /** The byte-wise order of sort.Strings and of < on Go strings. */
  predicate StringLess(a: string, b: string) {
    if b == "" then false
    else if a == "" then true
    else if a[0] != b[0] then a[0] < b[0]
    else StringLess(a[1..], b[1..])
  }

  lemma {:induction false} StringLessStrict(a: string, b: string)
    ensures !(StringLess(a, b) && StringLess(b, a))
    ensures a != b ==> StringLess(a, b) || StringLess(b, a)
    decreases |a|
  {
    if a != "" && b != "" && a[0] == b[0] {
      StringLessStrict(a[1..], b[1..]);
      assert a == [a[0]] + a[1..] && b == [b[0]] + b[1..];
    }
  }

  /** The first place where two strings differ. */
  predicate DiffersAt(a: string, b: string, k: nat) {
    k <= |a| && k < |b| && a[..k] == b[..k] && (k == |a| || a[k] < b[k])
  }

  /** The order is that of the first difference, and a proper prefix comes before the whole. */
  lemma {:induction false} StringLessMeans(a: string, b: string)
    ensures StringLess(a, b) <==> exists k :: 0 <= k <= |a| && DiffersAt(a, b, k)
    decreases |a|
  {
    if a == "" || b == "" || a[0] != b[0] {
      if b != "" && (a == "" || a[0] < b[0]) { assert DiffersAt(a, b, 0); }
    } else {
      StringLessMeans(a[1..], b[1..]);
      assert a == [a[0]] + a[1..] && b == [b[0]] + b[1..];
      if k :| 0 <= k <= |a| - 1 && DiffersAt(a[1..], b[1..], k) {
        assert a[..k + 1] == [a[0]] + a[1..][..k] && b[..k + 1] == [b[0]] + b[1..][..k];
        assert DiffersAt(a, b, k + 1);
      }
      if k :| 0 <= k <= |a| && DiffersAt(a, b, k) {
        assert a[1..][..k - 1] == a[..k][1..] && b[1..][..k - 1] == b[..k][1..];
        assert DiffersAt(a[1..], b[1..], k - 1);
      }
    }
  }

  lemma {:induction false} StringLessTransitive(a: string, b: string, c: string)
    requires StringLess(a, b) && StringLess(b, c)
    ensures StringLess(a, c)
    decreases |a|
  {
    if a != "" && a[0] == b[0] && b[0] == c[0] { StringLessTransitive(a[1..], b[1..], c[1..]); }
  }

  lemma StringsTotal(s: seq<string>)
    ensures StrictTotal(StringLess, s)
  {
    hide StringLess;
    forall x, y | x in s && y in s ensures !(StringLess(x, y) && StringLess(y, x)) { StringLessStrict(x, y); }
    forall x, y | x in s && y in s && x != y ensures StringLess(x, y) || StringLess(y, x) { StringLessStrict(x, y); }
    forall x, y, z | x in s && y in s && z in s && StringLess(x, y) && StringLess(y, z) ensures StringLess(x, z) {
      StringLessTransitive(x, y, z);
    }
  }
}
