/** Python's stable sort: the one sorted arrangement that keeps ties in their given
    order, whatever algorithm produces it. */
module Sorting {
  ghost predicate Preorder<T(!new)>(le: (T, T) -> bool) {
    && (forall x, y :: le(x, y) || le(y, x))
    && (forall x, y, z :: le(x, y) && le(y, z) ==> le(x, z))
  }

  predicate Sorted<T>(s: seq<T>, le: (T, T) -> bool) {
    forall i, j :: 0 <= i < j < |s| ==> le(s[i], s[j])
  }

  /** The elements of `s` that tie with `x`, in order. */
  function Ties<T>(s: seq<T>, x: T, le: (T, T) -> bool): seq<T> {
    if s == [] then []
    else (if le(s[0], x) && le(x, s[0]) then [s[0]] else []) + Ties(s[1..], x, le)
  }

  lemma {:induction false} TiesConcat<T>(s: seq<T>, t: seq<T>, x: T, le: (T, T) -> bool)
    ensures Ties(s + t, x, le) == Ties(s, x, le) + Ties(t, x, le)
  {
    if s == [] {
      assert s + t == t;
    } else {
      assert (s + t)[1..] == s[1..] + t;
      TiesConcat(s[1..], t, x, le);
    }
  }

  lemma {:induction false} TiesAreElements<T>(s: seq<T>, x: T, le: (T, T) -> bool)
    ensures forall y :: y in Ties(s, x, le) <==> y in s && le(x, y) && le(y, x)
  {
    if s != [] {
      assert s == [s[0]] + s[1..];
      TiesAreElements(s[1..], x, le);
    }
  }

  function Insert<T>(x: T, s: seq<T>, le: (T, T) -> bool): seq<T> {
    if s == [] || le(x, s[0]) then [x] + s else [s[0]] + Insert(x, s[1..], le)
  }

  function StableSort<T>(s: seq<T>, le: (T, T) -> bool): seq<T> {
    if s == [] then [] else Insert(s[0], StableSort(s[1..], le), le)
  }

  lemma {:induction false} InsertPermutes<T>(x: T, s: seq<T>, le: (T, T) -> bool)
    ensures multiset(Insert(x, s, le)) == multiset([x] + s)
  {
    if s != [] && !le(x, s[0]) {
      assert s == [s[0]] + s[1..];
      InsertPermutes(x, s[1..], le);
    }
  }

  lemma {:induction false} InsertSorts<T(!new)>(x: T, s: seq<T>, le: (T, T) -> bool)
    requires Preorder(le) && Sorted(s, le)
    ensures Sorted(Insert(x, s, le), le)
  {
    if s != [] && !le(x, s[0]) {
      InsertSorts(x, s[1..], le);
      InsertPermutes(x, s[1..], le);
      var rest := Insert(x, s[1..], le);
      forall i | 0 <= i < |rest| ensures le(s[0], rest[i]) {
        assert rest[i] in multiset([x] + s[1..]);
      }
    }
  }

  lemma {:induction false} InsertKeepsTies<T(!new)>(x: T, s: seq<T>, y: T, le: (T, T) -> bool)
    requires Preorder(le)
    ensures Ties(Insert(x, s, le), y, le) == Ties([x] + s, y, le)
  {
    if s != [] && !le(x, s[0]) {
      InsertKeepsTies(x, s[1..], y, le);
      assert ([x] + s)[1..] == s && ([x] + s[1..])[1..] == s[1..];
      assert ([s[0]] + Insert(x, s[1..], le))[1..] == Insert(x, s[1..], le);
    }
  }

  lemma {:induction false} SortIsStable<T(!new)>(s: seq<T>, le: (T, T) -> bool)
    requires Preorder(le)
    ensures Sorted(StableSort(s, le), le) && multiset(StableSort(s, le)) == multiset(s)
    ensures forall x :: Ties(StableSort(s, le), x, le) == Ties(s, x, le)
  {
    if s != [] {
      assert s == [s[0]] + s[1..];
      SortIsStable(s[1..], le);
      InsertSorts(s[0], StableSort(s[1..], le), le);
      InsertPermutes(s[0], StableSort(s[1..], le), le);
      forall x ensures Ties(StableSort(s, le), x, le) == Ties(s, x, le) {
        InsertKeepsTies(s[0], StableSort(s[1..], le), x, le);
        assert ([s[0]] + StableSort(s[1..], le))[1..] == StableSort(s[1..], le);
      }
    }
  }

  lemma TiesOfTail<T>(s: seq<T>, x: T, le: (T, T) -> bool)
    requires s != []
    ensures Ties(s[1..], x, le) == if le(s[0], x) && le(x, s[0]) then Ties(s, x, le)[1..] else Ties(s, x, le)
  {
  }

  /** Sorted and stable leaves no choice. */
  lemma {:induction false} OnlyOneStableOrder<T(!new)>(a: seq<T>, b: seq<T>, le: (T, T) -> bool)
    requires Preorder(le) && Sorted(a, le) && Sorted(b, le)
    requires forall x :: Ties(a, x, le) == Ties(b, x, le)
    ensures a == b
  {
    if a != [] || b != [] {
      var x := if a != [] then a[0] else b[0];
      TiesAreElements(a, x, le);
      TiesAreElements(b, x, le);
      assert x in Ties(a, x, le) && x in Ties(b, x, le);
      TiesAreElements(a, b[0], le);
      assert b[0] in Ties(b, b[0], le);
      assert le(a[0], b[0]) && le(b[0], a[0]);
      assert Ties(a, a[0], le)[0] == a[0] && Ties(b, a[0], le)[0] == b[0];
      assert a[0] == b[0];
      forall y ensures Ties(a[1..], y, le) == Ties(b[1..], y, le) {
        TiesOfTail(a, y, le);
        TiesOfTail(b, y, le);
      }
      OnlyOneStableOrder(a[1..], b[1..], le);
    }
  }

  // ---- rearrangements --------------------------------------------------------

  ghost predicate DistinctBy<T, K>(s: seq<T>, key: T -> K) {
    forall i, j :: 0 <= i < j < |s| ==> key(s[i]) != key(s[j])
  }

  lemma Repeated<T>(s: seq<T>, i: nat, j: nat)
    requires i < j < |s| && s[i] == s[j]
    ensures multiset(s)[s[i]] >= 2
  {
    assert s == s[..i] + [s[i]] + s[i + 1..j] + [s[j]] + s[j + 1..];
  }

  lemma NotRepeated<T, K>(s: seq<T>, x: T, key: T -> K)
    requires DistinctBy(s, key)
    ensures multiset(s)[x] <= 1
  {
    if x in s {
      var i :| 0 <= i < |s| && s[i] == x;
      assert s == s[..i] + [s[i]] + s[i + 1..];
      assert x !in s[..i] && x !in s[i + 1..];
    }
  }

  /** A rearrangement has the same elements, as many of them, and keeps keys distinct. */
  lemma Rearranged<T, K>(s: seq<T>, t: seq<T>, key: T -> K)
    requires multiset(t) == multiset(s)
    ensures |t| == |s| && forall x :: x in t <==> x in s
    ensures DistinctBy(s, key) ==> DistinctBy(t, key)
  {
    assert |multiset(t)| == |t| && |multiset(s)| == |s|;
    assert forall x :: x in t <==> x in multiset(t);
    assert forall x :: x in s <==> x in multiset(s);
    if DistinctBy(s, key) {
      forall i, j | 0 <= i < j < |t| ensures key(t[i]) != key(t[j]) {
        if t[i] == t[j] {
          Repeated(t, i, j);
          NotRepeated(s, t[i], key);
        } else {
          DifferentKeys(s, t[i], t[j], key);
        }
      }
    }
  }

  lemma DifferentKeys<T, K>(s: seq<T>, x: T, y: T, key: T -> K)
    requires DistinctBy(s, key) && x in s && y in s && x != y
    ensures key(x) != key(y)
  {
    var i :| 0 <= i < |s| && s[i] == x;
    var j :| 0 <= j < |s| && s[j] == y;
    assert if i < j then key(s[i]) != key(s[j]) else key(s[j]) != key(s[i]);
  }

  // ---- text order ------------------------------------------------------------

  /** Comparison by code point: negative, zero or positive. */
  function CompareText(a: string, b: string): int {
    if a == [] then (if b == [] then 0 else -1)
    else if b == [] then 1
    else if a[0] != b[0] then (if a[0] < b[0] then -1 else 1)
    else CompareText(a[1..], b[1..])
  }

  /** Comparison of tuples of texts, component by component. */
  function CompareTexts(a: seq<string>, b: seq<string>): int {
    if a == [] then (if b == [] then 0 else -1)
    else if b == [] then 1
    else if CompareText(a[0], b[0]) != 0 then CompareText(a[0], b[0])
    else CompareTexts(a[1..], b[1..])
  }

  lemma {:induction false} TextOrder(a: string, b: string, c: string)
    ensures CompareText(a, b) == -CompareText(b, a)
    ensures CompareText(a, b) == 0 <==> a == b
    ensures CompareText(a, b) <= 0 && CompareText(b, c) <= 0 ==> CompareText(a, c) <= 0
  {
    if a != [] && b != [] {
      TextOrder(a[1..], b[1..], if c == [] then [] else c[1..]);
      assert a == [a[0]] + a[1..] && b == [b[0]] + b[1..];
      if c != [] { assert c == [c[0]] + c[1..]; }
    }
  }

  /** A text comes before another exactly when it is a proper beginning of it, or has the
      smaller character at the first place where they differ. */
  lemma {:induction false} TextComesBefore(a: string, b: string)
    ensures CompareText(a, b) < 0 <==> DiffersBelow(a, b)
  {
    if a != [] && b != [] && a[0] == b[0] {
      TextComesBefore(a[1..], b[1..]);
      if k :| IsDifference(a, b, k) {
        assert IsDifference(a[1..], b[1..], k - 1);
      }
      if k :| IsDifference(a[1..], b[1..], k) {
        forall i | 0 <= i < k + 1 ensures a[i] == b[i] {
          if i > 0 { assert a[1..][i - 1] == b[1..][i - 1]; }
        }
        assert IsDifference(a, b, k + 1);
      }
    } else if a != [] && b != [] {
      if a[0] < b[0] { assert IsDifference(a, b, 0); }
    } else if b != [] {
      assert IsDifference(a, b, 0);
    }
  }

  ghost predicate DiffersBelow(a: string, b: string) {
    exists k :: IsDifference(a, b, k)
  }

  ghost predicate IsDifference(a: string, b: string, k: int) {
    && 0 <= k <= |a| && k < |b| && (forall i :: 0 <= i < k ==> a[i] == b[i])
    && (k == |a| || a[k] < b[k])
  }

  lemma {:induction false} TextsOrder(a: seq<string>, b: seq<string>, c: seq<string>)
    ensures CompareTexts(a, b) == -CompareTexts(b, a)
    ensures CompareTexts(a, b) == 0 <==> a == b
    ensures CompareTexts(a, b) <= 0 && CompareTexts(b, c) <= 0 ==> CompareTexts(a, c) <= 0
  {
    if a != [] && b != [] {
      TextsOrder(a[1..], b[1..], if c == [] then [] else c[1..]);
      TextOrder(a[0], b[0], if c == [] then [] else c[0]);
      assert a == [a[0]] + a[1..] && b == [b[0]] + b[1..];
      if c != [] {
        assert c == [c[0]] + c[1..];
        TextOrder(b[0], c[0], a[0]);
        TextOrder(c[0], a[0], b[0]);
      }
    }
  }
}
