/**
 * Small value types shared by every module of the billing model: an
 * optional value (a JSON field that may be null or missing), a result with
 * an error, and JavaScript's `x || default` for the two field kinds the
 * source defaults that way (money in cents and text).
 */
module Common {

  datatype Option<+T> = None | Some(value: T)

  datatype Result<+T, +E> = Ok(value: T) | Err(error: E)

  /** `x || 0` on an amount: null and 0 are both falsy, so both give 0. */
  function OrZero(x: Option<int>): (r: int)
    ensures x.None? ==> r == 0
    ensures x.Some? ==> r == x.value
  {
    if x.Some? then x.value else 0
  }

  /** `s || d` on a text field: null and the empty string give `d`. */
  function OrText(s: Option<string>, d: string): (r: string)
    ensures r == d || (s.Some? && r == s.value && s.value != "")
    ensures s.Some? && s.value != "" ==> r == s.value
  {
    if s.Some? && s.value != "" then s.value else d
  }

  /** `s || null` on a text field: the empty string becomes null. */
  function NonEmpty(s: Option<string>): (r: Option<string>)
    ensures r.Some? <==> s.Some? && s.value != ""
    ensures r.Some? ==> r == s
  {
    if s.Some? && s.value != "" then s else None
  }

  /** Sum of a sequence of amounts. */
  function Sum(xs: seq<int>): int
  {
    if xs == [] then 0 else Sum(xs[..|xs| - 1]) + xs[|xs| - 1]
  }

  lemma {:induction false} SumAppend(xs: seq<int>, ys: seq<int>)
    ensures Sum(xs + ys) == Sum(xs) + Sum(ys)
  {
    if ys != [] {
      assert (xs + ys)[..|xs + ys| - 1] == xs + ys[..|ys| - 1];
      SumAppend(xs, ys[..|ys| - 1]);
    } else {
      assert xs + ys == xs;
    }
  }

  /** The elements of `xs` in order of first occurrence, repeats dropped. */
  function FirstOccurrences<T(==)>(xs: seq<T>): seq<T>
  {
    if xs == [] then []
    else
      var d := FirstOccurrences(xs[..|xs| - 1]);
      if xs[|xs| - 1] in d then d else d + [xs[|xs| - 1]]
  }

  ghost predicate Distinct<T>(xs: seq<T>)
  {
    forall i, j :: 0 <= i < j < |xs| ==> xs[i] != xs[j]
  }

  /** Dropping repeats keeps every element and leaves no repeat. */
  lemma {:induction false} FirstOccurrencesMembers<T>(xs: seq<T>)
    ensures forall x :: x in FirstOccurrences(xs) <==> x in xs
    ensures Distinct(FirstOccurrences(xs))
  {
    if xs != [] {
      FirstOccurrencesMembers(xs[..|xs| - 1]);
      assert forall x :: x in xs <==> x in xs[..|xs| - 1] || x == xs[|xs| - 1] by {
        assert xs == xs[..|xs| - 1] + [xs[|xs| - 1]];
      }
    }
  }

  /** `list.filter(y => y !== x)`. */
  function Without<T(==,!new)>(s: seq<T>, x: T): (r: seq<T>)
    ensures x !in r
    ensures forall y :: y != x ==> (y in r <==> y in s)
    ensures |r| <= |s|
  {
    if s == [] then []
    else if s[0] == x then Without(s[1..], x)
    else [s[0]] + Without(s[1..], x)
  }

  /** `list.filter(p)`: the elements that satisfy `p`, in list order. */
  function Filter<T>(s: seq<T>, p: T -> bool): (r: seq<T>)
    ensures |r| <= |s|
    ensures forall i :: 0 <= i < |r| ==> p(r[i])
  {
    if s == [] then []
    else Filter(s[..|s| - 1], p) + (if p(s[|s| - 1]) then [s[|s| - 1]] else [])
  }

  /** Filtering a concatenation filters each part and keeps them in order. */
  lemma {:induction false} FilterAppend<T>(a: seq<T>, b: seq<T>, p: T -> bool)
    ensures Filter(a + b, p) == Filter(a, p) + Filter(b, p)
  {
    if b == [] {
      assert a + b == a;
    } else {
      var init := b[..|b| - 1];
      assert (a + b)[..|a + b| - 1] == a + init;
      assert (a + b)[|a + b| - 1] == b[|b| - 1];
      FilterAppend(a, init, p);
    }
  }

  /** Each element that satisfies `p` is kept exactly as often as it occurs,
      and no other element is kept. */
  lemma {:induction false} FilterCount<T>(s: seq<T>, p: T -> bool, x: T)
    ensures multiset(Filter(s, p))[x] == if p(x) then multiset(s)[x] else 0
  {
    if s != [] {
      var init, last := s[..|s| - 1], s[|s| - 1];
      assert s == init + [last];
      FilterCount(init, p, x);
    }
  }

  /** Around a kept element, the filtered list splits into what is kept
      before it and what is kept after it. */
  lemma FilterSplit<T>(s: seq<T>, p: T -> bool, k: nat)
    requires k < |s| && p(s[k])
    ensures Filter(s, p) == Filter(s[..k], p) + [s[k]] + Filter(s[k + 1..], p)
  {
    var a, x, b := s[..k], s[k], s[k + 1..];
    var ax := a + [x];
    assert s == ax + b;
    FilterAppend(ax, b, p);
    FilterSnocKept(a, x, p);
  }

  /** A kept element appended to the list is appended to the result. */
  lemma FilterSnocKept<T>(a: seq<T>, x: T, p: T -> bool)
    requires p(x)
    ensures Filter(a + [x], p) == Filter(a, p) + [x]
  {
    assert (a + [x])[..|a|] == a;
  }

  /** Only elements of the list are kept. */
  lemma FilterMember<T>(s: seq<T>, p: T -> bool, x: T)
    requires x in Filter(s, p)
    ensures x in s && p(x)
  {
    FilterCount(s, p, x);
    assert x in multiset(Filter(s, p));
  }

  /** Filtering out a value that is absent changes nothing. */
  lemma {:induction false} WithoutAbsent<T(!new)>(s: seq<T>, x: T)
    requires x !in s
    ensures Without(s, x) == s
  {
    if s != [] {
      WithoutAbsent(s[1..], x);
      assert [s[0]] + s[1..] == s;
    }
  }

  /** Removes the element at index `i`, keeping the others in order
      (JavaScript `list.filter((_, j) => j !== i)`). */
  function RemoveAt<T>(s: seq<T>, i: nat): (r: seq<T>)
    requires i < |s|
    ensures |r| == |s| - 1
    ensures forall j :: 0 <= j < i ==> r[j] == s[j]
    ensures forall j :: i <= j < |r| ==> r[j] == s[j + 1]
  {
    s[..i] + s[i + 1..]
  }

  /** Putting the removed element back restores the list. */
  lemma RemoveAtInverse<T>(s: seq<T>, i: nat)
    requires i < |s|
    ensures RemoveAt(s, i)[..i] + [s[i]] + RemoveAt(s, i)[i..] == s
  {
    var r := RemoveAt(s, i);
    assert r[..i] == s[..i];
    assert r[i..] == s[i + 1..];
    assert s == s[..i] + [s[i]] + s[i + 1..];
  }

  ghost predicate SortedBy<T>(s: seq<T>, key: T -> int)
  {
    forall i, j :: 0 <= i < j < |s| ==> key(s[i]) <= key(s[j])
  }

  /** Inserts `x` after every element whose key is at most its own, so
      elements with equal keys keep their order. */
  function InsertBy<T>(s: seq<T>, x: T, key: T -> int): (r: seq<T>)
    ensures multiset(r) == multiset(s) + multiset{x}
    ensures SortedBy(s, key) ==> SortedBy(r, key)
  {
    if s == [] then [x]
    else if key(s[|s| - 1]) <= key(x) then
      assert SortedBy(s, key) ==> SortedBy(s + [x], key) by {
        if SortedBy(s, key) {
          SortedLastIsMax(s, key);
          SortedSnoc(s, x, key);
        }
      }
      s + [x]
    else
      var init, last := s[..|s| - 1], s[|s| - 1];
      assert s == init + [last];
      var rest := InsertBy(init, x, key);
      assert SortedBy(s, key) ==> SortedBy(rest + [last], key) by {
        if SortedBy(s, key) {
          SortedLastIsMax(s, key);
          forall y | y in rest ensures key(y) <= key(last) {
            assert y in multiset(rest);
            assert y in s || y == x;
          }
          SortedSnoc(rest, last, key);
        }
      }
      rest + [last]
  }

  lemma SortedLastIsMax<T>(s: seq<T>, key: T -> int)
    requires s != [] && SortedBy(s, key)
    ensures forall y :: y in s ==> key(y) <= key(s[|s| - 1])
  {
    forall y | y in s ensures key(y) <= key(s[|s| - 1]) {
      var k :| 0 <= k < |s| && s[k] == y;
      if k < |s| - 1 {
        assert key(s[k]) <= key(s[|s| - 1]);
      }
    }
  }

  lemma SortedSnoc<T>(s: seq<T>, x: T, key: T -> int)
    requires SortedBy(s, key) && forall y :: y in s ==> key(y) <= key(x)
    ensures SortedBy(s + [x], key)
  {
    var t := s + [x];
    forall i, j | 0 <= i < j < |t| ensures key(t[i]) <= key(t[j]) {
      assert t[i] == s[i] && s[i] in s;
      if j < |s| {
        assert t[j] == s[j];
      }
    }
  }

  /** A stable sort by `key` (JavaScript's `Array.prototype.sort` with a
      comparator, which is stable). */
  function SortBy<T>(s: seq<T>, key: T -> int): (r: seq<T>)
    ensures SortedBy(r, key)
    ensures multiset(r) == multiset(s)
    ensures |r| == |s|
  {
    if s == [] then []
    else
      assert s == s[..|s| - 1] + [s[|s| - 1]];
      var r := InsertBy(SortBy(s[..|s| - 1], key), s[|s| - 1], key);
      assert |r| == |multiset(r)|;
      r
  }

  /** `s[m]` has the largest key, and every later element a smaller one. */
  ghost predicate LastMaximal<T>(s: seq<T>, key: T -> int, m: int)
  {
    0 <= m < |s| &&
    (forall j :: 0 <= j < |s| ==> key(s[j]) <= key(s[m])) &&
    (forall j :: m < j < |s| ==> key(s[j]) < key(s[m]))
  }

  /** The last element of the stable sort is the input's LAST element
      among those with the largest key. */
  lemma {:induction false} SortByLast<T>(s: seq<T>, key: T -> int)
    requires s != []
    ensures exists m :: LastMaximal(s, key, m) && SortBy(s, key)[|s| - 1] == s[m]
  {
    var init, x := s[..|s| - 1], s[|s| - 1];
    assert s == init + [x];
    if init == [] {
      assert LastMaximal(s, key, 0) && SortBy(s, key)[0] == s[0];
    } else {
      SortByLast(init, key);
      var m0 :| LastMaximal(init, key, m0) && SortBy(init, key)[|init| - 1] == init[m0];
      SortByLastStep(init, x, key);
      if key(init[m0]) <= key(x) {
        LastMaximalSnocTop(init, x, key, m0);
      } else {
        LastMaximalSnocKeep(init, x, key, m0);
        assert s[m0] == init[m0];
      }
    }
  }

  /** The last element of the sort after appending `x`: `x` when its key is
      at least that of the previous last element, that element otherwise. */
  lemma SortByLastStep<T>(init: seq<T>, x: T, key: T -> int)
    requires init != []
    ensures |SortBy(init, key)| == |init|
    ensures SortBy(init + [x], key)[|init|] ==
            if key(SortBy(init, key)[|init| - 1]) <= key(x) then x else SortBy(init, key)[|init| - 1]
  {
    var s := init + [x];
    assert s[..|s| - 1] == init && s[|s| - 1] == x;
    InsertByLast(SortBy(init, key), x, key);
  }

  /** An appended element with a key at least the largest is the new last maximal one. */
  lemma LastMaximalSnocTop<T>(init: seq<T>, x: T, key: T -> int, m0: int)
    requires LastMaximal(init, key, m0) && key(init[m0]) <= key(x)
    ensures LastMaximal(init + [x], key, |init|)
  {
    var s := init + [x];
    forall j | 0 <= j < |s| ensures key(s[j]) <= key(x) {
      if j < |init| { assert s[j] == init[j]; }
    }
  }

  /** An appended element with a smaller key leaves the last maximal one in place. */
  lemma LastMaximalSnocKeep<T>(init: seq<T>, x: T, key: T -> int, m0: int)
    requires LastMaximal(init, key, m0) && key(x) < key(init[m0])
    ensures LastMaximal(init + [x], key, m0)
  {
    var s := init + [x];
    forall j | 0 <= j < |s| ensures key(s[j]) <= key(s[m0]) {
      if j < |init| { assert s[j] == init[j]; }
    }
    forall j | m0 < j < |s| ensures key(s[j]) < key(s[m0]) {
      if j < |init| { assert s[j] == init[j]; }
    }
  }

  /** Where `InsertBy` leaves the inserted element relative to the last one. */
  lemma InsertByLast<T>(s: seq<T>, x: T, key: T -> int)
    requires s != []
    ensures |InsertBy(s, x, key)| == |s| + 1
    ensures InsertBy(s, x, key)[|s|] == if key(s[|s| - 1]) <= key(x) then x else s[|s| - 1]
  {
    var r := InsertBy(s, x, key);
    assert |r| == |multiset(r)|;
  }

  /** Sorting a list that is already in order leaves it unchanged. */
  lemma {:induction false} SortSortedIsIdentity<T>(s: seq<T>, key: T -> int)
    requires SortedBy(s, key)
    ensures SortBy(s, key) == s
  {
    if s != [] {
      var init := s[..|s| - 1];
      assert SortedBy(init, key);
      SortSortedIsIdentity(init, key);
    }
  }

  /** Sorting keeps exactly the same elements. */
  lemma SortByMembers<T>(s: seq<T>, key: T -> int)
    ensures forall x :: x in SortBy(s, key) <==> x in s
  {
    forall x ensures x in SortBy(s, key) <==> x in s {
      assert x in SortBy(s, key) <==> x in multiset(SortBy(s, key));
      assert x in s <==> x in multiset(s);
    }
  }
}
