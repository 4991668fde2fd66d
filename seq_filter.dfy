/**
  Sequence operations the pages build on: `Array.prototype.filter` (Keep),
  `Array.prototype.slice` (JsSlice) and `Array.from(new Set(xs))` (Distinct),
  each with the reference notion it is proved against.
 */
module SeqFilter {

  /** `s.filter(f)`: the elements of `s` that satisfy `f`, in their original order. */
  function Keep<T(!new)>(s: seq<T>, f: T -> bool): (r: seq<T>)
    ensures |r| <= |s|
    ensures forall x :: x in r <==> x in s && f(x)
  {
    if s == [] then []
    else (if f(s[0]) then [s[0]] else []) + Keep(s[1..], f)
  }

  /** `a` is `b` with some elements left out and the rest in their order. */
  ghost predicate IsSubsequence<T>(a: seq<T>, b: seq<T>)
    decreases |b|
  {
    a == [] ||
    (b != [] && ((a[0] == b[0] && IsSubsequence(a[1..], b[1..])) || IsSubsequence(a, b[1..])))
  }

  lemma {:induction false} KeepIsSubsequence<T(!new)>(s: seq<T>, f: T -> bool)
    ensures IsSubsequence(Keep(s, f), s)
    decreases |s|
  {
    if s != [] {
      KeepIsSubsequence(s[1..], f);
      var rest := Keep(s[1..], f);
      if f(s[0]) {
        assert Keep(s, f) == [s[0]] + rest;
        assert ([s[0]] + rest)[1..] == rest;
      } else {
        assert Keep(s, f) == rest;
      }
    }
  }

  /** Filtering twice is filtering once by the conjunction of the two tests. */
  lemma {:induction false} KeepFusion<T(!new)>(s: seq<T>, f: T -> bool, g: T -> bool, h: T -> bool)
    requires forall x :: h(x) == (f(x) && g(x))
    ensures Keep(Keep(s, f), g) == Keep(s, h)
    decreases |s|
  {
    if s != [] {
      KeepFusion(s[1..], f, g, h);
      var tail := Keep(s[1..], f);
      if f(s[0]) {
        var once := [s[0]] + tail;
        assert Keep(s, f) == once;
        assert once[0] == s[0] && once[1..] == tail;
        assert Keep(once, g) == (if g(s[0]) then [s[0]] else []) + Keep(tail, g);
      } else {
        assert Keep(s, f) == tail;
      }
    }
  }

  /** Filtering by a test that every element passes changes nothing. */
  lemma {:induction false} KeepAll<T(!new)>(s: seq<T>, f: T -> bool)
    requires forall x :: x in s ==> f(x)
    ensures Keep(s, f) == s
    decreases |s|
  {
    if s != [] {
      assert forall x :: x in s[1..] ==> x in s;
      KeepAll(s[1..], f);
    }
  }

  /** The kept and the dropped elements together are exactly the input. */
  lemma {:induction false} KeepPartition<T(!new)>(s: seq<T>, f: T -> bool, notF: T -> bool)
    requires forall x :: notF(x) == !f(x)
    ensures multiset(Keep(s, f)) + multiset(Keep(s, notF)) == multiset(s)
    decreases |s|
  {
    if s != [] {
      KeepPartition(s[1..], f, notF);
      assert s == [s[0]] + s[1..];
      assert multiset(s) == multiset{s[0]} + multiset(s[1..]);
      if f(s[0]) {
        assert Keep(s, f) == [s[0]] + Keep(s[1..], f);
        assert Keep(s, notF) == Keep(s[1..], notF);
      } else {
        assert Keep(s, f) == Keep(s[1..], f);
        assert Keep(s, notF) == [s[0]] + Keep(s[1..], notF);
      }
    }
  }

  /** An index argument of `slice` normalised as JavaScript does: negative counts from the end, then clamp to [0, len]. */
  function SliceIndex(i: int, len: nat): (k: nat)
    ensures k <= len
    ensures 0 <= i <= len ==> k == i
    ensures i > len ==> k == len
    ensures i < 0 ==> k == if len + i < 0 then 0 else len + i
  {
    if i < 0 then (if len + i < 0 then 0 else len + i)
    else if i > len then len
    else i
  }

  /** `s.slice(start, end)`. */
  function JsSlice<T>(s: seq<T>, start: int, end: int): (r: seq<T>)
    ensures 0 <= start <= end ==> r == s[Min(start, |s|)..Min(end, |s|)]
    ensures |r| <= |s|
  {
    var k := SliceIndex(start, |s|);
    var e := SliceIndex(end, |s|);
    if k < e then s[k..e] else []
  }

  function Min(a: int, b: int): int {
    if a <= b then a else b
  }

  ghost predicate NoDuplicates<T>(s: seq<T>) {
    forall i, j :: 0 <= i < j < |s| ==> s[i] != s[j]
  }

  /**
    Reference definition of "each value once, in order of first occurrence":
    the last element is kept exactly when it did not occur before it.
   */
  function FirstOccurrences<T(==)>(s: seq<T>): seq<T>
    decreases |s|
  {
    if s == [] then []
    else
      var init, last := s[..|s| - 1], s[|s| - 1];
      FirstOccurrences(init) + (if last in init then [] else [last])
  }

  lemma {:induction false} FirstOccurrencesElements<T>(s: seq<T>)
    ensures forall x :: x in FirstOccurrences(s) <==> x in s
    decreases |s|
  {
    if s != [] {
      var init := s[..|s| - 1];
      FirstOccurrencesElements(init);
      assert s == init + [s[|s| - 1]];
    }
  }

  lemma {:induction false} FirstOccurrencesDistinct<T>(s: seq<T>)
    ensures NoDuplicates(FirstOccurrences(s))
    decreases |s|
  {
    if s != [] {
      var init := s[..|s| - 1];
      FirstOccurrencesDistinct(init);
      FirstOccurrencesElements(init);
    }
  }

  /**
    Adding the elements of `s` one by one to a JavaScript `Set` whose
    insertion-ordered contents are `seen`: a value already present keeps its place.
   */
  function InsertAll<T(==,!new)>(seen: seq<T>, s: seq<T>): (r: seq<T>)
    ensures |r| <= |seen| + |s|
    ensures seen <= r
    ensures forall x :: x in r <==> x in seen || x in s
    decreases |s|
  {
    if s == [] then seen
    else
      var next := if s[0] in seen then seen else seen + [s[0]];
      assert forall x :: x in s <==> x == s[0] || x in s[1..];
      InsertAll(next, s[1..])
  }

  lemma {:induction false} InsertAllFirstOccurrences<T(!new)>(p: seq<T>, s: seq<T>)
    ensures InsertAll(FirstOccurrences(p), s) == FirstOccurrences(p + s)
    decreases |s|
  {
    if s == [] {
      assert p + s == p;
    } else {
      var p', rest := p + [s[0]], s[1..];
      assert p' + rest == p + s;
      FirstOccurrencesSnoc(p, s[0]);
      InsertAllStep(FirstOccurrences(p), s);
      InsertAllFirstOccurrences(p', rest);
    }
  }

  /** Inserting a non-empty sequence is inserting its head, then the rest. */
  lemma InsertAllStep<T(!new)>(seen: seq<T>, s: seq<T>)
    requires s != []
    ensures InsertAll(seen, s) == InsertAll(if s[0] in seen then seen else seen + [s[0]], s[1..])
  {
  }

  /** Appending a value adds it to the first occurrences exactly when it is new. */
  lemma FirstOccurrencesSnoc<T>(p: seq<T>, x: T)
    ensures FirstOccurrences(p + [x]) ==
      if x in FirstOccurrences(p) then FirstOccurrences(p) else FirstOccurrences(p) + [x]
  {
    FirstOccurrencesElements(p);
    assert (p + [x])[..|p + [x]| - 1] == p;
  }

  /** `Array.from(new Set(s))`: each value of `s` once, in order of first occurrence. */
  function Distinct<T(==,!new)>(s: seq<T>): (r: seq<T>)
    ensures r == FirstOccurrences(s)
    ensures forall x :: x in r <==> x in s
    ensures NoDuplicates(r)
    ensures IsSubsequence(r, s)
  {
    InsertAllFirstOccurrences([], s);
    assert [] + s == s;
    FirstOccurrencesElements(s);
    FirstOccurrencesDistinct(s);
    FirstOccurrencesIsSubsequence(s);
    InsertAll([], s)
  }

  lemma {:induction false} FirstOccurrencesIsSubsequence<T>(s: seq<T>)
    ensures IsSubsequence(FirstOccurrences(s), s)
    decreases |s|
  {
    if s != [] {
      var init, last := s[..|s| - 1], s[|s| - 1];
      FirstOccurrencesIsSubsequence(init);
      SubsequenceExtend(FirstOccurrences(init), init, last);
      assert init + [last] == s;
      if last in init {
        assert FirstOccurrences(s) == FirstOccurrences(init);
      } else {
        assert FirstOccurrences(s) == FirstOccurrences(init) + [last];
      }
    }
  }

  /** Appending the same element to both sides, or to the longer side only, keeps a subsequence. */
  lemma {:induction false} SubsequenceExtend<T>(a: seq<T>, b: seq<T>, x: T)
    requires IsSubsequence(a, b)
    ensures IsSubsequence(a, b + [x])
    ensures IsSubsequence(a + [x], b + [x])
    decreases |b|
  {
    if a == [] {
      assert a + [x] == [x];
      assert IsSubsequence([x], [x]) by {
        assert [x][1..] == [];
      }
      SubsequenceSkipPrefix([x], [x], b);
    } else if a[0] == b[0] && IsSubsequence(a[1..], b[1..]) {
      SubsequenceExtend(a[1..], b[1..], x);
      assert (b + [x])[1..] == b[1..] + [x];
      assert (a + [x])[1..] == a[1..] + [x];
    } else {
      SubsequenceExtend(a, b[1..], x);
      assert (b + [x])[1..] == b[1..] + [x];
    }
  }

  /** A subsequence of `c` is also one of `c` with anything put in front. */
  lemma {:induction false} SubsequenceSkipPrefix<T>(a: seq<T>, c: seq<T>, b: seq<T>)
    requires IsSubsequence(a, c)
    ensures IsSubsequence(a, b + c)
    decreases |b|
  {
    if b == [] {
      assert b + c == c;
    } else {
      SubsequenceSkipPrefix(a, c, b[1..]);
      assert (b + c)[1..] == b[1..] + c;
    }
  }
}
