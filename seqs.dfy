/** Sequence helpers shared by the model: Kotlin's `filter` and the stable
    `sortedBy` / `sortedByDescending`, written once over an arbitrary
    "may come first" relation. */
module Seqs {

  function Min(a: int, b: int): int { if a <= b then a else b }
  function Max(a: int, b: int): int { if a >= b then a else b }

  /** No element occurs twice. */
  predicate NoDup<T(==)>(s: seq<T>) {
    forall i, j :: 0 <= i < j < |s| ==> s[i] != s[j]
  }

  /** Kotlin `filter`: the elements that satisfy `p`, in order. */
  function Filter<T>(s: seq<T>, p: T -> bool): (r: seq<T>)
    ensures |r| <= |s|
    ensures forall x :: x in r ==> x in s && p(x)
    ensures forall x :: x in s && p(x) ==> x in r
  {
    if s == [] then [] else (if p(s[0]) then [s[0]] else []) + Filter(s[1..], p)
  }

  lemma {:induction false} FilterConcat<T>(a: seq<T>, b: seq<T>, p: T -> bool)
    ensures Filter(a + b, p) == Filter(a, p) + Filter(b, p)
  {
    if a == [] {
      assert a + b == b;
    } else {
      assert (a + b)[1..] == a[1..] + b;
      FilterConcat(a[1..], b, p);
    }
  }

  /** Filtering keeps every occurrence of an element that satisfies `p` and
      drops every occurrence of one that does not. */
  lemma {:induction false} FilterCount<T>(s: seq<T>, p: T -> bool, x: T)
    ensures multiset(Filter(s, p))[x] == if p(x) then multiset(s)[x] else 0
  {
    if s != [] {
      FilterCount(s[1..], p, x);
      assert s == [s[0]] + s[1..];
    }
  }

  lemma FilterSubMultiset<T>(s: seq<T>, p: T -> bool)
    ensures multiset(Filter(s, p)) <= multiset(s)
  {
    forall x ensures multiset(Filter(s, p))[x] <= multiset(s)[x] {
      FilterCount(s, p, x);
    }
  }

  lemma {:induction false} FilterAll<T>(s: seq<T>, p: T -> bool)
    requires forall x :: x in s ==> p(x)
    ensures Filter(s, p) == s
  {
    if s != [] {
      FilterAll(s[1..], p);
    }
  }

  lemma {:induction false} FilterNone<T>(s: seq<T>, p: T -> bool)
    requires forall x :: x in s ==> !p(x)
    ensures Filter(s, p) == []
  {
    if s != [] {
      FilterNone(s[1..], p);
    }
  }

  /** Two predicates that agree on the elements of `s` filter it alike. */
  lemma {:induction false} FilterCongruent<T>(s: seq<T>, p: T -> bool, q: T -> bool)
    requires forall x :: x in s ==> p(x) == q(x)
    ensures Filter(s, p) == Filter(s, q)
  {
    if s != [] {
      FilterCongruent(s[1..], p, q);
    }
  }

  /** `s - c` on a `LinkedHashSet` or `remove(c)` on a list without
      duplicates: the other elements, in their order. */
  function Without<T(==,!new)>(s: seq<T>, c: T): (r: seq<T>)
    ensures forall x :: x in r <==> x in s && x != c
    ensures NoDup(s) ==> NoDup(r)
    ensures c !in s ==> r == s
  {
    if s == [] then []
    else
      var rest := Without(s[1..], c);
      if s[0] == c then
        assert NoDup(s) ==> NoDup(s[1..]);
        rest
      else
        assert NoDup(s) ==> NoDup(s[1..]) && s[0] !in rest;
        [s[0]] + rest
  }

  lemma {:induction false} WithoutLast<T(!new)>(s: seq<T>, c: T)
    requires c !in s
    ensures Without(s + [c], c) == s
  {
    if s == [] {
      assert [] + [c] == [c];
      assert [c][1..] == [];
    } else {
      assert (s + [c])[1..] == s[1..] + [c];
      WithoutLast(s[1..], c);
      assert s == [s[0]] + s[1..];
    }
  }

  /** Without duplicates, taking out a present element shortens by one. */
  lemma {:induction false} WithoutShorter<T(!new)>(s: seq<T>, x: T)
    requires NoDup(s) && x in s
    ensures |Without(s, x)| == |s| - 1
  {
    if s[0] != x {
      assert NoDup(s[1..]);
      WithoutShorter(s[1..], x);
    } else {
      assert NoDup(s[1..]) && x !in s[1..];
    }
  }

  /** `if (x in s) s - x else s + x` on a `LinkedHashSet` (or `remove` /
      `add` on a list without duplicates): flips the membership of `x`
      alone; an added element comes last. */
  function Toggle<T(==,!new)>(s: seq<T>, x: T): (r: seq<T>)
    ensures forall y :: y in r <==> (if y == x then x !in s else y in s)
    ensures NoDup(s) ==> NoDup(r)
    ensures x !in s ==> r == s + [x]
    ensures x in s ==> r == Without(s, x)
  {
    if x in s then Without(s, x)
    else
      assert NoDup(s) ==> NoDup(s + [x]) by {
        if NoDup(s) {
          forall i, j | 0 <= i < j < |s| + 1 ensures (s + [x])[i] != (s + [x])[j] {
            if j == |s| { assert s[i] in s; }
          }
        }
      }
      s + [x]
  }

  /** Toggling twice restores the members; an element that was present
      comes back at the end of the order. */
  lemma ToggleTwice<T(!new)>(s: seq<T>, x: T)
    ensures forall y :: y in Toggle(Toggle(s, x), x) <==> y in s
    ensures x !in s ==> Toggle(Toggle(s, x), x) == s
    ensures x in s ==> Toggle(Toggle(s, x), x) == Without(s, x) + [x]
  {
    if x !in s {
      WithoutLast(s, x);
    }
  }

  lemma NoDupCount<T>(s: seq<T>, x: T)
    requires NoDup(s)
    ensures multiset(s)[x] <= 1
  {
    if s != [] {
      assert s == [s[0]] + s[1..];
      assert NoDup(s[1..]);
      NoDupCount(s[1..], x);
      if s[0] == x {
        assert x !in s[1..];
      }
    }
  }

  lemma CountNoDup<T>(s: seq<T>)
    requires forall x :: multiset(s)[x] <= 1
    ensures NoDup(s)
  {
    forall i, j | 0 <= i < j < |s| ensures s[i] != s[j] {
      assert s == s[..i] + [s[i]] + s[i + 1..j] + [s[j]] + s[j + 1..];
      assert multiset(s) == multiset(s[..i]) + multiset{s[i]} + multiset(s[i + 1..j])
        + multiset{s[j]} + multiset(s[j + 1..]);
      assert multiset(s)[s[i]] >= (multiset{s[i]} + multiset{s[j]})[s[i]];
    }
  }

  /** A sub-multiset of a duplicate-free sequence is duplicate-free. */
  lemma SubMultisetNoDup<T>(s: seq<T>, t: seq<T>)
    requires NoDup(t) && multiset(s) <= multiset(t)
    ensures NoDup(s)
  {
    forall x ensures multiset(s)[x] <= 1 {
      NoDupCount(t, x);
    }
    CountNoDup(s);
  }

  /** A prefix holds no more of any element than the whole. */
  lemma PrefixSubMultiset<T>(a: seq<T>, b: seq<T>)
    requires a <= b
    ensures multiset(a) <= multiset(b)
  {
    assert b == a + b[|a|..];
  }

  lemma PrefixOfConcat<T>(a: seq<T>, b: seq<T>, c: seq<T>, d: seq<T>)
    ensures a <= a + b + c + d
  {
    assert (a + b + c + d)[..|a|] == a;
  }

  lemma PrefixTake<T>(a: seq<T>, s: seq<T>, i: nat, j: nat)
    requires i <= j <= |s|
    ensures a + s[..i] <= a + s[..j]
  {
    assert (a + s[..j])[..|a| + i] == a + s[..i];
  }

  lemma TakeSnoc<T>(a: seq<T>, s: seq<T>, i: nat)
    requires i < |s|
    ensures a + s[..i] + [s[i]] == a + s[..i + 1]
  {
    assert s[..i + 1] == s[..i] + [s[i]];
  }

  lemma PrefixAppend<T>(a: seq<T>, b: seq<T>, c: seq<T>)
    requires b <= c
    ensures a + b <= a + c
  {
    assert (a + c)[..|a + b|] == a + b;
  }

  lemma AppendAssoc<T>(a: seq<T>, b: seq<T>, c: seq<T>)
    ensures a + b + c == a + (b + c)
  {
  }

  lemma PrefixTrans<T>(a: seq<T>, b: seq<T>, c: seq<T>)
    requires a <= b && b <= c
    ensures a <= c
  {
    assert c[..|a|] == b[..|a|];
  }

  /** A relation that orders every pair and is transitive. */
  ghost predicate TotalPreorder<T(!new)>(le: (T, T) -> bool) {
    && (forall a, b :: le(a, b) || le(b, a))
    && (forall a, b, c :: le(a, b) && le(b, c) ==> le(a, c))
  }

  /** Every element may come before every later one. */
  predicate SortedBy<T>(s: seq<T>, le: (T, T) -> bool) {
    forall i, j :: 0 <= i < j < |s| ==> le(s[i], s[j])
  }

  /** Puts `x` in front of the first element it may precede, hence in front
      of every element that ranks equal with it. */
  function Insert<T>(x: T, s: seq<T>, le: (T, T) -> bool): (r: seq<T>)
    ensures |r| == |s| + 1
  {
    if s == [] || le(x, s[0]) then [x] + s
    else [s[0]] + Insert(x, s[1..], le)
  }

  lemma {:induction false} InsertPermutes<T>(x: T, s: seq<T>, le: (T, T) -> bool)
    ensures multiset(Insert(x, s, le)) == multiset(s) + multiset{x}
  {
    if s != [] && !le(x, s[0]) {
      InsertPermutes(x, s[1..], le);
      assert s == [s[0]] + s[1..];
    }
  }

  /** Kotlin's stable `sortedWith`: an insertion sort that keeps the input
      order of elements that rank equal. */
  function SortBy<T>(s: seq<T>, le: (T, T) -> bool): (r: seq<T>)
    ensures |r| == |s|
  {
    if s == [] then [] else Insert(s[0], SortBy(s[1..], le), le)
  }

  /** The sort is a permutation. */
  lemma {:induction false} SortPermutes<T>(s: seq<T>, le: (T, T) -> bool)
    ensures multiset(SortBy(s, le)) == multiset(s)
  {
    if s != [] {
      SortPermutes(s[1..], le);
      InsertPermutes(s[0], SortBy(s[1..], le), le);
      assert s == [s[0]] + s[1..];
    }
  }

  /** A lower bound of `x` and of every element of `s` bounds the
      insertion too. */
  lemma {:induction false} InsertLowerBound<T>(a: T, x: T, s: seq<T>, le: (T, T) -> bool)
    requires le(a, x) && forall k :: 0 <= k < |s| ==> le(a, s[k])
    ensures forall k :: 0 <= k < |s| + 1 ==> le(a, Insert(x, s, le)[k])
  {
    if s != [] && !le(x, s[0]) {
      InsertLowerBound(a, x, s[1..], le);
      assert forall k :: 1 <= k < |s| + 1 ==> Insert(x, s, le)[k] == Insert(x, s[1..], le)[k - 1];
    }
  }

  lemma {:induction false} InsertSorted<T(!new)>(x: T, s: seq<T>, le: (T, T) -> bool)
    requires TotalPreorder(le) && SortedBy(s, le)
    ensures SortedBy(Insert(x, s, le), le)
  {
    if s != [] && !le(x, s[0]) {
      InsertSorted(x, s[1..], le);
      var r := Insert(x, s, le);
      var t := Insert(x, s[1..], le);
      assert r == [s[0]] + t;
      assert le(s[0], x);
      InsertLowerBound(s[0], x, s[1..], le);
      forall i, j | 0 <= i < j < |r| ensures le(r[i], r[j]) {
        assert r[j] == t[j - 1];
        if i > 0 {
          assert r[i] == t[i - 1];
        }
      }
    }
  }

  /** The sort orders its result. */
  lemma {:induction false} SortSorted<T(!new)>(s: seq<T>, le: (T, T) -> bool)
    requires TotalPreorder(le)
    ensures SortedBy(SortBy(s, le), le)
  {
    if s != [] {
      SortSorted(s[1..], le);
      InsertSorted(s[0], SortBy(s[1..], le), le);
    }
  }

  lemma {:induction false} InsertFilterSkip<T>(x: T, s: seq<T>, le: (T, T) -> bool, p: T -> bool)
    requires !p(x)
    ensures Filter(Insert(x, s, le), p) == Filter(s, p)
  {
    if s == [] || le(x, s[0]) {
      assert Insert(x, s, le)[1..] == s;
    } else {
      InsertFilterSkip(x, s[1..], le, p);
      assert Insert(x, s, le)[1..] == Insert(x, s[1..], le);
    }
  }

  lemma {:induction false} InsertFilterFront<T>(x: T, s: seq<T>, le: (T, T) -> bool, p: T -> bool)
    requires p(x)
    requires forall y :: y in s && p(y) ==> le(x, y)
    ensures Filter(Insert(x, s, le), p) == [x] + Filter(s, p)
  {
    var r := Insert(x, s, le);
    if s == [] || le(x, s[0]) {
      assert r[0] == x && r[1..] == s;
    } else {
      assert !p(s[0]);
      InsertFilterFront(x, s[1..], le, p);
      assert r[0] == s[0] && r[1..] == Insert(x, s[1..], le);
      assert Filter(r, p) == Filter(r[1..], p);
      assert Filter(s, p) == Filter(s[1..], p);
    }
  }

  /** Stability: a part of the input that is already in order (for example
      all the elements of one category, or all elements that rank equal)
      keeps its relative order through the sort. */
  lemma {:induction false} SortKeepsSortedPart<T>(s: seq<T>, le: (T, T) -> bool, p: T -> bool)
    requires SortedBy(Filter(s, p), le)
    ensures Filter(SortBy(s, le), p) == Filter(s, p)
  {
    if s != [] {
      var f := Filter(s, p);
      var rest := Filter(s[1..], p);
      assert f == (if p(s[0]) then [s[0]] else []) + rest;
      assert SortedBy(rest, le) by {
        forall i, j | 0 <= i < j < |rest| ensures le(rest[i], rest[j]) {
          if p(s[0]) { assert rest[i] == f[i + 1] && rest[j] == f[j + 1]; }
          else { assert rest[i] == f[i] && rest[j] == f[j]; }
        }
      }
      SortKeepsSortedPart(s[1..], le, p);
      if p(s[0]) {
        forall y | y in SortBy(s[1..], le) && p(y) ensures le(s[0], y) {
          assert y in Filter(SortBy(s[1..], le), p);
          var k :| 0 <= k < |rest| && rest[k] == y;
          assert f[0] == s[0] && f[k + 1] == y;
        }
        InsertFilterFront(s[0], SortBy(s[1..], le), le, p);
      } else {
        InsertFilterSkip(s[0], SortBy(s[1..], le), le, p);
      }
    }
  }

  /** Ranks equal with `x` under `le`. */
  function TiedWith<T>(le: (T, T) -> bool, x: T): T -> bool {
    y => le(y, x) && le(x, y)
  }

  /** The elements of `s` that rank equal with `x` under `le`, in order. */
  function Ties<T>(s: seq<T>, le: (T, T) -> bool, x: T): seq<T> {
    Filter(s, TiedWith(le, x))
  }

  /** The elements that rank equal with `x` are an ordered part of any input. */
  lemma EqualRankSorted<T(!new)>(s: seq<T>, le: (T, T) -> bool, x: T)
    requires TotalPreorder(le)
    ensures SortedBy(Ties(s, le, x), le)
  {
    var f := Ties(s, le, x);
    forall i, j | 0 <= i < j < |f| ensures le(f[i], f[j]) {
      assert f[i] in f && f[j] in f;
      assert TiedWith(le, x)(f[i]) && TiedWith(le, x)(f[j]);
    }
  }

  /** Stability of the sort: elements that rank equal keep their input
      order. */
  lemma SortKeepsTies<T(!new)>(s: seq<T>, le: (T, T) -> bool)
    requires TotalPreorder(le)
    ensures forall x :: Ties(SortBy(s, le), le, x) == Ties(s, le, x)
  {
    forall x ensures Ties(SortBy(s, le), le, x) == Ties(s, le, x) {
      EqualRankSorted(s, le, x);
      SortKeepsSortedPart(s, le, TiedWith(le, x));
    }
  }

  /** Elements that pass a filter and rank equal keep their input order
      through the sort. */
  lemma FilteredTies<T(!new)>(s: seq<T>, le: (T, T) -> bool, p: T -> bool, x: T)
    requires TotalPreorder(le)
    ensures Ties(Filter(SortBy(s, le), p), le, x) == Ties(Filter(s, p), le, x)
  {
    var tied := TiedWith(le, x);
    calc {
      Ties(Filter(SortBy(s, le), p), le, x);
      { FilterCommute(SortBy(s, le), p, tied); }
      Filter(Ties(SortBy(s, le), le, x), p);
      { SortKeepsTies(s, le); }
      Filter(Ties(s, le, x), p);
      { FilterCommute(s, p, tied); }
      Ties(Filter(s, p), le, x);
    }
  }

  /** Two filters commute. */
  lemma {:induction false} FilterCommute<T>(s: seq<T>, p: T -> bool, q: T -> bool)
    ensures Filter(Filter(s, p), q) == Filter(Filter(s, q), p)
  {
    if s != [] {
      FilterCommute(s[1..], p, q);
      var h := [s[0]];
      assert h[1..] == [];
      FilterConcat(if p(s[0]) then h else [], Filter(s[1..], p), q);
      FilterConcat(if q(s[0]) then h else [], Filter(s[1..], q), p);
    }
  }

  /** Concatenation of a sequence of sequences, in order (Kotlin `flatten`). */
  function Flatten<T>(ss: seq<seq<T>>): (r: seq<T>)
  {
    if ss == [] then [] else Flatten(ss[..|ss| - 1]) + ss[|ss| - 1]
  }

  lemma FlattenSnoc<T>(ss: seq<seq<T>>, k: nat)
    requires k < |ss|
    ensures Flatten(ss[..k + 1]) == Flatten(ss[..k]) + ss[k]
  {
    assert ss[..k + 1][..k] == ss[..k];
  }
}
