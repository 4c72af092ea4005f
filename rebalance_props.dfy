/** What `rebalanceByCategory` promises, proved about the stage functions of
    RebalanceSpec: the top picks are a prefix, ids are unique, nothing is
    lost without a cap, the cap cuts only the fill passes, each category
    gets its pins and its minimum, and the fill pass never repeats a
    category twice in a row. */
module RebalanceProperties {
  import opened Wrappers
  import opened Seqs
  import opened TravelModels
  import opened RebalanceSpec

  // ---------------------------------------------------------------------
  // Per-category views
  // ---------------------------------------------------------------------

  lemma {:induction false} InCatConcat(a: seq<Place>, b: seq<Place>, c: Category)
    ensures InCat(a + b, c) == InCat(a, c) + InCat(b, c)
  {
    if a == [] {
      assert a + b == b;
    } else {
      assert (a + b)[1..] == a[1..] + b;
      InCatConcat(a[1..], b, c);
    }
  }

  lemma {:induction false} InCatOwn(q: seq<Place>, c: Category)
    requires OfCategory(q, c)
    ensures InCat(q, c) == q
  {
    if q != [] {
      InCatOwn(q[1..], c);
    }
  }

  lemma {:induction false} InCatNone(q: seq<Place>, c: Category)
    requires forall p :: p in q ==> p.category != c
    ensures InCat(q, c) == []
  {
    if q != [] {
      assert q[0] in q;
      InCatNone(q[1..], c);
    }
  }

  /** Only places of category `c` survive `InCat(_, c)`, with their counts. */
  lemma {:induction false} InCatCount(s: seq<Place>, x: Place)
    ensures multiset(InCat(s, x.category))[x] == multiset(s)[x]
  {
    if s != [] {
      InCatCount(s[1..], x);
      assert s == [s[0]] + s[1..];
    }
  }

  /** `InCat(s, c)` is the places of `s` of category `c`. */
  lemma {:induction false} InCatMembers(s: seq<Place>, c: Category)
    ensures OfCategory(InCat(s, c), c)
    ensures forall p :: p in InCat(s, c) <==> p in s && p.category == c
  {
    if s != [] {
      InCatMembers(s[1..], c);
      assert s == [s[0]] + s[1..];
    }
  }

  lemma QueueWell(g: Groups, c: Category)
    requires WellGrouped(g)
    ensures forall p :: p in Queue(g, c) ==> p.category == c
  {
  }

  /** The queue of a category is its places, best score first. */
  lemma GroupedQueue(f: seq<Place>, c: Category)
    ensures Queue(Grouped(f), c) == ByScore(InCat(f, c))
  {
    if c !in CategoryOrder(f) {
      InCatNone(f, c);
    }
  }

  lemma GroupedWell(f: seq<Place>)
    ensures WellGrouped(Grouped(f))
  {
    var g := Grouped(f);
    forall c: Category | c in g ensures OfCategory(g[c], c) {
      var q := InCat(f, c);
      assert g[c] == ByScore(q);
      SortPermutes(q, ScoreFirst);
      InCatMembers(f, c);
      forall p: Place | p in g[c] ensures p.category == c {
        assert p in multiset(ByScore(q));
        assert p in q;
      }
    }
  }

  lemma AfterPinsQueue(g: Groups, cs: seq<Category>, n: int, c: Category)
    ensures Queue(AfterPins(g, cs, n), c) ==
      if c in cs then Queue(g, c)[TakeCount(Queue(g, c), n)..] else Queue(g, c)
  {
  }

  lemma AfterPinsWell(g: Groups, cs: seq<Category>, n: int)
    requires WellGrouped(g)
    ensures WellGrouped(AfterPins(g, cs, n))
  {
    var r := AfterPins(g, cs, n);
    forall c: Category, p: Place | c in r && p in r[c] ensures p.category == c {
      if c in cs {
        assert p in g[c][TakeCount(g[c], n)..];
      }
    }
  }

  lemma AfterSweepsQueue(g: Groups, m: int, k: nat, c: Category)
    ensures Queue(AfterSweeps(g, m, k), c) == Queue(g, c)[Min(k, TakeCount(Queue(g, c), m))..]
  {
  }

  lemma AfterSweepsWell(g: Groups, m: int, k: nat)
    requires WellGrouped(g)
    ensures WellGrouped(AfterSweeps(g, m, k))
  {
    var r := AfterSweeps(g, m, k);
    forall c: Category, p: Place | c in r && p in r[c] ensures p.category == c {
      assert p in g[c][Min(k, TakeCount(g[c], m))..];
    }
  }

  /** The top picks of category `c` are the first `perCatTop` items of its
      queue, and none when `c` is not selected. */
  lemma {:induction false} PinsByCategory(g: Groups, cs: seq<Category>, n: int, c: Category)
    requires WellGrouped(g) && NoDup(cs)
    ensures InCat(Pins(g, cs, n), c) ==
      if c in cs then Queue(g, c)[..TakeCount(Queue(g, c), n)] else []
  {
    if cs != [] {
      var init := cs[..|cs| - 1];
      var d := cs[|cs| - 1];
      assert cs == init + [d];
      assert NoDup(init);
      PinsByCategory(g, init, n, c);
      var q := Queue(g, d);
      InCatConcat(Pins(g, init, n), q[..TakeCount(q, n)], c);
      HeadByCategory(g, n, d, c);
      if d == c {
        assert c !in init;
      }
    }
  }

  /** The first `k` places of category `d`'s queue, restricted to `c`. */
  lemma HeadByCategory(g: Groups, k: int, d: Category, c: Category)
    requires WellGrouped(g)
    ensures var q := Queue(g, d);
      InCat(q[..TakeCount(q, k)], c) == if d == c then q[..TakeCount(q, k)] else []
  {
    var q := Queue(g, d);
    var head := q[..TakeCount(q, k)];
    QueueWell(g, d);
    assert forall p :: p in head ==> p in q;
    if d == c {
      InCatOwn(head, c);
    } else {
      InCatNone(head, c);
    }
  }

  /** Sweep `r` takes item `r` of category `c` exactly when `c` is selected
      and its quota exceeds `r`. */
  lemma {:induction false} RowByCategory(g: Groups, cs: seq<Category>, m: int, r: nat, c: Category)
    requires WellGrouped(g) && NoDup(cs)
    ensures InCat(Row(g, cs, m, r), c) ==
      if c in cs && r < TakeCount(Queue(g, c), m) then [Queue(g, c)[r]] else []
  {
    if cs != [] {
      var init := cs[..|cs| - 1];
      var d := cs[|cs| - 1];
      assert cs == init + [d];
      assert NoDup(init);
      RowByCategory(g, init, m, r, c);
      var q := Queue(g, d);
      InCatConcat(Row(g, init, m, r), if r < TakeCount(q, m) then [q[r]] else [], c);
      CellByCategory(g, m, r, d, c);
      if d == c {
        assert c !in init;
      }
    }
  }

  /** Category `d`'s cell of sweep `r`, restricted to category `c`. */
  lemma CellByCategory(g: Groups, m: int, r: nat, d: Category, c: Category)
    requires WellGrouped(g)
    ensures var q := Queue(g, d);
      InCat(if r < TakeCount(q, m) then [q[r]] else [], c) ==
        if d == c && r < TakeCount(q, m) then [q[r]] else []
  {
    var q := Queue(g, d);
    if r < TakeCount(q, m) {
      QueueWell(g, d);
      assert q[r] in q;
    }
  }

  lemma SliceStep(q: seq<Place>, t: nat, r: nat)
    requires t <= |q|
    ensures q[..Min(r, t)] + (if r < t then [q[r]] else []) == q[..Min(r + 1, t)]
  {
    if r < t {
      assert q[..r + 1] == q[..r] + [q[r]];
    }
  }

  /** After `k` sweeps a selected category has given its first
      `min(k, quota)` items, in score order. */
  lemma {:induction false} SweepsByCategory(g: Groups, cs: seq<Category>, m: int, k: nat, c: Category)
    requires WellGrouped(g) && NoDup(cs)
    ensures InCat(Sweeps(g, cs, m, k), c) ==
      if c in cs then Queue(g, c)[..Min(k, TakeCount(Queue(g, c), m))] else []
  {
    if k > 0 {
      var r: nat := k - 1;
      SweepsByCategory(g, cs, m, r, c);
      RowByCategory(g, cs, m, r, c);
      InCatConcat(Sweeps(g, cs, m, r), Row(g, cs, m, r), c);
      if c in cs {
        SliceStep(Queue(g, c), TakeCount(Queue(g, c), m), r);
      }
    }
  }

  lemma {:induction false} ConcatQueuesByCategory(g: Groups, ks: seq<Category>, c: Category)
    requires WellGrouped(g) && NoDup(ks)
    ensures InCat(ConcatQueues(g, ks), c) == if c in ks then Queue(g, c) else []
  {
    if ks != [] {
      var init := ks[..|ks| - 1];
      var d := ks[|ks| - 1];
      assert ks == init + [d];
      assert NoDup(init);
      ConcatQueuesByCategory(g, init, c);
      InCatConcat(ConcatQueues(g, init), Queue(g, d), c);
      QueueByCategory(g, d, c);
      if d == c {
        assert c !in init;
      }
    }
  }

  /** A queue holds all of its own category's places and none of another's. */
  lemma QueueByCategory(g: Groups, d: Category, c: Category)
    requires WellGrouped(g)
    ensures InCat(Queue(g, d), c) == if d == c then Queue(g, d) else []
  {
    QueueWell(g, d);
    if d == c {
      InCatOwn(Queue(g, d), c);
    } else {
      InCatNone(Queue(g, d), c);
    }
  }

  /** Two lists with the same places per category hold the same places. */
  lemma SameByCategory(s: seq<Place>, t: seq<Place>)
    requires forall c :: multiset(InCat(s, c)) == multiset(InCat(t, c))
    ensures multiset(s) == multiset(t)
  {
    forall x ensures multiset(s)[x] == multiset(t)[x] {
      InCatCount(s, x);
      InCatCount(t, x);
    }
  }

  // ---------------------------------------------------------------------
  // Conservation: pins + round robin + remaining = the filtered places
  // ---------------------------------------------------------------------

  /** Per category, the pins, then the round-robin items, then what is left
      in the queues of `keys` are exactly the category's queue; `top`, `rr`
      and `rest` are the outputs of stage 2, of stage 3 and the queues left
      after it. */
  lemma StagesByCategory(g0: Groups, cats: CategorySet, keys: seq<Category>, m: int, n: int, c: Category,
                         top: seq<Place>, rr: seq<Place>, rest: seq<Place>)
    requires WellGrouped(g0) && NoDup(keys)
    requires c in keys ==> c in cats
    requires c !in keys ==> Queue(g0, c) == []
    requires top == Pins(g0, cats, n)
    requires var g1 := AfterPins(g0, cats, n);
      rr == Sweeps(g1, cats, m, MaxQuota(g1, cats, m))
    requires var g1 := AfterPins(g0, cats, n);
      rest == ConcatQueues(AfterSweeps(g1, m, MaxQuota(g1, cats, m)), keys)
    ensures InCat(top, c) + InCat(rr, c) + InCat(rest, c) == Queue(g0, c)
  {
    var g1 := AfterPins(g0, cats, n);
    var sweeps := MaxQuota(g1, cats, m);
    var g2 := AfterSweeps(g1, m, sweeps);
    AfterPinsWell(g0, cats, n);
    AfterSweepsWell(g1, m, sweeps);
    PinsByCategory(g0, cats, n, c);
    SweepsByCategory(g1, cats, m, sweeps, c);
    ConcatQueuesByCategory(g2, keys, c);
    var q0 := Queue(g0, c);
    var a := TakeCount(q0, n);
    AfterPinsQueue(g0, cats, n, c);
    var q1 := Queue(g1, c);
    var b := Min(sweeps, TakeCount(q1, m));
    AfterSweepsQueue(g1, m, sweeps, c);
    if c in cats {
      assert q1 == q0[a..];
      SplitThree(q0, a, b);
    }
  }

  lemma SplitThree(q: seq<Place>, a: nat, b: nat)
    requires a <= |q| && b <= |q| - a
    ensures q[..a] + q[a..][..b] + q[a..][b..] == q
  {
    assert q[a..] == q[a..][..b] + q[a..][b..];
    assert q == q[..a] + q[a..];
  }

  /** `StagesByCategory` for the stages of a run. */
  lemma StagesOfRun(candidates: seq<Place>, cats: CategorySet, m: int, n: int, c: Category)
    ensures var st := RunStages(candidates, cats, m, n);
      InCat(st.top + st.rr + ConcatQueues(st.g2, st.keys), c) == Queue(st.g0, c)
  {
    var st := RunStages(candidates, cats, m, n);
    var f := st.filtered;
    var rest := ConcatQueues(st.g2, st.keys);
    GroupedWell(f);
    if c in st.keys {
      var p :| p in f && p.category == c;
    } else {
      GroupSize(f, c);
      InCatNone(f, c);
    }
    StagesByCategory(st.g0, cats, st.keys, m, n, c, st.top, st.rr, rest);
    InCatConcat(st.top + st.rr, rest, c);
    InCatConcat(st.top, st.rr, c);
  }

  lemma Conservation(candidates: seq<Place>, cats: CategorySet, m: int, n: int)
    ensures var st := RunStages(candidates, cats, m, n);
      multiset(st.top + st.rr + st.rem) == multiset(st.filtered)
  {
    var st := RunStages(candidates, cats, m, n);
    var all := st.top + st.rr + ConcatQueues(st.g2, st.keys);
    forall c ensures multiset(InCat(all, c)) == multiset(InCat(st.filtered, c)) {
      StagesOfRun(candidates, cats, m, n, c);
      GroupedQueue(st.filtered, c);
      SortPermutes(InCat(st.filtered, c), ScoreFirst);
    }
    SameByCategory(all, st.filtered);
    SortPermutes(ConcatQueues(st.g2, st.keys), ScoreFirst);
  }

  /** The pins, the round-robin items and the remaining queue never share
      an id. */
  lemma StagedUnique(candidates: seq<Place>, cats: CategorySet, m: int, n: int)
    ensures var st := RunStages(candidates, cats, m, n);
      UniqueIds(st.top + st.rr + st.rem)
  {
    var st := RunStages(candidates, cats, m, n);
    Conservation(candidates, cats, m, n);
    SubMultisetUniqueIds(st.top + st.rr + st.rem, st.filtered);
  }

  // ---------------------------------------------------------------------
  // The fill passes
  // ---------------------------------------------------------------------

  /** Anti-clustering: no item of the first fill pass has the category of
      the item placed just before it. */
  lemma {:induction false} FillAlternates(rem: seq<Place>, last: Option<Category>, room: Option<int>)
    ensures var f := Fill(rem, last, room);
      && (f != [] && last.Some? ==> f[0].category != last.value)
      && forall i :: 0 < i < |f| ==> f[i].category != f[i - 1].category
  {
    if rem != [] && !Exhausted(room) {
      if last == Some(rem[0].category) {
        FillAlternates(rem[1..], last, room);
      } else {
        FillAlternates(rem[1..], Some(rem[0].category), Less(room));
      }
    }
  }

  /** Without a cap the top-off keeps each remaining place whose id is not
      used yet. */
  lemma {:induction false} TopOffCount(rem: seq<Place>, used: set<string>, x: Place)
    requires UniqueIds(rem)
    ensures multiset(TopOff(rem, used, None))[x] == if x.id in used then 0 else multiset(rem)[x]
  {
    if rem != [] {
      var h := rem[0];
      var t := rem[1..];
      assert rem == [h] + t;
      assert UniqueIds(t);
      assert forall q :: q in t ==> q.id != h.id by {
        forall q | q in t ensures q.id != h.id {
          var j :| 0 <= j < |t| && t[j] == q;
          assert rem[j + 1] == q;
        }
      }
      if h.id in used {
        TopOffCount(t, used, x);
        if x == h {
          assert x !in t;
        }
      } else {
        TopOffCount(t, used + {h.id}, x);
        if x != h && x.id == h.id {
          assert x !in t;
        }
      }
    }
  }

  /** The first fill pass takes remaining places, each at most once. */
  lemma {:induction false} FillSubMultiset(rem: seq<Place>, last: Option<Category>, room: Option<int>)
    ensures multiset(Fill(rem, last, room)) <= multiset(rem)
  {
    if rem != [] && !Exhausted(room) {
      assert rem == [rem[0]] + rem[1..];
      if last == Some(rem[0].category) {
        FillSubMultiset(rem[1..], last, room);
      } else {
        FillSubMultiset(rem[1..], Some(rem[0].category), Less(room));
      }
    }
  }

  /** Without a cap, the two fill passes together place each remaining
      place exactly once. */
  lemma FillTopOffUncapped(pre: seq<Place>, rem: seq<Place>, last: Option<Category>)
    requires UniqueIds(pre + rem)
    ensures var f := Fill(rem, last, None);
      multiset(f + TopOff(rem, IdSet(pre + f), None)) == multiset(rem)
  {
    var f := Fill(rem, last, None);
    var used := IdSet(pre + f);
    var t := TopOff(rem, used, None);
    FillSubMultiset(rem, last, None);
    assert UniqueIds(rem) by {
      forall i, j | 0 <= i < j < |rem| ensures rem[i].id != rem[j].id {
        assert (pre + rem)[|pre| + i] == rem[i] && (pre + rem)[|pre| + j] == rem[j];
      }
    }
    forall x ensures multiset(f + t)[x] == multiset(rem)[x] {
      TopOffCount(rem, used, x);
      if x in rem {
        UniqueIdsNoDup(rem);
        NoDupCount(rem, x);
        assert x.id !in IdSet(pre) by {
          forall q | q in pre ensures q.id != x.id {
            var i :| 0 <= i < |pre| && pre[i] == q;
            var j :| 0 <= j < |rem| && rem[j] == x;
            assert (pre + rem)[i] == q && (pre + rem)[|pre| + j] == x;
          }
        }
        if x in f {
          assert x in pre + f;
        } else {
          assert multiset(f)[x] == 0;
          forall q | q in pre + f ensures q.id != x.id {
            if q in f {
              assert q in multiset(rem);
              if q != x {
                DistinctPlacesDistinctIds(rem, q, x);
              }
            }
          }
        }
      } else {
        assert multiset(f)[x] <= multiset(rem)[x];
      }
    }
  }

  /** A cap cuts the first fill pass short and changes nothing else. */
  lemma {:induction false} FillCapped(rem: seq<Place>, last: Option<Category>, k: int)
    ensures var full := Fill(rem, last, None);
      Fill(rem, last, Some(k)) == full[..Min(Max(k, 0), |full|)]
  {
    if rem != [] && k > 0 {
      if last == Some(rem[0].category) {
        FillCapped(rem[1..], last, k);
      } else {
        FillCapped(rem[1..], Some(rem[0].category), k - 1);
      }
    }
  }

  /** A cap cuts the top-off short and changes nothing else. */
  lemma {:induction false} TopOffCapped(rem: seq<Place>, used: set<string>, k: int)
    ensures var full := TopOff(rem, used, None);
      TopOff(rem, used, Some(k)) == full[..Min(Max(k, 0), |full|)]
  {
    if rem != [] && k > 0 {
      var h, t := rem[0], rem[1..];
      if h.id in used {
        TopOffCapped(t, used, k);
      } else {
        var u := used + {h.id};
        TopOffCapped(t, u, k - 1);
        var tail := TopOff(t, u, None);
        assert TopOff(rem, used, None) == [h] + tail;
        assert TopOff(rem, used, Some(k)) == [h] + TopOff(t, u, Some(k - 1));
        assert ([h] + tail)[..Min(k, |tail| + 1)] == [h] + tail[..Min(k - 1, |tail|)];
      }
    }
  }

  // ---------------------------------------------------------------------
  // The whole result
  // ---------------------------------------------------------------------

  /** Without a cap, the fill passes place exactly what was left, so the
      whole list holds what the stages before them held. */
  lemma TailPermutation(pre: seq<Place>, rem: seq<Place>, f: seq<Place>, last: Option<Category>)
    requires UniqueIds(pre + rem) && multiset(pre + rem) == multiset(f)
    ensures var fill := Fill(rem, last, None);
      multiset(pre + fill + TopOff(rem, IdSet(pre + fill), None)) == multiset(f)
  {
    var fill := Fill(rem, last, None);
    var topOff := TopOff(rem, IdSet(pre + fill), None);
    assert multiset(fill + topOff) == multiset(rem) by {
      FillTopOffUncapped(pre, rem, last);
    }
    calc {
      multiset(pre + fill + topOff);
      { assert pre + fill + topOff == pre + (fill + topOff); }
      multiset(pre) + multiset(fill + topOff);
      multiset(pre) + multiset(rem);
      multiset(pre + rem);
    }
  }

  /** Without a cap the full list is a permutation of the filtered,
      deduplicated candidates. */
  lemma UncappedPermutation(candidates: seq<Place>, cats: CategorySet, m: int, n: int)
    ensures multiset(Rebalanced(candidates, cats, m, n, None).1) == multiset(Filtered(candidates, cats))
  {
    var st := RunStages(candidates, cats, m, n);
    StagedUnique(candidates, cats, m, n);
    Conservation(candidates, cats, m, n);
    TailPermutation(st.top + st.rr, st.rem, st.filtered, LastCategory(st.top, st.rr));
  }

  lemma CapArithmetic(pre: seq<Place>, fn: seq<Place>, tn: seq<Place>, fc: seq<Place>, tc: seq<Place>, t: int)
    requires fc == fn[..Min(Max(t - |pre|, 0), |fn|)]
    requires |fc| < |fn| ==> tc == []
    requires |fc| == |fn| ==> tc == tn[..Min(Max(t - |pre| - |fn|, 0), |tn|)]
    ensures |pre + fc + tc| == Max(|pre|, Min(t, |pre + fn + tn|))
    ensures pre + fc + tc <= pre + fn + tn
  {
    if |fc| < |fn| {
      assert pre + fn + tn == (pre + fc + tc) + (fn[|fc|..] + tn);
    } else {
      assert fc == fn;
      assert pre + fn + tn == (pre + fn + tc) + tn[|tc|..];
    }
  }

  /** The cap on the two fill passes, for any list `pre` placed before them. */
  lemma CapOnTail(pre: seq<Place>, rem: seq<Place>, last: Option<Category>, t: int)
    ensures var (fc, tc) := Passes(pre, rem, last, Some(t));
      var (fn, tn) := Passes(pre, rem, last, None);
      && |pre + fc + tc| == Max(|pre|, Min(t, |pre + fn + tn|))
      && pre + fc + tc <= pre + fn + tn
  {
    var (fc, tc) := Passes(pre, rem, last, Some(t));
    var (fn, tn) := Passes(pre, rem, last, None);
    var p := |pre|;
    assert fc == fn[..Min(Max(t - p, 0), |fn|)] by {
      assert Room(Some(t), p) == Some(t - p);
      FillCapped(rem, last, t - p);
    }
    assert |fc| < |fn| ==> tc == [] by {
      if |fc| < |fn| {
        assert Exhausted(Room(Some(t), |pre + fc|));
      }
    }
    assert |fc| == |fn| ==> tc == tn[..Min(Max(t - p - |fn|, 0), |tn|)] by {
      if |fc| == |fn| {
        assert fc == fn;
        assert Room(Some(t), |pre + fc|) == Some(t - p - |fn|);
        TopOffCapped(rem, IdSet(pre + fn), t - p - |fn|);
      }
    }
    CapArithmetic(pre, fn, tn, fc, tc, t);
  }

  /** The cap only shortens the two fill passes: the capped list is a prefix
      of the uncapped one, as long as the cap allows but never shorter than
      the top picks and the round robin together. */
  lemma CapTruncates(candidates: seq<Place>, cats: CategorySet, m: int, n: int, t: int)
    ensures var st := RunStages(candidates, cats, m, n);
      var full := Rebalanced(candidates, cats, m, n, Some(t)).1;
      var uncapped := Rebalanced(candidates, cats, m, n, None).1;
      |full| == Max(|st.top| + |st.rr|, Min(t, |uncapped|)) && full <= uncapped
  {
    var st := RunStages(candidates, cats, m, n);
    CapOnTail(st.top + st.rr, st.rem, LastCategory(st.top, st.rr), t);
  }

  lemma SoundFromMultiset(full: seq<Place>, f: seq<Place>, candidates: seq<Place>, cats: CategorySet)
    requires multiset(full) <= multiset(f) && UniqueIds(f)
    requires forall p :: p in f ==> p in candidates && p.category in cats
    ensures UniqueIds(full)
    ensures forall p :: p in full ==> p in candidates && p.category in cats
  {
    SubMultisetUniqueIds(full, f);
    forall p | p in full ensures p in candidates && p.category in cats {
      assert p in multiset(f);
    }
  }

  /** The headline guarantees of `rebalanceByCategory`: the top picks are a
      prefix of the full list, the full list has unique ids and holds only
      candidates of the selected categories, and nothing is lost without a
      cap. */
  lemma RebalancedSound(candidates: seq<Place>, cats: CategorySet, m: int, n: int, cap: Option<int>)
    ensures var (top, full) := Rebalanced(candidates, cats, m, n, cap);
      && top <= full
      && UniqueIds(full)
      && (forall p :: p in full ==> p in candidates && p.category in cats)
      && (cap == None ==> multiset(full) == multiset(Filtered(candidates, cats)))
  {
    var st := RunStages(candidates, cats, m, n);
    var (top, full) := Rebalanced(candidates, cats, m, n, cap);
    var uncapped := Rebalanced(candidates, cats, m, n, None).1;
    var f := Filtered(candidates, cats);
    assert top <= full by {
      var (fill, topOff) := RunPasses(st, cap);
      PrefixOfConcat(st.top, st.rr, fill, topOff);
    }
    assert multiset(uncapped) == multiset(f) by {
      UncappedPermutation(candidates, cats, m, n);
    }
    assert multiset(full) <= multiset(f) by {
      if cap.Some? {
        CapTruncates(candidates, cats, m, n, cap.value);
        PrefixSubMultiset(full, uncapped);
      }
    }
    SoundFromMultiset(full, f, candidates, cats);
  }

  /** Each selected category gets its `perCatTop` best places (fewer if it
      has fewer), in descending score and, among equal scores, in input
      order; an unselected category gets none. */
  lemma TopPicksPerCategory(candidates: seq<Place>, cats: CategorySet, m: int, n: int,
                            cap: Option<int>, c: Category)
    ensures var top := Rebalanced(candidates, cats, m, n, cap).0;
      var group := ByScore(InCat(Filtered(candidates, cats), c));
      && SortedBy(group, ScoreFirst)
      && InCat(top, c) == (if c in cats then group[..TakeCount(group, n)] else [])
      && |InCat(top, c)| <= Max(n, 0)
  {
    var f := Filtered(candidates, cats);
    ScoreFirstTotal();
    SortSorted(InCat(f, c), ScoreFirst);
    GroupedWell(f);
    GroupedQueue(f, c);
    PinsByCategory(Grouped(f), cats, n, c);
  }

  /** The queues of every stage hold places of their own category only. */
  lemma StagesWell(candidates: seq<Place>, cats: CategorySet, m: int, n: int)
    ensures var st := RunStages(candidates, cats, m, n);
      WellGrouped(st.g0) && WellGrouped(st.g1) && WellGrouped(st.g2)
  {
    var st := RunStages(candidates, cats, m, n);
    GroupedWell(st.filtered);
    AfterPinsWell(st.g0, cats, n);
    AfterSweepsWell(st.g1, m, MaxQuota(st.g1, cats, m));
  }

  /** The whole round robin gives each selected category its quota. */
  lemma RoundRobinByCategory(g: Groups, cats: CategorySet, m: int, c: Category)
    requires WellGrouped(g) && c in cats
    ensures InCat(Sweeps(g, cats, m, MaxQuota(g, cats, m)), c) == Queue(g, c)[..TakeCount(Queue(g, c), m)]
  {
    SweepsByCategory(g, cats, m, MaxQuota(g, cats, m), c);
  }

  /** The round robin gives each selected category exactly
      `min(minPerCat, places left after pinning)` places, so that with its
      pins it has `min(minPerCat, its number of places)` at least; `avail`,
      `pinned` and `swept` are the category's numbers of places after
      filtering, among the pins and in the round robin. */
  lemma RoundRobinQuota(candidates: seq<Place>, cats: CategorySet, m: int, n: int, c: Category,
                        avail: int, pinned: int, swept: int)
    requires c in cats
    requires var st := RunStages(candidates, cats, m, n);
      && avail == |InCat(st.filtered, c)|
      && pinned == |InCat(st.top, c)|
      && swept == |InCat(st.rr, c)|
    ensures swept == Max(0, Min(m, avail - pinned))
    ensures pinned + swept >= Min(m, avail)
  {
    var st := RunStages(candidates, cats, m, n);
    GroupSize(st.filtered, c);
    GroupedWell(st.filtered);
    PinsAndQuota(st.g0, cats, m, n, c, avail, pinned, swept);
  }

  /** The minimum per category: each selected category has at least
      `min(minPerCat, its number of places)` places in the full list, cap or
      no cap. */
  lemma MinimumPerCategory(candidates: seq<Place>, cats: CategorySet, m: int, n: int,
                           cap: Option<int>, c: Category)
    requires c in cats
    ensures |InCat(Rebalanced(candidates, cats, m, n, cap).1, c)| >= Min(m, |InCat(Filtered(candidates, cats), c)|)
  {
    var st := RunStages(candidates, cats, m, n);
    RoundRobinQuota(candidates, cats, m, n, c,
      |InCat(st.filtered, c)|, |InCat(st.top, c)|, |InCat(st.rr, c)|);
    var (fill, topOff) := RunPasses(st, cap);
    InCatConcat(st.top + st.rr + fill, topOff, c);
    InCatConcat(st.top + st.rr, fill, c);
    InCatConcat(st.top, st.rr, c);
  }

  /** A category's queue holds as many places as the category has. */
  lemma GroupSize(f: seq<Place>, c: Category)
    ensures |Queue(Grouped(f), c)| == |InCat(f, c)|
  {
    GroupedQueue(f, c);
  }

  /** Stages 2 and 3 for one selected category, on any well-formed grouping:
      the pins and then the round robin give it `min(minPerCat, size)`
      places at least, and the round robin tops it up to `minPerCat`. */
  lemma PinsAndQuota(g0: Groups, cats: CategorySet, m: int, n: int, c: Category,
                     avail: int, pinned: int, swept: int)
    requires WellGrouped(g0) && c in cats && avail == |Queue(g0, c)|
    requires pinned == |InCat(Pins(g0, cats, n), c)|
    requires var g1 := AfterPins(g0, cats, n);
      swept == |InCat(Sweeps(g1, cats, m, MaxQuota(g1, cats, m)), c)|
    ensures swept == Max(0, Min(m, avail - pinned))
    ensures pinned + swept >= Min(m, avail)
  {
    var g1 := AfterPins(g0, cats, n);
    var left := |Queue(g1, c)|;
    assert pinned == Max(0, Min(n, avail)) by {
      PinnedCount(g0, cats, n, c, pinned);
    }
    assert left == avail - pinned by {
      LeftCount(g0, cats, n, c);
    }
    assert swept == Max(0, Min(m, left)) by {
      AfterPinsWell(g0, cats, n);
      SweptCount(g1, cats, m, c, swept);
    }
  }

  /** A selected category's pins number `min(perCatTop, queue)`. */
  lemma PinnedCount(g0: Groups, cats: CategorySet, n: int, c: Category, pinned: int)
    requires WellGrouped(g0) && c in cats
    requires pinned == |InCat(Pins(g0, cats, n), c)|
    ensures pinned == TakeCount(Queue(g0, c), n)
  {
    PinsByCategory(g0, cats, n, c);
  }

  /** Pinning leaves a selected category's queue shorter by its pins. */
  lemma LeftCount(g0: Groups, cats: CategorySet, n: int, c: Category)
    requires c in cats
    ensures |Queue(AfterPins(g0, cats, n), c)| == |Queue(g0, c)| - TakeCount(Queue(g0, c), n)
  {
    AfterPinsQueue(g0, cats, n, c);
  }

  /** A selected category's round-robin items number
      `min(minPerCat, queue)`. */
  lemma SweptCount(g1: Groups, cats: CategorySet, m: int, c: Category, swept: int)
    requires WellGrouped(g1) && c in cats
    requires swept == |InCat(Sweeps(g1, cats, m, MaxQuota(g1, cats, m)), c)|
    ensures swept == TakeCount(Queue(g1, c), m)
  {
    RoundRobinByCategory(g1, cats, m, c);
  }

  // ---------------------------------------------------------------------
  // Prefix facts used by the imperative version
  // ---------------------------------------------------------------------

  lemma {:induction false} PinsPrefix(g: Groups, cs: seq<Category>, n: int, i: nat, j: nat)
    requires i <= j <= |cs|
    ensures Pins(g, cs[..i], n) <= Pins(g, cs[..j], n)
  {
    if i < j {
      PinsPrefix(g, cs, n, i, j - 1);
      assert cs[..j][..j - 1] == cs[..j - 1];
    }
  }

  lemma {:induction false} RowPrefix(g: Groups, cs: seq<Category>, m: int, r: nat, i: nat, j: nat)
    requires i <= j <= |cs|
    ensures Row(g, cs[..i], m, r) <= Row(g, cs[..j], m, r)
  {
    if i < j {
      RowPrefix(g, cs, m, r, i, j - 1);
      assert cs[..j][..j - 1] == cs[..j - 1];
    }
  }

  lemma {:induction false} SweepsPrefix(g: Groups, cs: seq<Category>, m: int, k: nat, j: nat)
    requires k <= j
    ensures Sweeps(g, cs, m, k) <= Sweeps(g, cs, m, j)
  {
    if k < j {
      SweepsPrefix(g, cs, m, k, j - 1);
    }
  }

  /** A place that extends a prefix of a list with unique ids is new. */
  lemma PrefixFreshId(a: seq<Place>, p: Place, b: seq<Place>)
    requires a + [p] <= b && UniqueIds(b)
    ensures p.id !in IdSet(a)
  {
    forall q | q in a ensures q.id != p.id {
      var i :| 0 <= i < |a| && a[i] == q;
      assert b[i] == (a + [p])[i] && b[|a|] == (a + [p])[|a|];
    }
  }
}
