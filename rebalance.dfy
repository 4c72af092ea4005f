/** `rebalanceByCategory` as the step-by-step procedure of RebalanceUtil.kt:
    mutable queues, a `used` id set, a per-category counter and the growing
    result lists, each phase proved to compute the stage function of
    RebalanceSpec that describes it. */
module Rebalance {
  import opened Wrappers
  import opened Seqs
  import opened TravelModels
  import opened RebalanceSpec
  import opened RebalanceProperties

  // ---------------------------------------------------------------------
  // Stage 2: pin the top picks
  // ---------------------------------------------------------------------

  /** The `for (cat in selectedCats)` loop: each category in selection
      order gives its first `takeN` items and loses them from its queue. */
  method PinTopPicks(g0: Groups, cats: CategorySet, perCatTop: int)
    returns (topPicks: seq<Place>, grouped: Groups, used: set<string>)
    requires UniqueIds(Pins(g0, cats, perCatTop))
    ensures topPicks == Pins(g0, cats, perCatTop)
    ensures grouped == AfterPins(g0, cats, perCatTop)
    ensures used == IdSet(topPicks)
  {
    topPicks, grouped, used := [], g0, {};
    for i := 0 to |cats|
      invariant topPicks == Pins(g0, cats[..i], perCatTop)
      invariant grouped == AfterPins(g0, cats[..i], perCatTop)
      invariant used == IdSet(topPicks)
    {
      var cat := cats[i];
      var list := if cat in grouped then grouped[cat] else [];
      var takeN := Min(perCatTop, |list|);
      PinsStep(g0, cats, perCatTop, i);
      AfterPinsStep(g0, cats, perCatTop, i);
      assert Pins(g0, cats[..i + 1], perCatTop) <= Pins(g0, cats, perCatTop) by {
        PinsPrefix(g0, cats, perCatTop, i + 1, |cats|);
        assert cats[..|cats|] == cats;
      }
      topPicks, used := PinFromQueue(list, takeN, topPicks, used, Pins(g0, cats, perCatTop));
      if takeN > 0 {
        grouped := grouped[cat := list[takeN..]];
      }
    }
    assert cats[..|cats|] == cats;
  }

  /** `repeat(takeN) { idx -> if (used.add(list[idx].id)) topPicks += list[idx] }`:
      when the picks are a prefix of a list `whole` with unique ids, every
      item is new and all `takeN` of them are appended. */
  method PinFromQueue(list: seq<Place>, takeN: int, topPicks0: seq<Place>, used0: set<string>,
                      ghost whole: seq<Place>)
    returns (topPicks: seq<Place>, used: set<string>)
    requires takeN <= |list| && used0 == IdSet(topPicks0)
    requires topPicks0 + list[..TakeCount(list, takeN)] <= whole && UniqueIds(whole)
    ensures topPicks == topPicks0 + list[..TakeCount(list, takeN)]
    ensures used == IdSet(topPicks)
  {
    topPicks, used := topPicks0, used0;
    var idx := 0;
    while idx < takeN
      invariant 0 <= idx <= TakeCount(list, takeN)
      invariant topPicks == topPicks0 + list[..idx]
      invariant used == IdSet(topPicks)
    {
      var p := list[idx];
      assert topPicks + [p] <= whole by {
        TakeSnoc(topPicks0, list, idx);
        PrefixTake(topPicks0, list, idx + 1, TakeCount(list, takeN));
        PrefixTrans(topPicks0 + list[..idx + 1], topPicks0 + list[..TakeCount(list, takeN)], whole);
      }
      PrefixFreshId(topPicks, p, whole);
      if p.id !in used {
        used := used + {p.id};
        IdSetSnoc(topPicks, p);
        topPicks := topPicks + [p];
      }
      idx := idx + 1;
    }
  }

  /** One turn of the pinning loop appends the first `takeN` items of the
      queue of `cats[i]` to the picks. */
  lemma PinsStep(g0: Groups, cats: CategorySet, n: int, i: nat)
    requires i < |cats|
    ensures var list := Queue(g0, cats[i]);
      Pins(g0, cats[..i + 1], n) == Pins(g0, cats[..i], n) + list[..TakeCount(list, n)]
  {
    assert cats[..i + 1][..i] == cats[..i];
  }

  /** One turn of the pinning loop removes those items from the queue, which
      no earlier turn has touched. */
  lemma AfterPinsStep(g0: Groups, cats: CategorySet, n: int, i: nat)
    requires i < |cats|
    ensures var g := AfterPins(g0, cats[..i], n);
      var list := if cats[i] in g then g[cats[i]] else [];
      && list == Queue(g0, cats[i])
      && AfterPins(g0, cats[..i + 1], n) ==
           if Min(n, |list|) > 0 then g[cats[i] := list[Min(n, |list|)..]] else g
  {
    var cat := cats[i];
    assert cats[..i + 1] == cats[..i] + [cat];
    assert cat !in cats[..i];
  }

  // ---------------------------------------------------------------------
  // Stage 3: the round robin
  // ---------------------------------------------------------------------

  /** `perCatCount.getValue(cat)` of a map made `withDefault { 0 }`. */
  function Count(counts: map<Category, int>, c: Category): int {
    if c in counts then counts[c] else 0
  }

  /** `canTake(cat)`. */
  predicate CanTake(counts: map<Category, int>, grouped: Groups, minPerCat: int, c: Category) {
    Count(counts, c) < minPerCat && Queue(grouped, c) != []
  }

  /** A category that has given `min(k, quota)` items can give another
      exactly when `k` is below its quota. */
  lemma CanTakeIff(counts: map<Category, int>, grouped: Groups, g1: Groups, m: int, c: Category, k: nat)
    requires Count(counts, c) == Min(k, TakeCount(Queue(g1, c), m))
    requires Queue(grouped, c) == Queue(g1, c)[Min(k, TakeCount(Queue(g1, c), m))..]
    ensures CanTake(counts, grouped, m, c) <==> k < TakeCount(Queue(g1, c), m)
  {
  }

  /** How many sweeps category `c` has been offered once the categories
      `done` of sweep `k` have had their turn. */
  function Offered(done: seq<Category>, k: nat, c: Category): nat {
    if c in done then k + 1 else k
  }

  /** The state the round robin keeps for each selected category. */
  ghost predicate Drained(g1: Groups, cats: seq<Category>, m: int, done: seq<Category>, k: nat,
                          counts: map<Category, int>, grouped: Groups)
  {
    && grouped.Keys == g1.Keys
    && forall c {:trigger Offered(done, k, c)} :: c in cats ==>
         var given := Min(Offered(done, k, c), TakeCount(Queue(g1, c), m));
         Count(counts, c) == given && Queue(grouped, c) == Queue(g1, c)[given..]
  }

  /** The `while (selectedCats.any { canTake(it) })` loop: sweep after sweep,
      each selected category in turn gives its best remaining item while it
      is below `minPerCat` and not empty. */
  method RoundRobin(g1: Groups, cats: CategorySet, minPerCat: int, topPicks: seq<Place>, used0: set<string>)
    returns (body: seq<Place>, grouped: Groups, used: set<string>)
    requires forall c :: c in g1 ==> c in cats
    requires used0 == IdSet(topPicks)
    requires UniqueIds(topPicks + Sweeps(g1, cats, minPerCat, MaxQuota(g1, cats, minPerCat)))
    ensures body == Sweeps(g1, cats, minPerCat, MaxQuota(g1, cats, minPerCat))
    ensures grouped == AfterSweeps(g1, minPerCat, MaxQuota(g1, cats, minPerCat))
    ensures used == IdSet(topPicks + body)
  {
    ghost var sweeps := MaxQuota(g1, cats, minPerCat);
    ghost var whole := topPicks + Sweeps(g1, cats, minPerCat, sweeps);
    var counts: map<Category, int> := map[];
    body, grouped, used := [], g1, used0;
    ghost var k: nat := 0;
    var more := AnyCanTake(cats, counts, grouped, minPerCat);
    MoreIff(g1, cats, minPerCat, k, counts, grouped);
    while more
      invariant k <= sweeps
      invariant body == Sweeps(g1, cats, minPerCat, k)
      invariant Drained(g1, cats, minPerCat, [], k, counts, grouped)
      invariant used == IdSet(topPicks + body)
      invariant more <==> k < sweeps
      decreases sweeps - k
    {
      SweepWithin(g1, cats, minPerCat, k, sweeps, topPicks);
      body, counts, grouped, used := Sweep(g1, cats, minPerCat, k, topPicks, body, counts, grouped, used, whole);
      k := k + 1;
      more := AnyCanTake(cats, counts, grouped, minPerCat);
      MoreIff(g1, cats, minPerCat, k, counts, grouped);
    }
    assert k == sweeps;
    DrainedAll(g1, cats, minPerCat, sweeps, counts, grouped);
  }

  /** The picks, the sweeps so far and the next row are a prefix of the
      picks and all the sweeps. */
  lemma SweepWithin(g1: Groups, cats: CategorySet, m: int, k: nat, sweeps: nat, topPicks: seq<Place>)
    requires k < sweeps
    ensures topPicks + Sweeps(g1, cats, m, k) + Row(g1, cats, m, k) <= topPicks + Sweeps(g1, cats, m, sweeps)
  {
    SweepsPrefix(g1, cats, m, k + 1, sweeps);
    AppendAssoc(topPicks, Sweeps(g1, cats, m, k), Row(g1, cats, m, k));
    PrefixAppend(topPicks, Sweeps(g1, cats, m, k + 1), Sweeps(g1, cats, m, sweeps));
  }

  /** `selectedCats.any { canTake(it) }`. */
  method AnyCanTake(cats: CategorySet, counts: map<Category, int>, grouped: Groups, minPerCat: int)
    returns (b: bool)
    ensures b <==> exists c :: c in cats && CanTake(counts, grouped, minPerCat, c)
  {
    b := false;
    for i := 0 to |cats|
      invariant b <==> exists j :: 0 <= j < i && CanTake(counts, grouped, minPerCat, cats[j])
    {
      if CanTake(counts, grouped, minPerCat, cats[i]) {
        b := true;
      }
    }
  }

  /** Some category can still give exactly when fewer sweeps than the
      largest quota have been made. */
  lemma MoreIff(g1: Groups, cats: CategorySet, m: int, k: nat, counts: map<Category, int>, grouped: Groups)
    requires Drained(g1, cats, m, [], k, counts, grouped)
    ensures (exists c :: c in cats && CanTake(counts, grouped, m, c)) <==> k < MaxQuota(g1, cats, m)
  {
    var sweeps := MaxQuota(g1, cats, m);
    if exists c :: c in cats && CanTake(counts, grouped, m, c) {
      var c :| c in cats && CanTake(counts, grouped, m, c);
      assert Offered([], k, c) == k;
      CanTakeIff(counts, grouped, g1, m, c, k);
    }
    if k < sweeps {
      var c :| c in cats && TakeCount(Queue(g1, c), m) == sweeps;
      assert Offered([], k, c) == k;
      CanTakeIff(counts, grouped, g1, m, c, k);
    }
  }

  /** One pass of the inner `for (cat in selectedCats)` loop: sweep `k`
      appends row `k` and every category that could give has given once. */
  method Sweep(g1: Groups, cats: CategorySet, minPerCat: int, ghost k: nat,
               topPicks: seq<Place>, body0: seq<Place>, counts0: map<Category, int>, grouped0: Groups,
               used0: set<string>, ghost whole: seq<Place>)
    returns (body: seq<Place>, counts: map<Category, int>, grouped: Groups, used: set<string>)
    requires Drained(g1, cats, minPerCat, [], k, counts0, grouped0)
    requires used0 == IdSet(topPicks + body0)
    requires topPicks + body0 + Row(g1, cats, minPerCat, k) <= whole && UniqueIds(whole)
    ensures body == body0 + Row(g1, cats, minPerCat, k)
    ensures Drained(g1, cats, minPerCat, [], k + 1, counts, grouped)
    ensures used == IdSet(topPicks + body)
  {
    body, counts, grouped, used := body0, counts0, grouped0, used0;
    assert cats[..0] == [];
    for j := 0 to |cats|
      invariant body == body0 + Row(g1, cats[..j], minPerCat, k)
      invariant Drained(g1, cats, minPerCat, cats[..j], k, counts, grouped)
      invariant used == IdSet(topPicks + body)
    {
      body, counts, grouped, used := Turn(g1, cats, minPerCat, k, j, topPicks, body0, body, counts, grouped, used, whole);
    }
    assert cats[..|cats|] == cats;
    DrainedNext(g1, cats, minPerCat, k, counts, grouped);
  }

  /** Turn `j` of sweep `k`: the category `cats[j]` gives the head of
      its queue when it still can, and the id is recorded. */
  method Turn(g1: Groups, cats: CategorySet, minPerCat: int, ghost k: nat, j: nat,
              topPicks: seq<Place>, ghost body0: seq<Place>, body: seq<Place>, counts: map<Category, int>,
              grouped: Groups, used: set<string>, ghost whole: seq<Place>)
    returns (body': seq<Place>, counts': map<Category, int>, grouped': Groups, used': set<string>)
    requires j < |cats|
    requires body == body0 + Row(g1, cats[..j], minPerCat, k)
    requires Drained(g1, cats, minPerCat, cats[..j], k, counts, grouped)
    requires used == IdSet(topPicks + body)
    requires topPicks + body0 + Row(g1, cats, minPerCat, k) <= whole && UniqueIds(whole)
    ensures body' == body0 + Row(g1, cats[..j + 1], minPerCat, k)
    ensures Drained(g1, cats, minPerCat, cats[..j + 1], k, counts', grouped')
    ensures used' == IdSet(topPicks + body')
  {
    body', counts', grouped', used' := body, counts, grouped, used;
    var cat := cats[j];
    DrainedTurn(g1, cats, minPerCat, j, k, counts, grouped);
    if !CanTake(counts, grouped, minPerCat, cat) {
      RowStep(g1, cats, minPerCat, k, j);
      DrainedSkip(g1, cats, minPerCat, j, k, counts, grouped);
      return;
    }
    var p := grouped[cat][0];
    SweepTake(g1, cats, minPerCat, k, j, topPicks, body0, body, whole);
    DrainedTake(g1, cats, minPerCat, j, k, counts, grouped);
    grouped' := grouped[cat := grouped[cat][1..]];
    if p.id !in used {
      used' := used + {p.id};
      body' := body + [p];
      counts' := counts[cat := Count(counts, cat) + 1];
    }
  }

  /** The item turn `j` of sweep `k` takes is new, and appending it extends
      the sweep by that turn. */
  lemma SweepTake(g1: Groups, cats: CategorySet, m: int, k: nat, j: nat,
                  topPicks: seq<Place>, body0: seq<Place>, body: seq<Place>, whole: seq<Place>)
    requires j < |cats| && k < TakeCount(Queue(g1, cats[j]), m)
    requires body == body0 + Row(g1, cats[..j], m, k)
    requires topPicks + body0 + Row(g1, cats, m, k) <= whole && UniqueIds(whole)
    ensures var p := Queue(g1, cats[j])[k];
      && p.id !in IdSet(topPicks + body)
      && body + [p] == body0 + Row(g1, cats[..j + 1], m, k)
      && IdSet(topPicks + (body + [p])) == IdSet(topPicks + body) + {p.id}
  {
    var p := Queue(g1, cats[j])[k];
    RowStep(g1, cats, m, k, j);
    RowFresh(g1, cats, m, k, j, topPicks + body0, whole);
    AppendAssoc(topPicks, body0, Row(g1, cats[..j], m, k));
    AppendAssoc(body0, Row(g1, cats[..j], m, k), [p]);
    AppendAssoc(topPicks, body, [p]);
    IdSetSnoc(topPicks + body, p);
  }

  /** Turn `j` of sweep `k` appends item `k` of the queue of `cats[j]` when
      its quota exceeds `k`. */
  lemma RowStep(g1: Groups, cats: CategorySet, m: int, k: nat, j: nat)
    requires j < |cats|
    ensures var q := Queue(g1, cats[j]);
      Row(g1, cats[..j + 1], m, k) ==
        Row(g1, cats[..j], m, k) + (if k < TakeCount(q, m) then [q[k]] else [])
  {
    assert cats[..j + 1][..j] == cats[..j];
  }

  /** The item a turn takes is new. */
  lemma RowFresh(g1: Groups, cats: CategorySet, m: int, k: nat, j: nat, pre: seq<Place>, whole: seq<Place>)
    requires j < |cats| && k < TakeCount(Queue(g1, cats[j]), m)
    requires pre + Row(g1, cats, m, k) <= whole && UniqueIds(whole)
    ensures var p := Queue(g1, cats[j])[k];
      p.id !in IdSet(pre + Row(g1, cats[..j], m, k))
  {
    var p := Queue(g1, cats[j])[k];
    var r := Row(g1, cats[..j], m, k);
    RowStep(g1, cats, m, k, j);
    RowPrefix(g1, cats, m, k, j + 1, |cats|);
    assert cats[..|cats|] == cats;
    assert pre + r + [p] <= whole by {
      AppendAssoc(pre, r, [p]);
      PrefixAppend(pre, r + [p], Row(g1, cats, m, k));
      PrefixTrans(pre + (r + [p]), pre + Row(g1, cats, m, k), whole);
    }
    PrefixFreshId(pre + r, p, whole);
  }

  /** On its turn in sweep `k`, a category can give exactly when its quota
      exceeds `k`. */
  lemma DrainedTurn(g1: Groups, cats: CategorySet, m: int, j: nat, k: nat,
                    counts: map<Category, int>, grouped: Groups)
    requires j < |cats| && Drained(g1, cats, m, cats[..j], k, counts, grouped)
    ensures CanTake(counts, grouped, m, cats[j]) <==> k < TakeCount(Queue(g1, cats[j]), m)
  {
    assert cats[j] !in cats[..j];
    assert Offered(cats[..j], k, cats[j]) == k;
    CanTakeIff(counts, grouped, g1, m, cats[j], k);
  }

  /** A category whose turn finds it unable to give stays as it was. */
  lemma DrainedSkip(g1: Groups, cats: CategorySet, m: int, j: nat, k: nat,
                    counts: map<Category, int>, grouped: Groups)
    requires j < |cats| && Drained(g1, cats, m, cats[..j], k, counts, grouped)
    requires !(k < TakeCount(Queue(g1, cats[j]), m))
    ensures Drained(g1, cats, m, cats[..j + 1], k, counts, grouped)
  {
    assert cats[..j + 1] == cats[..j] + [cats[j]];
    forall c | c in cats
      ensures Min(Offered(cats[..j + 1], k, c), TakeCount(Queue(g1, c), m))
           == Min(Offered(cats[..j], k, c), TakeCount(Queue(g1, c), m))
    {
      if c != cats[j] {
        assert (c in cats[..j + 1]) == (c in cats[..j]);
        assert Offered(cats[..j + 1], k, c) == Offered(cats[..j], k, c);
      } else {
        assert c !in cats[..j];
        assert Offered(cats[..j], k, c) == k;
      }
    }
  }

  /** A category that gives its next item moves one step along its queue. */
  lemma DrainedTake(g1: Groups, cats: CategorySet, m: int, j: nat, k: nat,
                    counts: map<Category, int>, grouped: Groups)
    requires j < |cats| && Drained(g1, cats, m, cats[..j], k, counts, grouped)
    requires k < TakeCount(Queue(g1, cats[j]), m)
    ensures cats[j] in grouped && grouped[cats[j]] != []
    ensures grouped[cats[j]][0] == Queue(g1, cats[j])[k]
    ensures Drained(g1, cats, m, cats[..j + 1], k,
                    counts[cats[j] := Count(counts, cats[j]) + 1],
                    grouped[cats[j] := grouped[cats[j]][1..]])
  {
    var cat := cats[j];
    assert cats[..j + 1] == cats[..j] + [cat];
    assert cat !in cats[..j];
    assert Offered(cats[..j], k, cat) == k;
    var counts' := counts[cat := Count(counts, cat) + 1];
    var grouped' := grouped[cat := grouped[cat][1..]];
    forall c | c in cats
      ensures var given := Min(Offered(cats[..j + 1], k, c), TakeCount(Queue(g1, c), m));
        Count(counts', c) == given && Queue(grouped', c) == Queue(g1, c)[given..]
    {
      if c != cat {
        assert (c in cats[..j + 1]) == (c in cats[..j]);
        assert Offered(cats[..j + 1], k, c) == Offered(cats[..j], k, c);
      } else {
        assert Offered(cats[..j], k, c) == k;
      }
    }
  }

  /** After the last turn of sweep `k` every category has been offered
      `k + 1` sweeps. */
  lemma DrainedNext(g1: Groups, cats: CategorySet, m: int, k: nat,
                    counts: map<Category, int>, grouped: Groups)
    requires Drained(g1, cats, m, cats, k, counts, grouped)
    ensures Drained(g1, cats, m, [], k + 1, counts, grouped)
  {
    forall c | c in cats ensures Offered([], k + 1, c) == Offered(cats, k, c) {
    }
  }

  /** Once no category can give, the queues are those of `AfterSweeps`. */
  lemma DrainedAll(g1: Groups, cats: CategorySet, m: int, k: nat,
                   counts: map<Category, int>, grouped: Groups)
    requires forall c :: c in g1 ==> c in cats
    requires Drained(g1, cats, m, [], k, counts, grouped)
    ensures grouped == AfterSweeps(g1, m, k)
  {
    var a := AfterSweeps(g1, m, k);
    forall c | c in grouped ensures grouped[c] == a[c] {
      assert Offered([], k, c) == k;
      assert Queue(grouped, c) == Queue(g1, c)[Min(k, TakeCount(Queue(g1, c), m))..];
    }
  }

  // ---------------------------------------------------------------------
  // Stages 4 and 5: the fill passes
  // ---------------------------------------------------------------------

  /** The first `for ((cat, p) in remaining)` loop. */
  method FillPass(remaining: seq<Place>, topSize: nat, body0: seq<Place>, used0: set<string>,
                  lastCat0: Option<Category>, totalCap: Option<int>)
    returns (body: seq<Place>, used: set<string>, lastCat: Option<Category>)
    requires UniqueIds(remaining)
    requires forall p :: p in remaining ==> p.id !in used0
    ensures body == body0 + Fill(remaining, lastCat0, Room(totalCap, topSize + |body0|))
    ensures used == used0 + IdSet(body[|body0|..])
  {
    body, used, lastCat := body0, used0, lastCat0;
    var i := 0;
    while i < |remaining|
      invariant i <= |remaining|
      invariant body0 + Fill(remaining, lastCat0, Room(totalCap, topSize + |body0|))
             == body + Fill(remaining[i..], lastCat, Room(totalCap, topSize + |body|))
      invariant |body0| <= |body| && used == used0 + IdSet(body[|body0|..])
      invariant forall p :: p in remaining[i..] ==> p.id !in used
    {
      var p := remaining[i];
      var cat := p.category;
      assert remaining[i..][1..] == remaining[i + 1..];
      if totalCap.Some? && topSize + |body| >= totalCap.value {
        assert body + Fill(remaining[i..], lastCat, Room(totalCap, topSize + |body|)) == body + [];
        break;
      }
      if p.id in used {
        i := i + 1;
        continue;
      }
      if lastCat == Some(cat) {
        FillSkip(remaining[i..], lastCat, Room(totalCap, topSize + |body|));
        i := i + 1;
        continue;
      }
      FillPlace(body, remaining[i..], lastCat, totalCap, topSize);
      assert (body + [p])[|body0|..] == body[|body0|..] + [p];
      IdSetSnoc(body[|body0|..], p);
      UniqueAfter(remaining, i);
      body := body + [p];
      used := used + {p.id};
      lastCat := Some(cat);
      i := i + 1;
    }
  }

  /** Placing the next item moves it from the pending fill to the body. */
  lemma FillPlace(body: seq<Place>, rem: seq<Place>, last: Option<Category>, cap: Option<int>, topSize: nat)
    requires rem != [] && !Exhausted(Room(cap, topSize + |body|)) && last != Some(rem[0].category)
    ensures body + Fill(rem, last, Room(cap, topSize + |body|))
         == (body + [rem[0]]) + Fill(rem[1..], Some(rem[0].category), Room(cap, topSize + |body + [rem[0]]|))
  {
    assert Room(cap, topSize + |body + [rem[0]]|) == Less(Room(cap, topSize + |body|));
    AppendAssoc(body, [rem[0]], Fill(rem[1..], Some(rem[0].category), Less(Room(cap, topSize + |body|))));
  }

  /** An item of the category placed just before is skipped. */
  lemma FillSkip(rem: seq<Place>, last: Option<Category>, room: Option<int>)
    requires rem != [] && !Exhausted(room) && last == Some(rem[0].category)
    ensures Fill(rem, last, room) == Fill(rem[1..], last, room)
  {
  }

  /** In a list with unique ids, no later item shares the id of item `i`. */
  lemma UniqueAfter(s: seq<Place>, i: nat)
    requires UniqueIds(s) && i < |s|
    ensures forall q :: q in s[i + 1..] ==> q.id != s[i].id
  {
    forall q | q in s[i + 1..] ensures q.id != s[i].id {
      var j :| i + 1 <= j < |s| && s[j] == q;
    }
  }

  /** The second `for ((_, p) in remaining)` loop. */
  method TopOffPass(remaining: seq<Place>, topSize: nat, body0: seq<Place>, used0: set<string>,
                    totalCap: Option<int>)
    returns (body: seq<Place>, used: set<string>)
    ensures body == body0 + TopOff(remaining, used0, Room(totalCap, topSize + |body0|))
  {
    body, used := body0, used0;
    var i := 0;
    while i < |remaining|
      invariant i <= |remaining|
      invariant body0 + TopOff(remaining, used0, Room(totalCap, topSize + |body0|))
             == body + TopOff(remaining[i..], used, Room(totalCap, topSize + |body|))
    {
      var p := remaining[i];
      assert remaining[i..][1..] == remaining[i + 1..];
      if totalCap.Some? && topSize + |body| >= totalCap.value {
        break;
      }
      if p.id !in used {
        used := used + {p.id};
        body := body + [p];
      }
      i := i + 1;
    }
  }

  // ---------------------------------------------------------------------
  // The whole procedure
  // ---------------------------------------------------------------------

  /** `rebalanceByCategory`: computes `Rebalanced`, hence the top picks are a
      prefix of the full list, ids are unique, only selected candidates
      appear, and without a cap every distinct selected candidate appears. */
  method RebalanceByCategory(candidates: seq<Place>, selectedCats: CategorySet, minPerCat: int,
                             perCatTop: int, totalCap: Option<int>)
    returns (topPicks: seq<Place>, finalList: seq<Place>)
    ensures (topPicks, finalList) == Rebalanced(candidates, selectedCats, minPerCat, perCatTop, totalCap)
    ensures topPicks <= finalList && UniqueIds(finalList)
    ensures forall p :: p in finalList ==> p in candidates && p.category in selectedCats
    ensures totalCap == None ==> multiset(finalList) == multiset(Filtered(candidates, selectedCats))
  {
    ghost var st := RunStages(candidates, selectedCats, minPerCat, perCatTop);
    StagedFacts(candidates, selectedCats, minPerCat, perCatTop);

    // 0) and 1): `filter`, `distinctBy`, `groupBy` and the sort of each group
    var filtered := Filtered(candidates, selectedCats);
    var keys := CategoryOrder(filtered);
    var grouped := Grouped(filtered);
    var used: set<string>;

    // 2)
    topPicks, grouped, used := PinTopPicks(grouped, selectedCats, perCatTop);

    // 3)
    var body: seq<Place>;
    body, grouped, used := RoundRobin(grouped, selectedCats, minPerCat, topPicks, used);

    // 4) and 5)
    var remaining := ByScore(ConcatQueues(grouped, keys));
    finalList := FillPasses(topPicks, body, remaining, used, totalCap);
    RebalancedSound(candidates, selectedCats, minPerCat, perCatTop, totalCap);
  }

  /** Stages 4 and 5: both passes over `remaining`, after the pins and the
      round robin. */
  method FillPasses(topPicks: seq<Place>, body0: seq<Place>, remaining: seq<Place>, used0: set<string>,
                    totalCap: Option<int>)
    returns (finalList: seq<Place>)
    requires used0 == IdSet(topPicks + body0)
    requires UniqueIds(remaining) && forall p :: p in remaining ==> p.id !in used0
    ensures var (fill, topOff) := Passes(topPicks + body0, remaining, LastCategory(topPicks, body0), totalCap);
      finalList == topPicks + body0 + fill + topOff
  {
    var lastCat := LastCategory(topPicks, body0);
    var body, used;
    body, used, lastCat := FillPass(remaining, |topPicks|, body0, used0, lastCat, totalCap);
    ghost var body1, used1 := body, used;
    body, used := TopOffPass(remaining, |topPicks|, body, used, totalCap);
    finalList := topPicks + body;
    PassesSplit(topPicks, body0, remaining, LastCategory(topPicks, body0), totalCap, body1, used1, body);
  }

  /** The facts about the stages the loops rely on: the ids the pins, the
      round robin and the leftovers hold are unique, and no leftover shares
      an id with a placed item. */
  lemma StagedFacts(candidates: seq<Place>, cats: CategorySet, m: int, n: int)
    ensures var st := RunStages(candidates, cats, m, n);
      && UniqueIds(st.top) && UniqueIds(st.top + st.rr) && UniqueIds(st.rem)
      && forall p :: p in st.rem ==> p.id !in IdSet(st.top + st.rr)
  {
    var st := RunStages(candidates, cats, m, n);
    StagedUnique(candidates, cats, m, n);
    UniqueThree(st.top, st.rr, st.rem);
  }

  lemma UniqueThree(a: seq<Place>, b: seq<Place>, c: seq<Place>)
    requires UniqueIds(a + b + c)
    ensures UniqueIds(a) && UniqueIds(a + b) && UniqueIds(c)
    ensures forall p :: p in c ==> p.id !in IdSet(a + b)
  {
    assert a + b + c == a + (b + c);
    UniquePrefix(a, a + b + c);
    UniquePrefix(a + b, a + b + c);
    UniqueSplit(a + b, c);
  }

  /** The two loops of stages 4 and 5 append the two halves of `Passes`. */
  lemma PassesSplit(top: seq<Place>, rr: seq<Place>, rem: seq<Place>, last: Option<Category>,
                    cap: Option<int>, body1: seq<Place>, used1: set<string>, body2: seq<Place>)
    requires body1 == rr + Fill(rem, last, Room(cap, |top| + |rr|))
    requires used1 == IdSet(top + rr) + IdSet(body1[|rr|..])
    requires body2 == body1 + TopOff(rem, used1, Room(cap, |top| + |body1|))
    ensures var (fill, topOff) := Passes(top + rr, rem, last, cap);
      top + body2 == top + rr + fill + topOff
  {
    var fill := Fill(rem, last, Room(cap, |top| + |rr|));
    assert body1[|rr|..] == fill;
    IdSetConcat(top + rr, fill);
    assert |top| + |body1| == |top + rr + fill|;
    assert top + body2 == top + rr + fill + TopOff(rem, used1, Room(cap, |top| + |body1|));
  }

  /** A prefix of a list with unique ids has unique ids. */
  lemma UniquePrefix(a: seq<Place>, b: seq<Place>)
    requires a <= b && UniqueIds(b)
    ensures UniqueIds(a)
  {
    forall i, j | 0 <= i < j < |a| ensures a[i].id != a[j].id {
      assert a[i] == b[i] && a[j] == b[j];
    }
  }

  /** The two halves of a list with unique ids share no id and each has
      unique ids. */
  lemma UniqueSplit(a: seq<Place>, b: seq<Place>)
    requires UniqueIds(a + b)
    ensures UniqueIds(b)
    ensures forall p :: p in b ==> p.id !in IdSet(a)
  {
    forall i, j | 0 <= i < j < |b| ensures b[i].id != b[j].id {
      assert (a + b)[|a| + i] == b[i] && (a + b)[|a| + j] == b[j];
    }
    forall p | p in b ensures p.id !in IdSet(a) {
      var j :| 0 <= j < |b| && b[j] == p;
      forall q | q in a ensures q.id != p.id {
        var i :| 0 <= i < |a| && a[i] == q;
        assert (a + b)[i] == q && (a + b)[|a| + j] == p;
      }
    }
  }

  lemma IdSetConcat(a: seq<Place>, b: seq<Place>)
    ensures IdSet(a + b) == IdSet(a) + IdSet(b)
  {
    forall x | x in IdSet(a + b) ensures x in IdSet(a) + IdSet(b) {
      var q :| q in a + b && q.id == x;
    }
    forall x | x in IdSet(a) + IdSet(b) ensures x in IdSet(a + b) {
      if x in IdSet(a) {
        var q :| q in a && q.id == x;
        assert q in a + b;
      } else {
        var q :| q in b && q.id == x;
        assert q in a + b;
      }
    }
  }
}
