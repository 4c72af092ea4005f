/** The category rebalancer of RebalanceUtil.kt, stated as functions: the
    score, the five stages of `rebalanceByCategory`, and what they promise. */
module RebalanceSpec {
  import opened Wrappers
  import opened Seqs
  import opened TravelModels

  // ---------------------------------------------------------------------
  // finalScore
  // ---------------------------------------------------------------------

  /** Kotlin `Int` arithmetic wraps around modulo 2^32. */
  function Wrap32(x: int): Int32 {
    var m := x % 0x1_0000_0000;
    if m < 0x8000_0000 then m else m - 0x1_0000_0000
  }

  /** `1_000_000.0 / (distanceMeters + 50)`, where the sum is an `Int`. */
  function DistanceBonus(d: Option<Int32>): real {
    match d
    case None => 0.0
    case Some(m) =>
      var den := Wrap32(m + 50);
      if den == 0 then 0.0 else 1000000.0 / (den as real)
  }

  /** `Place.finalScore()`: AI score, a tenth of the rating, and a bonus for
      nearness; an absent part contributes nothing. */
  function FinalScore(p: Place): real {
    p.score.GetOr(0.0) + p.rating.GetOr(0.0) * 0.1 + DistanceBonus(p.distanceMeters)
  }

  /** A place without score, rating or distance scores exactly zero, and one
      without a distance scores its AI score plus a tenth of its rating. */
  lemma AbsentPartsContributeZero(p: Place)
    ensures p.distanceMeters == None ==>
      FinalScore(p) == p.score.GetOr(0.0) + p.rating.GetOr(0.0) * 0.1
    ensures p.score == None && p.rating == None && p.distanceMeters == None ==> FinalScore(p) == 0.0
  {
  }

  lemma ReciprocalDecreasing(a: real, b: real)
    requires 0.0 < a < b || a < b < 0.0
    ensures 1000000.0 / a > 1000000.0 / b
  {
    assert 1000000.0 / a - 1000000.0 / b == 1000000.0 * (b - a) / (a * b);
    assert a * b > 0.0;
  }

  /** Nearer is better: with equal AI score and rating, a smaller
      non-negative distance gives a strictly larger score (also across the
      32-bit wrap-around of `distance + 50`). */
  lemma NearerScoresHigher(p: Place, d1: Int32, d2: Int32)
    requires 0 <= d1 < d2
    ensures FinalScore(p.(distanceMeters := Some(d1))) > FinalScore(p.(distanceMeters := Some(d2)))
  {
    var w1, w2 := Wrap32(d1 + 50), Wrap32(d2 + 50);
    if d2 + 50 < 0x8000_0000 {
      assert w1 == d1 + 50 && w2 == d2 + 50;
      ReciprocalDecreasing(w1 as real, w2 as real);
    } else if d1 + 50 < 0x8000_0000 {
      assert w1 == d1 + 50 && w2 == d2 + 50 - 0x1_0000_0000;
      assert 1000000.0 / (w1 as real) > 0.0;
      assert 1000000.0 / (w2 as real) < 0.0;
    } else {
      assert w1 == d1 + 50 - 0x1_0000_0000 && w2 == d2 + 50 - 0x1_0000_0000;
      ReciprocalDecreasing(w1 as real, w2 as real);
    }
  }

  /** The bonus is positive for every realistic distance and, because the
      `Int` sum wraps, negative within 50 of `Int.MAX_VALUE`. */
  lemma BonusSign(d: Int32)
    requires d >= 0
    ensures d <= IntMaxValue - 50 ==> DistanceBonus(Some(d)) > 0.0
    ensures d > IntMaxValue - 50 ==> DistanceBonus(Some(d)) < 0.0
  {
    if d <= IntMaxValue - 50 {
      assert Wrap32(d + 50) == d + 50;
    } else {
      assert Wrap32(d + 50) == d + 50 - 0x1_0000_0000;
    }
  }

  /** "May come first" for `sortedByDescending { it.finalScore() }`. */
  predicate ScoreFirst(a: Place, b: Place) {
    FinalScore(a) >= FinalScore(b)
  }

  lemma ScoreFirstTotal()
    ensures TotalPreorder(ScoreFirst)
  {
  }

  /** `sortedByDescending { it.finalScore() }` (stable). */
  function ByScore(s: seq<Place>): (r: seq<Place>)
    ensures |r| == |s|
  {
    SortBy(s, ScoreFirst)
  }

  // ---------------------------------------------------------------------
  // Stage 0: selected categories only, distinct ids
  // ---------------------------------------------------------------------

  function Filtered(candidates: seq<Place>, cats: CategorySet): (f: seq<Place>)
    ensures UniqueIds(f)
    ensures forall p :: p in f ==> p in candidates && p.category in cats
  {
    DistinctById(Filter(candidates, (p: Place) => p.category in cats))
  }

  // ---------------------------------------------------------------------
  // Stage 1: group by category, each group by descending score
  // ---------------------------------------------------------------------

  /** The places of category `c`, in order. */
  function InCat(s: seq<Place>, c: Category): seq<Place> {
    if s == [] then [] else (if s[0].category == c then [s[0]] else []) + InCat(s[1..], c)
  }

  /** The categories of `s` in order of first appearance: the key order of
      the `LinkedHashMap` that `groupBy` builds. */
  function CategoryOrder(s: seq<Place>): (ks: seq<Category>)
    ensures NoDup(ks)
    ensures forall p :: p in s ==> p.category in ks
    ensures forall c :: c in ks ==> exists p :: p in s && p.category == c
  {
    if s == [] then []
    else
      var init := s[..|s| - 1];
      var last := s[|s| - 1];
      var ks := CategoryOrder(init);
      assert s == init + [last];
      assert forall p :: p in init ==> p in s;
      if last.category in ks then ks else ks + [last.category]
  }

  type Groups = map<Category, seq<Place>>

  /** `grouped[c].orEmpty()`. */
  function Queue(g: Groups, c: Category): seq<Place> {
    if c in g then g[c] else []
  }

  function Grouped(f: seq<Place>): (g: Groups)
    ensures forall c :: c in g <==> c in CategoryOrder(f)
  {
    map c | c in CategoryOrder(f) :: ByScore(InCat(f, c))
  }

  /** `q` holds places of category `c` only. */
  predicate OfCategory(q: seq<Place>, c: Category) {
    forall p :: p in q ==> p.category == c
  }

  /** Every queue holds places of its own category only. */
  predicate WellGrouped(g: Groups) {
    forall c :: c in g ==> OfCategory(g[c], c)
  }

  // ---------------------------------------------------------------------
  // Stage 2: pin the top picks of each selected category
  // ---------------------------------------------------------------------

  /** `minOf(k, q.size)` items, and none when that is not positive. */
  function TakeCount(q: seq<Place>, k: int): (n: nat)
    ensures n <= |q| && n <= Max(k, 0)
  {
    Max(0, Min(k, |q|))
  }

  /** The top picks: the first `perCatTop` items of each category's queue,
      category by category in selection order. */
  function Pins(g: Groups, cs: seq<Category>, n: int): seq<Place> {
    if cs == [] then []
    else
      var q := Queue(g, cs[|cs| - 1]);
      Pins(g, cs[..|cs| - 1], n) + q[..TakeCount(q, n)]
  }

  /** The queues once the categories of `cs` have had their picks removed. */
  function AfterPins(g: Groups, cs: seq<Category>, n: int): (r: Groups)
    ensures r.Keys == g.Keys
  {
    map c | c in g :: if c in cs then g[c][TakeCount(g[c], n)..] else g[c]
  }

  // ---------------------------------------------------------------------
  // Stage 3: round robin up to the per-category minimum
  // ---------------------------------------------------------------------

  /** Sweep `r` of the round robin: item `r` of each category (in selection
      order) whose quota exceeds `r`. */
  function Row(g: Groups, cs: seq<Category>, m: int, r: nat): seq<Place> {
    if cs == [] then []
    else
      var q := Queue(g, cs[|cs| - 1]);
      Row(g, cs[..|cs| - 1], m, r) + (if r < TakeCount(q, m) then [q[r]] else [])
  }

  /** The first `k` sweeps. */
  function Sweeps(g: Groups, cs: seq<Category>, m: int, k: nat): seq<Place> {
    if k == 0 then [] else Sweeps(g, cs, m, k - 1) + Row(g, cs, m, k - 1)
  }

  /** The number of sweeps: the largest quota. */
  function MaxQuota(g: Groups, cs: seq<Category>, m: int): (k: nat)
    ensures forall c :: c in cs ==> TakeCount(Queue(g, c), m) <= k
    ensures cs != [] ==> exists c :: c in cs && TakeCount(Queue(g, c), m) == k
  {
    if cs == [] then 0
    else
      var init := cs[..|cs| - 1];
      var last := cs[|cs| - 1];
      assert cs == init + [last];
      Max(MaxQuota(g, init, m), TakeCount(Queue(g, last), m))
  }

  /** The queues after `k` sweeps. */
  function AfterSweeps(g: Groups, m: int, k: nat): (r: Groups)
    ensures r.Keys == g.Keys
  {
    map c | c in g :: g[c][Min(k, TakeCount(g[c], m))..]
  }

  // ---------------------------------------------------------------------
  // Stages 4 and 5: fill with anti-clustering, then top off
  // ---------------------------------------------------------------------

  /** The queues of `ks`, one after another. */
  function ConcatQueues(g: Groups, ks: seq<Category>): seq<Place> {
    if ks == [] then [] else ConcatQueues(g, ks[..|ks| - 1]) + Queue(g, ks[|ks| - 1])
  }

  /** `body.lastOrNull()?.category ?: topPicks.lastOrNull()?.category`. */
  function LastCategory(top: seq<Place>, body: seq<Place>): Option<Category> {
    if body != [] then Some(body[|body| - 1].category)
    else if top != [] then Some(top[|top| - 1].category)
    else None
  }

  /** How many more items `totalCap` allows once `placed` are placed. */
  function Room(cap: Option<int>, placed: nat): Option<int> {
    match cap
    case None => None
    case Some(t) => Some(t - placed)
  }

  predicate Exhausted(room: Option<int>) {
    room.Some? && room.value <= 0
  }

  function Less(room: Option<int>): Option<int> {
    match room
    case None => None
    case Some(k) => Some(k - 1)
  }

  /** The first fill pass: in score order, skip an item of the same category
      as the item placed just before it; stop when the cap is reached. */
  function Fill(rem: seq<Place>, last: Option<Category>, room: Option<int>): seq<Place>
  {
    if rem == [] || Exhausted(room) then []
    else if last == Some(rem[0].category) then
      Fill(rem[1..], last, room)
    else
      [rem[0]] + Fill(rem[1..], Some(rem[0].category), Less(room))
  }

  /** The top-off: in score order, every item whose id is not yet used, until
      the cap is reached. */
  function TopOff(rem: seq<Place>, used: set<string>, room: Option<int>): seq<Place>
  {
    if rem == [] || Exhausted(room) then []
    else if rem[0].id in used then
      TopOff(rem[1..], used, room)
    else
      [rem[0]] + TopOff(rem[1..], used + {rem[0].id}, Less(room))
  }

  /** Both fill passes after `pre` has been placed: the first pass continues
      from the category of the last placed item, the top-off skips every id
      placed so far, and both count against the cap. */
  function Passes(pre: seq<Place>, rem: seq<Place>, last: Option<Category>, cap: Option<int>)
    : (seq<Place>, seq<Place>)
  {
    var fill := Fill(rem, last, Room(cap, |pre|));
    (fill, TopOff(rem, IdSet(pre + fill), Room(cap, |pre + fill|)))
  }

  // ---------------------------------------------------------------------
  // The whole computation
  // ---------------------------------------------------------------------

  /** The stages that do not depend on `totalCap`. */
  datatype Stages = Stages(
    filtered: seq<Place>,   // stage 0
    keys: seq<Category>,    // key order of `grouped`
    g0: Groups,             // stage 1
    top: seq<Place>,        // stage 2
    g1: Groups,
    rr: seq<Place>,         // stage 3
    g2: Groups,
    rem: seq<Place>)        // `remaining`, input of stages 4 and 5

  function RunStages(candidates: seq<Place>, cats: CategorySet, minPerCat: int, perCatTop: int): Stages
  {
    var f := Filtered(candidates, cats);
    var keys := CategoryOrder(f);
    var g0 := Grouped(f);
    var top := Pins(g0, cats, perCatTop);
    var g1 := AfterPins(g0, cats, perCatTop);
    var sweeps := MaxQuota(g1, cats, minPerCat);
    var rr := Sweeps(g1, cats, minPerCat, sweeps);
    var g2 := AfterSweeps(g1, minPerCat, sweeps);
    var rem := ByScore(ConcatQueues(g2, keys));
    Stages(f, keys, g0, top, g1, rr, g2, rem)
  }

  /** Stages 4 and 5 of a run: the fill passes after the pins and the round
      robin. */
  function RunPasses(st: Stages, totalCap: Option<int>): (seq<Place>, seq<Place>) {
    Passes(st.top + st.rr, st.rem, LastCategory(st.top, st.rr), totalCap)
  }

  /** `rebalanceByCategory(...)`: the pair (top picks, full list). */
  function Rebalanced(candidates: seq<Place>, cats: CategorySet, minPerCat: int, perCatTop: int,
                      totalCap: Option<int>): (seq<Place>, seq<Place>)
  {
    var st := RunStages(candidates, cats, minPerCat, perCatTop);
    var (fill, topOff) := RunPasses(st, totalCap);
    (st.top, st.top + st.rr + fill + topOff)
  }
}
