// Skill tiers: percentile_cont cut points over the positive scores, width_bucket tiers,
// population percentiles, and the rank columns of the per-map fields.
module SkillTiers {
  import opened Wrappers

  // ---- Counting ----

  function CountAtMost(s: seq<real>, x: real): nat {
    if s == [] then 0 else (if s[0] <= x then 1 else 0) + CountAtMost(s[1..], x)
  }

  function CountBelow(s: seq<real>, x: real): nat {
    if s == [] then 0 else (if s[0] < x then 1 else 0) + CountBelow(s[1..], x)
  }

  function CountAbove(s: seq<real>, x: real): nat {
    if s == [] then 0 else (if s[0] > x then 1 else 0) + CountAbove(s[1..], x)
  }

  function CountEqual(s: seq<real>, x: real): nat {
    if s == [] then 0 else (if s[0] == x then 1 else 0) + CountEqual(s[1..], x)
  }

  lemma {:induction false} CountsSplit(s: seq<real>, x: real)
    ensures CountBelow(s, x) + CountEqual(s, x) + CountAbove(s, x) == |s|
    ensures CountAtMost(s, x) == CountBelow(s, x) + CountEqual(s, x)
  {
    if s != [] {
      CountsSplit(s[1..], x);
    }
  }

  // ---- WITHIN GROUP (ORDER BY skill_score) ----

  function Positive(scores: seq<real>): seq<real> {
    if scores == [] then []
    else if scores[0] > 0.0 then [scores[0]] + Positive(scores[1..]) else Positive(scores[1..])
  }

  function Insert(x: real, s: seq<real>): seq<real> {
    if s == [] || x <= s[0] then [x] + s else [s[0]] + Insert(x, s[1..])
  }

  function Sort(s: seq<real>): seq<real> {
    if s == [] then [] else Insert(s[0], Sort(s[1..]))
  }

  predicate Ascending(s: seq<real>) {
    forall i, j :: 0 <= i < j < |s| ==> s[i] <= s[j]
  }

  lemma {:induction false} InsertFacts(x: real, s: seq<real>, t: real)
    requires Ascending(s)
    ensures var out := Insert(x, s);
            && Ascending(out) && |out| == |s| + 1
            && (forall y :: y in out <==> y == x || y in s)
            && CountAtMost(out, t) == CountAtMost([x] + s, t) && CountBelow(out, t) == CountBelow([x] + s, t)
  {
    assert ([x] + s)[1..] == s;
    if s == [] || x <= s[0] {
    } else {
      InsertFacts(x, s[1..], t);
      var out := Insert(x, s);
      assert out[1..] == Insert(x, s[1..]);
      assert ([x] + s[1..])[1..] == s[1..];
      forall j | 0 < j < |out| ensures s[0] <= out[j] {
        assert out[j] in Insert(x, s[1..]);
      }
    }
  }

  lemma {:induction false} SortFacts(s: seq<real>, t: real)
    ensures Ascending(Sort(s)) && |Sort(s)| == |s|
    ensures forall y :: y in Sort(s) <==> y in s
    ensures CountAtMost(Sort(s), t) == CountAtMost(s, t) && CountBelow(Sort(s), t) == CountBelow(s, t)
  {
    if s != [] {
      SortFacts(s[1..], t);
      InsertFacts(s[0], Sort(s[1..]), t);
      assert ([s[0]] + Sort(s[1..]))[1..] == Sort(s[1..]);
    }
  }

  // In an ascending list position and count agree.
  lemma {:induction false} CountsByPosition(s: seq<real>, x: real, i: nat)
    requires Ascending(s) && i < |s|
    ensures s[i] <= x ==> CountAtMost(s, x) >= i + 1
    ensures x <= s[i] ==> CountBelow(s, x) <= i
  {
    if i > 0 {
      CountsByPosition(s[1..], x, i - 1);
      assert s[1..][i - 1] == s[i];
    } else if x <= s[0] {
      NoneBelow(s, x);
    }
  }

  lemma {:induction false} NoneBelow(s: seq<real>, x: real)
    requires forall i :: 0 <= i < |s| ==> x <= s[i]
    ensures CountBelow(s, x) == 0
  {
    if s != [] {
      NoneBelow(s[1..], x);
    }
  }

  // ---- percentile_cont ----

  const POPULATION_FLOOR: nat := 20

  function Ceil(x: real): int { -((-x).Floor) }

  function Lerp(a: real, b: real, f: real): real { a + f * (b - a) }

  lemma LerpMonotone(a: real, b: real, f: real, g: real)
    requires a <= b && 0.0 <= f <= g <= 1.0
    ensures a <= Lerp(a, b, f) <= Lerp(a, b, g) <= b
  {
    var gap := b - a;
    assert 0.0 <= f * gap <= g * gap <= gap by {
      assert (g - f) * gap >= 0.0;
      assert g * gap - f * gap == (g - f) * gap;
      assert (1.0 - g) * gap >= 0.0;
    }
  }

  // Row rn of an ascending list, interpolated between its neighbours (rows count from 0).
  function AtRow(sorted: seq<real>, rn: real): real
    requires 0.0 <= rn && Ceil(rn) < |sorted|
  {
    var lo, hi := rn.Floor, Ceil(rn);
    if lo == hi then sorted[lo] else Lerp(sorted[lo], sorted[hi], rn - lo as real)
  }

  function RowNumber(p: real, n: nat): real
    requires n > 0
  {
    p * (n - 1) as real
  }

  lemma NonNegative(x: real, y: real)
    requires x >= 0.0 && y >= 0.0
    ensures x * y >= 0.0
  {
  }

  lemma RowNumberInRange(p: real, q: real, n: nat)
    requires 0.0 <= p <= q <= 1.0 && n > 0
    ensures 0.0 <= RowNumber(p, n) <= RowNumber(q, n) && Ceil(RowNumber(q, n)) <= n - 1
  {
    var last := (n - 1) as real;
    NonNegative(p, last);
    NonNegative(q - p, last);
    NonNegative(1.0 - q, last);
    assert q * last - p * last == (q - p) * last && last - q * last == (1.0 - q) * last;
  }

  function PercentileCont(sorted: seq<real>, p: real): real
    requires |sorted| > 0 && 0.0 <= p <= 1.0
  {
    RowNumberInRange(p, p, |sorted|);
    AtRow(sorted, RowNumber(p, |sorted|))
  }

  // An interpolated row lies between its neighbours, and later rows are no smaller.
  lemma RowsAscend(sorted: seq<real>, r: real, q: real)
    requires Ascending(sorted) && 0.0 <= r <= q && Ceil(q) < |sorted|
    ensures Ceil(r) < |sorted| && sorted[r.Floor] <= AtRow(sorted, r) <= sorted[Ceil(r)]
    ensures AtRow(sorted, r) <= AtRow(sorted, q)
  {
    Between(sorted, r);
    Between(sorted, q);
    if r.Floor == q.Floor && r != r.Floor as real {
      var lo := r.Floor;
      LerpMonotone(sorted[lo], sorted[lo + 1], r - lo as real, q - lo as real);
    } else if r.Floor < q.Floor {
      assert Ceil(r) <= q.Floor;
    }
  }

  lemma Between(sorted: seq<real>, r: real)
    requires Ascending(sorted) && 0.0 <= r && Ceil(r) < |sorted|
    ensures sorted[r.Floor] <= AtRow(sorted, r) <= sorted[Ceil(r)]
  {
    if r.Floor != Ceil(r) {
      LerpMonotone(sorted[r.Floor], sorted[Ceil(r)], r - r.Floor as real, 1.0);
    }
  }

  // ---- compute_tier_boundaries ----

  predicate Percentiles(ps: seq<real>) {
    (forall i :: 0 <= i < |ps| ==> 0.0 <= ps[i] <= 1.0) && Ascending(ps)
  }

  function Boundaries(scores: seq<real>, ps: seq<real>): seq<real>
    requires forall i :: 0 <= i < |ps| ==> 0.0 <= ps[i] <= 1.0
  {
    var positive := Positive(scores);
    if |positive| >= POPULATION_FLOOR then
      SortFacts(positive, 0.0);
      seq(|ps|, i requires 0 <= i < |ps| => PercentileCont(Sort(positive), ps[i]))
    else []
  }

  // Ascending cut points; at most ceil(p(n-1)) players strictly below each, at least
  // floor(p(n-1)) + 1 at or below it.
  lemma TierPopulations(scores: seq<real>, ps: seq<real>, k: nat)
    requires Percentiles(ps) && |Positive(scores)| >= POPULATION_FLOOR && k < |ps|
    ensures var cuts, positive := Boundaries(scores, ps), Positive(scores);
            && |cuts| == |ps| && Ascending(cuts)
            && CountBelow(positive, cuts[k]) <= Ceil(RowNumber(ps[k], |positive|))
            && CountAtMost(positive, cuts[k]) >= RowNumber(ps[k], |positive|).Floor + 1
  {
    CutPopulation(Positive(scores), ps[k]);
    CutsAscend(scores, ps);
  }

  lemma CutPopulation(positive: seq<real>, p: real)
    requires |positive| > 0 && 0.0 <= p <= 1.0
    ensures |Sort(positive)| == |positive|
    ensures var cut := PercentileCont(Sort(positive), p);
            && CountBelow(positive, cut) <= Ceil(RowNumber(p, |positive|))
            && CountAtMost(positive, cut) >= RowNumber(p, |positive|).Floor + 1
  {
    var sorted, rn := Sort(positive), RowNumber(p, |positive|);
    SortFacts(positive, 0.0);
    RowNumberInRange(p, p, |positive|);
    var cut := PercentileCont(sorted, p);
    SortFacts(positive, cut);
    Between(sorted, rn);
    CountsByPosition(sorted, cut, rn.Floor);
    CountsByPosition(sorted, cut, Ceil(rn));
  }

  lemma CutsAscend(scores: seq<real>, ps: seq<real>)
    requires Percentiles(ps) && |Positive(scores)| >= POPULATION_FLOOR
    ensures Ascending(Boundaries(scores, ps))
  {
    var cuts, sorted := Boundaries(scores, ps), Sort(Positive(scores));
    SortFacts(Positive(scores), 0.0);
    forall i, j | 0 <= i < j < |cuts| ensures cuts[i] <= cuts[j] {
      RowNumberInRange(ps[i], ps[j], |sorted|);
      RowsAscend(sorted, RowNumber(ps[i], |sorted|), RowNumber(ps[j], |sorted|));
    }
  }

  // ---- Tiers and percentiles ----

  function WidthBucket(x: real, cuts: seq<real>): nat { CountAtMost(cuts, x) }

  function Tier(score: real, cuts: seq<real>): nat {
    if score <= 0.0 || |cuts| == 0 then 0 else WidthBucket(score, cuts) + 1
  }

  // count(positive scores <= score) / NULLIF(count(positive scores), 0), coalesced to 0
  function Percentile(score: real, scores: seq<real>): real {
    var positive := Positive(scores);
    if |positive| == 0 then 0.0 else CountAtMost(positive, score) as real / |positive| as real
  }

  lemma {:induction false} CountAtMostMonotone(s: seq<real>, x: real, y: real)
    requires x <= y
    ensures CountAtMost(s, x) <= CountAtMost(s, y) <= |s|
  {
    if s != [] {
      CountAtMostMonotone(s[1..], x, y);
    }
  }

  lemma {:induction false} CountAtMostStrict(s: seq<real>, x: real, y: real)
    requires x < y && y in s
    ensures CountAtMost(s, x) < CountAtMost(s, y)
  {
    if s[0] == y {
      CountAtMostMonotone(s[1..], x, y);
    } else {
      CountAtMostStrict(s[1..], x, y);
    }
  }

  lemma {:induction false} PositiveFacts(scores: seq<real>, x: real)
    ensures x in Positive(scores) <==> x in scores && x > 0.0
  {
    if scores != [] {
      PositiveFacts(scores[1..], x);
      assert x in scores <==> x == scores[0] || x in scores[1..];
    }
  }

  lemma TierIsMonotone(x: real, y: real, cuts: seq<real>)
    requires x <= y
    ensures Tier(x, cuts) <= Tier(y, cuts)
    ensures x > 0.0 && cuts != [] ==> 1 <= Tier(x, cuts) <= |cuts| + 1
  {
    CountAtMostMonotone(cuts, x, y);
  }

  lemma DivideMonotone(a: nat, b: nat, n: nat)
    requires a < b && n > 0
    ensures a as real / n as real < b as real / n as real
  {
    assert (b as real - a as real) / n as real > 0.0;
    assert b as real / n as real - a as real / n as real == (b as real - a as real) / n as real;
  }

  // A strictly higher positive tier means a strictly higher percentile, for players in the
  // snapshot the percentiles are taken over.
  lemma HigherTierHigherPercentile(scores: seq<real>, x: real, y: real, cuts: seq<real>)
    requires x in scores && y in scores && 0 < Tier(x, cuts) < Tier(y, cuts)
    ensures Percentile(x, scores) < Percentile(y, scores)
  {
    if y <= x {
      TierIsMonotone(y, x, cuts);
    }
    PositiveFacts(scores, y);
    CountAtMostStrict(Positive(scores), x, y);
    DivideMonotone(CountAtMost(Positive(scores), x), CountAtMost(Positive(scores), y), |Positive(scores)|);
  }

  lemma {:induction false} ReachedCuts(x: real, cuts: seq<real>, k: nat)
    requires Ascending(cuts) && CountAtMost(cuts, x) > k && k < |cuts|
    ensures cuts[k] <= x
  {
    if k > 0 {
      ReachedCuts(x, cuts[1..], k - 1);
    } else if x < cuts[0] {
      NoneAtMost(cuts, x);
    }
  }

  lemma {:induction false} NoneAtMost(s: seq<real>, x: real)
    requires forall i :: 0 <= i < |s| ==> x < s[i]
    ensures CountAtMost(s, x) == 0
  {
    if s != [] {
      NoneAtMost(s[1..], x);
    }
  }

  // Right after a rebuild, a player past cut point k (tier k + 2, cut points counted from 0)
  // stands at or above at least the share of the population that percentile promises.
  lemma TierGuaranteesPercentile(scores: seq<real>, ps: seq<real>, x: real, k: nat)
    requires Percentiles(ps) && k < |ps| && Tier(x, Boundaries(scores, ps)) >= k + 2
    ensures var n := |Positive(scores)|;
            n >= POPULATION_FLOOR
            && Percentile(x, scores) >= (RowNumber(ps[k], n).Floor + 1) as real / n as real
  {
    var cuts, positive := Boundaries(scores, ps), Positive(scores);
    TierPopulations(scores, ps, k);
    ReachedCuts(x, cuts, k);
    CountAtMostMonotone(positive, cuts[k], x);
    DivideAtLeast(RowNumber(ps[k], |positive|).Floor + 1, CountAtMost(positive, x), |positive|);
  }

  lemma DivideAtLeast(a: int, b: int, n: nat)
    requires a <= b && n > 0
    ensures a as real / n as real <= b as real / n as real
  {
    assert b as real / n as real - a as real / n as real == (b - a) as real / n as real;
  }

  // ---- The three reads ----

  datatype SkillRow = SkillRow(score: real, tier: nat, percentile: real)

  // The stored tables: the snapshot and the single tier_config row.
  datatype Store = Store(snapshot: map<nat, real>, order: seq<nat>, percentiles: seq<real>, boundaries: seq<real>)

  // order lists the snapshot's keys, each once: the physical rows the aggregates run over.
  ghost predicate ValidStore(s: Store) {
    (forall u :: u in s.snapshot <==> u in s.order)
    && (forall i, j :: 0 <= i < j < |s.order| ==> s.order[i] != s.order[j])
  }

  function Scores(s: Store): seq<real>
    requires forall u :: u in s.order ==> u in s.snapshot
  {
    seq(|s.order|, i requires 0 <= i < |s.order| => s.snapshot[s.order[i]])
  }

  // skill_repository: inner row, no COALESCE, None for players without a row.
  function FetchSnapshotWithTier(s: Store, u: nat): Option<SkillRow>
    requires forall u :: u in s.order ==> u in s.snapshot
  {
    if u !in s.snapshot then None
    else
      var score := s.snapshot[u];
      Some(SkillRow(score,
                    if score <= 0.0 || |s.boundaries| == 0 then 0 else WidthBucket(score, s.boundaries) + 1,
                    Percentile(score, Scores(s))))
  }

  // A comparison with a NULL score selects no rows.
  function PercentileOrZero(score: Option<real>, s: Store): real
    requires forall u :: u in s.order ==> u in s.snapshot
  {
    match score
    case None => 0.0
    case Some(x) => Percentile(x, Scores(s))
  }

  // community_repository and rank_card_repository: LEFT JOIN with COALESCE(score, 0).
  function LeftJoinRow(s: Store, u: nat): SkillRow
    requires forall u :: u in s.order ==> u in s.snapshot
  {
    var joined := if u in s.snapshot then Some(s.snapshot[u]) else None;
    var score := match joined case Some(x) => x case None => 0.0;
    SkillRow(score,
             if score <= 0.0 || |s.boundaries| == 0 then 0 else WidthBucket(score, s.boundaries) + 1,
             PercentileOrZero(joined, s))
  }

  // rank_card_repository.fetch_skill_summary: anchored on core.users, zeros for an unknown user.
  function FetchSkillSummary(s: Store, users: set<nat>, u: nat): SkillRow
    requires forall u :: u in s.order ==> u in s.snapshot
  {
    if u in users then LeftJoinRow(s, u) else SkillRow(0.0, 0, 0.0)
  }

  // Every snapshotted user reads the same tier and percentile everywhere, and the two outer
  // joins agree on zeros for everybody else.
  lemma ReadsAgree(s: Store, users: set<nat>, u: nat)
    requires ValidStore(s) && s.snapshot.Keys <= users
    ensures match FetchSnapshotWithTier(s, u)
            case Some(row) =>
              row == LeftJoinRow(s, u) == FetchSkillSummary(s, users, u)
              && row.tier == Tier(row.score, s.boundaries) && row.score in Scores(s)
            case None => LeftJoinRow(s, u) == FetchSkillSummary(s, users, u) == SkillRow(0.0, 0, 0.0)
  {
    if u in s.snapshot {
      var i :| 0 <= i < |s.order| && s.order[i] == u;
      assert Scores(s)[i] == s.snapshot[u];
    }
  }

  ghost predicate Rebuilt(s: Store) {
    ValidStore(s) && Percentiles(s.percentiles) && s.boundaries == Boundaries(Scores(s), s.percentiles)
  }

  // What two players read right after a rebuild: tiers follow scores, a higher ranked tier
  // means a higher percentile, and a tier guarantees its share of the population.
  lemma RebuiltReads(s: Store, u: nat, v: nat, k: nat)
    requires Rebuilt(s) && u in s.snapshot && v in s.snapshot
    ensures var a, b := FetchSnapshotWithTier(s, u).value, FetchSnapshotWithTier(s, v).value;
            && (a.score <= b.score ==> a.tier <= b.tier)
            && (a.score > 0.0 && s.boundaries != [] ==> 1 <= a.tier <= |s.percentiles| + 1)
            && (0 < a.tier < b.tier ==> a.percentile < b.percentile)
            && (k < |s.percentiles| && a.tier >= k + 2 ==>
                  var n := |Positive(Scores(s))|;
                  n > 0 && a.percentile >= (RowNumber(s.percentiles[k], n).Floor + 1) as real / n as real)
  {
    var a, b := FetchSnapshotWithTier(s, u).value, FetchSnapshotWithTier(s, v).value;
    ReadsAgree(s, s.snapshot.Keys, u);
    ReadsAgree(s, s.snapshot.Keys, v);
    if a.score <= b.score {
      TierIsMonotone(a.score, b.score, s.boundaries);
    }
    TierIsMonotone(a.score, a.score, s.boundaries);
    if 0 < a.tier < b.tier {
      HigherTierHigherPercentile(Scores(s), a.score, b.score, s.boundaries);
    }
    if k < |s.percentiles| && a.tier >= k + 2 {
      TierGuaranteesPercentile(Scores(s), s.percentiles, a.score, k);
    }
  }

  // ---- What the rows read say ----

  lemma {:induction false} ReachedIffCounted(cuts: seq<real>, x: real, k: nat)
    requires Ascending(cuts) && k < |cuts|
    ensures CountAtMost(cuts, x) >= k + 1 <==> cuts[k] <= x
  {
    CountsByPosition(cuts, x, k);
    if CountAtMost(cuts, x) > k {
      ReachedCuts(x, cuts, k);
    }
  }

  lemma {:induction false} AtMostAll(cuts: seq<real>, x: real)
    ensures CountAtMost(cuts, x) <= |cuts|
  {
    if cuts != [] {
      AtMostAll(cuts[1..], x);
    }
  }

  // The tier of a stored player, in all three reads: 0 without a positive score or without
  // boundaries; otherwise tier k + 2 is reached exactly by reaching boundary k.
  lemma TierReadIff(s: Store, users: set<nat>, u: nat)
    requires ValidStore(s) && Ascending(s.boundaries) && s.snapshot.Keys <= users && u in s.snapshot
    ensures FetchSnapshotWithTier(s, u).value.tier == LeftJoinRow(s, u).tier == FetchSkillSummary(s, users, u).tier
    ensures var tier, score := FetchSnapshotWithTier(s, u).value.tier, s.snapshot[u];
            && (score <= 0.0 || s.boundaries == [] ==> tier == 0)
            && (score > 0.0 && s.boundaries != [] ==>
                  && 1 <= tier <= |s.boundaries| + 1
                  && forall k: nat :: k < |s.boundaries| ==> (tier >= k + 2 <==> s.boundaries[k] <= score))
  {
    var x := s.snapshot[u];
    AtMostAll(s.boundaries, x);
    forall k: nat | k < |s.boundaries| ensures CountAtMost(s.boundaries, x) >= k + 1 <==> s.boundaries[k] <= x {
      ReachedIffCounted(s.boundaries, x, k);
    }
  }

  function ScoresOf(snapshot: map<nat, real>, order: seq<nat>): seq<real>
    requires forall u :: u in order ==> u in snapshot
  {
    seq(|order|, i requires 0 <= i < |order| => snapshot[order[i]])
  }

  function PlayersUpTo(snapshot: map<nat, real>, order: seq<nat>, x: real): set<nat>
    requires forall u :: u in order ==> u in snapshot
  {
    set u | u in order && 0.0 < snapshot[u] <= x
  }

  function PlayersRanked(snapshot: map<nat, real>, order: seq<nat>): set<nat>
    requires forall u :: u in order ==> u in snapshot
  {
    set u | u in order && 0.0 < snapshot[u]
  }

  lemma PositiveHead(scores: seq<real>, x: real)
    requires scores != []
    ensures |Positive(scores)| == |Positive(scores[1..])| + if scores[0] > 0.0 then 1 else 0
    ensures CountAtMost(Positive(scores), x) == CountAtMost(Positive(scores[1..]), x) + if 0.0 < scores[0] <= x then 1 else 0
  {
    if scores[0] > 0.0 {
      assert Positive(scores)[1..] == Positive(scores[1..]);
    }
  }

  lemma PlayersHead(snapshot: map<nat, real>, order: seq<nat>, x: real)
    requires order != [] && order[0] !in order[1..] && forall u :: u in order ==> u in snapshot
    ensures var u, rest := order[0], order[1..];
            && |PlayersRanked(snapshot, order)| == |PlayersRanked(snapshot, rest)| + (if 0.0 < snapshot[u] then 1 else 0)
            && |PlayersUpTo(snapshot, order, x)| == |PlayersUpTo(snapshot, rest, x)| + if 0.0 < snapshot[u] <= x then 1 else 0
  {
    var u, rest := order[0], order[1..];
    assert PlayersRanked(snapshot, order) == PlayersRanked(snapshot, rest) + if 0.0 < snapshot[u] then {u} else {};
    assert PlayersUpTo(snapshot, order, x)
           == PlayersUpTo(snapshot, rest, x) + if 0.0 < snapshot[u] <= x then {u} else {};
  }

  lemma {:induction false} PlayersCounted(snapshot: map<nat, real>, order: seq<nat>, x: real)
    requires forall u :: u in order ==> u in snapshot
    requires forall i, j :: 0 <= i < j < |order| ==> order[i] != order[j]
    ensures CountAtMost(Positive(ScoresOf(snapshot, order)), x) == |PlayersUpTo(snapshot, order, x)|
    ensures |Positive(ScoresOf(snapshot, order))| == |PlayersRanked(snapshot, order)|
    decreases |order|
  {
    if order != [] {
      PlayersCounted(snapshot, order[1..], x);
      assert ScoresOf(snapshot, order)[1..] == ScoresOf(snapshot, order[1..]);
      PositiveHead(ScoresOf(snapshot, order), x);
      PlayersHead(snapshot, order, x);
    }
  }

  // The percentile of a stored player: the players with a positive score at or below theirs, over
  // all players with a positive score, and 0 when there are none.
  lemma PercentileReadIs(s: Store, u: nat)
    requires ValidStore(s) && u in s.snapshot
    ensures var upTo := set v | v in s.snapshot && 0.0 < s.snapshot[v] <= s.snapshot[u];
            var ranked := set v | v in s.snapshot && 0.0 < s.snapshot[v];
            FetchSnapshotWithTier(s, u).value.percentile
            == if ranked == {} then 0.0 else |upTo| as real / |ranked| as real
  {
    var upTo := set v | v in s.snapshot && 0.0 < s.snapshot[v] <= s.snapshot[u];
    var ranked := set v | v in s.snapshot && 0.0 < s.snapshot[v];
    assert Scores(s) == ScoresOf(s.snapshot, s.order);
    PlayersCounted(s.snapshot, s.order, s.snapshot[u]);
    assert upTo == PlayersUpTo(s.snapshot, s.order, s.snapshot[u]) && ranked == PlayersRanked(s.snapshot, s.order);
  }

  // Boundaries exist from twenty ranked players on, one per configured percentile.
  lemma BoundariesExistIff(s: Store)
    requires Rebuilt(s)
    ensures |s.boundaries| == if |set v | v in s.snapshot && 0.0 < s.snapshot[v]| >= 20 then |s.percentiles| else 0
  {
    assert Scores(s) == ScoresOf(s.snapshot, s.order);
    PlayersCounted(s.snapshot, s.order, 0.0);
    assert (set v | v in s.snapshot && 0.0 < s.snapshot[v]) == PlayersRanked(s.snapshot, s.order);
  }

  // Between two rows of the sorted scores the cut point is their weighted mean.
  lemma CutInterpolates(sorted: seq<real>, p: real, i: nat)
    requires 0.0 <= p <= 1.0 && i < |sorted|
    requires i as real <= RowNumber(p, |sorted|) < (i + 1) as real
    ensures RowNumber(p, |sorted|) == i as real ==> PercentileCont(sorted, p) == sorted[i]
    ensures RowNumber(p, |sorted|) > i as real ==>
              i + 1 < |sorted|
              && PercentileCont(sorted, p)
                 == sorted[i] * ((i + 1) as real - RowNumber(p, |sorted|)) + sorted[i + 1] * (RowNumber(p, |sorted|) - i as real)
  {
    var rn := RowNumber(p, |sorted|);
    RowNumberInRange(p, p, |sorted|);
    assert rn.Floor == i;
    if rn > i as real {
      assert Ceil(rn) == i + 1;
      WeightedMean(sorted[i], sorted[i + 1], rn - i as real);
    }
  }

  lemma WeightedMean(a: real, b: real, f: real)
    ensures Lerp(a, b, f) == a * (1.0 - f) + b * f
  {
  }

  // ---- The writes ----

  class SkillRepository {
    var snapshot: map<nat, real>
    var order: seq<nat>
    var percentiles: seq<real>
    var boundaries: seq<real>

    function Contents(): Store
      reads this
    {
      Store(snapshot, order, percentiles, boundaries)
    }

    // TRUNCATE, then one INSERT per row; the primary key refuses a repeated user and the
    // transaction puts the old rows back.
    method ReplaceSnapshot(rows: seq<(nat, real)>) returns (ok: bool)
      modifies this`snapshot, this`order
      ensures ok <==> DistinctRows(rows)
      ensures ok ==> snapshot == Loaded(rows) && order == RowUsers(rows) && ValidStore(Contents())
      ensures ok ==> (forall i :: 0 <= i < |rows| ==> rows[i].0 in snapshot && snapshot[rows[i].0] == rows[i].1)
                     && forall u :: u in snapshot ==> exists i :: 0 <= i < |rows| && rows[i].0 == u
      ensures !ok ==> Contents() == old(Contents())
    {
      var oldSnapshot, oldOrder := snapshot, order;
      snapshot, order := map[], [];
      var i := 0;
      assert rows[..0] == [];
      while i < |rows|
        invariant 0 <= i <= |rows| && DistinctRows(rows[..i])
        invariant snapshot == Loaded(rows[..i]) && order == RowUsers(rows[..i])
      {
        LoadedKeys(rows[..i], rows[i].0);
        assert rows[..i + 1][..i] == rows[..i] && rows[..i + 1][i] == rows[i];
        if rows[i].0 in snapshot {
          snapshot, order := oldSnapshot, oldOrder;
          return false;
        }
        snapshot, order := snapshot[rows[i].0 := rows[i].1], order + [rows[i].0];
        i := i + 1;
      }
      assert rows[..i] == rows;
      LoadedIsValid(Contents(), rows);
      LoadedIs(rows);
      return true;
    }

    method ComputeTierBoundaries()
      requires ValidStore(Contents()) && Percentiles(percentiles)
      modifies this`boundaries
      ensures Rebuilt(Contents())
    {
      var positive, ps := Positive(Scores(Contents())), percentiles;
      if |positive| < POPULATION_FLOOR {
        boundaries := [];
        return;
      }
      var sorted := Sort(positive);
      SortFacts(positive, 0.0);
      var cuts := [];
      for k := 0 to |ps|
        invariant cuts == seq(k, i requires 0 <= i < k => PercentileCont(sorted, ps[i]))
      {
        cuts := cuts + [PercentileCont(sorted, ps[k])];
      }
      boundaries := cuts;
    }
  }

  ghost predicate DistinctRows(rows: seq<(nat, real)>) {
    forall i, j :: 0 <= i < j < |rows| ==> rows[i].0 != rows[j].0
  }

  function Loaded(rows: seq<(nat, real)>): map<nat, real> {
    if rows == [] then map[] else Loaded(rows[..|rows| - 1])[rows[|rows| - 1].0 := rows[|rows| - 1].1]
  }

  function RowUsers(rows: seq<(nat, real)>): seq<nat> {
    if rows == [] then [] else RowUsers(rows[..|rows| - 1]) + [rows[|rows| - 1].0]
  }

  lemma {:induction false} LoadedKeys(rows: seq<(nat, real)>, u: nat)
    ensures u in Loaded(rows) <==> exists i :: 0 <= i < |rows| && rows[i].0 == u
    ensures |RowUsers(rows)| == |rows| && forall i :: 0 <= i < |rows| ==> RowUsers(rows)[i] == rows[i].0
  {
    if rows != [] {
      var last := |rows| - 1;
      LoadedKeys(rows[..last], u);
      if i :| 0 <= i < |rows| && rows[i].0 == u {
        assert i == last || rows[..last][i].0 == u;
      }
    }
  }

  // The loaded snapshot: each row's user with that row's score, and nobody else.
  lemma {:induction false} LoadedIs(rows: seq<(nat, real)>)
    requires DistinctRows(rows)
    ensures forall i :: 0 <= i < |rows| ==> rows[i].0 in Loaded(rows) && Loaded(rows)[rows[i].0] == rows[i].1
    ensures forall u :: u in Loaded(rows) ==> exists i :: 0 <= i < |rows| && rows[i].0 == u
  {
    if rows != [] {
      var last := |rows| - 1;
      var before := rows[..last];
      LoadedIs(before);
      forall i | 0 <= i < last
        ensures rows[i].0 != rows[last].0 && rows[i].0 in Loaded(before) && Loaded(before)[rows[i].0] == rows[i].1
      {
        assert before[i] == rows[i];
      }
      forall u | u in Loaded(rows) ensures exists i :: 0 <= i < |rows| && rows[i].0 == u {
        LoadedKeys(rows, u);
      }
    }
  }

  lemma LoadedIsValid(s: Store, rows: seq<(nat, real)>)
    requires DistinctRows(rows) && s.snapshot == Loaded(rows) && s.order == RowUsers(rows)
    ensures ValidStore(s)
  {
    LoadedKeys(rows, 0);
    forall u ensures u in s.snapshot <==> u in s.order {
      LoadedKeys(rows, u);
    }
  }

  // ---- The per-map fields of SKILL_INPUT_QUERY ----

  // One row of the best CTE: a player's fastest eligible run on the map.
  datatype FieldRun = FieldRun(user: nat, time: real, partial: bool)

  function Times(field: seq<FieldRun>): seq<real> {
    seq(|field|, i requires 0 <= i < |field| => field[i].time)
  }

  function VideoTimes(field: seq<FieldRun>): seq<real> {
    if field == [] then []
    else if field[0].partial then VideoTimes(field[1..]) else [field[0].time] + VideoTimes(field[1..])
  }

  // rank() OVER (ORDER BY time ASC)
  function FieldRank(field: seq<FieldRun>, t: real): nat { 1 + CountBelow(Times(field), t) }

  function VideoRank(field: seq<FieldRun>, t: real): nat { 1 + CountBelow(VideoTimes(field), t) }

  // percent_rank() OVER (ORDER BY time DESC): (rank - 1) / (rows - 1)
  function TimePct(field: seq<FieldRun>, t: real): real
    requires |field| > 0
  {
    if |field| == 1 then 0.0 else CountAbove(Times(field), t) as real / (|field| - 1) as real
  }

  // Percentile, rank and ties of a run add up to the field.
  lemma FieldRanksBalance(field: seq<FieldRun>, t: real)
    requires |field| > 1
    ensures TimePct(field, t) * (|field| - 1) as real + FieldRank(field, t) as real
            + CountEqual(Times(field), t) as real == (|field| + 1) as real
  {
    CountsSplit(Times(field), t);
    DivideBack(CountAbove(Times(field), t) as real, (|field| - 1) as real);
  }

  lemma DivideBack(a: real, b: real)
    requires b != 0.0
    ensures a / b * b == a
  {
  }

  function Shift(a: set<nat>): set<nat> { set i | i in a :: i + 1 }

  lemma {:induction false} ShiftSize(a: set<nat>)
    ensures |Shift(a)| == |a|
  {
    if a != {} {
      var x :| x in a;
      ShiftSize(a - {x});
      forall j | j in Shift(a) ensures j in Shift(a - {x}) + {x + 1} {
        var i :| i in a && i + 1 == j;
        assert i == x || i in a - {x};
      }
      assert Shift(a) == Shift(a - {x}) + {x + 1};
    }
  }

  function Where(field: seq<FieldRun>, p: FieldRun -> bool): set<nat> {
    set i: nat | i < |field| && p(field[i])
  }

  lemma WhereHead(field: seq<FieldRun>, p: FieldRun -> bool)
    requires field != []
    ensures |Where(field, p)| == |Where(field[1..], p)| + if p(field[0]) then 1 else 0
  {
    var rest := Where(field[1..], p);
    ShiftSize(rest);
    var shifted := Shift(rest);
    forall i | i in Where(field, p) && i != 0 ensures i in shifted {
      assert field[1..][i - 1] == field[i] && i - 1 in rest;
    }
    assert Where(field, p) == shifted + if p(field[0]) then {0} else {};
  }

  // The three columns by counting runs: faster ones, faster ones with video, slower ones.
  lemma {:induction false} RanksCount(field: seq<FieldRun>, t: real)
    ensures FieldRank(field, t) == 1 + |Where(field, (r: FieldRun) => r.time < t)|
    ensures VideoRank(field, t) == 1 + |Where(field, (r: FieldRun) => !r.partial && r.time < t)|
    ensures CountAbove(Times(field), t) == |Where(field, (r: FieldRun) => r.time > t)|
  {
    if field != [] {
      RanksCount(field[1..], t);
      assert Times(field)[1..] == Times(field[1..]);
      WhereHead(field, (r: FieldRun) => r.time < t);
      WhereHead(field, (r: FieldRun) => !r.partial && r.time < t);
      WhereHead(field, (r: FieldRun) => r.time > t);
      if !field[0].partial {
        assert VideoTimes(field)[1..] == VideoTimes(field[1..]);
      }
    }
  }

  lemma TimePctCounts(field: seq<FieldRun>, t: real)
    requires field != []
    ensures if |field| == 1 then TimePct(field, t) == 0.0
            else TimePct(field, t) * (|field| - 1) as real == |Where(field, (r: FieldRun) => r.time > t)| as real
  {
    var slower := |Where(field, (r: FieldRun) => r.time > t)|;
    assert CountAbove(Times(field), t) == slower by {
      RanksCount(field, t);
    }
    if |field| > 1 {
      DivideBack(slower as real, (|field| - 1) as real);
    }
  }

  // The video-only rank never exceeds the field rank, and they are equal exactly when no
  // partial run is faster.
  lemma {:induction false} VideoRankWithinField(field: seq<FieldRun>, t: real)
    ensures VideoRank(field, t) <= FieldRank(field, t)
    ensures VideoRank(field, t) == FieldRank(field, t) <==>
            forall i :: 0 <= i < |field| && field[i].partial ==> field[i].time >= t
  {
    if field != [] {
      VideoRankWithinField(field[1..], t);
      assert Times(field)[1..] == Times(field[1..]);
      assert (forall i :: 0 <= i < |field| && field[i].partial ==> field[i].time >= t) <==>
             (field[0].partial ==> field[0].time >= t)
             && (forall i :: 0 <= i < |field[1..]| && field[1..][i].partial ==> field[1..][i].time >= t);
      if !field[0].partial {
        assert VideoTimes(field)[1..] == VideoTimes(field[1..]);
      }
    }
  }
}
