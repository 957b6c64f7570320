/** Aggregate statistics over the fetched games (src/components/ConfidenceStats.tsx). */
module ConfidenceStats {
  import opened Types

  /** `Array.prototype.filter`: the elements satisfying `p`, in their original order. */
  function Filter(s: seq<Game>, p: Game -> bool): (r: seq<Game>)
    ensures |r| <= |s|
    ensures forall i :: 0 <= i < |r| ==> p(r[i])
  {
    if s == [] then [] else (if p(s[0]) then [s[0]] else []) + Filter(s[1..], p)
  }

  /** An element survives the filter exactly when it occurs in the input and satisfies the condition. */
  lemma {:induction false} FilterMembers(s: seq<Game>, p: Game -> bool)
    ensures forall g :: g in Filter(s, p) <==> g in s && p(g)
  {
    if s != [] {
      FilterMembers(s[1..], p);
      assert s == [s[0]] + s[1..];
    }
  }

  /** A game whose grade is past the sentinel. */
  predicate IsScored(g: Game) {
    g.lastScore.Some? && g.lastScore.value.confidenceGrade > 2
  }

  /** A game with no score yet, or only the sentinel grade. */
  predicate IsUpcoming(g: Game) {
    g.lastScore.None? || g.lastScore.value.confidenceGrade == 2
  }

  predicate IsVerified(g: Game) {
    g.lastScore.Some? && g.lastScore.value.confidenceGrade >= 80
  }

  function Scored(games: seq<Game>): seq<Game> {
    Filter(games, IsScored)
  }

  function Upcoming(games: seq<Game>): seq<Game> {
    Filter(games, IsUpcoming)
  }

  /** `verified` filters the scored games, not all of them. */
  function VerifiedGames(games: seq<Game>): seq<Game> {
    Filter(Scored(games), IsVerified)
  }

  predicate InTier(t: SettlementTier, g: Game) {
    GetSettlementTier(GradeOf(g)) == t
  }

  /** The bar height of one tier: how many games classify into it. */
  function TierCount(games: seq<Game>, t: SettlementTier): nat {
    |Filter(games, g => InTier(t, g))|
  }

  /**
   * `Math.round(verified / scored * 100)`, with the ratio taken exactly and
   * halves rounded up; 0 when nothing is scored.
   */
  function Readiness(games: seq<Game>): int {
    var s, v := |Scored(games)|, |VerifiedGames(games)|;
    if s > 0 then (200 * v + s) / (2 * s) else 0
  }

  /** `Math.max(...counts, 1)` over the four tiers. */
  function MaxCount(games: seq<Game>): (m: nat)
    ensures m >= 1
    ensures TierCount(games, Verified) <= m && TierCount(games, Provisional) <= m
    ensures TierCount(games, Unverified) <= m && TierCount(games, NoData) <= m
    ensures m == 1 || m == TierCount(games, Verified) || m == TierCount(games, Provisional)
              || m == TierCount(games, Unverified) || m == TierCount(games, NoData)
  {
    var a, b, c, d := TierCount(games, Verified), TierCount(games, Provisional),
                      TierCount(games, Unverified), TierCount(games, NoData);
    var m := if a > b then a else b;
    var m := if m > c then m else c;
    var m := if m > d then m else d;
    if m > 1 then m else 1
  }

  /** Two conditions that agree on every element of `s` filter it the same result. */
  lemma {:induction false} FilterCongruent(s: seq<Game>, p: Game -> bool, q: Game -> bool)
    requires forall g :: g in s ==> p(g) == q(g)
    ensures Filter(s, p) == Filter(s, q)
  {
    if s != [] {
      FilterCongruent(s[1..], p, q);
    }
  }

  /** Filtering twice keeps what satisfies both conditions. */
  lemma {:induction false} FilterFilter(s: seq<Game>, p: Game -> bool, q: Game -> bool, pq: Game -> bool)
    requires forall g :: g in s ==> pq(g) == (p(g) && q(g))
    ensures Filter(Filter(s, p), q) == Filter(s, pq)
  {
    if s != [] {
      assert s[0] in s;
      assert forall g :: g in s[1..] ==> g in s;
      FilterFilter(s[1..], p, q, pq);
      var fp := Filter(s, p);
      if p(s[0]) {
        assert fp == [s[0]] + Filter(s[1..], p);
        assert fp != [] && fp[0] == s[0] && fp[1..] == Filter(s[1..], p);
        assert Filter(fp, q) == (if q(s[0]) then [s[0]] else []) + Filter(fp[1..], q);
        assert Filter(s, pq) == (if q(s[0]) then [s[0]] else []) + Filter(s[1..], pq);
      } else {
        assert fp == [] + Filter(s[1..], p) == Filter(s[1..], p);
        assert Filter(s, pq) == [] + Filter(s[1..], pq) == Filter(s[1..], pq);
      }
    }
  }

  /** Filters with conditions that never hold together count at most the whole list. */
  lemma {:induction false} FilterDisjointCount(s: seq<Game>, p: Game -> bool, q: Game -> bool)
    requires forall g :: g in s ==> !(p(g) && q(g))
    ensures |Filter(s, p)| + |Filter(s, q)| <= |s|
  {
    if s != [] {
      FilterDisjointCount(s[1..], p, q);
    }
  }

  /** Scored and upcoming games never overlap, and games graded 0 or 1 are in neither. */
  lemma ScoredUpcomingDisjoint(games: seq<Game>)
    ensures forall g :: g in Scored(games) ==> g !in Upcoming(games)
    ensures |Scored(games)| + |Upcoming(games)| <= |games|
    ensures forall g :: g in games && g.lastScore.Some? && g.lastScore.value.confidenceGrade <= 1 ==>
              g !in Scored(games) && g !in Upcoming(games)
  {
    FilterDisjointCount(games, IsScored, IsUpcoming);
    FilterMembers(games, IsScored);
    FilterMembers(games, IsUpcoming);
  }

  /** Verified games are scored games. */
  lemma VerifiedWithinScored(games: seq<Game>)
    ensures forall g :: g in VerifiedGames(games) ==> g in Scored(games)
    ensures |VerifiedGames(games)| <= |Scored(games)|
  {
    FilterMembers(Scored(games), IsVerified);
  }

  /** The Verified bar counts exactly the verified games; the NoData bar exactly the upcoming ones. */
  lemma TierCountsMatchFilters(games: seq<Game>)
    ensures TierCount(games, Verified) == |VerifiedGames(games)|
    ensures TierCount(games, NoData) == |Upcoming(games)|
  {
    FilterFilter(games, IsScored, IsVerified, g => InTier(Verified, g));
    FilterCongruent(games, g => InTier(NoData, g), IsUpcoming);
  }

  /** Sum of the four tier counts. */
  function TierTotal(games: seq<Game>): nat {
    TierCount(games, Verified) + TierCount(games, Provisional)
      + TierCount(games, Unverified) + TierCount(games, NoData)
  }

  /** Peeling the first game off changes one tier count by its own tier. */
  lemma TierCountCons(games: seq<Game>, t: SettlementTier)
    requires games != []
    ensures TierCount(games, t) == (if InTier(t, games[0]) then 1 else 0) + TierCount(games[1..], t)
  {
  }

  /** Every game lands in exactly one tier, so the four bars add up to the number of games. */
  lemma {:induction false} TierCountsSum(games: seq<Game>)
    ensures TierTotal(games) == |games|
  {
    if games != [] {
      TierCountsSum(games[1..]);
      TierCountCons(games, Verified);
      TierCountCons(games, Provisional);
      TierCountCons(games, Unverified);
      TierCountCons(games, NoData);
    }
  }

  /** The readiness percentage stays within 0..100, is 0 with nothing scored and 100 when all scored games are verified. */
  lemma ReadinessBounds(games: seq<Game>)
    ensures 0 <= Readiness(games) <= 100
    ensures |Scored(games)| == 0 ==> Readiness(games) == 0
    ensures |Scored(games)| > 0 && |VerifiedGames(games)| == |Scored(games)| ==> Readiness(games) == 100
  {
    var s, v := |Scored(games)|, |VerifiedGames(games)|;
    VerifiedWithinScored(games);
    if s > 0 {
      RoundedPercentBounds(v, s);
    }
  }

  /** Rounding 100 * v / s for 0 <= v <= s gives a value in 0..100, and exactly 100 when v == s. */
  lemma RoundedPercentBounds(v: nat, s: nat)
    requires 0 < s && v <= s
    ensures 0 <= (200 * v + s) / (2 * s) <= 100
    ensures v == s ==> (200 * v + s) / (2 * s) == 100
  {
    QuotientBelow(200 * v + s, 2 * s, 101);
    if v == s {
      QuotientExact(200 * v + s, 2 * s, 100);
    }
  }

  /** A quotient of a natural number below c * d is below c. */
  lemma QuotientBelow(n: nat, d: int, c: int)
    requires d > 0 && n < c * d
    ensures 0 <= n / d < c
  {
    MulMonotone(n / d, c, d);
  }

  /** The quotient is c exactly when n lies in [c * d, c * d + d). */
  lemma QuotientExact(n: int, d: int, c: int)
    requires d > 0 && c * d <= n < c * d + d
    ensures n / d == c
  {
    var q := n / d;
    assert q * d <= n < q * d + d;
    MulMonotone(q, c + 1, d);
    MulMonotone(c, q + 1, d);
    MulSucc(c, d);
    MulSucc(q, d);
  }

  lemma MulSucc(a: int, d: int)
    ensures (a + 1) * d == a * d + d
  {
  }

  lemma MulMonotone(a: int, b: int, d: nat)
    ensures a >= b ==> a * d >= b * d
  {
    if a >= b {
      var k: nat := a - b;
      assert a * d == b * d + k * d;
    }
  }
}
