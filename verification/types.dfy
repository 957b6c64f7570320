/** Records of the dashboard and the settlement-tier ladder (src/lib/types.ts). */
module Types {

  datatype Option<T> = None | Some(value: T)

  /** The latest score snapshot of a game; absent until someone reports a score. */
  datatype LastScore = LastScore(
    homeTeamScore: int,
    awayTeamScore: int,
    confidenceGrade: int,
    gameSegmentId: int)

  datatype Game = Game(
    gameId: int,
    homeTeamId: int,
    awayTeamId: int,
    startDateTime: string,
    lastScore: Option<LastScore>,
    totalPosts: int,
    totalPictures: int,
    totalVideos: int,
    url: string)

  datatype Team = Team(
    teamId: int,
    teamName: string,
    mascot: string,
    imageUrl: string,
    city: string,
    state: string)

  /** The criteria the search form hands to the page. */
  datatype SearchParams = SearchParams(
    state: string,
    afterDateTime: string,
    beforeDateTime: string,
    sportName: string,
    squadId: int)

  datatype SettlementTier = Verified | Provisional | Unverified | NoData

  /** The grade value the sentinel check looks for: "no real score yet". */
  const SentinelGrade := 2

  /** `g.lastScore?.confidenceGrade ?? null` */
  function GradeOf(g: Game): Option<int> {
    if g.lastScore.Some? then Some(g.lastScore.value.confidenceGrade) else None
  }

  /** The threshold ladder; the sentinel is tested before the ranges. */
  function GetSettlementTier(grade: Option<int>): SettlementTier {
    if grade.None? || grade.value == SentinelGrade then NoData
    else if grade.value >= 80 then Verified
    else if grade.value >= 50 then Provisional
    else Unverified
  }

  /** Each tier stated as its own condition on the grade, both directions. */
  lemma TierCharacterization(grade: Option<int>)
    ensures GetSettlementTier(grade) == NoData <==> grade == None || grade == Some(2)
    ensures GetSettlementTier(grade) == Verified <==> grade.Some? && grade.value >= 80
    ensures GetSettlementTier(grade) == Provisional <==> grade.Some? && 50 <= grade.value < 80
    ensures GetSettlementTier(grade) == Unverified <==>
              grade.Some? && grade.value < 50 && grade.value != 2
  {
  }

  /** The sentinel 2 is NoData although its neighbours 1 and 3 are Unverified. */
  lemma SentinelBeforeRanges()
    ensures GetSettlementTier(Some(2)) == NoData
    ensures GetSettlementTier(Some(1)) == Unverified
    ensures GetSettlementTier(Some(3)) == Unverified
    ensures GetSettlementTier(None) == NoData
  {
  }

  /** The grades on either side of each threshold, plus zero and a negative grade. */
  lemma TierBoundaries()
    ensures GetSettlementTier(Some(80)) == Verified
    ensures GetSettlementTier(Some(79)) == Provisional
    ensures GetSettlementTier(Some(50)) == Provisional
    ensures GetSettlementTier(Some(49)) == Unverified
    ensures GetSettlementTier(Some(0)) == Unverified
    ensures GetSettlementTier(Some(-5)) == Unverified
  {
  }

  /** Position in the order Unverified < Provisional < Verified (NoData sits apart, below). */
  function TierRank(t: SettlementTier): nat {
    match t
    case NoData => 0
    case Unverified => 1
    case Provisional => 2
    case Verified => 3
  }

  /** A higher grade never gives a lower tier, once the sentinel is set aside. */
  lemma TierMonotonic(g1: int, g2: int)
    requires g1 <= g2 && g1 != SentinelGrade && g2 != SentinelGrade
    ensures GetSettlementTier(Some(g1)) != NoData && GetSettlementTier(Some(g2)) != NoData
    ensures TierRank(GetSettlementTier(Some(g1))) <= TierRank(GetSettlementTier(Some(g2)))
  {
  }

  /** `TIER_COLORS`: a hex colour per tier. */
  function TierColor(t: SettlementTier): (c: string)
    ensures |c| == 7 && c[0] == '#'
    ensures forall i :: 1 <= i < 7 ==> c[i] in "0123456789ABCDEF"
  {
    match t
    case Verified => "#10B981"
    case Provisional => "#F59E0B"
    case Unverified => "#EF4444"
    case NoData => "#6B7280"
  }

  /** Distinct tiers are drawn in distinct colours. */
  lemma TierColorsDistinct(t1: SettlementTier, t2: SettlementTier)
    ensures TierColor(t1) == TierColor(t2) <==> t1 == t2
  {
    if t1 != t2 {
      var c1, c2 := TierColor(t1), TierColor(t2);
      assert c1[1..3] != c2[1..3] || c1[3..] != c2[3..];
    }
  }
}
