/** Sort state, comparator keys and row flags of the games table (src/components/GamesTable.tsx). */
module GamesTable {
  import opened Types
  import opened ConfidenceStats

  datatype SortKey = Date | Home | Away | Score | Margin | Confidence | Period
  datatype SortDir = Asc | Desc
  datatype SortState = SortState(key: SortKey, dir: SortDir)

  /** The table opens sorted by date, newest first. */
  const InitialSortState := SortState(Date, Desc)

  /** `toggleSort` on state values: same column flips the direction, another column starts descending. */
  function Toggled(s: SortState, key: SortKey): (r: SortState)
    ensures r.key == key
    ensures s.key == key ==> r.dir != s.dir
    ensures s.key != key ==> r.dir == Desc
  {
    if s.key == key then SortState(key, if s.dir == Asc then Desc else Asc)
    else SortState(key, Desc)
  }

  /** Clicking the current column twice restores the state; clicking a new column twice leaves it ascending. */
  lemma ToggleTwice(s: SortState, key: SortKey)
    ensures s.key == key ==> Toggled(Toggled(s, key), key) == s
    ensures s.key != key ==> Toggled(Toggled(s, key), key) == SortState(key, Asc)
  {
  }

  /** The two pieces of component state behind the column headers. */
  class SortControl {
    var sortKey: SortKey
    var sortDir: SortDir

    constructor ()
      ensures SortState(sortKey, sortDir) == InitialSortState
    {
      sortKey := Date;
      sortDir := Desc;
    }

    method ToggleSort(key: SortKey)
      modifies this
      ensures SortState(sortKey, sortDir) == Toggled(old(SortState(sortKey, sortDir)), key)
    {
      if sortKey == key {
        sortDir := if sortDir == Asc then Desc else Asc;
      } else {
        sortKey := key;
        sortDir := Desc;
      }
    }
  }

  /**
   * What the comparator reads besides the games: the team lookup table, and two
   * orders the model does not interpret, given as rankings into the integers:
   * the timestamp of a start date string and the locale order of team names.
   */
  datatype SortEnv = SortEnv(
    teamMap: map<int, Team>,
    dateMillis: string -> int,
    nameRank: string -> int)

  /** `teamMap.get(id)?.teamName || ""` */
  function TeamName(teamMap: map<int, Team>, id: int): string {
    if id in teamMap then teamMap[id].teamName else ""
  }

  function Abs(x: int): nat {
    if x < 0 then -x else x
  }

  /** The value a column compares on; games without a score fall back to -1 (period: 0). */
  function SortValue(g: Game, key: SortKey, env: SortEnv): int {
    match key
    case Date => env.dateMillis(g.startDateTime)
    case Home => env.nameRank(TeamName(env.teamMap, g.homeTeamId))
    case Away => env.nameRank(TeamName(env.teamMap, g.awayTeamId))
    case Score =>
      if g.lastScore.Some? then g.lastScore.value.homeTeamScore + g.lastScore.value.awayTeamScore else -1
    case Margin =>
      if g.lastScore.Some? then Abs(g.lastScore.value.homeTeamScore - g.lastScore.value.awayTeamScore) else -1
    case Confidence =>
      if g.lastScore.Some? then g.lastScore.value.confidenceGrade else -1
    case Period =>
      if g.lastScore.Some? then g.lastScore.value.gameSegmentId else 0
  }

  /** `dir`: 1 ascending, -1 descending. */
  function DirSign(dir: SortDir): int {
    if dir == Asc then 1 else -1
  }

  /** The comparator handed to `arr.sort`: negative puts `a` first. */
  function Compare(a: Game, b: Game, s: SortState, env: SortEnv): int {
    DirSign(s.dir) * (SortValue(a, s.key, env) - SortValue(b, s.key, env))
  }

  /** The value the comparator effectively orders by, ascending. */
  function OrderKey(g: Game, s: SortState, env: SortEnv): int {
    if s.dir == Asc then SortValue(g, s.key, env) else -SortValue(g, s.key, env)
  }

  /** The comparator is the difference of the order keys, so it orders as they do. */
  lemma CompareIsKeyDifference(a: Game, b: Game, s: SortState, env: SortEnv)
    ensures Compare(a, b, s, env) == OrderKey(a, s, env) - OrderKey(b, s, env)
  {
  }

  /** No later element has a smaller key than an earlier one. */
  predicate SortedByKey(xs: seq<Game>, key: Game -> int) {
    forall i, j :: 0 <= i < j < |xs| ==> key(xs[i]) <= key(xs[j])
  }

  /** No later element compares strictly before an earlier one. */
  predicate SortedBy(xs: seq<Game>, s: SortState, env: SortEnv) {
    forall i, j :: 0 <= i < j < |xs| ==> OrderKey(xs[i], s, env) <= OrderKey(xs[j], s, env)
  }

  /** Exchanges `a[k]` and `a[k + 1]`. */
  method SwapAdjacent(a: array<Game>, k: nat)
    requires k + 1 < a.Length
    modifies a
    ensures a[..] == old(a[..])[k := old(a[k + 1])][k + 1 := old(a[k])]
    ensures multiset(a[..]) == old(multiset(a[..]))
  {
    a[k], a[k + 1] := a[k + 1], a[k];
  }

  /** Moves `a[i]` left past every larger key, extending the sorted prefix by one. */
  method InsertLeft(a: array<Game>, i: nat, key: Game -> int)
    requires i < a.Length
    requires SortedByKey(a[..i], key)
    modifies a
    ensures multiset(a[..]) == old(multiset(a[..]))
    ensures SortedByKey(a[..i + 1], key)
  {
    var j := i;
    while j > 0 && key(a[j - 1]) > key(a[j])
      invariant j <= i
      invariant multiset(a[..]) == old(multiset(a[..]))
      invariant forall p, q :: 0 <= p < q <= i && q != j ==> key(a[p]) <= key(a[q])
      invariant 0 < j < i ==> key(a[j - 1]) <= key(a[j + 1])
    {
      SwapAdjacent(a, j - 1);
      j := j - 1;
    }
  }

  /** Insertion sort of the copied array, in place. */
  method SortInPlace(a: array<Game>, key: Game -> int)
    modifies a
    ensures multiset(a[..]) == old(multiset(a[..]))
    ensures SortedByKey(a[..], key)
  {
    var i := 0;
    while i < a.Length
      invariant 0 <= i <= a.Length
      invariant multiset(a[..]) == old(multiset(a[..]))
      invariant SortedByKey(a[..i], key)
    {
      InsertLeft(a, i, key);
      i := i + 1;
    }
    assert a[..a.Length] == a[..];
  }

  /** `sorted`: the games copied into a fresh array and sorted there; the input is left as it was. */
  method SortedGames(games: seq<Game>, s: SortState, env: SortEnv) returns (sorted: seq<Game>)
    ensures multiset(sorted) == multiset(games)
    ensures forall i, j :: 0 <= i < j < |sorted| ==> Compare(sorted[i], sorted[j], s, env) <= 0
    ensures s.dir == Asc ==>
              forall i, j :: 0 <= i < j < |sorted| ==> SortValue(sorted[i], s.key, env) <= SortValue(sorted[j], s.key, env)
    ensures s.dir == Desc ==>
              forall i, j :: 0 <= i < j < |sorted| ==> SortValue(sorted[i], s.key, env) >= SortValue(sorted[j], s.key, env)
  {
    var arr := new Game[|games|](k requires 0 <= k < |games| => games[k]);
    assert arr[..] == games;
    SortInPlace(arr, g => OrderKey(g, s, env));
    sorted := arr[..];
    assert SortedBy(sorted, s, env);
  }

  /** An unscored game sorts as -1 on score, margin and confidence and as 0 on period. */
  lemma UnscoredKeys(g: Game, env: SortEnv)
    requires g.lastScore.None?
    ensures SortValue(g, Score, env) == -1 && SortValue(g, Margin, env) == -1
    ensures SortValue(g, Confidence, env) == -1 && SortValue(g, Period, env) == 0
  {
  }

  /** A margin is never negative, so unscored games (-1) come strictly before scored ones. */
  lemma UnscoredMarginLowest(u: Game, g: Game, env: SortEnv)
    requires u.lastScore.None? && g.lastScore.Some?
    ensures SortValue(u, Margin, env) == -1 < 0 <= SortValue(g, Margin, env)
  {
  }

  /** In an ascending margin sort no scored game precedes an unscored one. */
  lemma UnscoredFirstUnderAscendingMargin(xs: seq<Game>, env: SortEnv)
    requires SortedBy(xs, SortState(Margin, Asc), env)
    ensures forall i, j :: 0 <= i < j < |xs| && xs[j].lastScore.None? ==> xs[i].lastScore.None?
  {
    forall i, j | 0 <= i < j < |xs| && xs[j].lastScore.None?
      ensures xs[i].lastScore.None?
    {
      assert OrderKey(xs[i], SortState(Margin, Asc), env) <= OrderKey(xs[j], SortState(Margin, Asc), env);
    }
  }

  /** `hasScore`: a score is shown once the grade is past the sentinel. */
  predicate HasScore(g: Game) {
    g.lastScore.Some? && g.lastScore.value.confidenceGrade > 2
  }

  /** `isFinal`: the last reported segment is the end-of-game segment. */
  predicate IsFinal(g: Game) {
    g.lastScore.Some? && g.lastScore.value.gameSegmentId == 19999
  }

  datatype GameStatus = Final | InProgress | Scheduled

  /** The status cell: `Final` wins over `In Progress`. */
  function Status(g: Game): GameStatus {
    if IsFinal(g) then Final else if HasScore(g) then InProgress else Scheduled
  }

  /** Each status as a condition on the game, both directions. */
  lemma StatusCases(g: Game)
    ensures Status(g) == Final <==> g.lastScore.Some? && g.lastScore.value.gameSegmentId == 19999
    ensures Status(g) == InProgress <==>
              g.lastScore.Some? && g.lastScore.value.confidenceGrade > 2 && g.lastScore.value.gameSegmentId != 19999
    ensures Status(g) == Scheduled <==>
              g.lastScore.None? || (g.lastScore.value.confidenceGrade <= 2 && g.lastScore.value.gameSegmentId != 19999)
  {
  }

  /** A game with a shown score always has a tier other than NoData. */
  lemma HasScoreHasTier(g: Game)
    ensures HasScore(g) ==> GetSettlementTier(GradeOf(g)) != NoData
    ensures GetSettlementTier(GradeOf(g)) == NoData ==> Status(g) != InProgress
  {
  }

  /** A finished game whose grade is still the sentinel shows "Final" next to no score. */
  lemma FinalWithoutScore()
    ensures var g := Game(1, 10, 20, "", Some(LastScore(0, 0, 2, 19999)), 0, 0, 0, "");
            Status(g) == Final && !HasScore(g)
  {
  }

  /** The table's `hasScore` and the statistics' `scored` filter pick out the same games. */
  lemma HasScoreMatchesScored(games: seq<Game>)
    ensures forall g :: g in games ==> (HasScore(g) <==> g in Scored(games))
    ensures forall g :: g in games ==> (Status(g) == InProgress ==> g in Scored(games))
  {
    FilterMembers(games, IsScored);
  }

  /** Three games with strictly increasing keys have exactly one sorted arrangement. */
  lemma ThreeSorted(xs: seq<Game>, a: Game, b: Game, c: Game, key: Game -> int)
    requires key(a) < key(b) < key(c)
    requires |xs| == 3 && a in xs && b in xs && c in xs
    requires forall x :: x in xs ==> x == a || x == b || x == c
    requires SortedByKey(xs, key)
    ensures xs == [a, b, c]
  {
    var i :| 0 <= i < 3 && xs[i] == a;
    var k :| 0 <= k < 3 && xs[k] == c;
    assert key(xs[0]) <= key(xs[i]);
    assert key(xs[k]) <= key(xs[2]);
    assert xs[0] == a && xs[2] == c;
    var j :| 0 <= j < 3 && xs[j] == b;
    assert j == 1;
  }

  /** The only ascending confidence order of an unscored game and games graded 60 and 90 is that one; descending reverses it. */
  lemma ConfidenceOrderExample(xs: seq<Game>, a: Game, b: Game, c: Game, env: SortEnv)
    requires a.lastScore.None?
    requires b.lastScore.Some? && b.lastScore.value.confidenceGrade == 60
    requires c.lastScore.Some? && c.lastScore.value.confidenceGrade == 90
    requires multiset(xs) == multiset([a, b, c])
    ensures SortedBy(xs, SortState(Confidence, Asc), env) ==> xs == [a, b, c]
    ensures SortedBy(xs, SortState(Confidence, Desc), env) ==> xs == [c, b, a]
  {
    SameElementsAsThree(xs, a, b, c);
    var up, down := SortState(Confidence, Asc), SortState(Confidence, Desc);
    if SortedBy(xs, up, env) {
      var key := g => OrderKey(g, up, env);
      assert key(a) == -1 && key(b) == 60 && key(c) == 90;
      ThreeSorted(xs, a, b, c, key);
    }
    if SortedBy(xs, down, env) {
      var key := g => OrderKey(g, down, env);
      assert key(c) == -90 && key(b) == -60 && key(a) == 1;
      ThreeSorted(xs, c, b, a, key);
    }
  }

  lemma SameElementsAsThree(xs: seq<Game>, a: Game, b: Game, c: Game)
    requires multiset(xs) == multiset([a, b, c])
    ensures |xs| == 3 && a in xs && b in xs && c in xs
    ensures forall x :: x in xs ==> x == a || x == b || x == c
  {
    assert |xs| == |multiset(xs)| == 3;
    assert a in multiset(xs) && b in multiset(xs) && c in multiset(xs);
    forall x | x in xs ensures x == a || x == b || x == c {
      assert x in multiset(xs);
    }
  }
}
