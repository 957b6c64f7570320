# ScoreStream settlement dashboard — Dafny model

This project models the logic of the ScoreStream settlement dashboard, a Next.js
application. The dashboard searches amateur-sports games through a JSON-RPC proxy,
pages through the results and classifies each game's reported score by its
confidence grade into a settlement tier. It then shows per-tier statistics and a
sortable table.

The project has one module per source file:

- `Types` (`types.dfy`) holds the records and the settlement-tier ladder
  `getSettlementTier`, with its colour table `TIER_COLORS`.
- `ScoreStream` (`scorestream.dfy`) holds `toApiDateTime`, which widens a date to
  the start or end of its day. It also holds `buildTeamMap`, an imperative fold
  into a map that is proved against a reference function.
- `GamesTable` (`gamestable.dfy`) holds:
  - the `sortKey`/`sortDir` state as a class, whose `ToggleSort` method changes it;
  - the comparator keys, with their fallbacks for unscored games;
  - the sort of a copied array, as an in-place insertion sort proved to give a
    sorted permutation;
  - the `hasScore`/`isFinal`/status flags of a row.
- `ConfidenceStats` (`confidencestats.dfy`) holds:
  - the `scored`, `upcoming` and `verified` filters;
  - the four tier counts;
  - the readiness percentage;
  - the `maxCount` floor.
- `ConfidenceBar` (`confidencebar.dfy`) holds the bar's width, label and colour.
- `GamesRoute` (`gamesroute.dfy`) holds the server route `GET`:
  - without an API key it answers 500 and calls nothing upstream;
  - otherwise it sends exactly one JSON-RPC request, which is either
    `games.scores.search` or `games.search` with its defaults;
  - the upstream answer is relayed unchanged.
- `Page` (`page.dfy`) holds the page component's state as a class. Its
  `HandleSearch` method runs the do-while pagination loop, which requests pages of
  30. The method is proved against `Paginate`, a recursive reference semantics.
  `Paginate` in turn is proved to:
  - request offsets 0, 30, 60, …;
  - stop exactly where the source stops;
  - commit the concatenated pages and the last reported total;
  - discard everything when a fetch throws.

Functions stand in for the outside world:

- The responses of the successive `fetch` calls are a finite sequence of `Fetch`
  values. Each value either throws or yields a body whose `result` may be missing.
  A search that needs more responses than the sequence holds ends as if the next
  fetch threw.
- `JSON.parse`, `parseInt` and `JSON.stringify` are uninterpreted function
  parameters. So are the upstream service (a function from the POSTed envelope to
  the JSON it answers), date parsing (`dateMillis`) and `localeCompare` (`nameRank`,
  a ranking of names).

The table component reads `g.startDateTime` (src/components/GamesTable.tsx:31, 105).
The `Game` interface, however, declares `dateTime` (src/lib/types.ts:5). The model's
`Game` has the field the code reads, `startDateTime`.

## Model

| member | source | states |
|---|---|---|
| Types.GetSettlementTier | src/lib/types.ts:94-99 | the ladder itself: the sentinel test, then `>= 80`, then `>= 50`; its properties are the lemmas below |
| Types.GradeOf | src/components/GamesTable.tsx:93 | `lastScore?.confidenceGrade ?? null`: the grade of the last score, or none |
| Types.TierCharacterization | src/lib/types.ts:94-99 | each tier as an if-and-only-if condition on the grade: NoData exactly for null or 2; Verified exactly for grades ≥ 80; Provisional exactly for 50..79; Unverified for every other grade below 50 except 2 |
| Types.SentinelBeforeRanges | src/lib/types.ts:95 | null and the sentinel 2 are NoData, while the neighbouring grades 1 and 3 are Unverified |
| Types.TierBoundaries | src/lib/types.ts:96-98 | grades 80/79/50/49/0/-5 fall into Verified/Provisional/Provisional/Unverified/Unverified/Unverified |
| Types.TierMonotonic | src/lib/types.ts:96-98 | for non-sentinel grades g1 ≤ g2, neither is NoData and the tier of g1 ranks no higher than that of g2 (Unverified < Provisional < Verified) |
| Types.TierColor | src/lib/types.ts:101-106 | every tier has a colour of `#` followed by six upper-case hexadecimal digits |
| Types.TierColorsDistinct | src/lib/types.ts:101-106 | two tiers share a colour exactly when they are the same tier |
| ScoreStream.ToApiDateTime | src/lib/scorestream.ts:56-58 | the result is the date followed by " 00:00:00", or by " 23:59:59" when `end` is set; it is exactly 9 characters longer than the date |
| ScoreStream.ToApiDateTimeInjective | src/lib/scorestream.ts:56-58 | the date and the flag can be recovered from the result: equal results come from equal inputs |
| ScoreStream.TeamMap | src/lib/scorestream.ts:62-66 | the reference fold: teams inserted left to right, a later team replacing an earlier one with the same id |
| ScoreStream.BuildTeamMap | src/lib/scorestream.ts:62-66 | the loop of `map.set` calls builds the left-to-right fold `TeamMap`, and its key set is the set of team ids of the input |
| ScoreStream.TeamMapKeys | src/lib/scorestream.ts:62-66 | the keys of the fold are exactly the team ids occurring in the list |
| ScoreStream.TeamMapConsistent | src/lib/scorestream.ts:64 | every stored team sits under its own `teamId` |
| ScoreStream.TeamMapLastWins | src/lib/scorestream.ts:64 | the team stored under an id is the last team in the list with that id |
| ScoreStream.TeamMapSize | src/lib/scorestream.ts:62-66 | the map has at most as many entries as the list has teams, exactly as many if and only if the ids are distinct; an empty list gives an empty map |
| GamesTable.Toggled | src/components/GamesTable.tsx:21-24 | the new key is the clicked column; the same column flips the direction, another column starts descending |
| GamesTable.ToggleTwice | src/components/GamesTable.tsx:22-23 | clicking the current column twice restores the state; clicking a new column twice leaves it ascending on that column |
| GamesTable.SortControl.constructor | src/components/GamesTable.tsx:18-19 | the table starts sorted by date, descending |
| GamesTable.SortControl.ToggleSort | src/components/GamesTable.tsx:21-24 | the new (key, direction) pair is `Toggled` of the old pair |
| GamesTable.SortValue | src/components/GamesTable.tsx:30-55 | the value each column compares on: the ranked date or team name, or the score sum, margin, grade or segment with their fallbacks (stated in UnscoredKeys) |
| GamesTable.Compare | src/components/GamesTable.tsx:28-55 | the comparator: `dir` times the difference of the two column values (stated in CompareIsKeyDifference) |
| GamesTable.UnscoredKeys | src/components/GamesTable.tsx:34-53 | a game without a score sorts as -1 on score, margin and confidence and as 0 on period |
| GamesTable.CompareIsKeyDifference | src/components/GamesTable.tsx:28-55 | the comparator is `dir` times the key difference, i.e. the difference of direction-adjusted keys |
| GamesTable.SortInPlace | src/components/GamesTable.tsx:27-29 | sorting the copied array in place leaves a permutation of its contents, ordered by the key |
| GamesTable.SortedGames | src/components/GamesTable.tsx:26-58 | `sorted` is a permutation of `games`; the comparator is ≤ 0 for every earlier/later pair; ascending gives non-decreasing and descending gives non-increasing column values |
| GamesTable.UnscoredMarginLowest | src/components/GamesTable.tsx:39-42 | an unscored game's margin key (-1) is below every scored game's margin key (≥ 0) |
| GamesTable.UnscoredFirstUnderAscendingMargin | src/components/GamesTable.tsx:39-42 | in an ascending margin order no scored game precedes an unscored one |
| GamesTable.ConfidenceOrderExample | src/components/GamesTable.tsx:44-48 | an unscored game and games graded 60 and 90 have exactly one ascending confidence order (unscored, 60, 90) and its reverse as the descending one |
| GamesTable.HasScore | src/components/GamesTable.tsx:96 | `hasScore`: a last score with a grade above 2 |
| GamesTable.IsFinal | src/components/GamesTable.tsx:95 | `isFinal`: the last score's segment is 19999 |
| GamesTable.Status | src/components/GamesTable.tsx:121-125 | the status cell, Final before In Progress before Scheduled (stated in StatusCases) |
| GamesTable.StatusCases | src/components/GamesTable.tsx:95-96 | Final exactly when the segment is 19999; In Progress exactly for a grade > 2 that is not final; Scheduled otherwise (Final wins over In Progress) |
| GamesTable.HasScoreHasTier | src/components/GamesTable.tsx:93-96 | a game whose score is shown never has the NoData tier, and a NoData game is never In Progress |
| GamesTable.FinalWithoutScore | src/components/GamesTable.tsx:95-96 | a final game still graded 2 shows Final with no score |
| GamesTable.HasScoreMatchesScored | src/components/GamesTable.tsx:96 | the table's `hasScore` and the statistics' `scored` filter select the same games |
| ConfidenceStats.Filter | src/components/ConfidenceStats.tsx:9-11 | a filtered list is no longer than its input and every element satisfies the condition |
| ConfidenceStats.Scored | src/components/ConfidenceStats.tsx:9 | `scored`: the games with a last score graded above 2, in order |
| ConfidenceStats.Upcoming | src/components/ConfidenceStats.tsx:10 | `upcoming`: the games without a last score or graded 2, in order |
| ConfidenceStats.VerifiedGames | src/components/ConfidenceStats.tsx:11 | `verified`: the scored games graded 80 or more |
| ConfidenceStats.TierCount | src/components/ConfidenceStats.tsx:14-19 | a bar's count: the games the classifier puts in that tier (stated in TierCountsMatchFilters and TierCountsSum) |
| ConfidenceStats.Readiness | src/components/ConfidenceStats.tsx:12 | `readiness`: verified over scored as a percentage, 0 with nothing scored (bounds in ReadinessBounds) |
| ConfidenceStats.FilterMembers | src/components/ConfidenceStats.tsx:9-11 | a game survives a filter exactly when it is in the input and satisfies the condition |
| ConfidenceStats.ScoredUpcomingDisjoint | src/components/ConfidenceStats.tsx:9-10 | scored and upcoming never overlap; together they number at most the games, and games graded 0 or 1 are in neither |
| ConfidenceStats.VerifiedWithinScored | src/components/ConfidenceStats.tsx:11 | every verified game is scored, so there are no more verified than scored games |
| ConfidenceStats.TierCountsMatchFilters | src/components/ConfidenceStats.tsx:10-11 | the Verified bar counts exactly the `verified` games and the NoData bar exactly the `upcoming` ones |
| ConfidenceStats.TierCountsSum | src/components/ConfidenceStats.tsx:14-19 | the four tier counts add up to the number of games |
| ConfidenceStats.ReadinessBounds | src/components/ConfidenceStats.tsx:12 | readiness lies in 0..100; it is 0 when nothing is scored and 100 when every scored game is verified |
| ConfidenceStats.RoundedPercentBounds | src/components/ConfidenceStats.tsx:12 | rounding 100·v/s half up stays in 0..100 for v ≤ s, and is exactly 100 for v = s |
| ConfidenceStats.MaxCount | src/components/ConfidenceStats.tsx:20 | `maxCount` is at least 1 and at least every tier count, and it equals one of the counts or 1 |
| ConfidenceBar.BarWidth | src/components/ConfidenceBar.tsx:6 | the fill width: 0 for a null grade or 2, else the grade (stated in BarAgreesWithTier) |
| ConfidenceBar.Label | src/components/ConfidenceBar.tsx:16 | the text in the bar: the placeholder for a null grade or 2, else the grade |
| ConfidenceBar.BarColor | src/components/ConfidenceBar.tsx:4-5 | the fill colour: `TIER_COLORS` of the grade's tier (stated in BarColorIdentifiesTier) |
| ConfidenceBar.BarAgreesWithTier | src/components/ConfidenceBar.tsx:4-6 | the label is the placeholder exactly for a null grade or 2, which is exactly the NoData tier; then the width is 0, otherwise width and label are the grade itself |
| ConfidenceBar.BarColorIdentifiesTier | src/components/ConfidenceBar.tsx:4-5 | two bars share a colour exactly when their grades share a tier |
| ConfidenceBar.WidthUnclamped | src/components/ConfidenceBar.tsx:6 | width 0 does not imply NoData (grade 0 is an empty Unverified bar with label 0), and widths are not clamped (150, -5) |
| GamesRoute.Envelope | src/app/api/games/route.ts:9 | the body POSTed upstream has exactly the fields jsonrpc "2.0", the method, the params and id 1 |
| GamesRoute.EnvelopeInjective | src/app/api/games/route.ts:9 | the envelope determines the request: equal envelopes come from equal requests |
| GamesRoute.QueryOr | src/app/api/games/route.ts:38-44 | `get(key)` or the fallback: a present, non-empty parameter is used as is, an absent or empty one gives the fallback |
| GamesRoute.ScoresParams | src/app/api/games/route.ts:24-31 | the scores-search params hold exactly the key, the ids, both supplement flags set to true, count and offset |
| GamesRoute.GamesParams | src/app/api/games/route.ts:35-46 | the games-search params hold exactly the key, organisation 1000, the state, both date bounds, sports, squads, count, offset and order "DESC", and so no `gameIds` |
| GamesRoute.Route | src/app/api/games/route.ts:14-46 | the decision `GET` makes: no request without a key, else one request to one of the two searches (stated in the lemmas below) |
| GamesRoute.Get | src/app/api/games/route.ts:14-48 | `GET`: a 500 reply without a key; otherwise one envelope POSTed upstream, whose answer is relayed or whose rejection rejects `GET` |
| GamesRoute.MissingKeyNoCall | src/app/api/games/route.ts:15-18 | a missing or empty API key answers 500 with the configuration error and sends nothing upstream |
| GamesRoute.ConfiguredSingleCall | src/app/api/games/route.ts:5-47 | with a key, exactly one body is sent: `Envelope` of the request `Route` chose, so it carries that method and params, jsonrpc "2.0", id 1 and the key; its answer is relayed with status 200, and if the upstream call rejects, `GET` rejects |
| GamesRoute.GameIdsSelectScoresSearch | src/app/api/games/route.ts:21-31 | a non-empty `gameIds` selects `games.scores.search` with the parsed ids and both supplements |
| GamesRoute.NoGameIdsSelectGamesSearch | src/app/api/games/route.ts:21-23 | an absent or empty `gameIds` selects `games.search` with organisation 1000, order "DESC" and no ids |
| GamesRoute.DefaultsWhenAbsent | src/app/api/games/route.ts:29-30 | with every parameter absent or empty: count parse("30") and offset parse("0") in both branches; in the games search, state "OH", empty date bounds, sports `["basketball"]` and squads `[1010]` |
| Page.Paginate | src/app/page.tsx:24-57 | the reference semantics of the do-while loop from one request onward: requested offsets and the outcome (stated in PaginateOffsets, PaginateStops, PaginateAccumulates) |
| Page.Search | src/app/page.tsx:24-57 | a whole search: the loop from offset 0 with nothing accumulated and total 0 (stated in SearchShape) |
| Page.ProgressMessage | src/app/page.tsx:32 | the progress text `Fetching games a–b…` for the request at an offset |
| Page.PaginateOffsets | src/app/page.tsx:26-53 | at least one request is made (do-while), at most one per response plus one, and request k asks for offset 30·k past the start |
| Page.PaginateStops | src/app/page.tsx:31-53 | the loop continues past a response exactly when it has a result and offset + 30 < its total; the last request is the one that stops it; the search is discarded exactly when that request threw |
| Page.PaginateAccumulates | src/app/page.tsx:47-51 | a committed run holds the accumulators extended by the in-order games and teams of the result pages it requested, and the total of the last such page |
| Page.SearchShape | src/app/page.tsx:19-57 | a search requests offsets 0, 30, 60, …; a committed search holds the concatenated games and teams of the requested pages with results and the last reported total (0 if none) |
| Page.MissingResultStops | src/app/page.tsx:47 | a first page without `result` ends the search at once, committing nothing with total 0 |
| Page.ConstantTotalSearch | src/app/page.tsx:31-53 | when every page reports the same total T, exactly max(1, ⌈T/30⌉) requests are made and T is committed |
| Page.SixtyFiveGames | src/app/page.tsx:31-53 | total 65 in pages of 30, 30 and 5 requests offsets 0, 30, 60 and commits the 65 games in order |
| Page.Decimal | src/app/page.tsx:40-41 | `String(n)` of a natural number is a non-empty string of decimal digits that denotes n, with no leading zero |
| Page.PageQuery | src/app/page.tsx:34-42 | the page's query holds exactly state, the widened date bounds, the stringified one-element sport and squad lists, count "30" and the decimal offset, and so no `gameIds` |
| Page.PageQueryRoutesToGamesSearch | src/app/page.tsx:34-44 | the page's requests always reach `games.search`, with its own date bounds (never defaulted), its state, sport and squad lists (defaulted only when empty), count parse("30") and the offset |
| Page.Home.constructor | src/app/page.tsx:12-16 | the page starts with no games, an empty team map, total 0, not loading and no progress text |
| Page.Home.HandleSearch | src/app/page.tsx:19-64 | the requested offsets are those of `Search`; on success games, team map (`buildTeamMap` of the teams) and total are committed; after a throw games is `[]`, total 0 and the team map unchanged; loading is false and progress is "" on every path |

## Left out

- The JSX rendering, CSS and layout of every component are not part of this model. This covers all of `SettlementBadge.tsx` and `SearchForm.tsx`, and the `US_STATES`/`SPORTS`/`SQUADS` tables (src/lib/scorestream.ts:1-40).
- `GameDetailModal.tsx` is not part of this model. It is a fetch in an effect plus a table, and its user-map fold repeats `buildTeamMap`.
- Network I/O is not modelled. `fetch`/`res.json()` become a finite sequence of responses for the page, and the upstream service becomes a function parameter for the route.
- Page.Home.HandleSearch: the real loop has no bound. In the model, a search that outruns the given responses ends like a thrown fetch, so a non-terminating search is not represented.
- Page.Home.HandleSearch: the intermediate `progress` messages `Fetching games a–b…` are set on every pass (`ProgressMessage`). The contract states only the final empty value.
- `getCurrentWeekRange`, `new Date(...).getTime()` and `toLocaleDateString` depend on the clock and the `Date` library. The date sort key is an uninterpreted ranking `dateMillis` of the date string.
- `localeCompare` for the home/away keys is an uninterpreted ranking `nameRank` of names, so locale collation and ties are not modelled.
- ConfidenceStats.Readiness: `Math.round` of a floating-point ratio is modelled as exact rational rounding, with halves rounded up. Floating-point error is not captured, and neither are the bar-height pixels (src/components/ConfidenceStats.tsx:35).
- GamesTable.SortedGames: `Array.prototype.sort` is modelled by an insertion sort. Only a sorted permutation is promised, so the engine's algorithm and the order among equal keys are left open.
- The semantics of `JSON.parse`, `parseInt` and `JSON.stringify` are left uninterpreted. This includes NaN, malformed input and the exceptions they throw.
- GamesRoute.Get: a `JSON.parse` of a malformed `gameIds`, `sportNames` or `squadIds` throws in the source and makes `GET` reject. The model's `parseJson` is total, so that rejection is not represented; only a rejected upstream call is.
- The encoding of the query string by `URLSearchParams` and its decoding in the route are not modelled. Page.PageQueryRoutesToGamesSearch assumes the route receives the map the page built.
- Races between overlapping searches are out of scope, as is React's scheduling of state updates. The model runs each handler to completion.
- The statistics component hard-codes its bar colours (src/components/ConfidenceStats.tsx:15-18) rather than reading `TIER_COLORS`. The values are the same, and they are not modelled separately.
