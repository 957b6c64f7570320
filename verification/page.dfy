/** The dashboard page: paginated search, accumulation and commit (src/app/page.tsx). */
module Page {
  import opened Types
  import opened ScoreStream
  import opened GamesRoute

  /** Games requested per page (`count`). */
  const PageSize: nat := 30

  /** The `result` of one upstream page. */
  datatype SearchResult = SearchResult(total: int, games: seq<Game>, teams: seq<Team>)

  /** What one `fetch` plus `res.json()` produced: it threw, or it gave a body whose `result` may be missing. */
  datatype Fetch = Threw | Body(result: Option<SearchResult>)

  /** How a search ends: discarded after an exception, or committed with what was accumulated. */
  datatype Outcome = Aborted | Committed(games: seq<Game>, teams: seq<Team>, total: int)

  /** The offsets requested, in order, and the outcome. */
  datatype Run = Run(offsets: seq<nat>, outcome: Outcome)

  /** Whether the loop stops after requesting `offset` and receiving `f`. */
  predicate Stops(f: Fetch, offset: nat) {
    f.Threw? || f.result.None? || offset + PageSize >= f.result.value.total
  }

  /**
   * The reference semantics of the do-while loop, from a request at `offset` onward,
   * given the responses still to come. A response missing from `fetches` counts as a
   * fetch that throws.
   */
  function Paginate(fetches: seq<Fetch>, offset: nat, totalCount: int,
                    games: seq<Game>, teams: seq<Team>): Run
    decreases |fetches|
  {
    if fetches == [] then Run([offset], Aborted)
    else match fetches[0]
      case Threw => Run([offset], Aborted)
      case Body(None) => Run([offset], Committed(games, teams, totalCount))
      case Body(Some(r)) =>
        if offset + PageSize < r.total then
          var rest := Paginate(fetches[1..], offset + PageSize, r.total, games + r.games, teams + r.teams);
          Run([offset] + rest.offsets, rest.outcome)
        else Run([offset], Committed(games + r.games, teams + r.teams, r.total))
  }

  /** A run preceded by requests already made. */
  function Prefixed(earlier: seq<nat>, run: Run): Run {
    Run(earlier + run.offsets, run.outcome)
  }

  lemma PrefixedAssoc(a: seq<nat>, b: seq<nat>, run: Run)
    ensures Prefixed(a, Prefixed(b, run)) == Prefixed(a + b, run)
  {
    assert a + (b + run.offsets) == (a + b) + run.offsets;
  }

  /** One step of the loop: the request at `offset`, then either the end or the rest of the run. */
  lemma PaginateUnfold(fetches: seq<Fetch>, offset: nat, totalCount: int, games: seq<Game>, teams: seq<Team>)
    ensures var run := Paginate(fetches, offset, totalCount, games, teams);
      if fetches == [] || fetches[0].Threw? then run == Prefixed([offset], Run([], Aborted))
      else if fetches[0].result.None? then run == Prefixed([offset], Run([], Committed(games, teams, totalCount)))
      else
        var r := fetches[0].result.value;
        if offset + PageSize < r.total then
          run == Prefixed([offset], Paginate(fetches[1..], offset + PageSize, r.total, games + r.games, teams + r.teams))
        else run == Prefixed([offset], Run([], Committed(games + r.games, teams + r.teams, r.total)))
  {
  }

  /** One step of the loop seen from request `i`: its response decides between the end and the rest of the run. */
  lemma PaginateAt(fetches: seq<Fetch>, i: nat, offset: nat, totalCount: int, games: seq<Game>, teams: seq<Team>)
    requires i <= |fetches|
    ensures var run := Paginate(fetches[i..], offset, totalCount, games, teams);
      if i == |fetches| || fetches[i].Threw? then run == Run([offset], Aborted)
      else if fetches[i].result.None? then run == Run([offset], Committed(games, teams, totalCount))
      else
        var r := fetches[i].result.value;
        if offset + PageSize < r.total then
          run == Prefixed([offset], Paginate(fetches[i + 1..], offset + PageSize, r.total, games + r.games, teams + r.teams))
        else run == Run([offset], Committed(games + r.games, teams + r.teams, r.total))
  {
    if i < |fetches| {
      assert fetches[i..][0] == fetches[i] && fetches[i..][1..] == fetches[i + 1..];
    }
  }

  /** A whole search: first request at offset 0, nothing accumulated, total 0. */
  function Search(fetches: seq<Fetch>): Run {
    Paginate(fetches, 0, 0, [], [])
  }

  /** The games of the pages that had a `result`, concatenated in order. */
  function ResultGames(fetches: seq<Fetch>): seq<Game> {
    if fetches == [] then []
    else (if fetches[0].Body? && fetches[0].result.Some? then fetches[0].result.value.games else [])
         + ResultGames(fetches[1..])
  }

  /** The teams of the pages that had a `result`, concatenated in order. */
  function ResultTeams(fetches: seq<Fetch>): seq<Team> {
    if fetches == [] then []
    else (if fetches[0].Body? && fetches[0].result.Some? then fetches[0].result.value.teams else [])
         + ResultTeams(fetches[1..])
  }

  /** The `total` of the last page with a `result`, or `init` if there is none. */
  function LastTotal(fetches: seq<Fetch>, init: int): int {
    if fetches == [] then init
    else LastTotal(fetches[1..],
                   if fetches[0].Body? && fetches[0].result.Some? then fetches[0].result.value.total else init)
  }

  /** `Fetching games ${offset + 1}–${offset + count}…` */
  function ProgressMessage(offset: nat): string {
    "Fetching games " + Decimal(offset + 1) + "–" + Decimal(offset + PageSize) + "…"
  }

  /** The number a string of decimal digits denotes, most significant digit first. */
  function DigitsValue(s: string): nat
    requires forall i :: 0 <= i < |s| ==> '0' <= s[i] <= '9'
  {
    if s == [] then 0 else 10 * DigitsValue(s[..|s| - 1]) + (s[|s| - 1] - '0') as nat
  }

  /** `String(n)` for a natural number: its decimal digits, without leading zeros. */
  function Decimal(n: nat): (s: string)
    ensures |s| >= 1
    ensures forall i :: 0 <= i < |s| ==> '0' <= s[i] <= '9'
    ensures DigitsValue(s) == n
    ensures |s| > 1 ==> s[0] != '0'
  {
    if n < 10 then [Digit(n)] else Decimal(n / 10) + [Digit(n % 10)]
  }

  function Digit(d: nat): (c: char)
    requires d < 10
    ensures '0' <= c <= '9' && (c - '0') as nat == d
  {
    "0123456789"[d]
  }

  /** Request k asks for offset `offset + 30 * k`; there is at least one request and at most one per response plus one. */
  lemma {:induction false} PaginateOffsets(fetches: seq<Fetch>, offset: nat, totalCount: int,
                                           games: seq<Game>, teams: seq<Team>)
    ensures var run := Paginate(fetches, offset, totalCount, games, teams);
            1 <= |run.offsets| <= |fetches| + 1
            && forall k :: 0 <= k < |run.offsets| ==> run.offsets[k] == offset + PageSize * k
  {
    PaginateUnfold(fetches, offset, totalCount, games, teams);
    if fetches != [] && fetches[0].Body? && fetches[0].result.Some? {
      var r := fetches[0].result.value;
      if offset + PageSize < r.total {
        PaginateOffsets(fetches[1..], offset + PageSize, r.total, games + r.games, teams + r.teams);
      }
    }
  }

  /**
   * The loop goes on past request k exactly when response k has a `result` and
   * offset + 30 < its total; the last request is the one that stops it, by throwing,
   * lacking a `result`, reaching the total, or running past the given responses.
   * The search is discarded exactly when the last request threw.
   */
  lemma {:induction false} PaginateStops(fetches: seq<Fetch>, offset: nat, totalCount: int,
                                         games: seq<Game>, teams: seq<Team>)
    ensures var run := Paginate(fetches, offset, totalCount, games, teams);
            var last := |run.offsets| - 1;
            && 0 <= last <= |fetches|
            && (forall k :: 0 <= k < last ==> !Stops(fetches[k], offset + PageSize * k))
            && (last == |fetches| || Stops(fetches[last], offset + PageSize * last))
            && (run.outcome.Aborted? <==> last == |fetches| || fetches[last].Threw?)
  {
    PaginateUnfold(fetches, offset, totalCount, games, teams);
    PaginateOffsets(fetches, offset, totalCount, games, teams);
    if fetches != [] && fetches[0].Body? && fetches[0].result.Some? {
      var r := fetches[0].result.value;
      if offset + PageSize < r.total {
        var rest := Paginate(fetches[1..], offset + PageSize, r.total, games + r.games, teams + r.teams);
        PaginateStops(fetches[1..], offset + PageSize, r.total, games + r.games, teams + r.teams);
        assert forall k :: 1 <= k <= |fetches[1..]| ==> fetches[k] == fetches[1..][k - 1];
      }
    }
  }

  lemma ResultSplit(fetches: seq<Fetch>, n: nat)
    requires 1 <= n <= |fetches|
    ensures fetches[..n][1..] == fetches[1..][..n - 1] && fetches[..n][0] == fetches[0]
  {
  }

  /** What a committed run holds: the accumulators extended by the result pages among the requests made, and the last total. */
  lemma {:induction false} PaginateAccumulates(fetches: seq<Fetch>, offset: nat, totalCount: int,
                                               games: seq<Game>, teams: seq<Team>)
    ensures var run := Paginate(fetches, offset, totalCount, games, teams);
            var n := |run.offsets|;
            run.outcome.Committed? ==>
              && n <= |fetches|
              && run.outcome.games == games + ResultGames(fetches[..n])
              && run.outcome.teams == teams + ResultTeams(fetches[..n])
              && run.outcome.total == LastTotal(fetches[..n], totalCount)
  {
    PaginateUnfold(fetches, offset, totalCount, games, teams);
    PaginateOffsets(fetches, offset, totalCount, games, teams);
    var run := Paginate(fetches, offset, totalCount, games, teams);
    var n := |run.offsets|;
    if run.outcome.Committed? {
      assert fetches != [] && fetches[0].Body?;
      var head := fetches[..1];
      if fetches[0].result.None? {
        assert n == 1 && head == [fetches[0]];
        assert ResultGames(head) == [] + ResultGames([]);
        assert ResultTeams(head) == [] + ResultTeams([]);
      } else {
        var r := fetches[0].result.value;
        if offset + PageSize < r.total {
          PaginateAccumulates(fetches[1..], offset + PageSize, r.total, games + r.games, teams + r.teams);
          ResultSplit(fetches, n);
          assert games + ResultGames(fetches[..n]) == games + (r.games + ResultGames(fetches[1..][..n - 1]));
          assert teams + ResultTeams(fetches[..n]) == teams + (r.teams + ResultTeams(fetches[1..][..n - 1]));
        } else {
          assert n == 1 && head == [fetches[0]];
          assert ResultGames(head) == r.games + ResultGames([]);
          assert ResultTeams(head) == r.teams + ResultTeams([]);
          assert LastTotal(head, totalCount) == LastTotal([], r.total);
        }
      }
    }
  }

  /** The whole search: first offset 0, then steps of 30; committed values are the concatenated result pages and the last reported total (0 if none). */
  lemma SearchShape(fetches: seq<Fetch>)
    ensures var run := Search(fetches);
            && 1 <= |run.offsets| <= |fetches| + 1
            && run.offsets[0] == 0
            && (forall k :: 0 <= k < |run.offsets| ==> run.offsets[k] == PageSize * k)
            && (run.outcome.Committed? ==>
                  && |run.offsets| <= |fetches|
                  && run.outcome.games == ResultGames(fetches[..|run.offsets|])
                  && run.outcome.teams == ResultTeams(fetches[..|run.offsets|])
                  && run.outcome.total == LastTotal(fetches[..|run.offsets|], 0))
  {
    PaginateOffsets(fetches, 0, 0, [], []);
    PaginateAccumulates(fetches, 0, 0, [], []);
  }

  /** A first page without `result` ends the search at once with nothing and total 0. */
  lemma MissingResultStops(fetches: seq<Fetch>)
    requires fetches != [] && fetches[0] == Body(None)
    ensures Search(fetches) == Run([0], Committed([], [], 0))
  {
  }

  /** How many requests a constant total needs from `offset` on. */
  function RequestsFrom(offset: nat, total: int): nat
    decreases total - offset
  {
    if offset + PageSize < total then 1 + RequestsFrom(offset + PageSize, total) else 1
  }

  /** max(1, ceil(total / 30)). */
  function RequestsFor(total: int): nat {
    if total > PageSize then (total + PageSize - 1) / PageSize else 1
  }

  /** Every response has a result reporting `total`. */
  predicate ConstantTotal(fetches: seq<Fetch>, total: int) {
    forall k :: 0 <= k < |fetches| ==> fetches[k].Body? && fetches[k].result.Some? && fetches[k].result.value.total == total
  }

  lemma {:induction false} RequestsFromClosedForm(offset: nat, total: int)
    ensures RequestsFrom(offset, total) == if offset + PageSize < total then (total - offset + PageSize - 1) / PageSize else 1
    decreases total - offset
  {
    if offset + PageSize < total {
      RequestsFromClosedForm(offset + PageSize, total);
    }
  }

  lemma {:induction false} ConstantTotalRequests(fetches: seq<Fetch>, offset: nat, totalCount: int,
                                                 games: seq<Game>, teams: seq<Team>, total: int)
    requires ConstantTotal(fetches, total) && |fetches| >= RequestsFrom(offset, total)
    ensures var run := Paginate(fetches, offset, totalCount, games, teams);
            |run.offsets| == RequestsFrom(offset, total) && run.outcome.Committed? && run.outcome.total == total
    decreases total - offset
  {
    PaginateUnfold(fetches, offset, totalCount, games, teams);
    var r := fetches[0].result.value;
    if offset + PageSize < total {
      assert ConstantTotal(fetches[1..], total) by {
        assert forall k :: 0 <= k < |fetches[1..]| ==> fetches[1..][k] == fetches[k + 1];
      }
      ConstantTotalRequests(fetches[1..], offset + PageSize, r.total, games + r.games, teams + r.teams, total);
    }
  }

  /** With every page reporting the same total T and none missing, exactly max(1, ceil(T/30)) requests are made and T is committed. */
  lemma ConstantTotalSearch(fetches: seq<Fetch>, total: int)
    requires ConstantTotal(fetches, total) && |fetches| >= RequestsFor(total)
    ensures |Search(fetches).offsets| == RequestsFor(total)
    ensures Search(fetches).outcome.Committed? && Search(fetches).outcome.total == total
  {
    RequestsFromClosedForm(0, total);
    ConstantTotalRequests(fetches, 0, 0, [], [], total);
  }

  /** Total 65 in pages of 30, 30 and 5 games: offsets 0, 30, 60 and 65 games committed. */
  lemma SixtyFiveGames(p1: seq<Game>, p2: seq<Game>, p3: seq<Game>, teams: seq<Team>)
    requires |p1| == 30 && |p2| == 30 && |p3| == 5
    ensures var fetches := [Body(Some(SearchResult(65, p1, teams))), Body(Some(SearchResult(65, p2, teams))),
                            Body(Some(SearchResult(65, p3, teams)))];
            var run := Search(fetches);
            run.offsets == [0, 30, 60] && run.outcome.Committed? && |run.outcome.games| == 65
            && run.outcome.games == p1 + p2 + p3 && run.outcome.total == 65
  {
    var fetches := [Body(Some(SearchResult(65, p1, teams))), Body(Some(SearchResult(65, p2, teams))),
                    Body(Some(SearchResult(65, p3, teams)))];
    ConstantTotalSearch(fetches, 65);
    SearchShape(fetches);
    var run := Search(fetches);
    assert fetches[..3] == fetches;
    assert fetches[1..][1..][1..] == [];
    assert ResultGames(fetches[1..][1..]) == p3 + ResultGames(fetches[1..][1..][1..]);
    assert ResultGames(fetches[1..]) == p2 + ResultGames(fetches[1..][1..]);
    assert ResultGames(fetches) == p1 + ResultGames(fetches[1..]) == p1 + p2 + p3;
    assert run.offsets == [0, 30, 60];
  }

  /**
   * The query string of request `offset`: `params` plus the widened date bounds, the
   * page size and the offset; `stringifyNames`/`stringifyIds` stand for `JSON.stringify`.
   */
  function PageQuery(params: SearchParams, offset: nat,
                     stringifyNames: seq<string> -> string, stringifyIds: seq<int> -> string): (q: map<string, string>)
    ensures q.Keys == {"state", "afterDateTime", "beforeDateTime", "sportNames", "squadIds", "count", "offset"}
    ensures "gameIds" !in q
    ensures "state" in q && q["state"] == params.state
    ensures "afterDateTime" in q && q["afterDateTime"] == ToApiDateTime(params.afterDateTime)
    ensures "beforeDateTime" in q && q["beforeDateTime"] == ToApiDateTime(params.beforeDateTime, true)
    ensures "sportNames" in q && q["sportNames"] == stringifyNames([params.sportName])
    ensures "squadIds" in q && q["squadIds"] == stringifyIds([params.squadId])
    ensures "count" in q && q["count"] == Decimal(PageSize)
    ensures "offset" in q && q["offset"] == Decimal(offset)
  {
    map[
      "state" := params.state,
      "afterDateTime" := ToApiDateTime(params.afterDateTime),
      "beforeDateTime" := ToApiDateTime(params.beforeDateTime, true),
      "sportNames" := stringifyNames([params.sportName]),
      "squadIds" := stringifyIds([params.squadId]),
      "count" := Decimal(PageSize),
      "offset" := Decimal(offset)]
  }

  /**
   * The page's requests always reach the games search: they carry no `gameIds`, their
   * date bounds are never empty and so never defaulted, and count and offset go through
   * `parseInt` as the decimal strings of 30 and the offset.
   */
  lemma PageQueryRoutesToGamesSearch(apiKey: Option<string>, params: SearchParams, offset: nat,
                                     stringifyNames: seq<string> -> string, stringifyIds: seq<int> -> string,
                                     parseJson: string -> Json, parseInt: string -> Json)
    requires apiKey.Some? && apiKey.value != ""
    ensures var r := Route(apiKey, PageQuery(params, offset, stringifyNames, stringifyIds), parseJson, parseInt);
            && r.Some? && r.value.rpcMethod == GamesSearch
            && r.value.params["afterDateTime"] == JStr(ToApiDateTime(params.afterDateTime))
            && r.value.params["beforeDateTime"] == JStr(ToApiDateTime(params.beforeDateTime, true))
            && r.value.params["state"] == JStr(if params.state == "" then "OH" else params.state)
            && r.value.params["count"] == parseInt("30")
            && r.value.params["offset"] == parseInt(Decimal(offset))
    ensures var r := Route(apiKey, PageQuery(params, offset, stringifyNames, stringifyIds), parseJson, parseInt);
            var names, ids := stringifyNames([params.sportName]), stringifyIds([params.squadId]);
            && r.Some?
            && r.value.params["sportNames"] == parseJson(if names == "" then "[\"basketball\"]" else names)
            && r.value.params["squadIds"] == parseJson(if ids == "" then "[1010]" else ids)
  {
    DecimalPageSize();
  }

  lemma DecimalPageSize()
    ensures Decimal(PageSize) == "30"
  {
    assert Decimal(PageSize) == Decimal(3) + [Digit(0)];
  }

  /** The page component's state. */
  class Home {
    var games: seq<Game>
    var teamMap: map<int, Team>
    var total: int
    var loading: bool
    var progress: string

    constructor ()
      ensures games == [] && teamMap == map[] && total == 0
      ensures !loading && progress == ""
    {
      games, teamMap, total := [], map[], 0;
      loading, progress := false, "";
    }

    /**
     * `handleSearch`: requests pages until the reported total is reached or a page has no
     * `result`, then commits; an exception discards everything accumulated. `fetches[k]` is
     * what the k-th request produces. Returns the offsets requested.
     */
    method HandleSearch(fetches: seq<Fetch>) returns (offsets: seq<nat>)
      modifies this
      ensures offsets == Search(fetches).offsets
      ensures Search(fetches).outcome.Committed? ==>
                && games == Search(fetches).outcome.games
                && teamMap == TeamMap(Search(fetches).outcome.teams)
                && total == Search(fetches).outcome.total
      ensures Search(fetches).outcome.Aborted? ==>
                games == [] && total == 0 && teamMap == old(teamMap)
      ensures !loading && progress == ""
    {
      loading := true;
      games := [];
      total := 0;

      var allGames: seq<Game> := [];
      var allTeams: seq<Team> := [];
      var offset: nat := 0;
      var totalCount := 0;
      offsets := [];
      var i := 0;
      var more, failed := true, false;
      while more
        invariant i == |offsets| <= |fetches| + 1
        invariant more ==> i <= |fetches| && !failed
        invariant more ==> Search(fetches) == Prefixed(offsets, Paginate(fetches[i..], offset, totalCount, allGames, allTeams))
        invariant !more ==> Search(fetches) == Run(offsets, if failed then Aborted else Committed(allGames, allTeams, totalCount))
        invariant games == [] && total == 0 && teamMap == old(teamMap)
        decreases |fetches| + 1 - i
      {
        progress := ProgressMessage(offset);
        PaginateAt(fetches, i, offset, totalCount, allGames, allTeams);
        ghost var earlier := offsets;
        offsets := offsets + [offset];
        if i == |fetches| {
          failed, more := true, false;
        } else {
          match fetches[i]
          case Threw =>
            failed, more := true, false;
          case Body(None) =>
            more := false;
          case Body(Some(r)) =>
            if offset + PageSize < r.total {
              PrefixedAssoc(earlier, [offset],
                Paginate(fetches[i + 1..], offset + PageSize, r.total, allGames + r.games, allTeams + r.teams));
            }
            totalCount := r.total;
            allGames := allGames + r.games;
            allTeams := allTeams + r.teams;
            offset := offset + PageSize;
            more := offset < totalCount;
        }
        i := i + 1;
      }

      if !failed {
        games := allGames;
        teamMap := BuildTeamMap(allTeams);
        total := totalCount;
      }
      loading := false;
      progress := "";
    }
  }
}
