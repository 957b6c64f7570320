/** The server-side proxy to the upstream JSON-RPC API (src/app/api/games/route.ts). */
module GamesRoute {
  import opened Types

  /** JSON values as the handler builds and forwards them. */
  datatype Json =
    | JNull
    | JBool(b: bool)
    | JNum(n: int)
    | JStr(s: string)
    | JArr(items: seq<Json>)
    | JObj(fields: map<string, Json>)

  /** One upstream call: the RPC method name and its params object. */
  datatype RpcRequest = RpcRequest(rpcMethod: string, params: map<string, Json>)

  /** An HTTP reply of the route: status and JSON body. */
  datatype Reply = Reply(status: int, body: Json)

  /**
   * The request bodies POSTed upstream and what `GET` settles with: a reply, or
   * `None` when the upstream call rejected and `GET` rejects with it.
   */
  datatype Exchange = Exchange(reply: Option<Reply>, sent: seq<Json>)

  const ScoresSearch := "games.scores.search"
  const GamesSearch := "games.search"
  const ConfigErrorBody := JObj(map["error" := JStr("API key not configured")])

  /** `{ jsonrpc: "2.0", method, params, id: 1 }`: the body `rpcCall` sends. */
  function Envelope(req: RpcRequest): (j: Json)
    ensures j.JObj? && j.fields.Keys == {"jsonrpc", "method", "params", "id"}
    ensures j.fields["method"] == JStr(req.rpcMethod) && j.fields["params"] == JObj(req.params)
    ensures j.fields["jsonrpc"] == JStr("2.0") && j.fields["id"] == JNum(1)
  {
    JObj(map["jsonrpc" := JStr("2.0"), "method" := JStr(req.rpcMethod), "params" := JObj(req.params), "id" := JNum(1)])
  }

  /** The envelope determines the request: it can be read back unchanged. */
  lemma EnvelopeInjective(r1: RpcRequest, r2: RpcRequest)
    ensures Envelope(r1) == Envelope(r2) <==> r1 == r2
  {
    if Envelope(r1) == Envelope(r2) {
      assert Envelope(r1).fields["method"] == Envelope(r2).fields["method"];
      assert Envelope(r1).fields["params"] == Envelope(r2).fields["params"];
    }
  }

  /** `searchParams.get(key) || fallback`: a missing or empty parameter takes the fallback. */
  function QueryOr(query: map<string, string>, key: string, fallback: string): (v: string)
    ensures key in query && query[key] != "" ==> v == query[key]
    ensures !(key in query && query[key] != "") ==> v == fallback
  {
    if key in query && query[key] != "" then query[key] else fallback
  }

  /** A JavaScript-truthy optional string: present and non-empty. */
  predicate Truthy(s: Option<string>) {
    s.Some? && s.value != ""
  }

  /** The params of `games.scores.search`: the key, the ids, both supplements, count and offset. */
  function ScoresParams(key: string, gameIds: Json, count: Json, offset: Json): (p: map<string, Json>)
    ensures p.Keys == {"apiKey", "gameIds", "includeGameScoreSupplements", "includeUserSupplements", "count", "offset"}
    ensures p["apiKey"] == JStr(key) && p["gameIds"] == gameIds
    ensures p["includeGameScoreSupplements"] == JBool(true) && p["includeUserSupplements"] == JBool(true)
    ensures p["count"] == count && p["offset"] == offset
  {
    map["apiKey" := JStr(key),
        "gameIds" := gameIds,
        "includeGameScoreSupplements" := JBool(true),
        "includeUserSupplements" := JBool(true),
        "count" := count,
        "offset" := offset]
  }

  /** The params of `games.search`: the key, organisation 1000, the filters, count, offset and descending order. */
  function GamesParams(key: string, state: string, after: string, before: string,
                       sportNames: Json, squadIds: Json, count: Json, offset: Json): (p: map<string, Json>)
    ensures p.Keys == {"apiKey", "organizationIds", "state", "afterDateTime", "beforeDateTime",
                       "sportNames", "squadIds", "count", "offset", "orderBy"}
    ensures "gameIds" !in p
    ensures "apiKey" in p && p["apiKey"] == JStr(key)
    ensures "organizationIds" in p && p["organizationIds"] == JArr([JNum(1000)])
    ensures "orderBy" in p && p["orderBy"] == JStr("DESC")
    ensures "state" in p && p["state"] == JStr(state)
    ensures "afterDateTime" in p && p["afterDateTime"] == JStr(after)
    ensures "beforeDateTime" in p && p["beforeDateTime"] == JStr(before)
    ensures "sportNames" in p && p["sportNames"] == sportNames
    ensures "squadIds" in p && p["squadIds"] == squadIds
    ensures "count" in p && p["count"] == count
    ensures "offset" in p && p["offset"] == offset
  {
    map["apiKey" := JStr(key),
        "organizationIds" := JArr([JNum(1000)]),
        "state" := JStr(state),
        "afterDateTime" := JStr(after),
        "beforeDateTime" := JStr(before),
        "sportNames" := sportNames,
        "squadIds" := squadIds,
        "count" := count,
        "offset" := offset,
        "orderBy" := JStr("DESC")]
  }

  /**
   * The decision `GET` makes: no call without a key, else exactly one request.
   * `parseJson` and `parseInt` stand for `JSON.parse` and `parseInt`, left uninterpreted.
   */
  function Route(apiKey: Option<string>, query: map<string, string>,
                 parseJson: string -> Json, parseInt: string -> Json): Option<RpcRequest>
  {
    if !Truthy(apiKey) then None
    else if "gameIds" in query && query["gameIds"] != "" then
      Some(RpcRequest(ScoresSearch,
        ScoresParams(apiKey.value, parseJson(query["gameIds"]),
                     parseInt(QueryOr(query, "count", "30")), parseInt(QueryOr(query, "offset", "0")))))
    else
      Some(RpcRequest(GamesSearch,
        GamesParams(apiKey.value, QueryOr(query, "state", "OH"),
                    QueryOr(query, "afterDateTime", ""), QueryOr(query, "beforeDateTime", ""),
                    parseJson(QueryOr(query, "sportNames", "[\"basketball\"]")),
                    parseJson(QueryOr(query, "squadIds", "[1010]")),
                    parseInt(QueryOr(query, "count", "30")), parseInt(QueryOr(query, "offset", "0")))))
  }

  /**
   * `GET`: the reply and the upstream traffic. `upstream` maps a POSTed body to the JSON
   * it answers with, or to `None` when `fetch` or `res.json()` rejects.
   */
  function Get(apiKey: Option<string>, query: map<string, string>,
               parseJson: string -> Json, parseInt: string -> Json,
               upstream: Json -> Option<Json>): Exchange
  {
    match Route(apiKey, query, parseJson, parseInt)
    case None => Exchange(Some(Reply(500, ConfigErrorBody)), [])
    case Some(req) =>
      var answer := upstream(Envelope(req));
      Exchange(if answer.Some? then Some(Reply(200, answer.value)) else None, [Envelope(req)])
  }

  /** A missing or empty key answers 500 with the configuration error and calls nothing upstream. */
  lemma MissingKeyNoCall(apiKey: Option<string>, query: map<string, string>,
                         parseJson: string -> Json, parseInt: string -> Json, upstream: Json -> Option<Json>)
    requires apiKey == None || apiKey == Some("")
    ensures Get(apiKey, query, parseJson, parseInt, upstream) == Exchange(Some(Reply(500, ConfigErrorBody)), [])
  {
  }

  /**
   * With a key there is exactly one upstream call, carrying the envelope of the routed
   * request; its answer is relayed unchanged with
   * status 200, and a rejected call makes `GET` reject.
   */
  lemma ConfiguredSingleCall(apiKey: Option<string>, query: map<string, string>,
                             parseJson: string -> Json, parseInt: string -> Json, upstream: Json -> Option<Json>)
    requires Truthy(apiKey)
    ensures var x := Get(apiKey, query, parseJson, parseInt, upstream);
            var r := Route(apiKey, query, parseJson, parseInt);
            r.Some? && x.sent == [Envelope(r.value)]
            && (upstream(x.sent[0]).Some? ==> x.reply == Some(Reply(200, upstream(x.sent[0]).value)))
            && (upstream(x.sent[0]).None? ==> x.reply == None)
    ensures var x := Get(apiKey, query, parseJson, parseInt, upstream);
            x.sent[0].JObj? && x.sent[0].fields["jsonrpc"] == JStr("2.0") && x.sent[0].fields["id"] == JNum(1)
    ensures var x := Get(apiKey, query, parseJson, parseInt, upstream);
            x.sent[0].fields["params"].JObj? && x.sent[0].fields["params"].fields["apiKey"] == JStr(apiKey.value)
  {
  }

  /** A non-empty `gameIds` selects the scores search with the parsed ids and both supplements. */
  lemma GameIdsSelectScoresSearch(apiKey: Option<string>, query: map<string, string>,
                                  parseJson: string -> Json, parseInt: string -> Json)
    requires Truthy(apiKey) && "gameIds" in query && query["gameIds"] != ""
    ensures var r := Route(apiKey, query, parseJson, parseInt);
            r.Some? && r.value.rpcMethod == ScoresSearch
            && r.value.params.Keys == {"apiKey", "gameIds", "includeGameScoreSupplements",
                                       "includeUserSupplements", "count", "offset"}
            && r.value.params["gameIds"] == parseJson(query["gameIds"])
            && r.value.params["includeGameScoreSupplements"] == JBool(true)
            && r.value.params["includeUserSupplements"] == JBool(true)
  {
  }

  /** An absent or empty `gameIds` selects the games search. */
  lemma NoGameIdsSelectGamesSearch(apiKey: Option<string>, query: map<string, string>,
                                   parseJson: string -> Json, parseInt: string -> Json)
    requires Truthy(apiKey) && !("gameIds" in query && query["gameIds"] != "")
    ensures var r := Route(apiKey, query, parseJson, parseInt);
            r.Some? && r.value.rpcMethod == GamesSearch
            && r.value.params["organizationIds"] == JArr([JNum(1000)])
            && r.value.params["orderBy"] == JStr("DESC")
            && "gameIds" !in r.value.params
  {
  }

  /** Query parameters that are absent or empty fall back to the fixed defaults in both branches. */
  lemma DefaultsWhenAbsent(apiKey: Option<string>, query: map<string, string>,
                           parseJson: string -> Json, parseInt: string -> Json)
    requires Truthy(apiKey)
    requires forall k :: k in query ==> query[k] == "" || k == "gameIds"
    ensures var r := Route(apiKey, query, parseJson, parseInt);
            r.Some? && r.value.params["count"] == parseInt("30") && r.value.params["offset"] == parseInt("0")
    ensures var r := Route(apiKey, query, parseJson, parseInt);
            r.Some? && r.value.rpcMethod == GamesSearch ==>
              && r.value.params["state"] == JStr("OH")
              && r.value.params["afterDateTime"] == JStr("")
              && r.value.params["beforeDateTime"] == JStr("")
              && r.value.params["sportNames"] == parseJson("[\"basketball\"]")
              && r.value.params["squadIds"] == parseJson("[1010]")
  {
  }
}
