/** One page request to the Helius address-transactions endpoint
    (`helius_fetch_page`). The HTTP exchange itself is not modelled: the
    server is a script of replies, one per request, in request order. */
module Fetch {
  import opened Json

  const HeliusBase: string := "https://api.helius.xyz/v0/addresses"

  /** What the caller fixes for a whole collection run. */
  datatype Query = Query(address: string, apiKey: string, limit: int)

  /** The GET request the viewer issues: URL, query parameters and headers. */
  datatype Request = Request(url: string, params: seq<(string, Json)>, headers: seq<(string, string)>)

  /** How a fetch can fail: `raise_for_status` on a 4xx/5xx status, a
      connection error or the 30-second timeout, or a body that is not JSON. */
  datatype FetchError = HttpError(status: int) | TransportError | InvalidJson

  datatype FetchResult = Fetched(body: Json) | Failed(error: FetchError)

  /** The request for one page (URL, query parameters, headers). */
  function PageRequest(q: Query, cursor: Json): Request {
    var base := [("limit", JInt(q.limit)), ("api-key", JStr(q.apiKey))];
    Request(HeliusBase + "/" + q.address + "/transactions",
            if Truthy(cursor) then base + [("cursor", cursor)] else base,
            [("Accept", "application/json"), ("api-key", q.apiKey)])
  }

  /** The `cursor` query parameter is sent exactly when the cursor is truthy,
      and then with the cursor's value; the first request of a run (cursor
      None) therefore carries none. Limit and API key are always sent. */
  lemma PageRequestParams(q: Query, cursor: Json)
    ensures HasKey(PageRequest(q, cursor).params, "cursor") <==> Truthy(cursor)
    ensures Truthy(cursor) ==> Lookup(PageRequest(q, cursor).params, "cursor") == cursor
    ensures Lookup(PageRequest(q, cursor).params, "limit") == JInt(q.limit)
    ensures Lookup(PageRequest(q, cursor).params, "api-key") == JStr(q.apiKey)
  {
    var params := PageRequest(q, cursor).params;
    assert |"cursor"| == 6 && |"limit"| == 5 && |"api-key"| == 7;
    assert forall i :: 0 <= i < 2 ==> params[i].0 != "cursor";
    if Truthy(cursor) {
      assert params[2] == ("cursor", cursor);
      LookupFirstMatch(params, "cursor", 2);
    }
  }

  /** The reply the scripted server gives to request number `n` (from 0).
      A request past the end of the script gets no reply. */
  function Respond(script: seq<FetchResult>, n: nat): (r: FetchResult)
    ensures n < |script| ==> r == script[n]
    ensures n >= |script| ==> r == Failed(TransportError)
  {
    if n < |script| then script[n] else Failed(TransportError)
  }
}
