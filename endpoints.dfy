/** The three proxy routes of the server: `/search-flights`, `/autocomplete` and
    `/logo/:domain` (server.js:48-152). Each route is a function from what its
    awaited calls give back to the upstream request it sends (if any) and the
    response it writes; the search and autocomplete routes are also methods that
    first fetch the token from the shared cache. */
module Endpoints {
  import opened Common
  import opened Auth
  import opened Flights

  /** The location-search answer of the travel API, relayed as it is. */
  datatype RawJson = RawJson(text: string)

  datatype Body = OffersBody(offers: seq<Offer>) | ErrorBody(error: string) | Relayed(json: RawJson)

  /** What a route writes: JSON with a status, a PNG image, or plain text with a status. */
  datatype Response = Json(status: nat, body: Body) | Png(contentType: string) | PlainText(status: nat, text: string)

  /** An outgoing upstream GET: URL, `Authorization` header and query. */
  datatype UpstreamRequest = UpstreamRequest(url: string, authorization: string, params: seq<Param>)

  /** The upstream call a route made, if any, and the response it wrote. */
  datatype Handled = Handled(sent: Option<UpstreamRequest>, response: Response)

  const FLIGHT_OFFERS_URL := "https://test.api.amadeus.com/v2/shopping/flight-offers"
  const LOCATIONS_URL := "https://test.api.amadeus.com/v1/reference-data/locations"
  const LOGO_URL_PREFIX := "https://api.logo.dev/domains/"
  const SEARCH_FAILED := "Failed to fetch flight offers"
  const SUGGESTIONS_FAILED := "Failed to fetch airport suggestions"
  const MISSING_KEYWORD := "Missing keyword"
  const LOGO_MISSING := "Logo not available"

  /** `/search-flights`, given the token fetch's outcome and the travel API's answer
      (`data` of the response body, or a failure). Every failure, whether of the
      token, of the call or of the reshape, gives the same 500 response. */
  function Search(token: Result<string>, req: SearchRequest, upstream: Result<seq<RawOffer>>): (h: Handled)
    ensures h.sent.Some? <==> token.Ok?
    ensures token.Ok? ==>
              h.sent == Some(UpstreamRequest(FLIGHT_OFFERS_URL, BearerHeader(token.value), SearchParams(req)))
    ensures h.response.Json?
    ensures h.response.status == 200 <==> token.Ok? && upstream.Ok? && Reshape(upstream.value).Some?
    ensures h.response.status == 200 ==> h.response.body == OffersBody(Reshape(upstream.value).value)
    ensures h.response.status != 200 ==> h.response == Json(500, ErrorBody(SEARCH_FAILED))
  {
    match token
    case Failed => Handled(None, Json(500, ErrorBody(SEARCH_FAILED)))
    case Ok(t) =>
      var sent := Some(UpstreamRequest(FLIGHT_OFFERS_URL, BearerHeader(t), SearchParams(req)));
      if upstream.Failed? then Handled(sent, Json(500, ErrorBody(SEARCH_FAILED)))
      else
        match Reshape(upstream.value)
        case None => Handled(sent, Json(500, ErrorBody(SEARCH_FAILED)))
        case Some(offers) => Handled(sent, Json(200, OffersBody(offers)))
  }

  /** A search response is never partial: it is the full reshaped list, one offer
      per upstream offer, or the single fixed error. */
  lemma SearchNeverPartial(token: Result<string>, req: SearchRequest, upstream: Result<seq<RawOffer>>)
    ensures var r := Search(token, req, upstream).response;
      || (upstream.Ok? && r.Json? && r.status == 200 && r.body.OffersBody? && |r.body.offers| == |upstream.value|)
      || r == Json(500, ErrorBody(SEARCH_FAILED))
  {
  }

  /** The query of the location-search call. */
  function AutocompleteParams(keyword: string): (p: seq<Param>)
    ensures DistinctNames(p)
    ensures Lookup(p, "subType") == Some(Str("AIRPORT,CITY"))
    ensures Lookup(p, "keyword") == Some(Str(keyword))
    ensures Lookup(p, "page[limit]") == Some(Num(10))
    ensures |p| == 3
  {
    var p := [Param("subType", Str("AIRPORT,CITY")), Param("keyword", Str(keyword)), Param("page[limit]", Num(10))];
    LookupAt(p, 0);
    LookupAt(p, 1);
    LookupAt(p, 2);
    p
  }

  /** `!keyword` is false: the query parameter is there and not empty. */
  predicate Present(keyword: Option<string>): (p: bool)
    ensures p <==> keyword.Some? && |keyword.value| >= 1
  {
    Truthy(keyword)
  }

  /** `/autocomplete`, given the token fetch's outcome, the `keyword` query parameter
      and the travel API's answer. The token is fetched before the keyword is checked,
      so a failed token fetch answers 500 even when the keyword is missing. */
  function Autocomplete(token: Result<string>, keyword: Option<string>, upstream: Result<RawJson>): (h: Handled)
    ensures token.Failed? ==> h == Handled(None, Json(500, ErrorBody(SUGGESTIONS_FAILED)))
    ensures token.Ok? && !Present(keyword) ==> h == Handled(None, Json(400, ErrorBody(MISSING_KEYWORD)))
    ensures h.sent.Some? <==> token.Ok? && Present(keyword)
    ensures h.sent.Some? ==>
              h.sent.value == UpstreamRequest(LOCATIONS_URL, BearerHeader(token.value), AutocompleteParams(keyword.value))
    ensures h.sent.Some? ==>
              h.response == if upstream.Ok? then Json(200, Relayed(upstream.value)) else Json(500, ErrorBody(SUGGESTIONS_FAILED))
  {
    match token
    case Failed => Handled(None, Json(500, ErrorBody(SUGGESTIONS_FAILED)))
    case Ok(t) =>
      if !Present(keyword) then Handled(None, Json(400, ErrorBody(MISSING_KEYWORD)))
      else
        var sent := Some(UpstreamRequest(LOCATIONS_URL, BearerHeader(t), AutocompleteParams(keyword.value)));
        match upstream
        case Failed => Handled(sent, Json(500, ErrorBody(SUGGESTIONS_FAILED)))
        case Ok(body) => Handled(sent, Json(200, Relayed(body)))
  }

  /** The server sets no length floor: a one-character keyword is forwarded. */
  lemma OneCharacterKeywordForwarded(token: string, c: char, upstream: Result<RawJson>)
    ensures Autocomplete(Ok(token), Some([c]), upstream).sent.Some?
    ensures Lookup(Autocomplete(Ok(token), Some([c]), upstream).sent.value.params, "keyword") == Some(Str([c]))
  {
  }

  /** `/logo/:domain`, given the logo service key and whether the image fetch succeeded:
      the image as PNG, or 404 with plain text on any failure. */
  function Logo(domain: string, logoKey: string, fetched: bool): (h: Handled)
    ensures h.sent == Some(UpstreamRequest(LOGO_URL_PREFIX + domain, BearerHeader(logoKey), []))
    ensures fetched <==> h.response == Png("image/png")
    ensures !fetched <==> h.response == PlainText(404, LOGO_MISSING)
  {
    var sent := Some(UpstreamRequest(LOGO_URL_PREFIX + domain, BearerHeader(logoKey), []));
    if fetched then Handled(sent, Png("image/png")) else Handled(sent, PlainText(404, LOGO_MISSING))
  }

  /** The search route against the shared token cache at clock reading `now`. */
  method HandleSearch(cache: TokenCache, now: nat, reply: ExchangeReply, req: SearchRequest,
                      upstream: Result<seq<RawOffer>>) returns (h: Handled)
    modifies cache
    ensures var s := Get(old(cache.State()), now, reply);
      cache.State() == s.cache && h == Search(s.result, req, upstream) &&
      cache.exchanges == old(cache.exchanges) + (if s.exchanged then 1 else 0)
  {
    var token := cache.GetAccessToken(now, reply);
    h := Search(token, req, upstream);
  }

  /** The autocomplete route against the shared token cache at clock reading `now`.
      The token is fetched, and may be refreshed, even when the keyword is missing. */
  method HandleAutocomplete(cache: TokenCache, now: nat, reply: ExchangeReply, keyword: Option<string>,
                            upstream: Result<RawJson>) returns (h: Handled)
    modifies cache
    ensures var s := Get(old(cache.State()), now, reply);
      cache.State() == s.cache && h == Autocomplete(s.result, keyword, upstream) &&
      cache.exchanges == old(cache.exchanges) + (if s.exchanged then 1 else 0)
  {
    var token := cache.GetAccessToken(now, reply);
    h := Autocomplete(token, keyword, upstream);
  }
}
