/**
 * `POST /api/facebook/leads` (src/app/api/facebook/leads/route.ts): request
 * validation and the per-page aggregation of leads. The session, the parsed
 * request body and the per-page fetch are inputs; the fan-out over pages is
 * the per-index map it computes.
 */
module LeadsRoute {
  import opened Common
  import opened JsErrors

  datatype LeadField = LeadField(name: string, values: seq<string>)
  datatype Lead = Lead(id: string, createdTime: string, adId: string, formId: string, fieldData: seq<LeadField>)

  /** A request field as JSON gives it: missing or falsy, a truthy non-array, or an array. */
  datatype JsonField = Missing | NotArray | JsonArray(items: seq<string>)

  /** `await request.json()` followed by the destructuring: it throws, or it yields the two fields. */
  datatype LeadsRequest = Unreadable(error: Thrown) | LeadsRequest(pageIds: JsonField, pageTokens: JsonField)

  /** One page's `fetch` + `response.json()`: it throws, or it yields a body with optional `error` and `data`. */
  datatype PageFetch = PageThrew(error: Thrown) | PageBody(vendorError: Option<VendorFields>, data: Option<seq<Lead>>)

  /** One entry of the response's `data`; `error` is absent for a page that succeeded. */
  datatype PageLeads = PageLeads(pageId: string, error: Option<string>, leads: seq<Lead>)

  datatype LeadsResponse =
    | NotAuthenticated
    | InvalidRequestFormat
    | MismatchedLengths
    | AllLeads(data: seq<PageLeads>)
    | LeadsFailed(details: string)
  {
    function Status(): int {
      match this
      case NotAuthenticated => 401
      case InvalidRequestFormat => 400
      case MismatchedLengths => 400
      case AllLeads(_) => 200
      case LeadsFailed(_) => 500
    }
  }

  /** The Graph URL fetched for one page. */
  function LeadsUrl(pageId: string, pageToken: string): string {
    "https://graph.facebook.com/v22.0/" + pageId + "/leads?access_token=" + pageToken +
    "&fields=id,created_time,ad_id,form_id,field_data"
  }

  /** The URL for a page carries that page's own token as its `access_token` parameter. */
  lemma LeadsUrlCarriesToken(pageId: string, pageToken: string)
    ensures var u := LeadsUrl(pageId, pageToken);
      var at := |"https://graph.facebook.com/v22.0/"| + |pageId| + |"/leads?access_token="|;
      at + |pageToken| <= |u| && u[at..at + |pageToken|] == pageToken
  {
    var prefix := "https://graph.facebook.com/v22.0/" + pageId + "/leads?access_token=";
    var u := LeadsUrl(pageId, pageToken);
    assert u == prefix + pageToken + "&fields=id,created_time,ad_id,form_id,field_data";
    assert u[|prefix|..|prefix| + |pageToken|] == pageToken;
  }

  /** `error instanceof Error ? error.message : "Unknown error"`. */
  function ErrorText(t: Thrown): string {
    if t.ThrownError? then t.error.message else "Unknown error"
  }

  /** The mapped callback for one page. */
  function PageResult(pageId: string, fetched: PageFetch): (r: PageLeads)
    ensures r.pageId == pageId
    ensures fetched.PageThrew? ==> r.error == Some(ErrorText(fetched.error)) && r.leads == []
    ensures fetched.PageBody? && fetched.vendorError.Some? ==> r.error == fetched.vendorError.value.message && r.leads == []
    ensures fetched.PageBody? && fetched.vendorError.None? ==> r.error.None? && r.leads == fetched.data.GetOr([])
  {
    match fetched
    case PageThrew(e) => PageLeads(pageId, Some(ErrorText(e)), [])
    case PageBody(Some(err), _) => PageLeads(pageId, err.message, [])
    case PageBody(None, data) => PageLeads(pageId, None, data.GetOr([]))
  }

  /** `pageIds.map((pageId, index) => …)`, with page i fetched using `pageTokens[i]`. */
  function AllPageResults(pageIds: seq<string>, pageTokens: seq<string>, fetch: string -> PageFetch): (r: seq<PageLeads>)
    requires |pageIds| == |pageTokens|
    ensures |r| == |pageIds|
    ensures forall i :: 0 <= i < |r| ==> r[i] == PageResult(pageIds[i], fetch(LeadsUrl(pageIds[i], pageTokens[i])))
  {
    seq(|pageIds|, i requires 0 <= i < |pageIds| => PageResult(pageIds[i], fetch(LeadsUrl(pageIds[i], pageTokens[i]))))
  }

  /** `POST`. */
  function Post(hasAccessToken: bool, request: LeadsRequest, fetch: string -> PageFetch): (r: LeadsResponse)
    ensures !hasAccessToken <==> r == NotAuthenticated
    ensures r.Status() == 400 <==>
      (hasAccessToken && request.LeadsRequest? &&
       !(request.pageIds.JsonArray? && request.pageTokens.JsonArray? &&
         |request.pageIds.items| == |request.pageTokens.items|))
    ensures r == InvalidRequestFormat <==>
      (hasAccessToken && request.LeadsRequest? && !(request.pageIds.JsonArray? && request.pageTokens.JsonArray?))
    ensures r.Status() == 500 <==> hasAccessToken && request.Unreadable?
    ensures r.AllLeads? ==>
      (request.LeadsRequest? && request.pageIds.JsonArray? && request.pageTokens.JsonArray? &&
       |request.pageIds.items| == |request.pageTokens.items| &&
       r.data == AllPageResults(request.pageIds.items, request.pageTokens.items, fetch))
  {
    if !hasAccessToken then NotAuthenticated
    else match request
      case Unreadable(e) => LeadsFailed(ErrorText(e))
      case LeadsRequest(ids, tokens) =>
        if !ids.JsonArray? || !tokens.JsonArray? then InvalidRequestFormat
        else if |ids.items| != |tokens.items| then MismatchedLengths
        else AllLeads(AllPageResults(ids.items, tokens.items, fetch))
  }

  /**
   * Pages are independent: page i's entry depends only on its own id, its own
   * token and what fetching its own URL gave, so a failing page leaves every
   * other page's entry as it would otherwise be.
   */
  lemma PagesAreIndependent(pageIds: seq<string>, pageTokens: seq<string>, fetch: string -> PageFetch,
                            fetch2: string -> PageFetch, i: nat)
    requires |pageIds| == |pageTokens| && i < |pageIds|
    requires fetch(LeadsUrl(pageIds[i], pageTokens[i])) == fetch2(LeadsUrl(pageIds[i], pageTokens[i]))
    ensures AllPageResults(pageIds, pageTokens, fetch)[i] == AllPageResults(pageIds, pageTokens, fetch2)[i]
    ensures AllPageResults(pageIds, pageTokens, fetch)[i].pageId == pageIds[i]
  {
  }

  /** The aggregation distributes over concatenation of the request arrays: entries come out in request order. */
  lemma {:induction false} ResultsFollowRequestOrder(ids1: seq<string>, tokens1: seq<string>, ids2: seq<string>,
                                                     tokens2: seq<string>, fetch: string -> PageFetch)
    requires |ids1| == |tokens1| && |ids2| == |tokens2|
    ensures AllPageResults(ids1 + ids2, tokens1 + tokens2, fetch) ==
      AllPageResults(ids1, tokens1, fetch) + AllPageResults(ids2, tokens2, fetch)
  {
    var whole := AllPageResults(ids1 + ids2, tokens1 + tokens2, fetch);
    var parts := AllPageResults(ids1, tokens1, fetch) + AllPageResults(ids2, tokens2, fetch);
    forall i | 0 <= i < |whole| ensures whole[i] == parts[i] {
      if i < |ids1| {
        assert (ids1 + ids2)[i] == ids1[i] && (tokens1 + tokens2)[i] == tokens1[i];
      } else {
        assert (ids1 + ids2)[i] == ids2[i - |ids1|] && (tokens1 + tokens2)[i] == tokens2[i - |ids1|];
      }
    }
  }
}
