/** The `/api/scrape` request handler: validate the request, discover the
    country's sites, search each site for product pages, extract a record
    from each page, and answer with every record found, in order. */
module PriceCompare {
  import opened Prelude
  import opened JsValue
  import opened SiteDiscovery
  import opened LinkSearch
  import opened Metadata

  /** The parts of the request the handler reads: its HTTP method and the
      `query` and `country` fields of its body (`Undefined` when absent). */
  datatype Request = Request(httpMethod: string, query: Value, country: Value)

  datatype ResponseBody =
    | ErrorBody(error: string)
    | ResultsBody(results: seq<ProductRecord>)

  datatype Response = Response(status: int, body: ResponseBody)

  /** The outbound requests the handler makes, in the order it makes them:
      the generative-text request with credential number `keyIndex`, the
      web search for one site, the fetch of one page. */
  datatype BackendCall =
    | GenerateCall(keyIndex: nat)
    | SearchCall(site: string)
    | FetchCall(url: Value)

  /** How the outside world answers during one request: the generative-text
      backend's outcome for each credential in order, the search backend's
      outcome for each site, the fetch outcome for each url, and
      `JSON.parse`. */
  datatype Backends = Backends(
    keyOutcomes: seq<GenerateOutcome>,
    search: string -> SearchOutcome,
    fetch: Value -> PageOutcome,
    parse: string -> Option<Value>)

  const MaxResults: nat := MaxSites * MaxLinks

  /** `!query || !country`. */
  predicate MissingInput(req: Request) {
    !Truthy(req.query) || !Truthy(req.country)
  }

  /** The 500 body's message: `err.message || "Internal Server Error"`. */
  function ErrorMessage(message: string): string {
    if message != "" then message else "Internal Server Error"
  }

  function Present(r: Option<ProductRecord>): seq<ProductRecord> {
    match r
    case Some(record) => [record]
    case None => []
  }

  /** The links the search for `query` yields for a site. */
  function Searcher(env: Backends, query: Value): string -> seq<Value> {
    site => SiteSearch(query, env.search(site))
  }

  /** The record `extractMetadata` yields for a link. */
  function Extractor(env: Backends): Value -> Option<ProductRecord> {
    link => Extract(env.fetch(link), link, env.parse)
  }

  /** The records extracted from `links`, in link order. */
  function LinkRecords(links: seq<Value>, extract: Value -> Option<ProductRecord>): (records: seq<ProductRecord>)
    ensures |records| <= |links|
  {
    if links == [] then []
    else Present(extract(links[0])) + LinkRecords(links[1..], extract)
  }

  /** The records of all sites, in site order, and within a site in link
      order. */
  function CollectRecords(sites: seq<string>, search: string -> seq<Value>,
                          extract: Value -> Option<ProductRecord>): seq<ProductRecord>
  {
    if sites == [] then []
    else LinkRecords(search(sites[0]), extract) + CollectRecords(sites[1..], search, extract)
  }

  /** The response the handler sends. */
  function Handle(req: Request, env: Backends): Response {
    if req.httpMethod != "POST" then Response(405, ErrorBody("Method not allowed"))
    else if MissingInput(req) then Response(400, ErrorBody("Missing query or country"))
    else match SitesForCountry(req.country, env.keyOutcomes)
      case Found(sites) => Response(200, ResultsBody(CollectRecords(sites, Searcher(env, req.query), Extractor(env))))
      case Rejected(_, message) => Response(500, ErrorBody(ErrorMessage(message)))
      case Exhausted => Response(500, ErrorBody(ExhaustedMessage))
  }

  function GenerateCalls(n: nat): seq<BackendCall> {
    seq(n, k requires 0 <= k < n => GenerateCall(k))
  }

  /** One fetch per link, in link order. */
  function FetchCalls(links: seq<Value>): (calls: seq<BackendCall>)
    ensures |calls| == |links|
  {
    if links == [] then [] else [FetchCall(links[0])] + FetchCalls(links[1..])
  }

  /** The search request for a site, when the query could be sent at all. */
  function SearchRequest(site: string, sent: bool): seq<BackendCall> {
    if sent then [SearchCall(site)] else []
  }

  /** For each site in order: its search, then the fetch of each of its links. */
  function SiteCalls(sites: seq<string>, search: string -> seq<Value>, sent: bool): seq<BackendCall> {
    if sites == [] then []
    else SearchRequest(sites[0], sent) + FetchCalls(search(sites[0])) + SiteCalls(sites[1..], search, sent)
  }

  /** The outbound requests the handler makes for `req`. */
  function Trace(req: Request, env: Backends): seq<BackendCall> {
    if req.httpMethod != "POST" || MissingInput(req) then []
    else
      GenerateCalls(CountryAttempts(req.country, env.keyOutcomes)) +
      match SitesForCountry(req.country, env.keyOutcomes)
      case Found(sites) => SiteCalls(sites, Searcher(env, req.query), !ToStringThrows(req.query))
      case _ => []
  }

  /** The loop over one site's links: fetch each link in turn and keep the
      record extracted from it, if any, in link order. */
  method CollectFromLinks(links: seq<Value>, env: Backends)
    returns (records: seq<ProductRecord>, calls: seq<BackendCall>)
    ensures records == LinkRecords(links, Extractor(env))
    ensures calls == FetchCalls(links)
  {
    records, calls := [], [];
    var extract := Extractor(env);
    var j := 0;
    while j < |links|
      invariant j <= |links|
      invariant records + LinkRecords(links[j..], extract) == LinkRecords(links, extract)
      invariant calls + FetchCalls(links[j..]) == FetchCalls(links)
    {
      var link := links[j];
      LinkStep(links, j, extract, records, calls);
      calls := calls + [FetchCall(link)];
      var metadata := ExtractMetadata(link, env.fetch, env.parse);
      assert metadata == extract(link);
      if metadata.Some? {
        records := records + [metadata.value];
      } else {
        assert records + Present(metadata) == records;
      }
      j := j + 1;
    }
    assert links[j..] == [];
  }

  /** The loop over the sites: search each site for `query`, then collect
      from its links. A query without a string form makes every search
      fail before its request is sent. */
  method CollectFromSites(sites: seq<string>, query: Value, env: Backends)
    returns (results: seq<ProductRecord>, calls: seq<BackendCall>)
    ensures results == CollectRecords(sites, Searcher(env, query), Extractor(env))
    ensures calls == SiteCalls(sites, Searcher(env, query), !ToStringThrows(query))
  {
    results, calls := [], [];
    var search, extract, sent := Searcher(env, query), Extractor(env), !ToStringThrows(query);
    var i := 0;
    while i < |sites|
      invariant i <= |sites|
      invariant results + CollectRecords(sites[i..], search, extract) == CollectRecords(sites, search, extract)
      invariant calls + SiteCalls(sites[i..], search, sent) == SiteCalls(sites, search, sent)
    {
      var site := sites[i];
      var links, request;
      if ToStringThrows(query) {
        links, request := [], [];
      } else {
        links, request := SearchLinks(env.search(site)), [SearchCall(site)];
      }
      assert links == search(site) && request == SearchRequest(site, sent);
      var records, fetches := CollectFromLinks(links, env);
      SiteStep(sites, i, search, extract, sent, results, calls);
      results := results + records;
      calls := calls + request + fetches;
      i := i + 1;
    }
    assert sites[i..] == [];
  }

  /** The handler. A non-POST request gets 405 and one without a truthy
      `query` and `country` gets 400, both before any outbound request; a
      discovery failure gets 500 after the discovery requests alone;
      otherwise the answer is 200 with at most 25 records, whatever the
      search and fetch backends did. */
  method HandleRequest(req: Request, env: Backends) returns (resp: Response, calls: seq<BackendCall>)
    ensures resp == Handle(req, env)
    ensures calls == Trace(req, env)
    ensures req.httpMethod != "POST" ==> resp.status == 405 && calls == []
    ensures req.httpMethod == "POST" && MissingInput(req) ==> resp.status == 400 && calls == []
    ensures resp.status == 500 <==>
      (req.httpMethod == "POST" && !MissingInput(req) && !SitesForCountry(req.country, env.keyOutcomes).Found?)
    ensures resp.status == 500 ==> calls == GenerateCalls(CountryAttempts(req.country, env.keyOutcomes))
    ensures req.httpMethod == "POST" && !MissingInput(req) && ToStringThrows(req.country) ==>
      resp == Response(500, ErrorBody(ConversionTypeError)) && calls == []
    ensures resp.status == 200 ==> resp.body.ResultsBody? && |resp.body.results| <= MaxResults
    ensures resp.status == 200 && ToStringThrows(req.query) ==>
      resp.body == ResultsBody([]) && calls == GenerateCalls(Attempts(env.keyOutcomes))
  {
    if req.httpMethod != "POST" {
      return Response(405, ErrorBody("Method not allowed")), [];
    }
    if !Truthy(req.query) || !Truthy(req.country) {
      return Response(400, ErrorBody("Missing query or country")), [];
    }
    var discovery, attempts := GetSitesForCountry(req.country, env.keyOutcomes);
    calls := GenerateCalls(attempts);
    match discovery {
      case Rejected(_, message) =>
        return Response(500, ErrorBody(ErrorMessage(message))), calls;
      case Exhausted =>
        return Response(500, ErrorBody(ExhaustedMessage)), calls;
      case Found(sites) =>
        ResultsBound(env, req.query);
        var results, siteCalls := CollectFromSites(sites, req.query, env);
        if ToStringThrows(req.query) {
          NoLinksNoRecords(sites, Searcher(env, req.query), Extractor(env));
          assert calls + siteCalls == calls;
        }
        return Response(200, ResultsBody(results)), calls + siteCalls;
    }
  }

  /** One step of the site loop: appending the records and the requests of
      site `i` keeps the loop invariant. */
  lemma SiteStep(sites: seq<string>, i: nat, search: string -> seq<Value>,
                 extract: Value -> Option<ProductRecord>, sent: bool,
                 results: seq<ProductRecord>, calls: seq<BackendCall>)
    requires i < |sites|
    requires results + CollectRecords(sites[i..], search, extract) == CollectRecords(sites, search, extract)
    requires calls + SiteCalls(sites[i..], search, sent) == SiteCalls(sites, search, sent)
    ensures results + LinkRecords(search(sites[i]), extract) + CollectRecords(sites[i + 1..], search, extract)
      == CollectRecords(sites, search, extract)
    ensures calls + SearchRequest(sites[i], sent) + FetchCalls(search(sites[i])) + SiteCalls(sites[i + 1..], search, sent)
      == SiteCalls(sites, search, sent)
  {
    assert sites[i..][0] == sites[i] && sites[i..][1..] == sites[i + 1..];
    var records, fetches := LinkRecords(search(sites[i]), extract), FetchCalls(search(sites[i]));
    var request, rest := SearchRequest(sites[i], sent), SiteCalls(sites[i + 1..], search, sent);
    AppendAssoc(results, records, CollectRecords(sites[i + 1..], search, extract));
    AppendAssoc(request, fetches, rest);
    AppendAssoc(calls, request + fetches, rest);
    AppendAssoc(calls, request, fetches);
  }

  /** One step of the link loop: appending the record and the request of
      link `j` keeps the loop invariant. */
  lemma LinkStep(links: seq<Value>, j: nat, extract: Value -> Option<ProductRecord>,
                 records: seq<ProductRecord>, calls: seq<BackendCall>)
    requires j < |links|
    requires records + LinkRecords(links[j..], extract) == LinkRecords(links, extract)
    requires calls + FetchCalls(links[j..]) == FetchCalls(links)
    ensures records + Present(extract(links[j])) + LinkRecords(links[j + 1..], extract) == LinkRecords(links, extract)
    ensures calls + [FetchCall(links[j])] + FetchCalls(links[j + 1..]) == FetchCalls(links)
  {
    assert links[j..][0] == links[j] && links[j..][1..] == links[j + 1..];
    assert FetchCalls(links[j..]) == [FetchCall(links[j])] + FetchCalls(links[j + 1..]);
    assert LinkRecords(links[j..], extract) == Present(extract(links[j])) + LinkRecords(links[j + 1..], extract);
    AppendAssoc(records, Present(extract(links[j])), LinkRecords(links[j + 1..], extract));
    AppendAssoc(calls, [FetchCall(links[j])], FetchCalls(links[j + 1..]));
  }

  /** Every site contributes at most as many records as it has links. */
  lemma {:induction false} CollectBound(sites: seq<string>, search: string -> seq<Value>,
                                        extract: Value -> Option<ProductRecord>)
    requires forall i :: 0 <= i < |sites| ==> |search(sites[i])| <= MaxLinks
    ensures |CollectRecords(sites, search, extract)| <= MaxLinks * |sites|
  {
    if sites != [] {
      assert forall i :: 0 <= i < |sites| - 1 ==> sites[1..][i] == sites[i + 1];
      CollectBound(sites[1..], search, extract);
      assert |LinkRecords(search(sites[0]), extract)| <= MaxLinks;
    }
  }

  /** A 200 answer holds at most five records for each of at most five
      sites. */
  lemma ResultsBound(env: Backends, query: Value)
    requires Discover(env.keyOutcomes).Found?
    ensures |CollectRecords(Discover(env.keyOutcomes).sites, Searcher(env, query), Extractor(env))| <= MaxResults
  {
    var sites := Discover(env.keyOutcomes).sites;
    FoundSitesShape(env.keyOutcomes);
    assert forall i :: 0 <= i < |sites| ==> |Searcher(env, query)(sites[i])| <= MaxLinks;
    CollectBound(sites, Searcher(env, query), Extractor(env));
  }

  /** Site order, then link order: the records of more sites come after
      those of the first ones. */
  lemma {:induction false} CollectAppend(a: seq<string>, b: seq<string>, search: string -> seq<Value>,
                                         extract: Value -> Option<ProductRecord>)
    ensures CollectRecords(a + b, search, extract) ==
      CollectRecords(a, search, extract) + CollectRecords(b, search, extract)
  {
    if a == [] {
      assert a + b == b;
    } else {
      assert (a + b)[0] == a[0] && (a + b)[1..] == a[1..] + b;
      CollectAppend(a[1..], b, search, extract);
      AppendAssoc(LinkRecords(search(a[0]), extract), CollectRecords(a[1..], search, extract),
        CollectRecords(b, search, extract));
    }
  }

  lemma {:induction false} LinkRecordOrigin(links: seq<Value>, extract: Value -> Option<ProductRecord>, k: nat)
    returns (j: nat)
    requires k < |LinkRecords(links, extract)|
    ensures j < |links|
    ensures extract(links[j]) == Some(LinkRecords(links, extract)[k])
  {
    var first, rest := Present(extract(links[0])), LinkRecords(links[1..], extract);
    assert LinkRecords(links, extract) == first + rest;
    if k < |first| {
      j := 0;
    } else {
      assert LinkRecords(links, extract)[k] == rest[k - |first|];
      var j' := LinkRecordOrigin(links[1..], extract, k - |first|);
      j := j' + 1;
    }
  }

  /** Every record in the answer is what extraction gave for one of the
      links found on one of the sites. */
  lemma {:induction false} RecordOrigin(sites: seq<string>, search: string -> seq<Value>,
                                        extract: Value -> Option<ProductRecord>, k: nat)
    returns (i: nat, j: nat)
    requires k < |CollectRecords(sites, search, extract)|
    ensures i < |sites| && j < |search(sites[i])|
    ensures extract(search(sites[i])[j]) == Some(CollectRecords(sites, search, extract)[k])
  {
    var first, rest := LinkRecords(search(sites[0]), extract), CollectRecords(sites[1..], search, extract);
    assert CollectRecords(sites, search, extract) == first + rest;
    if k < |first| {
      i := 0;
      j := LinkRecordOrigin(search(sites[0]), extract, k);
    } else {
      assert CollectRecords(sites, search, extract)[k] == rest[k - |first|];
      var i', j' := RecordOrigin(sites[1..], search, extract, k - |first|);
      i, j := i' + 1, j';
      assert sites[1..][i'] == sites[i];
    }
  }

  /** Every record of a 200 answer is well formed, and its link is one the
      search found on one of the discovered sites. */
  lemma AnswerRecordShape(req: Request, env: Backends, k: nat)
    requires Handle(req, env).body.ResultsBody?
    requires k < |Handle(req, env).body.results|
    ensures SitesForCountry(req.country, env.keyOutcomes).Found? && !ToStringThrows(req.query)
    ensures var sites := SitesForCountry(req.country, env.keyOutcomes).sites;
      WellFormed(Handle(req, env).body.results[k]) &&
      exists i :: 0 <= i < |sites| && Handle(req, env).body.results[k].link in SearchLinks(env.search(sites[i]))
  {
    var sites := SitesForCountry(req.country, env.keyOutcomes).sites;
    var search := Searcher(env, req.query);
    var i, j := RecordOrigin(sites, search, Extractor(env), k);
    assert search(sites[i]) != [];
    var link := SearchLinks(env.search(sites[i]))[j];
    assert search(sites[i])[j] == link;
    assert Extractor(env)(link) == Extract(env.fetch(link), link, env.parse);
  }

  /** When no site has a link the answer is an empty list, not an error;
      and when, in addition, the query could not be sent (it has no string
      form), the sites cost no request at all. */
  lemma {:induction false} NoLinksNoRecords(sites: seq<string>, search: string -> seq<Value>,
                                            extract: Value -> Option<ProductRecord>)
    requires forall i :: 0 <= i < |sites| ==> search(sites[i]) == []
    ensures CollectRecords(sites, search, extract) == []
    ensures SiteCalls(sites, search, false) == []
  {
    if sites != [] {
      assert search(sites[0]) == [];
      assert forall i :: 0 <= i < |sites| - 1 ==> sites[1..][i] == sites[i + 1];
      NoLinksNoRecords(sites[1..], search, extract);
    }
  }

  /** A request for "iPhone 16 Pro" in "India" whose discovery finds
      amazon.in and flipkart.com, whose search finds two links on amazon.in
      and none on flipkart.com, and whose first page alone holds a record,
      is answered with that one record. */
  lemma EndToEndExample(env: Backends, l1: Value, l2: Value, record: ProductRecord)
    requires Discover(env.keyOutcomes) == Found(["amazon.in", "flipkart.com"])
    requires SearchLinks(env.search("amazon.in")) == [l1, l2]
    requires SearchLinks(env.search("flipkart.com")) == []
    requires Extract(env.fetch(l1), l1, env.parse) == Some(record)
    requires Extract(env.fetch(l2), l2, env.parse) == None
    ensures Handle(Request("POST", Str("iPhone 16 Pro"), Str("India")), env)
      == Response(200, ResultsBody([record]))
  {
    var sites := ["amazon.in", "flipkart.com"];
    var search, extract := Searcher(env, Str("iPhone 16 Pro")), Extractor(env);
    var links := [l1, l2];
    assert search(sites[0]) == links && search(sites[1]) == [];
    assert extract(l1) == Some(record) && extract(l2) == None;
    assert links[1..] == [l2] && links[1..][1..] == [];
    assert LinkRecords([l2], extract) == [] + LinkRecords([], extract);
    assert LinkRecords(links, extract) == [record] + LinkRecords([l2], extract);
    assert sites[1..] == ["flipkart.com"] && sites[1..][1..] == [];
    assert CollectRecords(sites[1..], search, extract) == [] + CollectRecords([], search, extract);
    assert CollectRecords(sites, search, extract) == [record] + CollectRecords(sites[1..], search, extract);
    assert CollectRecords(sites, search, extract) == [record];
    var req := Request("POST", Str("iPhone 16 Pro"), Str("India"));
    assert Truthy(req.query) && Truthy(req.country);
    assert Handle(req, env) == Response(200, ResultsBody(CollectRecords(sites, search, extract)));
  }
}
