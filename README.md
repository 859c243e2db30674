# price-fetcher: the price-comparison handler, in Dafny

This project models the `/api/scrape` endpoint of price-fetcher and proves
properties of the model. The endpoint takes a product name and a country and
answers with product records from that country's leading e-commerce sites.
It works as a pipeline of three stages:

1. **Site discovery** (`getSitesForCountry`). The generative-text backend is
   asked for the country's top domains. Credentials are tried one at a time.
   A 503 or 429 moves on to the next credential. Any other failure is
   rethrown at once. The answer text is split into lines; each line is
   trimmed, lines without a dot are dropped, and the first five are kept.
2. **Link search** (`searchWithSerpAPI`). For each site, the web-search
   backend's organic results give at most five truthy `link` values. Any
   error gives an empty list.
3. **Metadata extraction** (`extractMetadata`). Each link's page is fetched.
   Its JSON-LD blocks are tried in page order. A block that throws is skipped.
   The first block that yields a product with a name and a price gives the
   record.

The handler (`handler`) checks the method (405) and the input (400) before
making any outbound request. Every discovery failure gives 500, including a
country that cannot be turned into a string for the prompt. Otherwise the
answer is 200, with the records in site order and, within a site, in link
order.

Modules, one per concern:

- `Prelude`: `Option`, `Filter`, `Take` (`slice(0, n)`).
- `JsValue`: the JavaScript values the code inspects, truthiness, `||`, and
  optional property access.
- `Text`: `trim` (with ECMAScript's whitespace set) and `split("\n")`.
- `SiteDiscovery`, `LinkSearch`, `Metadata`: the three stages.
- `PriceCompare`: the handler.

The handler's loops and the credential and block loops are methods with loop
invariants. Each is proved equal to a recursive specification function. The
properties the code promises are lemmas about those functions.

## The outside world

The backends are inputs of the model.

- **Generative-text backend**: one `GenerateOutcome` per credential, in the
  order of `GEMINI_KEYS`. An outcome is either the value at
  `candidates[0].content.parts[0].text` or a failure with its optional HTTP
  status.
- **Search backend**: a function from a site to a `SearchOutcome`. An outcome
  is either a failure or the value of `organic_results`. The query is fixed
  for one request, so the outcome is keyed by site alone. A query that cannot
  be turned into a string is never sent, and then the outcome is not
  consulted (`LinkSearch.SiteSearch`).
- **Page fetches**: a function from a link to a `PageOutcome`. An outcome is
  either a failure or the bodies of the page's JSON-LD script blocks. A link
  is any truthy value, the function a string result yields included; what
  fetching such a link does is left to this input.
- **`JSON.parse`**: a function `string -> Option<Value>`. `None` stands for a
  thrown SyntaxError.

`HandleRequest` also returns the sequence of outbound requests it makes
(`BackendCall`). This lets the contracts state that a 405 or 400 makes no
request, and that a discovery failure makes only the discovery requests.

## JavaScript semantics the model adopts

These definitions carry no contract of their own: they are the model's
reading of the language, and the lemmas below are proved on top of them.

- `JsValue.Truthy` is ToBoolean: `undefined`, `null`, `false`, `0` and `""`
  are falsy; every array, object and function is truthy.
- `JsValue.Member` is `v?.key` for the property names the code reads. On an
  object it is the object's own property. On a string, `link` is the
  inherited HTML method `String.prototype.link`, a function
  (`Builtin("link")`). On a function, `name` is its name. Everything else
  gives `undefined`: none of `name`, `offers`, `price`, `priceCurrency`,
  `brand`, `sku` and `@type` is on the number, boolean, string, array,
  function or object prototype, and `link` is on the string prototype
  alone.
- `JsValue.ToStringThrows` tells when ToString throws, as in a template
  literal or in `parseFloat`. On a parsed object it throws exactly when the
  object has an own `toString` key. That key hides the inherited method
  with a value that cannot be called, and the inherited `valueOf` then
  answers the object itself, which is not a primitive. An array throws when
  one of its elements does. The message is Node.js's
  "Cannot convert object to primitive value" (`ConversionTypeError`).
- `LinkSearch.OrganicItems` is the path through
  `organic_results?.map((r) => r.link)` that does not throw
  (pages/api/scrape.js:108-116). A failed request, a missing or non-array
  `organic_results`, or a `null` or `undefined` entry gives `None`. All of
  these end as an empty link list.
- `LinkSearch.LinkValues` is `map((r) => r.link)`.
- `Metadata.FindProduct` is `find((j) => j["@type"] === "Product")`. It
  returns the first match, or `undefined`, or throws at a `null` or
  `undefined` element reached before a match.

The specification functions that the loops are proved equal to, and that the
lemmas are about:

- `SiteDiscovery.Discover` and `SiteDiscovery.Attempts`: the credential
  loop's outcome and its request count (pages/api/scrape.js:62-94).
- `SiteDiscovery.SitesForCountry` and `SiteDiscovery.CountryAttempts`: the
  prompt's conversion of the country, then that loop
  (pages/api/scrape.js:59-95).
- `LinkSearch.SiteSearch`: the links one search gives, with no request for a
  query that has no string form (pages/api/scrape.js:98-118).
- `Metadata.SelectRecord` and `Metadata.Extract`: the block loop and the
  fetch around it (pages/api/scrape.js:121-168).
- `PriceCompare.LinkRecords` and `PriceCompare.CollectRecords`: the records
  of one site's links and of all sites (pages/api/scrape.js:24-41).
- `PriceCompare.Handle` and `PriceCompare.Trace`: the response and the
  outbound requests (pages/api/scrape.js:6-49).
- `PriceCompare.MissingInput`: `!query || !country`
  (pages/api/scrape.js:13).
- `PriceCompare.ErrorMessage`: the 500 body's `err.message ||
  "Internal Server Error"` (pages/api/scrape.js:47).

## Behaviour of the code worth knowing

- A candidate link is kept bare, without its site: a record's only
  reference to its page is `link`.
- The price and the currency are not checked. Any truthy `price` that
  `parseFloat` can convert is kept, and any truthy `priceCurrency` is used
  as is.
- A truthy response text that is not a string makes `raw.split` throw a
  TypeError. That error carries no HTTP response, so it is rethrown and the
  request ends with 500 (`SiteDiscovery.Settle`, `SplitTypeError`).
- A failure without an HTTP response (a network error, say) has no status.
  It is therefore not 503 or 429, and it is rethrown rather than retried.
- An array block whose elements before the first Product include `null` makes
  `find`'s callback throw, so the block is skipped
  (`Metadata.FindProductThrows`). An organic result that is `null` makes
  `r.link` throw, so the site gives no links (`LinkSearch.SearchLinks`).
- An organic result that is a string has a truthy `link`: the function
  `String.prototype.link`. It takes one of the five slots and is then
  fetched like any link (`LinkSearch.StringResultTakesSlot`).
- Three inputs go through ToString, and each fails on an object with an own
  `toString` key. The country is interpolated into the prompt before the
  credential loop and outside its `try`. The request then ends with 500 and
  sends nothing (`SiteDiscovery.SitesForCountry`). The query is
  interpolated inside the search's `try`. Every site then gives no links
  and no search request is sent. A block's price goes through `parseFloat`
  inside the block's `try`, so that block is skipped (`Metadata.RecordOf`).

## Model

| member | source | states |
|---|---|---|
| JsValue.Or | pages/api/scrape.js:153-155 | the logical-or operator gives its left operand when that is truthy and its right one otherwise; the result is truthy exactly when one operand is |
| Text.Trim | pages/api/scrape.js:77 | the trimmed string starts and ends with a non-whitespace character, and is no longer than the input |
| Text.TrimDecomposes | pages/api/scrape.js:77 | the input is whitespace, then the trimmed string, then whitespace: trim removes only whitespace and only at the ends |
| Text.TrimUnique | pages/api/scrape.js:77 | conversely, whitespace around a trimmed core is exactly what trim removes |
| Text.SplitLines | pages/api/scrape.js:76 | `split("\n")` gives at least one piece, and no piece holds a line feed |
| Text.JoinSplit | pages/api/scrape.js:76 | joining the pieces with line feeds gives the text back |
| Text.SplitJoin | pages/api/scrape.js:76 | splitting lines that hold no line feed, once joined, gives the same lines |
| SiteDiscovery.DomainLines | pages/api/scrape.js:75-79 | the sites are the first five of the trimmed lines that contain a dot, in order, or all of them when there are fewer: a prefix of exactly that length |
| SiteDiscovery.DomainLinesShape | pages/api/scrape.js:75-79 | every site contains a dot, is trimmed, and is the trimmed form of one line of the answer |
| SiteDiscovery.DomainLinesComplete | pages/api/scrape.js:75-79 | a trimmed line with a dot is never dropped when there are at most five of them |
| SiteDiscovery.DomainLinesOfEmpty | pages/api/scrape.js:74-79 | a missing or empty answer text, replaced by the empty string, gives no site |
| SiteDiscovery.Settle | pages/api/scrape.js:74-90 | an attempt that is not a 503 or 429 always ends discovery: a site list or a rethrown error, never the exhausted error |
| SiteDiscovery.Attempts | pages/api/scrape.js:62-92 | the number of requests sent is at most the number of credentials, and at least one when there is a credential |
| SiteDiscovery.FirstDecisiveAttempt | pages/api/scrape.js:62-91 | when the first n credentials get 503 or 429 and credential n+1 does not, its outcome is the result and exactly n+1 requests are sent |
| SiteDiscovery.ExhaustedIffAllTransient | pages/api/scrape.js:62-94 | the exhausted error is thrown exactly when every credential gets 503 or 429, and then every credential has been tried |
| SiteDiscovery.FoundSitesShape | pages/api/scrape.js:62-79 | a discovered site list has at most five entries, each trimmed and containing a dot |
| SiteDiscovery.GetSitesForCountry | pages/api/scrape.js:59-95 | the prompt's conversion of the country and then the credential loop return the discovery outcome and the number of requests sent: none, and the conversion's TypeError, for a country without a string form |
| LinkSearch.SearchLinks | pages/api/scrape.js:98-118 | no link after a failed request, a non-array `organic_results`, or a `null` or `undefined` result; otherwise the first five truthy links of the results in order, or all of them when there are fewer |
| LinkSearch.SearchLinksOrigin | pages/api/scrape.js:108-112 | every link is the `link` of one of the organic results |
| LinkSearch.SearchLinksComplete | pages/api/scrape.js:108-112 | a truthy link is never dropped when at most five results have one |
| LinkSearch.StringResultTakesSlot | pages/api/scrape.js:108-112 | a string result contributes the truthy method `String.prototype.link`, so a string before five or more results with links leaves the fifth link out |
| LinkSearch.TruthyLinksInOrder | pages/api/scrape.js:110-111 | links keep the order of the organic results |
| Metadata.FindProductFirst | pages/api/scrape.js:145-147 | `find` returns the first element whose `@type` is "Product" |
| Metadata.FindProductThrows | pages/api/scrape.js:146 | a `null` or `undefined` element reached before any match makes `find` throw |
| Metadata.FindProductNone | pages/api/scrape.js:146 | `find` gives `undefined` exactly when it inspects every element without a match |
| Metadata.FindProductWithoutProduct | pages/api/scrape.js:146 | without a Product element, `find` throws or gives `undefined` |
| Metadata.RecordOf | pages/api/scrape.js:149-156 | a record exists exactly when name and `offers.price` are truthy and `parseFloat` does not throw on the price; it has that name and price, the link, `priceCurrency` or "USD", and brand name, else sku, else `null` |
| Metadata.BlockRecord | pages/api/scrape.js:142-160 | a block that fails to parse yields nothing; a record it yields is well formed and carries the page's link |
| Metadata.NonArrayUsedDirectly | pages/api/scrape.js:145-147 | a parsed value that is not an array is the candidate itself, whatever its `@type` |
| Metadata.ArrayUsesFirstProduct | pages/api/scrape.js:145-147 | an array block yields the record of its first Product element |
| Metadata.ArrayWithoutProduct | pages/api/scrape.js:145-157 | an array block without a Product element yields nothing |
| Metadata.SelectRecord | pages/api/scrape.js:141-163 | the record chosen among the blocks is well formed and carries the page's link |
| Metadata.SelectFirstRecord | pages/api/scrape.js:141-161 | the first block that yields a record decides the result |
| Metadata.SelectedRecordOrigin | pages/api/scrape.js:141-161 | the chosen record comes from a block with no record-yielding block before it |
| Metadata.SelectNoRecord | pages/api/scrape.js:139-163 | no record exactly when no block yields one; a page without blocks gives none |
| Metadata.MalformedBlockSkipped | pages/api/scrape.js:143-160 | a block that fails to parse does not hide a valid Product in the next block |
| Metadata.Extract | pages/api/scrape.js:121-168 | a failed fetch gives no record; a record is well formed and carries the requested link |
| Metadata.ExtractMetadata | pages/api/scrape.js:121-168 | the block loop returns exactly the record of the first block that yields one |
| PriceCompare.LinkRecords | pages/api/scrape.js:31-40 | a site contributes at most one record per link |
| PriceCompare.CollectFromLinks | pages/api/scrape.js:31-40 | the link loop keeps the records found in link order and fetches every link once, in order |
| PriceCompare.CollectFromSites | pages/api/scrape.js:24-41 | the site loop gives every site's records in site order, with one search per site followed by the fetches of its links; no search request when the query has no string form |
| PriceCompare.HandleRequest | pages/api/scrape.js:6-49 | non-POST gives 405 and missing input 400, both with no outbound request; 500 exactly on a discovery failure, after the discovery requests alone, and with no request at all and the conversion's TypeError for a country without a string form; 200 carries at most 25 records, and none, after the discovery requests alone, for a query without a string form |
| PriceCompare.CollectBound | pages/api/scrape.js:24-41 | at most five links per site give at most five records per site |
| PriceCompare.ResultsBound | pages/api/scrape.js:21-44 | a 200 answer holds at most 25 records |
| PriceCompare.CollectAppend | pages/api/scrape.js:24-41 | the records of more sites come after those of the first ones |
| PriceCompare.LinkRecordOrigin | pages/api/scrape.js:31-40 | every record of a site is what extraction gave for one of its links |
| PriceCompare.RecordOrigin | pages/api/scrape.js:24-41 | every record in the answer is what extraction gave for one link found on one site |
| PriceCompare.AnswerRecordShape | pages/api/scrape.js:24-44 | every record of a 200 answer is well formed and links to a page the search found on a discovered site, which needs a query with a string form |
| PriceCompare.NoLinksNoRecords | pages/api/scrape.js:24-44 | when no site has a link the answer is an empty list, not an error; with a query that was never sent, the sites cost no request |
| PriceCompare.EndToEndExample | pages/api/scrape.js:6-49 | two sites, two links on the first and none on the second, one page with a record: the answer is 200 with that one record |

## Left out

- HTTP transport: URL and query construction, headers, the request bodies
  sent to the backends and the `SERP_API_KEY1` credential. The backends are
  inputs of the model.
- Logging (`console.*`): it has no effect on the result.
- The prompt text: it only reaches the generative-text backend, which is an
  input. Only whether the country can be converted to a string is modelled.
- The three environment variables behind `GEMINI_KEYS`: the model takes a
  sequence of credential outcomes of any length. An unset key still costs a
  request, whose failure is one of these outcomes.
- The two regular expressions that find the JSON-LD blocks: a fetched page is
  given directly as its block bodies. A response body that is not text
  (`match` throws, the call yields `null`) is folded into `FetchFailed`.
- `JSON.parse`: left uninterpreted, as a parameter.
- Metadata.RecordOf: `price` is the value `parseFloat` is applied to, not
  its result. Whether that conversion throws is modelled
  (`JsValue.ToStringThrows`). The number it gives for a decimal string, and
  the `NaN` it gives for other text, are not modelled.
- A request whose body is `null` or `undefined`: the code destructures it
  outside the `try`, so the error escapes the handler. The model's `Request`
  always has `query` and `country` fields, with `Undefined` for a missing
  one.
- The backends are assumed to answer identical requests identically within
  one request: the search outcome is a function of the site and the fetch
  outcome a function of the link. A page fetched twice is assumed to give the
  same content both times.
- Strings are sequences of Unicode scalar values, not UTF-16 code units:
  unpaired surrogates are not modelled.
- `pages/index.tsx` (the form and the result list) and `next.config.ts`:
  presentation and configuration, outside the core.
