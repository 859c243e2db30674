/** `searchWithSerpAPI`: the candidate page links for one site, taken from
    the web-search backend's organic results. */
module LinkSearch {
  import opened Prelude
  import opened JsValue

  /** What the web-search backend did with the query `"<query> site:<site>"`. */
  datatype SearchOutcome =
      /** The request threw (network error or error status). */
    | SearchFailed(message: string)
      /** A response; `organicResults` is the value of
          `data.organic_results`, `Undefined` when it is absent. */
    | Searched(organicResults: Value)

  const MaxLinks: nat := 5

  predicate HasNullishEntry(items: seq<Value>) {
    exists i :: 0 <= i < |items| && Nullish(items[i])
  }

  /** The organic results that `.map((r) => r.link)` walks without
      throwing. `None` when the request threw, when `organic_results` is
      `null` or `undefined` (the optional chain gives `undefined`, and
      `|| []` applies), when it is not an array (calling `.map` throws), or
      when one of its entries is `null` or `undefined` (reading `.link`
      throws). Every `None` ends as an empty link list. */
  function OrganicItems(outcome: SearchOutcome): Option<seq<Value>> {
    match outcome
    case SearchFailed(_) => None
    case Searched(organic) =>
      if organic.Arr? && !HasNullishEntry(organic.elems) then Some(organic.elems) else None
  }

  /** `items.map((r) => r.link)`. */
  function LinkValues(items: seq<Value>): seq<Value> {
    seq(|items|, i requires 0 <= i < |items| => Member(items[i], "link"))
  }

  /** The links of the results that have a truthy one, in result order. */
  function TruthyLinks(items: seq<Value>): seq<Value> {
    Filter(LinkValues(items), Truthy)
  }

  /** `organic_results?.map((r) => r.link).filter(Boolean).slice(0, 5) || []`,
      with every thrown error caught as `[]`. */
  function SearchLinks(outcome: SearchOutcome): (links: seq<Value>)
    ensures |links| <= MaxLinks
    ensures forall i :: 0 <= i < |links| ==> Truthy(links[i])
    ensures outcome.SearchFailed? || !outcome.organicResults.Arr? ==> links == []
    ensures outcome.Searched? && outcome.organicResults.Arr? && HasNullishEntry(outcome.organicResults.elems) ==>
      links == []
    ensures outcome.Searched? && outcome.organicResults.Arr? && !HasNullishEntry(outcome.organicResults.elems) ==>
      var found := TruthyLinks(outcome.organicResults.elems);
      links <= found && |links| == if |found| < MaxLinks then |found| else MaxLinks
  {
    match OrganicItems(outcome)
    case None => []
    case Some(items) => Take(TruthyLinks(items), MaxLinks)
  }

  /** `searchWithSerpAPI(query, site)`: the query string is built inside
      the `try`, so a query without a string form sends no request and
      gives `[]`; any other query gives the links of the backend's answer. */
  function SiteSearch(query: Value, outcome: SearchOutcome): seq<Value> {
    if ToStringThrows(query) then [] else SearchLinks(outcome)
  }

  /** Every link is the `link` of one of the organic results. */
  lemma SearchLinksOrigin(outcome: SearchOutcome, i: nat)
    requires i < |SearchLinks(outcome)|
    ensures OrganicItems(outcome).Some?
    ensures SearchLinks(outcome)[i] in LinkValues(OrganicItems(outcome).value)
  {
    var items := OrganicItems(outcome).value;
    assert SearchLinks(outcome)[i] == TruthyLinks(items)[i];
  }

  /** When at most five results have a truthy link, none of them is lost. */
  lemma SearchLinksComplete(outcome: SearchOutcome, j: nat)
    requires OrganicItems(outcome).Some?
    requires j < |OrganicItems(outcome).value|
    requires Truthy(Member(OrganicItems(outcome).value[j], "link"))
    requires |TruthyLinks(OrganicItems(outcome).value)| <= MaxLinks
    ensures Member(OrganicItems(outcome).value[j], "link") in SearchLinks(outcome)
  {
    var links := LinkValues(OrganicItems(outcome).value);
    FilterKeeps(links, Truthy, links[j]);
  }

  /** A string among the organic results has a truthy `link`, the method
      `String.prototype.link`, so it takes one of the five slots: a string
      before five or more results with links pushes the fifth link out. */
  lemma StringResultTakesSlot(x: string, objects: seq<Value>)
    requires |objects| >= MaxLinks
    requires forall k :: 0 <= k < |objects| ==>
      objects[k].Obj? && "link" in objects[k].props && Truthy(objects[k].props["link"])
    ensures SearchLinks(Searched(Arr([Str(x)] + objects))) ==
      [Builtin("link")] + LinkValues(objects)[..MaxLinks - 1]
  {
    var items := [Str(x)] + objects;
    var links := [Builtin("link")] + LinkValues(objects);
    assert LinkValues(items) == links;
    assert TruthyLinks(items) == links by {
      FilterAllKept(links, Truthy);
    }
    assert !HasNullishEntry(items) by {
      assert forall k :: 0 <= k < |items| ==> !Nullish(items[k]);
    }
    assert links[..MaxLinks] == [Builtin("link")] + LinkValues(objects)[..MaxLinks - 1];
  }

  /** Results appended after the first ones only add links after theirs:
      the links keep the order of the organic results. */
  lemma TruthyLinksInOrder(a: seq<Value>, b: seq<Value>)
    ensures TruthyLinks(a + b) == TruthyLinks(a) + TruthyLinks(b)
  {
    assert LinkValues(a + b) == LinkValues(a) + LinkValues(b);
    FilterAppend(LinkValues(a), LinkValues(b), Truthy);
  }
}
