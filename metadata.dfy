/** `extractMetadata`: the product record embedded in a page as JSON-LD.
    A page is given as the bodies of its `application/ld+json` script
    blocks, in page order. A body is `None` when the inner match finds no
    text, in which case `JSON.parse(undefined)` throws and the block is
    skipped. The inner pattern always matches inside a block the outer one
    found, so `None` never arises from real markup: the model admits more
    pages than the code meets, which only makes its lemmas more general. */
module Metadata {
  import opened Prelude
  import opened JsValue

  /** What fetching a page did. */
  datatype PageOutcome =
      /** The request threw, or the response body was not text. */
    | FetchFailed(message: string)
      /** The page's JSON-LD block bodies; `[]` when the markup has none. */
    | Fetched(blocks: seq<Option<string>>)

  /** The record the handler reports. `price` is the value `parseFloat` is
      applied to, before that conversion. */
  datatype ProductRecord = ProductRecord(
    productName: Value,
    price: Value,
    currency: Value,
    link: Value,
    parameter1: Value)

  /** What every returned record satisfies: a truthy name and price, a
      price that `parseFloat` can convert to a string, a truthy currency
      (the default included), and a secondary identifier that is truthy or
      `null`. */
  predicate WellFormed(r: ProductRecord) {
    && Truthy(r.productName)
    && Truthy(r.price)
    && !ToStringThrows(r.price)
    && Truthy(r.currency)
    && (Truthy(r.parameter1) || r.parameter1 == Null)
  }

  /** `j["@type"] === "Product"`. */
  predicate IsProduct(v: Value) {
    Member(v, "@type") == Str("Product")
  }

  /** The outcome of `elems.find((j) => j["@type"] === "Product")`:
      `Picked(Undefined)` when no element matches, and `Threw` when the
      callback reads `@type` of a `null` before any element matched. */
  datatype Pick = Threw | Picked(product: Value)

  function FindProduct(elems: seq<Value>): Pick {
    if elems == [] then Picked(Undefined)
    else if Nullish(elems[0]) then Threw
    else if IsProduct(elems[0]) then Picked(elems[0])
    else FindProduct(elems[1..])
  }

  /** The elements before index `k` are inspected without a match. */
  predicate NoMatchBefore(elems: seq<Value>, k: nat)
    requires k <= |elems|
  {
    forall i :: 0 <= i < k ==> !Nullish(elems[i]) && !IsProduct(elems[i])
  }

  /** `find` returns the first element whose `@type` is "Product". */
  lemma {:induction false} FindProductFirst(elems: seq<Value>, k: nat)
    requires k < |elems| && NoMatchBefore(elems, k) && IsProduct(elems[k])
    ensures FindProduct(elems) == Picked(elems[k])
  {
    if k > 0 {
      assert !Nullish(elems[0]) && !IsProduct(elems[0]);
      FindProductFirst(elems[1..], k - 1);
    }
  }

  /** A `null` met before any match makes the callback throw. */
  lemma {:induction false} FindProductThrows(elems: seq<Value>, k: nat)
    requires k < |elems| && NoMatchBefore(elems, k) && Nullish(elems[k])
    ensures FindProduct(elems) == Threw
  {
    if k > 0 {
      assert !Nullish(elems[0]) && !IsProduct(elems[0]);
      FindProductThrows(elems[1..], k - 1);
    }
  }

  /** `find` gives `undefined` exactly when it inspects every element
      without a match. */
  lemma {:induction false} FindProductNone(elems: seq<Value>)
    ensures FindProduct(elems) == Picked(Undefined) <==> NoMatchBefore(elems, |elems|)
  {
    if elems != [] {
      FindProductNone(elems[1..]);
      if !Nullish(elems[0]) && !IsProduct(elems[0]) {
        assert forall i :: 1 <= i < |elems| ==> elems[i] == elems[1..][i - 1];
      }
    }
  }

  /** Without a Product element, `find` throws or gives `undefined`. */
  lemma {:induction false} FindProductWithoutProduct(elems: seq<Value>)
    requires forall i :: 0 <= i < |elems| ==> !IsProduct(elems[i])
    ensures FindProduct(elems) == Threw || FindProduct(elems) == Picked(Undefined)
  {
    if elems != [] && !Nullish(elems[0]) {
      assert !IsProduct(elems[0]);
      assert forall i :: 0 <= i < |elems| - 1 ==> elems[1..][i] == elems[i + 1];
      FindProductWithoutProduct(elems[1..]);
    }
  }

  /** The record built from a candidate product: present exactly when
      `product?.name && product?.offers?.price` is truthy and
      `parseFloat(product.offers.price)` does not throw, as it does on a
      price without a string form (the block is then skipped). */
  function RecordOf(product: Value, url: Value): (r: Option<ProductRecord>)
    ensures r.Some? <==>
      && Truthy(Member(product, "name"))
      && Truthy(Member(Member(product, "offers"), "price"))
      && !ToStringThrows(Member(Member(product, "offers"), "price"))
    ensures r.Some? ==> WellFormed(r.value)
    ensures r.Some? ==> r.value.link == url
    ensures r.Some? ==> r.value.productName == Member(product, "name")
    ensures r.Some? ==> r.value.price == Member(Member(product, "offers"), "price")
    ensures r.Some? ==>
      var currency := Member(Member(product, "offers"), "priceCurrency");
      r.value.currency == if Truthy(currency) then currency else Str("USD")
    ensures r.Some? ==>
      var brandName, sku := Member(Member(product, "brand"), "name"), Member(product, "sku");
      r.value.parameter1 ==
        if Truthy(brandName) then brandName else if Truthy(sku) then sku else Null
  {
    var name := Member(product, "name");
    var offers := Member(product, "offers");
    var price := Member(offers, "price");
    if Truthy(name) && Truthy(price) && !ToStringThrows(price) then
      Some(ProductRecord(
        productName := name,
        price := price,
        currency := Or(Member(offers, "priceCurrency"), Str("USD")),
        link := url,
        parameter1 := Or(Or(Member(Member(product, "brand"), "name"), Member(product, "sku")), Null)))
    else None
  }

  /** `JSON.parse(jsonRaw)`, with `None` for a thrown SyntaxError; an
      absent body is parsed as `undefined`, which always throws. */
  function ParseBody(body: Option<string>, parse: string -> Option<Value>): Option<Value> {
    match body
    case None => None
    case Some(text) => parse(text)
  }

  /** The record one block yields, if any: an array is narrowed to its
      first Product element, any other value is the candidate itself. */
  function BlockRecord(body: Option<string>, url: Value, parse: string -> Option<Value>): (r: Option<ProductRecord>)
    ensures ParseBody(body, parse).None? ==> r.None?
    ensures r.Some? ==> WellFormed(r.value) && r.value.link == url
  {
    match ParseBody(body, parse)
    case None => None
    case Some(json) =>
      if json.Arr? then
        match FindProduct(json.elems)
        case Threw => None
        case Picked(product) => RecordOf(product, url)
      else RecordOf(json, url)
  }

  /** A value that is not an array is the candidate, whatever its `@type`. */
  lemma NonArrayUsedDirectly(body: Option<string>, url: Value, parse: string -> Option<Value>)
    requires ParseBody(body, parse).Some? && !ParseBody(body, parse).value.Arr?
    ensures BlockRecord(body, url, parse) == RecordOf(ParseBody(body, parse).value, url)
  {
  }

  /** An array yields the record of its first Product element, and nothing
      when no element is a Product. */
  lemma ArrayUsesFirstProduct(body: Option<string>, url: Value, parse: string -> Option<Value>, k: nat)
    requires ParseBody(body, parse).Some? && ParseBody(body, parse).value.Arr?
    requires var elems := ParseBody(body, parse).value.elems;
      k < |elems| && NoMatchBefore(elems, k) && IsProduct(elems[k])
    ensures BlockRecord(body, url, parse) == RecordOf(ParseBody(body, parse).value.elems[k], url)
  {
    FindProductFirst(ParseBody(body, parse).value.elems, k);
  }

  lemma ArrayWithoutProduct(body: Option<string>, url: Value, parse: string -> Option<Value>)
    requires ParseBody(body, parse).Some? && ParseBody(body, parse).value.Arr?
    requires forall i :: 0 <= i < |ParseBody(body, parse).value.elems| ==>
      !IsProduct(ParseBody(body, parse).value.elems[i])
    ensures BlockRecord(body, url, parse).None?
  {
    FindProductWithoutProduct(ParseBody(body, parse).value.elems);
  }

  /** The record of the first block that yields one. */
  function SelectRecord(blocks: seq<Option<string>>, url: Value, parse: string -> Option<Value>): (r: Option<ProductRecord>)
    ensures r.Some? ==> WellFormed(r.value) && r.value.link == url
  {
    if blocks == [] then None
    else match BlockRecord(blocks[0], url, parse)
      case Some(record) => Some(record)
      case None => SelectRecord(blocks[1..], url, parse)
  }

  /** The blocks before index `k` yield no record. */
  predicate NoRecordBefore(blocks: seq<Option<string>>, url: Value, parse: string -> Option<Value>, k: nat)
    requires k <= |blocks|
  {
    forall i :: 0 <= i < k ==> BlockRecord(blocks[i], url, parse).None?
  }

  /** The first block that yields a record decides the result. */
  lemma {:induction false} SelectFirstRecord(blocks: seq<Option<string>>, url: Value, parse: string -> Option<Value>, k: nat)
    requires k < |blocks| && NoRecordBefore(blocks, url, parse, k)
    requires BlockRecord(blocks[k], url, parse).Some?
    ensures SelectRecord(blocks, url, parse) == BlockRecord(blocks[k], url, parse)
  {
    if k > 0 {
      assert BlockRecord(blocks[0], url, parse).None?;
      assert forall i :: 0 <= i < k - 1 ==> blocks[1..][i] == blocks[i + 1];
      SelectFirstRecord(blocks[1..], url, parse, k - 1);
    }
  }

  /** Conversely, a record comes from a block with none before it. */
  lemma {:induction false} SelectedRecordOrigin(blocks: seq<Option<string>>, url: Value, parse: string -> Option<Value>)
    returns (k: nat)
    requires SelectRecord(blocks, url, parse).Some?
    ensures k < |blocks| && NoRecordBefore(blocks, url, parse, k)
    ensures BlockRecord(blocks[k], url, parse) == SelectRecord(blocks, url, parse)
  {
    if BlockRecord(blocks[0], url, parse).Some? {
      k := 0;
    } else {
      var j := SelectedRecordOrigin(blocks[1..], url, parse);
      k := j + 1;
      assert forall i :: 1 <= i < k ==> blocks[i] == blocks[1..][i - 1];
    }
  }

  /** No record at all exactly when no block yields one; in particular a
      page without blocks gives none. */
  lemma {:induction false} SelectNoRecord(blocks: seq<Option<string>>, url: Value, parse: string -> Option<Value>)
    ensures SelectRecord(blocks, url, parse).None? <==> NoRecordBefore(blocks, url, parse, |blocks|)
  {
    if blocks != [] {
      SelectNoRecord(blocks[1..], url, parse);
      if BlockRecord(blocks[0], url, parse).None? {
        assert forall i :: 1 <= i < |blocks| ==> blocks[i] == blocks[1..][i - 1];
      }
    }
  }

  /** A block that fails to parse is skipped: a malformed block followed by
      one with a valid Product gives that Product's record. */
  lemma MalformedBlockSkipped(bad: Option<string>, good: Option<string>, rest: seq<Option<string>>,
                              url: Value, parse: string -> Option<Value>)
    requires ParseBody(bad, parse).None?
    requires BlockRecord(good, url, parse).Some?
    ensures SelectRecord([bad, good] + rest, url, parse) == BlockRecord(good, url, parse)
  {
    SelectFirstRecord([bad, good] + rest, url, parse, 1);
  }

  /** What `extractMetadata(url)` returns, given what fetching `url` did. */
  function Extract(page: PageOutcome, url: Value, parse: string -> Option<Value>): (r: Option<ProductRecord>)
    ensures page.FetchFailed? ==> r.None?
    ensures r.Some? ==> WellFormed(r.value) && r.value.link == url
  {
    match page
    case FetchFailed(_) => None
    case Fetched(blocks) => SelectRecord(blocks, url, parse)
  }

  /** The block loop: fetch the page, then try its blocks in order,
      skipping those that throw, and return the first record. */
  method ExtractMetadata(url: Value, fetch: Value -> PageOutcome, parse: string -> Option<Value>)
    returns (r: Option<ProductRecord>)
    ensures r == Extract(fetch(url), url, parse)
  {
    var page := fetch(url);
    if page.FetchFailed? {
      return None;
    }
    var matches := page.blocks;
    if matches == [] {
      return None;
    }
    var k := 0;
    while k < |matches|
      invariant k <= |matches|
      invariant SelectRecord(matches, url, parse) == SelectRecord(matches[k..], url, parse)
    {
      assert matches[k..][0] == matches[k];
      assert matches[k..][1..] == matches[k + 1..];
      var json := ParseBody(matches[k], parse);
      if json.None? {
        k := k + 1;
        continue;
      }
      var product: Value;
      if json.value.Arr? {
        var picked := FindProduct(json.value.elems);
        if picked.Threw? {
          k := k + 1;
          continue;
        }
        product := picked.product;
      } else {
        product := json.value;
      }
      var record := RecordOf(product, url);
      if record.Some? {
        return record;
      }
      k := k + 1;
    }
    return None;
  }
}
