/** `getSitesForCountry`: ask the generative-text backend for the country's
    leading e-commerce domains, trying the credentials one at a time. */
module SiteDiscovery {
  import opened Prelude
  import opened JsValue
  import opened Text

  /** What the generative-text backend did with one credential. */
  datatype GenerateOutcome =
      /** A response; `text` is the value at
          `data.candidates[0].content.parts[0].text`, `Undefined` when any
          step of that path is missing. */
    | Generated(text: Value)
      /** The request threw; `status` is the HTTP status of the error's
          response, `None` when the error carries no response. */
    | GenerateFailed(status: Option<int>, message: string)

  /** The outcome of site discovery: a domain list, or the error it throws. */
  datatype Discovery =
    | Found(sites: seq<string>)
      /** An error rethrown from one credential's attempt. */
    | Rejected(status: Option<int>, message: string)
      /** Every credential failed with 503 or 429. */
    | Exhausted

  const MaxSites: nat := 5
  const ExhaustedMessage := "All Gemini keys exhausted or failed (503/429)."
  /** The TypeError a truthy non-string response text raises at `raw.split`. */
  const SplitTypeError := "raw.split is not a function"

  /** A failure after which the next credential is tried: HTTP 503 or 429. */
  predicate IsTransient(o: GenerateOutcome) {
    o.GenerateFailed? && (o.status == Some(503) || o.status == Some(429))
  }

  predicate ContainsDot(line: string) {
    '.' in line
  }

  function TrimAll(lines: seq<string>): seq<string> {
    seq(|lines|, i requires 0 <= i < |lines| => Trim(lines[i]))
  }

  /** The lines of the model's answer that contain a dot, trimmed, in order. */
  function DottedLines(raw: string): seq<string> {
    Filter(TrimAll(SplitLines(raw)), ContainsDot)
  }

  /** `raw.split("\n").map(trim).filter(includes(".")).slice(0, 5)`: at
      most five of the dotted lines, the first ones in their order. */
  function DomainLines(raw: string): (sites: seq<string>)
    ensures |sites| <= MaxSites
    ensures sites <= DottedLines(raw)
    ensures |DottedLines(raw)| <= MaxSites ==> sites == DottedLines(raw)
    ensures |sites| == if |DottedLines(raw)| < MaxSites then |DottedLines(raw)| else MaxSites
  {
    Take(DottedLines(raw), MaxSites)
  }

  /** Each domain is the trimmed form of one line of the answer, and
      contains a dot. */
  lemma DomainLinesShape(raw: string)
    ensures forall i :: 0 <= i < |DomainLines(raw)| ==>
      ContainsDot(DomainLines(raw)[i]) && IsTrimmed(DomainLines(raw)[i]) &&
      DomainLines(raw)[i] in TrimAll(SplitLines(raw))
  {
    var sites, dotted, trimmed := DomainLines(raw), DottedLines(raw), TrimAll(SplitLines(raw));
    forall i | 0 <= i < |sites|
      ensures ContainsDot(sites[i]) && IsTrimmed(sites[i]) && sites[i] in trimmed
    {
      assert sites[i] == dotted[i];
      var j :| 0 <= j < |trimmed| && trimmed[j] == sites[i];
    }
  }

  /** Every trimmed line with a dot is kept as long as there are at most
      five of them. */
  lemma DomainLinesComplete(raw: string, j: nat)
    requires j < |SplitLines(raw)|
    requires ContainsDot(Trim(SplitLines(raw)[j]))
    requires |DottedLines(raw)| <= MaxSites
    ensures Trim(SplitLines(raw)[j]) in DomainLines(raw)
  {
    var trimmed := TrimAll(SplitLines(raw));
    FilterKeeps(trimmed, ContainsDot, trimmed[j]);
  }

  /** An empty answer gives no site. */
  lemma DomainLinesOfEmpty()
    ensures DomainLines("") == []
  {
    assert SplitLines("") == [""];
    assert TrimAll([""]) == [""];
  }

  /** The result of the attempt that ends the search. A response is turned
      into a domain list: `text || ""` is split, which throws a TypeError
      for a truthy text that is not a string; a falsy text becomes `""`,
      which yields no site (DomainLinesOfEmpty). A failure is rethrown. */
  function Settle(o: GenerateOutcome): (r: Discovery)
    ensures !r.Exhausted?
  {
    match o
    case Generated(text) =>
      if !Truthy(text) then Found([])
      else if text.Str? then Found(DomainLines(text.s))
      else Rejected(None, SplitTypeError)
    case GenerateFailed(status, message) => Rejected(status, message)
  }

  /** The outcome of trying the credentials in order. */
  function Discover(outcomes: seq<GenerateOutcome>): Discovery {
    if outcomes == [] then Exhausted
    else if IsTransient(outcomes[0]) then Discover(outcomes[1..])
    else Settle(outcomes[0])
  }

  /** How many credentials are tried, that is, how many requests are sent. */
  function Attempts(outcomes: seq<GenerateOutcome>): (n: nat)
    ensures n <= |outcomes|
    ensures outcomes != [] ==> n >= 1
  {
    if outcomes == [] then 0
    else if IsTransient(outcomes[0]) then 1 + Attempts(outcomes[1..])
    else 1
  }

  /** When the first `n` credentials fail with 503 or 429 and credential
      `n + 1` does not, its outcome is the result and no later credential is
      tried. */
  lemma {:induction false} FirstDecisiveAttempt(outcomes: seq<GenerateOutcome>, n: nat)
    requires n < |outcomes|
    requires forall i :: 0 <= i < n ==> IsTransient(outcomes[i])
    requires !IsTransient(outcomes[n])
    ensures Discover(outcomes) == Settle(outcomes[n])
    ensures Attempts(outcomes) == n + 1
  {
    if n > 0 {
      assert IsTransient(outcomes[0]);
      FirstDecisiveAttempt(outcomes[1..], n - 1);
    }
  }

  /** The call throws the "exhausted" error exactly when every credential
      fails with 503 or 429, and then every credential has been tried. */
  lemma {:induction false} ExhaustedIffAllTransient(outcomes: seq<GenerateOutcome>)
    ensures Discover(outcomes) == Exhausted <==>
      forall i :: 0 <= i < |outcomes| ==> IsTransient(outcomes[i])
    ensures Discover(outcomes) == Exhausted ==> Attempts(outcomes) == |outcomes|
  {
    if outcomes != [] {
      ExhaustedIffAllTransient(outcomes[1..]);
      if IsTransient(outcomes[0]) {
        assert forall i :: 1 <= i < |outcomes| ==> outcomes[i] == outcomes[1..][i - 1];
      }
    }
  }

  /** A discovered site list has at most five trimmed entries with a dot. */
  lemma {:induction false} FoundSitesShape(outcomes: seq<GenerateOutcome>)
    requires Discover(outcomes).Found?
    ensures |Discover(outcomes).sites| <= MaxSites
    ensures forall i :: 0 <= i < |Discover(outcomes).sites| ==>
      ContainsDot(Discover(outcomes).sites[i]) && IsTrimmed(Discover(outcomes).sites[i])
  {
    if IsTransient(outcomes[0]) {
      FoundSitesShape(outcomes[1..]);
    }
  }

  /** `getSitesForCountry(country)`: the prompt interpolates the country
      before the credential loop and outside its `try`, so a country
      without a string form throws a TypeError before any request. */
  function SitesForCountry(country: Value, outcomes: seq<GenerateOutcome>): Discovery {
    if ToStringThrows(country) then Rejected(None, ConversionTypeError) else Discover(outcomes)
  }

  /** How many generative-text requests `getSitesForCountry` sends. */
  function CountryAttempts(country: Value, outcomes: seq<GenerateOutcome>): nat {
    if ToStringThrows(country) then 0 else Attempts(outcomes)
  }

  /** The prompt, then the credential loop: the first success is returned,
      503 and 429 move on to the next credential, any other failure is
      rethrown at once. */
  method GetSitesForCountry(country: Value, outcomes: seq<GenerateOutcome>) returns (r: Discovery, attempts: nat)
    ensures r == SitesForCountry(country, outcomes)
    ensures attempts == CountryAttempts(country, outcomes)
  {
    if ToStringThrows(country) {
      return Rejected(None, ConversionTypeError), 0;
    }
    var k := 0;
    while k < |outcomes|
      invariant k <= |outcomes|
      invariant Discover(outcomes) == Discover(outcomes[k..])
      invariant Attempts(outcomes) == k + Attempts(outcomes[k..])
    {
      var outcome := outcomes[k];
      assert outcomes[k..][0] == outcome;
      assert outcomes[k..][1..] == outcomes[k + 1..];
      if outcome.Generated? {
        var text := outcome.text;
        if !Truthy(text) {
          return Found([]), k + 1;
        } else if text.Str? {
          return Found(DomainLines(text.s)), k + 1;
        }
        return Rejected(None, SplitTypeError), k + 1;
      }
      if outcome.status == Some(503) || outcome.status == Some(429) {
        k := k + 1;
      } else {
        return Rejected(outcome.status, outcome.message), k + 1;
      }
    }
    return Exhausted, k;
  }
}
