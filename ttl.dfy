/**
 * The TTL policy: how long a fresh response may be cached, decided from the
 * request's `cache` directive, the adapter's default TTL and the response's
 * `Cache-Control` header (the `s-maxage` and `max-age` response directives of
 * sections 5.2.2.10 and 5.2.2.1 of RFC 9111).
 *
 * The directive-string parser (`cache-control-parser`) is foreign; it is the
 * parameter `parse`: a total function from a header value to the two integer
 * directives, each present or absent.
 */
module Ttl {
  import opened Types
  import opened Strings

  /** The numeric directives the parser reports; absent ones are `None`. */
  datatype CacheControl = CacheControl(sMaxAge: Option<int>, maxAge: Option<int>)

  /** The request-config property holding the per-request directive (`cache?: boolean | number`). */
  const DirectiveField: string := "cache"

  /** JavaScript truthiness of a `number | null` / `number | undefined` (integers only). */
  predicate Truthy(n: Option<int>): (r: bool)
    ensures r <==> n != None && n != Some(0)
  {
    n.Some? && n.value != 0
  }

  /** A header name that lower-cases to `cache-control`: that name in any casing of its letters. */
  predicate IsCacheControl(name: string): (r: bool)
    ensures r <==> SameUpToCase(name, "cache-control")
  {
    assert Lower("cache-control") == "cache-control";
    SameUpToCaseLowersAlike(name, "cache-control");
    Lower(name) == "cache-control"
  }

  /**
   * The index of the first header, at `from` or later, whose name is a
   * `Cache-Control` name; `None` when there is none.
   */
  function FirstCacheControl(headers: Headers, from: nat): (r: Option<nat>)
    requires from <= |headers|
    ensures r.Some? ==> from <= r.value < |headers| && IsCacheControl(headers[r.value].0)
    ensures forall j :: from <= j < |headers| && (r.None? || j < r.value) ==> !IsCacheControl(headers[j].0)
    decreases |headers| - from
  {
    if from == |headers| then None
    else if IsCacheControl(headers[from].0) then Some(from)
    else FirstCacheControl(headers, from + 1)
  }

  /** `s-maxage ?? max-age ?? null`. */
  function Lifetime(cc: CacheControl): (r: Option<int>)
    ensures cc.sMaxAge.Some? ==> r == cc.sMaxAge
    ensures cc.sMaxAge.None? ==> r == cc.maxAge
    ensures r.None? <==> cc.sMaxAge.None? && cc.maxAge.None?
  {
    if cc.sMaxAge.Some? then cc.sMaxAge else cc.maxAge
  }

  /** `parseCacheControlHeader(response)`. */
  function ParseCacheControlHeader(response: Response, parse: string -> CacheControl): (r: Option<int>)
    ensures (forall j :: 0 <= j < |response.headers| ==> !IsCacheControl(response.headers[j].0)) ==> r.None?
    ensures forall i :: 0 <= i < |response.headers| && IsCacheControl(response.headers[i].0)
                        && (forall j :: 0 <= j < i ==> !IsCacheControl(response.headers[j].0))
                        ==> r == Lifetime(parse(response.headers[i].1))
  {
    match FirstCacheControl(response.headers, 0)
    case None => None
    case Some(i) => Lifetime(parse(response.headers[i].1))
  }

  /** `getCacheTTL(config, response, defaultTTL)`. */
  function GetCacheTTL(config: Config, response: Response, defaultTTL: Option<int>,
                       parse: string -> CacheControl): (r: Option<int>)
    ensures r.Some? ==> || (DirectiveField in config && config[DirectiveField] == Num(r.value))
                        || r == defaultTTL
                        || r == ParseCacheControlHeader(response, parse)
    ensures DirectiveField in config && config[DirectiveField].Bool? ==> r.None? || (r == defaultTTL && Truthy(r))
    ensures DirectiveField in config && config[DirectiveField] == Bool(false) ==> r.None?
  {
    if DirectiveField in config && config[DirectiveField].Num? then
      Some(config[DirectiveField].n)
    else if DirectiveField in config && config[DirectiveField].Bool? then
      if config[DirectiveField].b && Truthy(defaultTTL) then defaultTTL else None
    else
      ParseCacheControlHeader(response, parse)
  }

  // ---------------------------------------------------------------------
  // Header lookup
  // ---------------------------------------------------------------------

  /** `cache-control`, `CACHE-CONTROL` and `Cache-Control` all name the header; `Authorization` does not. */
  lemma SpellingsOfCacheControl()
    ensures IsCacheControl("cache-control")
    ensures IsCacheControl("CACHE-CONTROL")
    ensures IsCacheControl("Cache-Control")
    ensures !IsCacheControl("Authorization")
  {
    assert Lower("cache-control") == "cache-control";
    assert Lower("CACHE-CONTROL") == "cache-control";
    assert Lower("Cache-Control") == "cache-control";
    assert Lower("Authorization")[0] == 'a';
  }

  /** No header is named `Cache-Control` in any casing: nothing to derive a TTL from. */
  lemma NoCacheControlHeaderIsNull(response: Response, parse: string -> CacheControl)
    requires forall j :: 0 <= j < |response.headers| ==> !IsCacheControl(response.headers[j].0)
    ensures ParseCacheControlHeader(response, parse) == None
  {
  }

  /** Renaming a header to another casing of its name does not change the result. */
  lemma {:induction false} HeaderNameCaseIgnored(response: Response, i: nat, name: string,
                                                 parse: string -> CacheControl)
    requires i < |response.headers| && Lower(name) == Lower(response.headers[i].0)
    ensures ParseCacheControlHeader(response.(headers := response.headers[i := (name, response.headers[i].1)]), parse)
         == ParseCacheControlHeader(response, parse)
  {
    var h := response.headers;
    var h' := h[i := (name, h[i].1)];
    assert forall j :: 0 <= j < |h| ==> (IsCacheControl(h'[j].0) <==> IsCacheControl(h[j].0)) && h'[j].1 == h[j].1;
    var renamed := response.(headers := h');
    match FirstCacheControl(h, 0)
    case None =>
      NoCacheControlHeaderIsNull(renamed, parse);
    case Some(k) =>
      assert renamed.headers[k] == (h'[k].0, h[k].1);
  }

  /** Only the first `Cache-Control` header counts: whatever follows it is ignored. */
  lemma {:induction false} LaterHeadersIgnored(response: Response, i: nat, rest: Headers,
                                               parse: string -> CacheControl)
    requires i < |response.headers| && IsCacheControl(response.headers[i].0)
    ensures ParseCacheControlHeader(response.(headers := response.headers + rest), parse)
         == ParseCacheControlHeader(response, parse)
  {
    var h := response.headers;
    var k := FirstCacheControl(h, 0).value;
    var longer := response.(headers := h + rest);
    assert longer.headers[k] == h[k];
    assert forall j :: 0 <= j < k ==> longer.headers[j] == h[j];
  }

  /** With both present `s-maxage` wins; with neither there is no TTL. */
  lemma SharedMaxAgeWins(response: Response, i: nat, parse: string -> CacheControl)
    requires i < |response.headers| && IsCacheControl(response.headers[i].0)
    requires forall j :: 0 <= j < i ==> !IsCacheControl(response.headers[j].0)
    ensures parse(response.headers[i].1).sMaxAge.Some? ==>
              ParseCacheControlHeader(response, parse) == parse(response.headers[i].1).sMaxAge
    ensures parse(response.headers[i].1) == CacheControl(None, None) ==>
              ParseCacheControlHeader(response, parse) == None
  {
  }

  // ---------------------------------------------------------------------
  // Precedence of getCacheTTL
  // ---------------------------------------------------------------------

  /** A numeric directive is the TTL, whatever the default and the headers say. */
  lemma NumericDirectiveWins(config: Config, n: int, r1: Response, r2: Response,
                             d1: Option<int>, d2: Option<int>, parse: string -> CacheControl)
    requires DirectiveField in config && config[DirectiveField] == Num(n)
    ensures GetCacheTTL(config, r1, d1, parse) == Some(n)
    ensures GetCacheTTL(config, r2, d2, parse) == GetCacheTTL(config, r1, d1, parse)
  {
  }

  /** A boolean directive yields the default iff it is `true` and the default is truthy; headers are never read. */
  lemma BooleanDirective(config: Config, b: bool, r1: Response, r2: Response,
                         d: Option<int>, parse: string -> CacheControl)
    requires DirectiveField in config && config[DirectiveField] == Bool(b)
    ensures GetCacheTTL(config, r1, d, parse) == (if b && Truthy(d) then d else None)
    ensures GetCacheTTL(config, r1, d, parse) == GetCacheTTL(config, r2, d, parse)
    ensures !b ==> GetCacheTTL(config, r1, d, parse) == None
  {
  }

  /** Without a numeric or boolean directive the TTL is what the header says, whatever the default. */
  lemma NoDirectiveUsesHeader(config: Config, response: Response, d: Option<int>, parse: string -> CacheControl)
    requires DirectiveField !in config || !(config[DirectiveField].Num? || config[DirectiveField].Bool?)
    ensures GetCacheTTL(config, response, d, parse) == ParseCacheControlHeader(response, parse)
  {
  }

  /**
   * The header value is used as the parser reports it, in seconds: for
   * `Cache-Control: public, max-age=100` the TTL is 100, not 100000.
   */
  lemma HeaderSecondsNotConverted(config: Config, response: Response, parse: string -> CacheControl)
    requires DirectiveField !in config
    requires response.headers == [("Cache-Control", "public, max-age=100")]
    requires parse("public, max-age=100") == CacheControl(None, Some(100))
    ensures GetCacheTTL(config, response, None, parse) == Some(100)
  {
    SpellingsOfCacheControl();
  }

  /** A zero lifetime is returned as zero rather than `null`; it is falsy, so nothing is cached. */
  lemma ZeroMaxAgeIsFalsy(config: Config, response: Response, parse: string -> CacheControl)
    requires DirectiveField !in config
    requires response.headers == [("cache-control", "public, max-age=0")]
    requires parse("public, max-age=0") == CacheControl(None, Some(0))
    ensures GetCacheTTL(config, response, None, parse) == Some(0)
    ensures !Truthy(GetCacheTTL(config, response, None, parse))
  {
    SpellingsOfCacheControl();
  }
}
