/**
 * The request function built by `createCacheAdapter`: it checks whether a
 * request is a GET, serves a cached response when there is one, and otherwise
 * calls the transport and stores the fresh response when the TTL policy says so.
 *
 * The transport, the logger and the storage backend are objects handed to the
 * adapter; the normalised URL (`axios.getUri(config)`) and the two clock
 * readings (at lookup and at store) are inputs of each request.
 */
module Adapter {
  import opened Types
  import opened Strings
  import opened Cache
  import opened Ttl

  /** The options of `createCacheAdapter` that shape each request. */
  datatype Options = Options(
    debug: bool,
    /** Accepted, but the TTL policy never reads it. */
    parseHeaders: bool,
    defaultTTL: Option<int>,
    /** The `Cache-Control` directive parser. */
    parse: string -> CacheControl)

  /** The defaults of `createCacheAdapter({})`: no debug output, no header parsing, no default TTL. */
  function DefaultOptions(parse: string -> CacheControl): (o: Options)
    ensures !o.debug && !o.parseHeaders && o.defaultTTL == None && o.parse == parse
  {
    Options(false, false, None, parse)
  }

  /** `config.method?.toLowerCase() === 'get'`, or the TypeError it throws. */
  function IsGetRequest(config: Config): (r: Result<bool, Failure>)
    ensures r == Success(true) <==> "method" in config && config["method"].Str? && Lower(config["method"].s) == "get"
    ensures r.Failure? <==> "method" in config && !config["method"].Str? && !config["method"].Null?
    ensures r.Failure? ==> r.error == MethodNotString
  {
    if "method" !in config || config["method"].Null? then Success(false)
    else if config["method"].Str? then Success(Lower(config["method"].s) == "get")
    else Failure(MethodNotString)
  }

  /** Any casing of `get` is a GET; `post`, `put`, `patch`, `delete` and a missing method are not. */
  lemma GetSpellings(config: Config)
    ensures IsGetRequest(config["method" := Str("get")]) == Success(true)
    ensures IsGetRequest(config["method" := Str("GET")]) == Success(true)
    ensures IsGetRequest(config["method" := Str("Get")]) == Success(true)
    ensures IsGetRequest(config["method" := Str("post")]) == Success(false)
    ensures IsGetRequest(config["method" := Str("put")]) == Success(false)
    ensures IsGetRequest(config["method" := Str("patch")]) == Success(false)
    ensures IsGetRequest(config["method" := Str("delete")]) == Success(false)
    ensures IsGetRequest(config - {"method"}) == Success(false)
  {
    assert Lower("post")[0] == 'p';
    assert Lower("put")[0] == 'p';
    assert Lower("patch")[0] == 'p';
    assert Lower("delete")[0] == 'd';
  }

  /** `{ ...cached, config: { ...config, ...cached.config } }`: cached config fields win. */
  function ServeCached(cached: Response, config: Config): (r: Response)
    ensures r.(config := cached.config) == cached
    ensures r.config.Keys == config.Keys + cached.config.Keys
    ensures forall k :: k in cached.config ==> r.config[k] == cached.config[k]
    ensures forall k :: k in config && k !in cached.config ==> r.config[k] == config[k]
  {
    cached.(config := config + cached.config)
  }

  const HitPrefix: string := "[axios-cache] serving cached response for url: "
  const StorePrefix: string := "[axios-cache] caching response for url: "
  const TtlInfix: string := " with TTL: "

  /** The debug message of a hit: the fixed prefix, then the URL and nothing after it. */
  function HitMessage(url: string): (m: string)
    ensures |m| == |HitPrefix| + |url|
    ensures m[..|HitPrefix|] == HitPrefix && m[|HitPrefix|..] == url
  {
    HitPrefix + url
  }

  /** The debug message of a store: the fixed prefix, the URL, ` with TTL: ` and the rendered TTL. */
  function StoreMessage(url: string, ttl: int): (m: string)
    ensures |m| == |StorePrefix| + |url| + |TtlInfix| + |IntToString(ttl)|
    ensures m[..|StorePrefix|] == StorePrefix
    ensures m[|StorePrefix|..|StorePrefix| + |url|] == url
    ensures m[|StorePrefix| + |url|..|StorePrefix| + |url| + |TtlInfix|] == TtlInfix
    ensures m[|StorePrefix| + |url| + |TtlInfix|..] == IntToString(ttl)
  {
    StorePrefix + url + TtlInfix + IntToString(ttl)
  }

  /** The store message for a URL tells which TTL was used: different TTLs give different messages. */
  lemma {:induction false} StoreMessageDeterminesTtl(url: string, m: int, n: int)
    requires StoreMessage(url, m) == StoreMessage(url, n)
    ensures m == n
  {
    var from := |StorePrefix| + |url| + |TtlInfix|;
    assert IntToString(m) == StoreMessage(url, m)[from..];
    assert IntToString(n) == StoreMessage(url, n)[from..];
    IntToStringInjective(m, n);
  }

  /** A hit message and a store message can always be told apart. */
  lemma MessagesDistinct(url: string, url': string, ttl: int)
    ensures HitMessage(url) != StoreMessage(url', ttl)
  {
    assert HitMessage(url)[14] == 's';
    assert StoreMessage(url', ttl)[14] == 'c';
  }

  /**
   * Everything one request does: what it resolves to, the backend contents
   * afterwards, the backend calls it made, the configs it handed to the
   * transport and the messages it logged.
   */
  datatype Run = Run(
    result: Result<Response, Failure>,
    items: map<string, Entry>,
    accesses: seq<Access>,
    sent: seq<Config>,
    logs: seq<string>)

  /**
   * One request with configuration `config` for `url`, against backend
   * contents `items`; the clock reads `lookupTime` in `cache.get` and
   * `storeTime` in `cache.set`; `transport` is what the transport answers.
   */
  function Intercept(opts: Options, config: Config, url: string, items: map<string, Entry>,
                     lookupTime: int, storeTime: int,
                     transport: Config -> Result<Response, Failure>): (run: Run)
    ensures run.sent == [] || run.sent == [config]
    ensures run.result.Failure? && run.sent == [] ==> run.result == Failure(MethodNotString)
    ensures |run.logs| <= 1 && (!opts.debug ==> run.logs == [])
    ensures |run.accesses| <= 3
  {
    match IsGetRequest(config)
    case Failure(e) => Run(Failure(e), items, [], [], [])
    case Success(isGet) =>
      var cached := if isGet then Lookup(items, url, lookupTime) else None;
      var afterGet := if isGet then Evict(items, url, lookupTime) else items;
      var lookups := if isGet then LookupAccesses(items, url, lookupTime) else [];
      if cached.Some? then
        Run(Success(ServeCached(cached.value, config)), afterGet, lookups, [],
            if opts.debug then [HitMessage(url)] else [])
      else
        match transport(config)
        case Failure(e) => Run(Failure(e), afterGet, lookups, [config], [])
        case Success(response) =>
          var ttl := GetCacheTTL(config, response, opts.defaultTTL, opts.parse);
          if isGet && Truthy(ttl) then
            Run(Success(response), Store(afterGet, url, response, ttl.value, storeTime),
                lookups + [Write(CacheKey(url), StoredEntry(response, ttl.value, storeTime))], [config],
                if opts.debug then [StoreMessage(url, ttl.value)] else [])
          else
            Run(Success(response), afterGet, lookups, [config], [])
  }

  /** The run wrote an entry to the backend. */
  predicate Wrote(run: Run)
  {
    exists a :: a in run.accesses && a.Write?
  }

  // ---------------------------------------------------------------------
  // Properties of one request
  // ---------------------------------------------------------------------

  /** A method that is neither a string nor null makes the request fail before anything else happens. */
  lemma NonStringMethodFails(opts: Options, config: Config, url: string, items: map<string, Entry>,
                             t1: int, t2: int, transport: Config -> Result<Response, Failure>)
    requires "method" in config && !config["method"].Str? && !config["method"].Null?
    ensures var run := Intercept(opts, config, url, items, t1, t2, transport);
      run == Run(Failure(MethodNotString), items, [], [], [])
  {
  }

  /** A request that is not a GET never calls `cache.get` or `cache.set`; it is the transport's call alone. */
  lemma NonGetBypassesCache(opts: Options, config: Config, url: string, items: map<string, Entry>,
                            t1: int, t2: int, transport: Config -> Result<Response, Failure>)
    requires IsGetRequest(config) == Success(false)
    ensures var run := Intercept(opts, config, url, items, t1, t2, transport);
      && run.result == transport(config)
      && run.items == items
      && run.accesses == []
      && run.sent == [config]
      && run.logs == []
  {
  }

  /** A hit does not call the transport, keeps the backend as it was and answers with the cached response. */
  lemma HitSkipsTransport(opts: Options, config: Config, url: string, items: map<string, Entry>,
                          t1: int, t2: int, transport: Config -> Result<Response, Failure>)
    requires IsGetRequest(config) == Success(true)
    requires Lookup(items, url, t1).Some?
    ensures var run := Intercept(opts, config, url, items, t1, t2, transport);
      && run.result == Success(ServeCached(items[CacheKey(url)].value, config))
      && run.items == items
      && run.accesses == [Read(CacheKey(url))]
      && run.sent == []
      && run.logs == (if opts.debug then [HitMessage(url)] else [])
  {
  }

  /** A miss calls the transport exactly once with the incoming config and answers with what it answered. */
  lemma MissCallsTransportOnce(opts: Options, config: Config, url: string, items: map<string, Entry>,
                               t1: int, t2: int, transport: Config -> Result<Response, Failure>)
    requires IsGetRequest(config) == Success(true)
    requires Lookup(items, url, t1).None?
    ensures var run := Intercept(opts, config, url, items, t1, t2, transport);
      && run.sent == [config]
      && run.result == transport(config)
      && run.accesses[..|LookupAccesses(items, url, t1)|] == LookupAccesses(items, url, t1)
  {
  }

  /** A failing transport propagates its failure and nothing is written. */
  lemma TransportFailureWritesNothing(opts: Options, config: Config, url: string, items: map<string, Entry>,
                                      t1: int, t2: int, transport: Config -> Result<Response, Failure>)
    requires transport(config).Failure?
    ensures var run := Intercept(opts, config, url, items, t1, t2, transport);
      && (run.result.Failure? ==> run.items == (if IsGetRequest(config) == Success(true) then Evict(items, url, t1) else items))
      && !Wrote(run)
      && (run.result.Success? <==> IsGetRequest(config) == Success(true) && Lookup(items, url, t1).Some?)
      && (IsGetRequest(config).Success? && !(IsGetRequest(config) == Success(true) && Lookup(items, url, t1).Some?)
          ==> run.result == transport(config))
  {
  }

  /**
   * The response is stored iff the request is a GET, the lookup missed, the
   * transport answered and the TTL is truthy; the entry then holds the fresh
   * response until `storeTime + ttl`, and the store completes within the request.
   */
  lemma {:induction false} StoreIff(opts: Options, config: Config, url: string, items: map<string, Entry>,
                                    t1: int, t2: int, transport: Config -> Result<Response, Failure>)
    ensures var run := Intercept(opts, config, url, items, t1, t2, transport);
      Wrote(run) <==>
        && IsGetRequest(config) == Success(true)
        && Lookup(items, url, t1).None?
        && transport(config).Success?
        && Truthy(GetCacheTTL(config, transport(config).value, opts.defaultTTL, opts.parse))
    ensures var run := Intercept(opts, config, url, items, t1, t2, transport);
      Wrote(run) ==>
        var ttl := GetCacheTTL(config, transport(config).value, opts.defaultTTL, opts.parse).value;
        && run.items == Store(Evict(items, url, t1), url, transport(config).value, ttl, t2)
        && run.accesses[|run.accesses| - 1] == Write(CacheKey(url), StoredEntry(transport(config).value, ttl, t2))
        && run.result == transport(config)
    ensures var run := Intercept(opts, config, url, items, t1, t2, transport);
      !Wrote(run) ==> run.items == (if IsGetRequest(config) == Success(true) then Evict(items, url, t1) else items)
  {
    var run := Intercept(opts, config, url, items, t1, t2, transport);
    match IsGetRequest(config)
    case Failure(_) =>
    case Success(isGet) =>
      var lookups := if isGet then LookupAccesses(items, url, t1) else [];
      assert forall a :: a in lookups ==> !a.Write?;
      if isGet && Lookup(items, url, t1).None? && transport(config).Success? {
        var ttl := GetCacheTTL(config, transport(config).value, opts.defaultTTL, opts.parse);
        if Truthy(ttl) {
          assert run.accesses[|run.accesses| - 1] in run.accesses;
        } else {
          assert run.accesses == lookups;
        }
      } else if isGet && Lookup(items, url, t1).Some? {
        assert run.accesses == lookups;
      } else {
        assert run.accesses == lookups;
      }
  }

  /** Every backend call a request makes is at `CacheKey(url)`. */
  lemma {:induction false} AccessesUseCacheKeyOfUrl(opts: Options, config: Config, url: string, items: map<string, Entry>,
                                                    t1: int, t2: int, transport: Config -> Result<Response, Failure>)
    ensures var run := Intercept(opts, config, url, items, t1, t2, transport);
      forall a :: a in run.accesses ==> a.key == CacheKey(url)
  {
    AccessesUseCacheKey(items, url, t1);
  }

  /** With `debug` one message is logged on a hit and one on a store; otherwise none ever. */
  lemma {:induction false} LogCount(opts: Options, config: Config, url: string, items: map<string, Entry>,
                                    t1: int, t2: int, transport: Config -> Result<Response, Failure>)
    ensures var run := Intercept(opts, config, url, items, t1, t2, transport);
      var hit := IsGetRequest(config) == Success(true) && Lookup(items, url, t1).Some?;
      |run.logs| == (if opts.debug && (hit || Wrote(run)) then 1 else 0)
    ensures !opts.debug ==> Intercept(opts, config, url, items, t1, t2, transport).logs == []
  {
    StoreIff(opts, config, url, items, t1, t2, transport);
  }

  /** The `parseHeaders` option makes no difference to a request. */
  lemma ParseHeadersIgnored(opts: Options, config: Config, url: string, items: map<string, Entry>,
                            t1: int, t2: int, transport: Config -> Result<Response, Failure>)
    ensures Intercept(opts.(parseHeaders := true), config, url, items, t1, t2, transport)
         == Intercept(opts.(parseHeaders := false), config, url, items, t1, t2, transport)
  {
  }

  // ---------------------------------------------------------------------
  // Two requests
  // ---------------------------------------------------------------------

  /**
   * After a GET stored its response, a later GET for the same URL, made no
   * later than the expiration, is served from the cache: the transport is not
   * called again and the answer is the stored response under the new config.
   */
  lemma {:induction false} StoredResponseServedLater(opts: Options, config: Config, config': Config, url: string,
                                                     items: map<string, Entry>, t1: int, t2: int, t3: int, t4: int,
                                                     transport: Config -> Result<Response, Failure>,
                                                     transport': Config -> Result<Response, Failure>)
    requires Wrote(Intercept(opts, config, url, items, t1, t2, transport))
    requires IsGetRequest(config') == Success(true)
    requires t3 <= t2 + GetCacheTTL(config, transport(config).value, opts.defaultTTL, opts.parse).value
    ensures var first := Intercept(opts, config, url, items, t1, t2, transport);
      var second := Intercept(opts, config', url, first.items, t3, t4, transport');
      && second.sent == []
      && second.items == first.items
      && second.result == Success(ServeCached(transport(config).value, config'))
  {
    StoreIff(opts, config, url, items, t1, t2, transport);
    var first := Intercept(opts, config, url, items, t1, t2, transport);
    var ttl := GetCacheTTL(config, transport(config).value, opts.defaultTTL, opts.parse).value;
    SetThenGetWithinTtl(Evict(items, url, t1), url, transport(config).value, ttl, t2, t3);
    HitSkipsTransport(opts, config', url, first.items, t3, t4, transport');
  }

  /** Past the expiration the second GET misses and goes to the transport again. */
  lemma {:induction false} StoredResponseExpires(opts: Options, config: Config, config': Config, url: string,
                                                 items: map<string, Entry>, t1: int, t2: int, t3: int, t4: int,
                                                 transport: Config -> Result<Response, Failure>,
                                                 transport': Config -> Result<Response, Failure>)
    requires Wrote(Intercept(opts, config, url, items, t1, t2, transport))
    requires IsGetRequest(config') == Success(true)
    requires t3 > t2 + GetCacheTTL(config, transport(config).value, opts.defaultTTL, opts.parse).value
    ensures var first := Intercept(opts, config, url, items, t1, t2, transport);
      var second := Intercept(opts, config', url, first.items, t3, t4, transport');
      && second.sent == [config']
      && second.result == transport'(config')
      && second.accesses[..2] == [Read(CacheKey(url)), Remove(CacheKey(url))]
  {
    StoreIff(opts, config, url, items, t1, t2, transport);
    var first := Intercept(opts, config, url, items, t1, t2, transport);
    var ttl := GetCacheTTL(config, transport(config).value, opts.defaultTTL, opts.parse).value;
    SetThenGetAfterTtl(Evict(items, url, t1), url, transport(config).value, ttl, t2, t3, t3);
    MissCallsTransportOnce(opts, config', url, first.items, t3, t4, transport');
  }

  // ---------------------------------------------------------------------
  // The injected collaborators and the adapter object
  // ---------------------------------------------------------------------

  /** The transport (`AxiosAdapter`); `calls` records every config it was given. */
  class Transport {
    const respond: Config -> Result<Response, Failure>
    ghost var calls: seq<Config>

    constructor (respond: Config -> Result<Response, Failure>)
      ensures this.respond == respond && calls == []
    {
      this.respond := respond;
      calls := [];
    }

    method Execute(config: Config) returns (r: Result<Response, Failure>)
      modifies this
      ensures r == respond(config)
      ensures calls == old(calls) + [config]
    {
      r := respond(config);
      calls := calls + [config];
    }
  }

  /** The logger (`CacheLogger`); `messages` holds what was logged, in order. */
  class Logger {
    var messages: seq<string>

    constructor ()
      ensures messages == []
    {
      messages := [];
    }

    method Log(message: string)
      modifies this
      ensures messages == old(messages) + [message]
    {
      messages := messages + [message];
    }
  }

  /** The function `createCacheAdapter` returns, with what it closes over. */
  class CacheAdapter {
    const options: Options
    const cache: CacheService
    const transport: Transport
    const logger: Logger

    /** `createCacheAdapter(options)`: a fresh `CacheService` over the given backend. */
    constructor (options: Options, storage: ItemStore, transport: Transport, logger: Logger)
      ensures this.options == options && this.transport == transport && this.logger == logger
      ensures fresh(cache) && cache.storage == storage
    {
      this.options := options;
      this.transport := transport;
      this.logger := logger;
      cache := new CacheService(storage);
    }

    /** One call of the adapter for `config`, whose normalised URL is `url`. */
    method Request(config: Config, url: string, lookupTime: int, storeTime: int)
      returns (r: Result<Response, Failure>)
      modifies cache.storage, transport, logger
      ensures var run := Intercept(options, config, url, old(cache.storage.items), lookupTime, storeTime, transport.respond);
        && r == run.result
        && cache.storage.items == run.items
        && cache.storage.trace == old(cache.storage.trace) + run.accesses
        && transport.calls == old(transport.calls) + run.sent
        && logger.messages == old(logger.messages) + run.logs
    {
      var isGet := IsGetRequest(config);
      if isGet.Failure? {
        return Failure(isGet.error);
      }
      var cached: Option<Response> := None;
      if isGet.value {
        cached := cache.Get(url, lookupTime);
      }
      if cached.Some? {
        if options.debug {
          logger.Log(HitMessage(url));
        }
        return Success(ServeCached(cached.value, config));
      }
      var outcome := transport.Execute(config);
      if outcome.Failure? {
        return outcome;
      }
      var response := outcome.value;
      var ttl := GetCacheTTL(config, response, options.defaultTTL, options.parse);
      if isGet.value && Truthy(ttl) {
        if options.debug {
          logger.Log(StoreMessage(url, ttl.value));
        }
        cache.Set(url, response, ttl.value, storeTime);
      }
      return Success(response);
    }
  }
}
