/**
 * The dispatcher as values: the request state a command set accumulates,
 * the world it acts on (token cache, request log, queue, memo slots), and
 * `send` with its auth chain, both strategies and both delivery paths as
 * functions. The class in module Lingo is proved to compute exactly these.
 */
module Dispatch {
  import opened Wrappers
  import opened Json
  import Url
  import CacheKey

  type Fields = map<string, Value>
  type Headers = map<string, string>

  /**
   * One entry of a mode's `commands` map. A sync command is read for `verb`,
   * `url` and `shouldReturn`, an async one for `action`; an absent entry is null.
   */
  datatype CommandConfig = CommandConfig(verb: string, url: string, shouldReturn: Value, action: Value)

  /** One entry of a mode's `auth` map: the strategy name and its config. */
  datatype Strategy =
    | ApiKeysAuth(entries: seq<(string, Value)>)
    | OAuth2Auth(config: Fields)

  /** The `$sync` or `$async` property of a command set; absent parts are empty. */
  datatype ModeConfig = ModeConfig(commands: map<string, CommandConfig>, auth: seq<Strategy>, baseUrl: string, queue: string)

  /** The request state of one dispatcher instance. */
  datatype State = State(
    command: string,
    bindings: seq<string>,
    data: Fields,
    params: Fields,
    headers: Headers,
    mode: string,
    sync: ModeConfig,
    async: ModeConfig)

  /**
   * A concrete command set: its short class name and the defaults it declares
   * for the instance properties, its `$sync` and `$async` configuration
   * included. A command set that redeclares none of `$command`, `$bindings`,
   * `$data`, `$params`, `$headers` and `$mode` declares `BaseDefaults`.
   */
  datatype CommandSet = CommandSet(name: string, declared: State)

  datatype Request = Request(verb: string, url: string, headers: Headers, query: Fields, body: Fields)

  /** What the HTTP transport does with a request: a decoded body, or an exception. */
  datatype Reply = Delivered(body: Value) | Refused(reason: string)

  /** A message handed to the queue. */
  datatype Job = Job(queue: string, payload: Value)

  /** A cached token and the TTL it was stored with. */
  datatype CacheEntry = CacheEntry(token: Value, ttl: Value)

  /** What lies outside the instance: the token cache, the requests made, the jobs queued, the memo slots. */
  datatype World = World(cache: map<string, CacheEntry>, requests: seq<Request>, jobs: seq<Job>, keySlots: map<string, string>)

  /** Whether the application runs in the testing environment, and the HTTP transport. */
  datatype Env = Env(testing: bool, transport: Request -> Reply)

  datatype Failure =
    | UnsupportedMode
    | CommandNotFound
    | TransportFailure(reason: string)
    | NotAString   // PHP's Error on interpolating an object into a string
    | Unbounded    // the token exchange re-enters itself until PHP runs out of stack or memory

  const JsonHeaders: Headers := map["Content-Type" := "application/json", "Accept" := "application/json"]

  /** The acknowledgement every async dispatch returns. */
  const Ack: Value := Obj(map["log" := Str("async message sent")])

  /** `array_merge` of two string-keyed arrays: later entries win, the others are kept. */
  function Merge<V>(base: map<string, V>, extra: map<string, V>): (r: map<string, V>)
    ensures r.Keys == base.Keys + extra.Keys
    ensures forall k :: k in extra ==> r[k] == extra[k]
    ensures forall k :: k in base && k !in extra ==> r[k] == base[k]
  {
    base + extra
  }

  /** The property defaults `BaseLingo` itself declares. */
  function BaseDefaults(sync: ModeConfig, async: ModeConfig): State
  {
    State("", [], map[], map[], map[], "sync", sync, async)
  }

  /**
   * A freshly constructed instance of the command set: its declared defaults,
   * with the JSON content-type and accept headers merged over its declared
   * headers.
   */
  function Initial(cs: CommandSet): (s: State)
    ensures s == cs.declared.(headers := s.headers)
    ensures s.headers.Keys == cs.declared.headers.Keys + {"Content-Type", "Accept"}
    ensures s.headers["Content-Type"] == "application/json" && s.headers["Accept"] == "application/json"
    ensures forall k :: k in cs.declared.headers && k != "Content-Type" && k != "Accept" ==> s.headers[k] == cs.declared.headers[k]
  {
    cs.declared.(headers := Merge(cs.declared.headers, JsonHeaders))
  }

  /** A command set that redeclares nothing starts in sync mode with only the two JSON headers. */
  lemma BaseDefaultsStartClean(name: string, sync: ModeConfig, async: ModeConfig)
    ensures Initial(CommandSet(name, BaseDefaults(sync, async))) == State("", [], map[], map[], JsonHeaders, "sync", sync, async)
  {
    assert Merge(map[], JsonHeaders) == JsonHeaders;
  }

  predicate SupportedMode(mode: string)
  {
    mode == "sync" || mode == "async"
  }

  /** The configuration of the selected mode. */
  function Active(s: State): ModeConfig
    requires SupportedMode(s.mode)
  {
    if s.mode == "sync" then s.sync else s.async
  }

  /** Whether an auth chain holds an `oauth2` entry. */
  predicate HasOAuth2(strategies: seq<Strategy>)
    decreases |strategies|
  {
    strategies != [] && (strategies[0].OAuth2Auth? || HasOAuth2(strategies[1..]))
  }

  /** The position of the first `oauth2` entry of a chain; every entry before it is `apiKeys`. */
  function FirstOAuth2(strategies: seq<Strategy>): (j: nat)
    requires HasOAuth2(strategies)
    ensures j < |strategies| && strategies[j].OAuth2Auth?
    ensures forall k :: 0 <= k < j ==> strategies[k].ApiKeysAuth?
    decreases |strategies|
  {
    if strategies[0].OAuth2Auth? then 0 else 1 + FirstOAuth2(strategies[1..])
  }

  /** A chain with an `oauth2` entry anywhere has an `oauth2` entry. */
  lemma {:induction false} HasOAuth2At(strategies: seq<Strategy>, i: nat)
    requires i < |strategies| && strategies[i].OAuth2Auth?
    ensures HasOAuth2(strategies)
    decreases i
  {
    if i > 0 {
      assert strategies[1..][i - 1] == strategies[i];
      HasOAuth2At(strategies[1..], i - 1);
    }
  }

  /** 1 when the chain may exchange a token, else 0. */
  function Weight(strategies: seq<Strategy>): nat
  {
    if HasOAuth2(strategies) then 1 else 0
  }

  /** 1 when `send` would run an `oauth2` strategy, else 0: a token exchange that proceeds never does. */
  function Rank(s: State): nat
  {
    if SupportedMode(s.mode) then Weight(Active(s).auth) else 0
  }

  /**
   * The command set declares async mode, an async command named "oauth2" and
   * an async `oauth2` strategy: its token exchanger then authenticates with
   * `oauth2` under the same cache key, which still misses, and so without end.
   */
  predicate Loops(cs: CommandSet)
  {
    && cs.declared.mode == "async"
    && "oauth2" in cs.declared.async.commands
    && HasOAuth2(cs.declared.async.auth)
  }

  /** `Cache::has`: a stored value that is not null. */
  predicate Has(w: World, key: string)
  {
    key in w.cache && w.cache[key].token != Null
  }

  /** The value of the Authorization header for a token: "{token_type} {access_token}". */
  function AuthorizationOf(jwt: Value): Option<string>
  {
    match (ToText(Field(jwt, "token_type")), ToText(Field(jwt, "access_token")))
    case (Some(tokenType), Some(accessToken)) => Some(tokenType + " " + accessToken)
    case _ => None
  }

  /** `s` with its Authorization header set to `authorization` and every other header kept. */
  function Authorized(s: State, authorization: string): (s': State)
    ensures s'.headers.Keys == s.headers.Keys + {"Authorization"}
    ensures s'.headers["Authorization"] == authorization
    ensures forall k :: k in s.headers && k != "Authorization" ==> s'.headers[k] == s.headers[k]
    ensures s' == s.(headers := s'.headers)
  {
    s.(headers := s.headers["Authorization" := authorization])
  }

  /**
   * `$config['url']` as the exchanger's `sendSync` interpolates it: a missing
   * url reads as null, and a nested array of the declared config as "Array".
   */
  function UrlText(config: Fields): string
  {
    if "url" in config then ArrayText(config["url"]) else ""
  }

  /** The `{action, data}` payload of an async command. */
  function Payload(action: Value, data: Fields): Value
  {
    Obj(map["action" := action, "data" := Obj(data)])
  }

  /**
   * The instance `oauth2` builds for the token exchange: a fresh instance of
   * the same command set whose only sync command is a POST to the configured
   * url, with no sync auth, the command selected and the config without its
   * url merged into the body.
   */
  function Exchanger(cs: CommandSet, url: string, config: Fields): State
  {
    var created := Initial(cs);
    var sync := created.sync.(commands := map["oauth2" := CommandConfig("post", url, Null, Null)], auth := []);
    created.(sync := sync, command := "oauth2", bindings := [], data := Merge(created.data, config - {"url"}))
  }

  /** `apiKeys`: the first entry of the config is merged into the query parameters. */
  function ApiKeys(s: State, entries: seq<(string, Value)>): State
  {
    // array_key_first of an empty config is null, which reads back a null value under the key ""
    var entry := if entries == [] then ("", Null) else entries[0];
    s.(params := Merge(s.params, map[entry.0 := entry.1]))
  }

  /** Sets the Authorization header from the token cached under `key`. */
  function Authorize(s: State, w: World, key: string): (Result<(), Failure>, State, World)
    requires key in w.cache
  {
    match AuthorizationOf(w.cache[key].token)
    case Some(authorization) => (Ok(()), s.(headers := Merge(s.headers, map["Authorization" := authorization])), w)
    case None => (Err(NotAString), s, w)
  }

  /** `oauth2`: fetch the token on a cache miss, then set the Authorization header. */
  function OAuth2(cs: CommandSet, s: State, w: World, env: Env, config: Fields): (Result<(), Failure>, State, World)
    decreases 1, 0, 1
  {
    var (key, slots) := CacheKey.ClassSlotKey(w.keySlots, cs.name);
    var w1 := w.(keySlots := slots);
    if Has(w1, key) then Authorize(s, w1, key) else Exchange(cs, s, w1, env, key, config)
  }

  /**
   * The cache-miss branch of `oauth2`: send the exchange, cache its token with
   * its TTL, authorize with it. An exchanger that would itself run `oauth2`
   * (see `Loops`) re-enters this branch with the same key and the same world
   * for ever; that is `Unbounded`, unless its command is missing, which fails first.
   */
  function Exchange(cs: CommandSet, s: State, w: World, env: Env, key: string, config: Fields): (Result<(), Failure>, State, World)
    decreases 1, 0, 0
  {
    var exchanger := Exchanger(cs, UrlText(config), config);
    if Rank(exchanger) > 0 then
      if exchanger.command in Active(exchanger).commands then (Err(Unbounded), s, w)
      else (Err(CommandNotFound), s, w)
    else
      var (jwt, _, w1) := Send(cs, exchanger, w, env);
      match jwt
      case Err(e) => (Err(e), s, w1)
      case Ok(token) => Authorize(s, w1.(cache := w1.cache[key := CacheEntry(token, Field(token, "expires_in"))]), key)
  }

  /** The strategies of the active mode, run in declaration order; the first failure stops the chain. */
  function Authenticate(cs: CommandSet, s: State, w: World, env: Env, strategies: seq<Strategy>): (Result<(), Failure>, State, World)
    decreases Weight(strategies), 1, |strategies|
  {
    if strategies == [] then (Ok(()), s, w)
    else
      var (r, s1, w1) := match strategies[0]
        case ApiKeysAuth(entries) => (Ok(()), ApiKeys(s, entries), w)
        case OAuth2Auth(config) => OAuth2(cs, s, w, env, config);
      if r.Err? then (r, s1, w1) else Authenticate(cs, s1, w1, env, strategies[1..])
  }

  /** `sendSync`: the interpolated URL after the base URL; the transport, or `shouldReturn` when testing. */
  function SendSync(s: State, w: World, env: Env, cmd: CommandConfig): (Result<Value, Failure>, World)
  {
    var url := s.sync.baseUrl + Url.Interpolate(cmd.url, s.bindings);
    if env.testing then (Ok(AsObject(cmd.shouldReturn)), w)
    else
      var request := Request(cmd.verb, url, s.headers, s.params, s.data);
      var w1 := w.(requests := w.requests + [request]);
      match env.transport(request)
      case Delivered(body) => (Ok(body), w1)
      case Refused(reason) => (Err(TransportFailure(reason)), w1)
  }

  /** `sendAsync`: queue the payload unless testing, and acknowledge. */
  function SendAsync(s: State, w: World, env: Env, cmd: CommandConfig): (Result<Value, Failure>, World)
  {
    var job := Job(s.async.queue, Payload(cmd.action, s.data));
    (Ok(Ack), if env.testing then w else w.(jobs := w.jobs + [job]))
  }

  /** `send`: check the mode, look the command up, authenticate, route. */
  function Send(cs: CommandSet, s: State, w: World, env: Env): (Result<Value, Failure>, State, World)
    decreases Rank(s), 2, 0
  {
    if !SupportedMode(s.mode) then (Err(UnsupportedMode), s, w)
    else if s.command !in Active(s).commands then (Err(CommandNotFound), s, w)
    else
      var (r, s1, w1) := Authenticate(cs, s, w, env, Active(s).auth);
      if r.Err? then (Err(r.error), s1, w1)
      else
        var cmd := Active(s).commands[s.command];
        var (r2, w2) := if s.mode == "sync" then SendSync(s1, w1, env, cmd) else SendAsync(s1, w1, env, cmd);
        (r2, s1, w2)
  }

  // ---------------------------------------------------------------------------
  // What each step may change.

  /** The two states differ at most in their query parameters and headers. */
  ghost predicate OnlyAuthFields(s: State, s': State)
  {
    s' == s.(params := s'.params, headers := s'.headers)
  }

  /** The headers differ at most in the Authorization header. */
  ghost predicate OnlyAuthorization(h: Headers, h': Headers)
  {
    && h'.Keys <= h.Keys + {"Authorization"}
    && forall k :: k in h && k != "Authorization" ==> k in h' && h'[k] == h[k]
  }

  /** The world only grows: no cached key is dropped, no request or job is forgotten, correct memo slots stay correct. */
  ghost predicate Grows(w: World, w': World)
  {
    && w.cache.Keys <= w'.cache.Keys
    && w.requests <= w'.requests
    && w.jobs <= w'.jobs
    && (CacheKey.Memoised(w.keySlots) ==> CacheKey.Memoised(w'.keySlots))
  }

  /**
   * The failures an auth chain can end in: a token that does not interpolate,
   * the transport outside testing, and, when the command set declares a mode
   * other than sync, the token exchanger's own rejections or its endless
   * re-entry.
   */
  ghost predicate ChainError(cs: CommandSet, env: Env, e: Failure)
  {
    || e == NotAString
    || (!env.testing && e.TransportFailure?)
    || (e == UnsupportedMode && !SupportedMode(cs.declared.mode))
    || (e == CommandNotFound && cs.declared.mode == "async" && "oauth2" !in cs.declared.async.commands)
    || (e == Unbounded && Loops(cs))
  }

  /** Only an async command set's token exchange, or an async send, queues a job; testing never does. */
  ghost predicate ChainKeepsJobs(cs: CommandSet, env: Env, w: World, w': World)
  {
    cs.declared.mode != "async" || env.testing ==> w'.jobs == w.jobs
  }

  /**
   * What `send` changes: only params and headers of the state; the world only
   * grows; testing makes no request and queues nothing; only async queues;
   * an unsupported mode or an unknown command is rejected, and any other
   * failure is one the auth chain or the transport produces.
   */
  lemma {:induction false} SendEffects(cs: CommandSet, s: State, w: World, env: Env)
    decreases Rank(s), 2, 0
    ensures var (r, s', w') := Send(cs, s, w, env);
      && OnlyAuthFields(s, s')
      && Grows(w, w')
      && (env.testing ==> w'.requests == w.requests && w'.jobs == w.jobs)
      && (s.mode != "async" ==> ChainKeepsJobs(cs, env, w, w'))
      && (env.testing && r.Err? ==> !r.error.TransportFailure?)
      && (!SupportedMode(s.mode) ==> r == Err(UnsupportedMode))
      && (SupportedMode(s.mode) && s.command !in Active(s).commands ==> r == Err(CommandNotFound))
      && (SupportedMode(s.mode) && s.command in Active(s).commands && r.Err? ==> ChainError(cs, env, r.error))
  {
    if SupportedMode(s.mode) && s.command in Active(s).commands {
      AuthenticateEffects(cs, s, w, env, Active(s).auth);
    }
  }

  /**
   * What the auth chain changes: only params and headers; the world only
   * grows; only an async command set's exchange queues; testing makes no
   * request; every failure is a `ChainError`.
   */
  lemma {:induction false} AuthenticateEffects(cs: CommandSet, s: State, w: World, env: Env, strategies: seq<Strategy>)
    decreases Weight(strategies), 1, |strategies|
    ensures var (r, s', w') := Authenticate(cs, s, w, env, strategies);
      && OnlyAuthFields(s, s')
      && Grows(w, w') && ChainKeepsJobs(cs, env, w, w')
      && (env.testing ==> w'.requests == w.requests)
      && (r.Err? ==> ChainError(cs, env, r.error))
  {
    if strategies != [] {
      match strategies[0]
      case ApiKeysAuth(entries) =>
        AuthenticateEffects(cs, ApiKeys(s, entries), w, env, strategies[1..]);
      case OAuth2Auth(config) =>
        OAuth2Effects(cs, s, w, env, config);
        var (r, s1, w1) := OAuth2(cs, s, w, env, config);
        if r.Ok? {
          AuthenticateEffects(cs, s1, w1, env, strategies[1..]);
        }
    }
  }

  /**
   * What `oauth2` changes: at most the Authorization header, which it sets on
   * success, when the token is cached under the command set's key; the world
   * only grows; testing makes no request; every failure is a `ChainError`.
   */
  lemma {:induction false} OAuth2Effects(cs: CommandSet, s: State, w: World, env: Env, config: Fields)
    decreases 1, 0, 1
    ensures var (r, s', w') := OAuth2(cs, s, w, env, config);
      && s' == s.(headers := s'.headers)
      && OnlyAuthorization(s.headers, s'.headers)
      && (r.Ok? ==> "Authorization" in s'.headers && CacheKey.ClassSlotKey(w.keySlots, cs.name).0 in w'.cache)
      && (r.Err? ==> s' == s)
      && Grows(w, w') && ChainKeepsJobs(cs, env, w, w')
      && (env.testing ==> w'.requests == w.requests)
      && (r.Err? ==> ChainError(cs, env, r.error))
  {
    var (key, slots) := CacheKey.ClassSlotKey(w.keySlots, cs.name);
    if CacheKey.Memoised(w.keySlots) {
      CacheKey.ClassSlotKeyIsKeyFor(w.keySlots, cs.name);
    }
    var w1 := w.(keySlots := slots);
    assert Grows(w, w1);
    if Has(w1, key) {
      AuthorizeEffects(s, w1, key);
    } else {
      ExchangeEffects(cs, s, w1, env, key, config);
    }
  }

  lemma {:induction false} ExchangeEffects(cs: CommandSet, s: State, w: World, env: Env, key: string, config: Fields)
    decreases 1, 0, 0
    ensures var (r, s', w') := Exchange(cs, s, w, env, key, config);
      && s' == s.(headers := s'.headers)
      && OnlyAuthorization(s.headers, s'.headers)
      && (r.Ok? ==> "Authorization" in s'.headers && key in w'.cache)
      && (r.Err? ==> s' == s)
      && Grows(w, w') && ChainKeepsJobs(cs, env, w, w')
      && (env.testing ==> w'.requests == w.requests)
      && (r.Err? ==> ChainError(cs, env, r.error))
  {
    var exchanger := Exchanger(cs, UrlText(config), config);
    assert exchanger.mode == cs.declared.mode && exchanger.async == cs.declared.async;
    assert "oauth2" in exchanger.sync.commands && exchanger.sync.auth == [];
    if Rank(exchanger) == 0 {
      SendEffects(cs, exchanger, w, env);
      var (jwt, _, w1) := Send(cs, exchanger, w, env);
      if jwt.Ok? {
        var w2 := w1.(cache := w1.cache[key := CacheEntry(jwt.value, Field(jwt.value, "expires_in"))]);
        AuthorizeEffects(s, w2, key);
        assert Grows(w, w2);
      }
    }
  }

  lemma AuthorizeEffects(s: State, w: World, key: string)
    requires key in w.cache
    ensures var (r, s', w') := Authorize(s, w, key);
      && w' == w
      && s' == s.(headers := s'.headers)
      && OnlyAuthorization(s.headers, s'.headers)
      && (r.Ok? <==> AuthorizationOf(w.cache[key].token).Some?)
      && (r.Ok? ==> s' == Authorized(s, AuthorizationOf(w.cache[key].token).value))
      && (r.Err? ==> s' == s && r.error == NotAString)
  {
    if AuthorizationOf(w.cache[key].token).Some? {
      var a := AuthorizationOf(w.cache[key].token).value;
      assert Merge(s.headers, map["Authorization" := a]) == s.headers["Authorization" := a];
    }
  }

  /**
   * Outside testing the exchanger of a sync command set makes exactly one
   * request, a POST to the base URL followed by the configured url, with the
   * instance's initial headers and params and the config without its url
   * merged into the declared body, and returns the transport's reply.
   */
  lemma ExchangerSends(cs: CommandSet, w: World, env: Env, url: string, config: Fields)
    requires !env.testing && cs.declared.mode == "sync"
    ensures var exchange := Request("post", cs.declared.sync.baseUrl + url, Initial(cs).headers, cs.declared.params, Merge(cs.declared.data, config - {"url"}));
      var reply := match env.transport(exchange)
        case Delivered(body) => Ok(body)
        case Refused(reason) => Err(TransportFailure(reason));
      Send(cs, Exchanger(cs, url, config), w, env) == (reply, Exchanger(cs, url, config), w.(requests := w.requests + [exchange]))
  {
    var exchanger := Exchanger(cs, url, config);
    assert Url.Interpolate(url, []) == url;
    assert Authenticate(cs, exchanger, w, env, []) == (Ok(()), exchanger, w);
  }

  // ---------------------------------------------------------------------------
  // The properties of `send` and of the strategies.

  /** An unsupported mode fails before anything else and changes nothing. */
  lemma SendRejectsUnsupportedMode(cs: CommandSet, s: State, w: World, env: Env)
    requires !SupportedMode(s.mode)
    ensures Send(cs, s, w, env) == (Err(UnsupportedMode), s, w)
  {
  }

  /** An unknown command fails before any strategy runs or any request is made, and changes nothing. */
  lemma SendRejectsUnknownCommand(cs: CommandSet, s: State, w: World, env: Env)
    requires SupportedMode(s.mode) && s.command !in Active(s).commands
    ensures Send(cs, s, w, env) == (Err(CommandNotFound), s, w)
  {
  }

  /**
   * For a command set that keeps the sync default mode, `send` fails with an
   * unsupported mode exactly when its mode is unsupported, with an unknown
   * command exactly when the active mode lacks it, and never re-enters endlessly.
   */
  lemma SendRejectsExactly(cs: CommandSet, s: State, w: World, env: Env)
    requires cs.declared.mode == "sync"
    ensures var (r, _, _) := Send(cs, s, w, env);
      && (r == Err(UnsupportedMode) <==> !SupportedMode(s.mode))
      && (r == Err(CommandNotFound) <==> SupportedMode(s.mode) && s.command !in Active(s).commands)
      && r != Err(Unbounded)
  {
    SendEffects(cs, s, w, env);
  }

  /** In the testing environment `send` makes no HTTP request and queues nothing, token exchange included. */
  lemma TestingMakesNoCalls(cs: CommandSet, s: State, w: World, env: Env)
    requires env.testing
    ensures var (_, _, w') := Send(cs, s, w, env);
      w'.requests == w.requests && w'.jobs == w.jobs
  {
    SendEffects(cs, s, w, env);
  }

  /**
   * In the testing environment a found sync command whose auth chain
   * succeeds returns its `shouldReturn` cast to an object; when the chain
   * fails, `send` fails with the chain's failure, which is never the transport's.
   */
  lemma TestingSyncReturnsShouldReturn(cs: CommandSet, s: State, w: World, env: Env)
    requires env.testing && s.mode == "sync" && s.command in s.sync.commands
    ensures var (a, _, _) := Authenticate(cs, s, w, env, s.sync.auth);
      var (r, _, w') := Send(cs, s, w, env);
      && (a.Ok? ==> r == Ok(AsObject(s.sync.commands[s.command].shouldReturn)))
      && (a.Err? ==> r == Err(a.error) && ChainError(cs, env, a.error) && !a.error.TransportFailure?)
      && w'.requests == w.requests
  {
    AuthenticateEffects(cs, s, w, env, s.sync.auth);
  }

  /**
   * Outside testing, once the auth chain of a found sync command succeeds,
   * exactly one more request is made: the command's verb, the base URL
   * followed by the interpolated template, the headers and params after
   * authentication and the unchanged body. A delivered reply is the result
   * and a refusal is a transport failure. With a plain template and literal
   * bindings the URL is the pairwise fill of the placeholders.
   */
  lemma SyncSendsInterpolatedRequest(cs: CommandSet, s: State, w: World, env: Env)
    requires !env.testing && s.mode == "sync" && s.command in s.sync.commands
    ensures var (a, s1, w1) := Authenticate(cs, s, w, env, s.sync.auth);
      var (r, s', w') := Send(cs, s, w, env);
      var cmd := s.sync.commands[s.command];
      var last := Request(cmd.verb, s.sync.baseUrl + Url.Interpolate(cmd.url, s.bindings), s1.headers, s1.params, s.data);
      && s' == s1
      && (a.Err? ==> r == Err(a.error) && w' == w1)
      && (a.Ok? ==>
           && w' == w1.(requests := w1.requests + [last])
           && (env.transport(last).Delivered? ==> r == Ok(env.transport(last).body))
           && (env.transport(last).Refused? ==> r == Err(TransportFailure(env.transport(last).reason))))
      && (Url.PlainTemplate(cmd.url) && (forall k :: 0 <= k < |s.bindings| ==> Url.Literal(s.bindings[k]))
          ==> last.url == s.sync.baseUrl + Url.Fill(Url.Split(cmd.url), s.bindings))
  {
    var cmd := s.sync.commands[s.command];
    AuthenticateEffects(cs, s, w, env, s.sync.auth);
    if Url.PlainTemplate(cmd.url) && (forall k :: 0 <= k < |s.bindings| ==> Url.Literal(s.bindings[k])) {
      Url.InterpolateFills(cmd.url, s.bindings);
    }
  }

  /**
   * A found async command whose auth chain succeeds is acknowledged with the
   * fixed marker, and the payload `{action, data}`, with the data as it was
   * before authentication, is queued on the async queue only outside testing.
   * A failing chain fails the send with its failure and queues nothing more.
   */
  lemma AsyncAcknowledges(cs: CommandSet, s: State, w: World, env: Env)
    requires s.mode == "async" && s.command in s.async.commands
    ensures var (a, s1, w1) := Authenticate(cs, s, w, env, s.async.auth);
      var (r, s', w') := Send(cs, s, w, env);
      var job := Job(s.async.queue, Payload(s.async.commands[s.command].action, s.data));
      && s' == s1
      && (a.Ok? ==> r == Ok(Ack) && w' == (if env.testing then w1 else w1.(jobs := w1.jobs + [job])))
      && (a.Err? ==> r == Err(a.error) && w' == w1)
      && ChainKeepsJobs(cs, env, w, w1)
  {
    AuthenticateEffects(cs, s, w, env, s.async.auth);
  }

  /** `apiKeys` adds exactly the first entry of its config to the parameters and touches nothing else. */
  lemma ApiKeysAddsFirstEntry(s: State, entries: seq<(string, Value)>)
    requires entries != []
    ensures var s' := ApiKeys(s, entries);
      && s' == s.(params := s'.params)
      && s'.params.Keys == s.params.Keys + {entries[0].0}
      && s'.params[entries[0].0] == entries[0].1
      && forall k :: k in s.params && k != entries[0].0 ==> s'.params[k] == s.params[k]
  {
  }

  /**
   * The chain runs its strategies in declaration order: running `first + rest`
   * is running `first`, then, unless it failed, `rest` on what it left.
   */
  lemma {:induction false} AuthenticateInOrder(cs: CommandSet, s: State, w: World, env: Env, first: seq<Strategy>, rest: seq<Strategy>)
    ensures Authenticate(cs, s, w, env, first + rest) ==
      var (r, s1, w1) := Authenticate(cs, s, w, env, first);
      if r.Err? then (r, s1, w1) else Authenticate(cs, s1, w1, env, rest)
    decreases |first|
  {
    if first == [] {
      assert first + rest == rest;
    } else {
      var all := first + rest;
      assert all[0] == first[0] && all[1..] == first[1..] + rest;
      var (r, s1, w1) := match first[0]
        case ApiKeysAuth(entries) => (Ok(()), ApiKeys(s, entries), w)
        case OAuth2Auth(config) => OAuth2(cs, s, w, env, config);
      if r.Ok? {
        AuthenticateInOrder(cs, s1, w1, env, first[1..], rest);
      }
    }
  }

  /** A chain of `apiKeys` entries only always succeeds and leaves the world alone. */
  lemma {:induction false} ApiKeysChainKeepsWorld(cs: CommandSet, s: State, w: World, env: Env, strategies: seq<Strategy>)
    requires forall k :: 0 <= k < |strategies| ==> strategies[k].ApiKeysAuth?
    ensures var (r, _, w') := Authenticate(cs, s, w, env, strategies);
      r.Ok? && w' == w
    decreases |strategies|
  {
    if strategies != [] {
      ApiKeysChainKeepsWorld(cs, ApiKeys(s, strategies[0].entries), w, env, strategies[1..]);
    }
  }

  /**
   * Why `Loops` is `Unbounded`: the exchanger passes the mode and command
   * checks, runs the `apiKeys` entries before its first `oauth2` entry
   * without touching the world, and so reaches `oauth2` of the same command
   * set on the same world, whose cache still misses under the same key.
   */
  lemma LoopingExchangeReenters(cs: CommandSet, w: World, env: Env, config: Fields)
    requires Loops(cs)
    ensures var exchanger := Exchanger(cs, UrlText(config), config);
      var strategies := exchanger.async.auth;
      var j := FirstOAuth2(strategies);
      var (a, _, w') := Authenticate(cs, exchanger, w, env, strategies[..j]);
      && exchanger.mode == "async" && exchanger.command in exchanger.async.commands
      && Rank(exchanger) > 0
      && a.Ok? && w' == w
  {
    var exchanger := Exchanger(cs, UrlText(config), config);
    var strategies := exchanger.async.auth;
    ApiKeysChainKeepsWorld(cs, exchanger, w, env, strategies[..FirstOAuth2(strategies)]);
  }

  /**
   * A cache hit makes no exchange and leaves the cache alone; the
   * Authorization header becomes "{token_type} {access_token}" of the cached
   * token, every other header staying as it was.
   */
  lemma OAuth2CacheHit(cs: CommandSet, s: State, w: World, env: Env, config: Fields)
    requires CacheKey.Memoised(w.keySlots)
    requires Has(w, CacheKey.KeyFor(cs.name))
    ensures var jwt := w.cache[CacheKey.KeyFor(cs.name)].token;
      var (r, s', w') := OAuth2(cs, s, w, env, config);
      && w'.requests == w.requests && w'.cache == w.cache && w'.jobs == w.jobs
      && (r.Ok? <==> AuthorizationOf(jwt).Some?)
      && (r.Ok? ==> s' == Authorized(s, AuthorizationOf(jwt).value))
      && (r.Err? ==> s' == s)
  {
    CacheKey.ClassSlotKeyIsKeyFor(w.keySlots, cs.name);
    AuthorizeEffects(s, w.(keySlots := CacheKey.ClassSlotKey(w.keySlots, cs.name).1), CacheKey.KeyFor(cs.name));
  }

  /**
   * A cache miss outside testing, for a command set in the sync default mode,
   * makes exactly one request: a POST to the base URL followed by the
   * configured url, with the initial headers and params and the config without
   * its url as the body. A refused exchange changes neither the cache nor the
   * state; a delivered token is cached under the command set's key with its
   * `expires_in` as TTL and sets the Authorization header.
   */
  lemma OAuth2CacheMiss(cs: CommandSet, s: State, w: World, env: Env, config: Fields)
    requires CacheKey.Memoised(w.keySlots)
    requires !Has(w, CacheKey.KeyFor(cs.name))
    requires !env.testing && cs.declared.mode == "sync"
    ensures var key := CacheKey.KeyFor(cs.name);
      var exchange := Request("post", cs.declared.sync.baseUrl + UrlText(config), Initial(cs).headers, cs.declared.params, Merge(cs.declared.data, config - {"url"}));
      var (r, s', w') := OAuth2(cs, s, w, env, config);
      && w'.requests == w.requests + [exchange]
      && w'.jobs == w.jobs
      && var reply := env.transport(exchange);
      && (reply.Refused? ==> r == Err(TransportFailure(reply.reason)) && s' == s && w'.cache == w.cache)
      && (reply.Delivered? ==>
           var jwt := reply.body;
           && w'.cache == w.cache[key := CacheEntry(jwt, Field(jwt, "expires_in"))]
           && (r.Ok? <==> AuthorizationOf(jwt).Some?)
           && (r.Ok? ==> s' == Authorized(s, AuthorizationOf(jwt).value))
           && (r.Err? ==> s' == s))
  {
    var key := CacheKey.KeyFor(cs.name);
    CacheKey.ClassSlotKeyIsKeyFor(w.keySlots, cs.name);
    var url := UrlText(config);
    var w1 := w.(keySlots := CacheKey.ClassSlotKey(w.keySlots, cs.name).1);
    ExchangerSends(cs, w1, env, url, config);
    var exchange := Request("post", cs.declared.sync.baseUrl + url, Initial(cs).headers, cs.declared.params, Merge(cs.declared.data, config - {"url"}));
    match env.transport(exchange)
    case Refused(_) =>
    case Delivered(jwt) =>
      var w2 := w1.(requests := w1.requests + [exchange]);
      AuthorizeEffects(s, w2.(cache := w2.cache[key := CacheEntry(jwt, Field(jwt, "expires_in"))]), key);
  }

  /**
   * A cache miss for a command set that declares a mode other than sync:
   * an unsupported mode or a missing async "oauth2" command fails the
   * exchange before it runs, and `Loops` re-enters endlessly; in each case
   * the state, the cache, the requests and the queue stay as they were.
   */
  lemma OAuth2ExchangerInOtherModes(cs: CommandSet, s: State, w: World, env: Env, config: Fields)
    requires CacheKey.Memoised(w.keySlots)
    requires !Has(w, CacheKey.KeyFor(cs.name))
    requires cs.declared.mode != "sync"
    ensures var (r, s', w') := OAuth2(cs, s, w, env, config);
      && (!SupportedMode(cs.declared.mode) ==> r == Err(UnsupportedMode))
      && (cs.declared.mode == "async" && "oauth2" !in cs.declared.async.commands ==> r == Err(CommandNotFound))
      && (Loops(cs) ==> r == Err(Unbounded))
      && (!SupportedMode(cs.declared.mode) || "oauth2" !in cs.declared.async.commands || Loops(cs) ==>
           s' == s && w'.cache == w.cache && w'.requests == w.requests && w'.jobs == w.jobs)
  {
    CacheKey.ClassSlotKeyIsKeyFor(w.keySlots, cs.name);
    var key := CacheKey.KeyFor(cs.name);
    var w1 := w.(keySlots := CacheKey.ClassSlotKey(w.keySlots, cs.name).1);
    var exchanger := Exchanger(cs, UrlText(config), config);
    assert exchanger.mode == cs.declared.mode && exchanger.async == cs.declared.async;
    assert OAuth2(cs, s, w, env, config) == Exchange(cs, s, w1, env, key, config);
    if !SupportedMode(cs.declared.mode) {
      assert Send(cs, exchanger, w1, env) == (Err(UnsupportedMode), exchanger, w1);
    } else if "oauth2" !in cs.declared.async.commands {
      if Rank(exchanger) == 0 {
        assert Send(cs, exchanger, w1, env) == (Err(CommandNotFound), exchanger, w1);
      }
    }
  }
}
