/**
 * The dispatcher as objects: `BaseLingo`, whose fluent setters and `send`
 * update the instance in place, together with its authentication strategies,
 * and `Host`, the process around it (the token cache, the HTTP client, the
 * queue, and the per-class memo of cache keys). Every method is proved to
 * compute what the functions of module Dispatch say.
 */
module Lingo {
  import opened Wrappers
  import opened Json
  import Url
  import CacheKey
  import opened Dispatch

  /**
   * What lies outside an instance. The environment flag and the transport
   * are fixed; the cache, the log of requests made, the queued jobs and the
   * memoised cache keys change as instances use them.
   */
  class Host {
    const testing: bool
    const transport: Request -> Reply
    var cache: map<string, CacheEntry>
    var requests: seq<Request>
    var jobs: seq<Job>
    var keySlots: map<string, string>

    function Snapshot(): World
      reads this
    {
      World(cache, requests, jobs, keySlots)
    }

    function Environment(): Env
    {
      Env(testing, transport)
    }

    constructor (testing: bool, transport: Request -> Reply)
      ensures Environment() == Env(testing, transport)
      ensures Snapshot() == World(map[], [], [], map[])
    {
      this.testing := testing;
      this.transport := transport;
      cache := map[];
      requests := [];
      jobs := [];
      keySlots := map[];
    }

    /** The HTTP client: the request is made and the transport answers it. */
    method Transmit(request: Request) returns (reply: Reply)
      modifies this
      ensures reply == transport(request)
      ensures Snapshot() == old(Snapshot()).(requests := old(requests) + [request])
    {
      requests := requests + [request];
      reply := transport(request);
    }

    /** The queue dispatcher: the job is appended to the queued jobs. */
    method Enqueue(job: Job)
      modifies this
      ensures Snapshot() == old(Snapshot()).(jobs := old(jobs) + [job])
    {
      jobs := jobs + [job];
    }

    /** `Cache::put`: the entry replaces whatever the key held. */
    method Put(key: string, entry: CacheEntry)
      modifies this
      ensures Snapshot() == old(Snapshot()).(cache := old(cache)[key := entry])
    {
      cache := cache[key := entry];
    }
  }

  /** One instance of a command set: its configuration, its request state, and the host it runs in. */
  class BaseLingo {
    const commandSet: CommandSet
    const host: Host
    var command: string
    var bindings: seq<string>
    var data: Fields
    var params: Fields
    var headers: Headers
    var mode: string
    var sync: ModeConfig
    var async: ModeConfig

    function Snapshot(): State
      reads this
    {
      State(command, bindings, data, params, headers, mode, sync, async)
    }

    /**
     * A new instance starts from the defaults its command set declares, with
     * the JSON content-type and accept headers merged over the declared headers.
     */
    constructor (commandSet: CommandSet, host: Host)
      ensures this.commandSet == commandSet && this.host == host
      ensures Snapshot() == Initial(commandSet)
    {
      this.commandSet := commandSet;
      this.host := host;
      var declared := commandSet.declared;
      command := declared.command;
      bindings := declared.bindings;
      data := declared.data;
      params := declared.params;
      mode := declared.mode;
      sync := declared.sync;
      async := declared.async;
      headers := Merge(declared.headers, JsonHeaders);
    }

    /** Selects the command and replaces the bindings for its URL placeholders. */
    method Command(name: string, bindings: seq<string>)
      modifies this
      ensures Snapshot() == old(Snapshot()).(command := name, bindings := bindings)
    {
      command := name;
      this.bindings := bindings;
    }

    method WithData(extra: Fields)
      modifies this
      ensures Snapshot() == old(Snapshot()).(data := Merge(old(data), extra))
    {
      data := Merge(data, extra);
    }

    method WithParams(extra: Fields)
      modifies this
      ensures Snapshot() == old(Snapshot()).(params := Merge(old(params), extra))
    {
      params := Merge(params, extra);
    }

    method WithHeaders(extra: Headers)
      modifies this
      ensures Snapshot() == old(Snapshot()).(headers := Merge(old(headers), extra))
    {
      headers := Merge(headers, extra);
    }

    method Sync()
      modifies this
      ensures Snapshot() == old(Snapshot()).(mode := "sync")
    {
      mode := "sync";
    }

    method Async()
      modifies this
      ensures Snapshot() == old(Snapshot()).(mode := "async")
    {
      mode := "async";
    }

    /**
     * `send`: reject an unsupported mode and an unknown command, run the
     * mode's auth strategies in order (a failing one stops the send), then
     * deliver the selected command on the mode's path.
     */
    method Send() returns (r: Result<Value, Failure>)
      modifies this, host
      decreases Rank(Snapshot()), 2, 0
      ensures (r, Snapshot(), host.Snapshot()) == Dispatch.Send(commandSet, old(Snapshot()), old(host.Snapshot()), host.Environment())
    {
      if mode != "sync" && mode != "async" {
        return Err(UnsupportedMode);
      }
      var active := if mode == "sync" then sync else async;
      if command !in active.commands {
        return Err(CommandNotFound);
      }
      ghost var s0, w0 := Snapshot(), host.Snapshot();
      ghost var env := host.Environment();
      var strategies := active.auth;
      var i := 0;
      while i < |strategies|
        invariant 0 <= i <= |strategies|
        invariant Snapshot() == s0.(params := params, headers := headers)
        invariant Authenticate(commandSet, s0, w0, env, strategies) == Authenticate(commandSet, Snapshot(), host.Snapshot(), env, strategies[i..])
      {
        assert strategies[i..][0] == strategies[i] && strategies[i..][1..] == strategies[i + 1..];
        match strategies[i] {
          case ApiKeysAuth(entries) =>
            ApiKeys(entries);
          case OAuth2Auth(config) =>
            HasOAuth2At(strategies, i);
            var outcome := OAuth2(config);
            if outcome.Err? {
              return Err(outcome.error);
            }
        }
        i := i + 1;
      }
      var config := active.commands[command];
      if mode == "sync" {
        r := SendSync(config);
      } else {
        r := SendAsync(config);
      }
    }

    /**
     * `sendSync`: fill the URL placeholders with the bindings, then either
     * request the base URL followed by that URL with the headers, the query
     * parameters and the JSON body, or, when testing, return `shouldReturn`
     * cast to an object.
     */
    method SendSync(config: CommandConfig) returns (r: Result<Value, Failure>)
      modifies host
      ensures (r, host.Snapshot()) == Dispatch.SendSync(Snapshot(), old(host.Snapshot()), host.Environment(), config)
    {
      var url := Url.Substitute(config.url, bindings);
      var target := sync.baseUrl + url;
      if !host.testing {
        var reply := host.Transmit(Request(config.verb, target, headers, params, data));
        match reply
        case Delivered(body) =>
          r := Ok(body);
        case Refused(reason) =>
          r := Err(TransportFailure(reason));
      } else {
        r := Ok(AsObject(config.shouldReturn));
      }
    }

    /** `sendAsync`: queue `{action, data}` on the async queue unless testing, and acknowledge. */
    method SendAsync(config: CommandConfig) returns (r: Result<Value, Failure>)
      modifies host
      ensures (r, host.Snapshot()) == Dispatch.SendAsync(Snapshot(), old(host.Snapshot()), host.Environment(), config)
    {
      if !host.testing {
        host.Enqueue(Job(async.queue, Payload(config.action, data)));
      }
      r := Ok(Ack);
    }

    /** `getCacheKey`: the command set's memoised key, computed and stored on first use. */
    method GetCacheKey() returns (key: string)
      modifies host`keySlots
      ensures (key, host.keySlots) == CacheKey.ClassSlotKey(old(host.keySlots), commandSet.name)
    {
      if commandSet.name !in host.keySlots {
        host.keySlots := host.keySlots[commandSet.name := CacheKey.KeyFor(commandSet.name)];
      }
      key := host.keySlots[commandSet.name];
    }

    /** `apiKeys`: the first entry of the config becomes a query parameter. */
    method ApiKeys(entries: seq<(string, Value)>)
      modifies this
      ensures Snapshot() == Dispatch.ApiKeys(old(Snapshot()), entries)
    {
      var entry := if entries == [] then ("", Null) else entries[0];
      WithParams(map[entry.0 := entry.1]);
    }

    /**
     * `oauth2`: on a cache miss, exchange the config for a token through a
     * fresh instance of the same command set and cache it with its
     * `expires_in`; then set the Authorization header from the cached token.
     */
    method OAuth2(config: Fields) returns (r: Result<(), Failure>)
      modifies this, host
      decreases 1, 0, 1
      ensures (r, Snapshot(), host.Snapshot()) == Dispatch.OAuth2(commandSet, old(Snapshot()), old(host.Snapshot()), host.Environment(), config)
      ensures Snapshot() == old(Snapshot()).(headers := headers)
    {
      var key := GetCacheKey();
      if !Has(host.Snapshot(), key) {
        var auther := new BaseLingo(commandSet, host);
        auther.sync := auther.sync.(commands := map["oauth2" := CommandConfig("post", UrlText(config), Null, Null)], auth := []);
        auther.Command("oauth2", []);
        // The source passes the config through `withPayload`, which no class
        // of the package defines; it is modelled as `withData`, the setter of
        // the JSON body, which is what the token endpoint receives.
        auther.WithData(config - {"url"});
        if Rank(auther.Snapshot()) > 0 {
          // An async exchanger with its own `oauth2` strategy would come back
          // here with the same key and an unchanged cache, without end.
          var active := Active(auther.Snapshot());
          return if auther.command in active.commands then Err(Unbounded) else Err(CommandNotFound);
        }
        var jwt := auther.Send();
        if jwt.Err? {
          return Err(jwt.error);
        }
        host.Put(key, CacheEntry(jwt.value, Field(jwt.value, "expires_in")));
      }
      var token := host.cache[key].token;
      match AuthorizationOf(token)
      case None =>
        return Err(NotAString);
      case Some(authorization) =>
        WithHeaders(map["Authorization" := authorization]);
        r := Ok(());
    }
  }
}
