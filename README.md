# Lingo dispatcher, modelled in Dafny

Lingo is a Laravel package that dispatches configured outbound API calls. A
concrete command set extends `BaseLingo` and declares two mode configurations:
`$sync` (commands with a verb, a URL template with `{:?}` placeholders and a
`shouldReturn` value for testing, a `base_url` and optional `auth`) and
`$async` (commands with an `action`, a `queue` and optional `auth`).

A caller selects a command and its bindings, adds body data, query parameters
and headers, picks a mode, and calls `send`. `send` then does four things, in order:

1. It rejects an unsupported mode or an unknown command.
2. It runs the mode's authentication strategies in order. `apiKeys` adds a query parameter. `oauth2` takes a bearer token from the cache, or exchanges its config for a token on a cache miss.
3. For a sync command, it makes the HTTP request, or returns `shouldReturn` in the testing environment.
4. For an async command, it queues an `{action, data}` message and acknowledges it.

The project has two layers:

- **Values.** Modules `Json`, `Url`, `CacheKey` and `Dispatch` describe the request state, the world outside the instance and every operation as functions. The properties of the dispatcher are proved about these functions.
- **Objects.** Module `Lingo` has the class `BaseLingo` and the class `Host`.
  - `BaseLingo`'s methods update the instance in place, as the PHP class does, with the trait's strategies mixed in.
  - `Host` stands for the process around an instance: the token cache, the HTTP client, the queue and the memoised cache keys.
  - Each method is proved to compute exactly what the corresponding `Dispatch` function says, including the recursive `send` that `oauth2` makes through a second instance.

Files:

- `wrappers.dfy`: `Option` and `Result`.
- `json.dfy`: PHP/JSON values, string interpolation of a value, and the `(object)` cast.
- `url.dfy`: the placeholder substitution of `sendSync`. It reads the binding as `preg_replace` reads a replacement string, back-references included. It also gives a split-and-fill reference definition, and proves the two agree.
- `cache_key.dfy`: `Str::snake` of the class short name plus `":jwt"`, and the memo of that key.
- `dispatch.dfy`: `send`, the authentication chain, both strategies and both delivery paths as functions, and their properties.
- `lingo.dfy`: the classes `Host` and `BaseLingo`.

The environment flag (`app('env') == 'testing'`) and the HTTP transport are
fixed fields of `Host`. The transport is a function from a request to a decoded
reply or a refusal. The cache, the log of requests made, the queued jobs and the
memo slots are fields that the methods update.

A command set may redeclare any of the instance properties (`$command`,
`$bindings`, `$data`, `$params`, `$headers`, `$mode`) besides `$sync` and
`$async`; `CommandSet.declared` holds those defaults, and every instance,
the token exchanger made by `new static` included, starts from them.

Points of the code the model keeps as they are:

- There is no "function" mockup kind and no per-call mockup override: in testing, `sendSync` returns `shouldReturn` cast to an object.
- The token exchange goes through `sendSync`, so the exchanger's `base_url` precedes `config.url`.
- The exchanger inherits the declared mode, data, params and headers of its command set. A command set that declares async mode therefore exchanges its token on the async path.

## Model

| member | source | states |
|---|---|---|
| Lingo.BaseLingo.constructor | src/BaseLingo.php:13-29 | a new instance holds its command set's declared defaults, with Content-Type and Accept set to application/json merged over the declared headers (`Dispatch.Initial`) |
| Dispatch.Initial | src/BaseLingo.php:13-29 | the initial state is the declared one except for the headers, whose keys are the declared ones plus Content-Type and Accept, both application/json, every other declared header kept |
| Dispatch.BaseDefaultsStartClean | src/BaseLingo.php:13-29 | a command set that redeclares nothing starts in sync mode with no command, bindings, data or params, and exactly the two JSON headers |
| Lingo.BaseLingo.Command | src/BaseLingo.php:31-37 | sets the command and replaces the bindings wholesale; every other field is unchanged |
| Lingo.BaseLingo.WithData | src/BaseLingo.php:39-43 | data becomes the last-write-wins merge of old data and the argument; nothing else changes |
| Lingo.BaseLingo.WithParams | src/BaseLingo.php:45-49 | params become the last-write-wins merge; nothing else changes |
| Lingo.BaseLingo.WithHeaders | src/BaseLingo.php:51-55 | headers become the last-write-wins merge; nothing else changes |
| Lingo.BaseLingo.Sync | src/BaseLingo.php:57-61 | only the mode changes, to sync |
| Lingo.BaseLingo.Async | src/BaseLingo.php:63-67 | only the mode changes, to async |
| Lingo.BaseLingo.Send | src/BaseLingo.php:69-87 | its result, the new instance state and the new host state are exactly those of `Dispatch.Send`; the auth loop's invariant is that running the rest of the strategies from the current state gives what running all of them from the start gives |
| Lingo.BaseLingo.SendSync | src/BaseLingo.php:89-114 | result and host state are those of `Dispatch.SendSync`: the substituted URL after the base URL, one transport request outside testing, the `(object)` cast of `shouldReturn` in testing |
| Lingo.BaseLingo.SendAsync | src/BaseLingo.php:116-133 | result and host state are those of `Dispatch.SendAsync`: the acknowledgement, and the `{action, data}` job queued only outside testing |
| Lingo.BaseLingo.GetCacheKey | src/AuthenticationHandler.php:13-22 | the key and the memo slots after the call are those of `CacheKey.ClassSlotKey` on the old slots; only the memo slots of the host change |
| Lingo.BaseLingo.ApiKeys | src/AuthenticationHandler.php:24-29 | the new state is `Dispatch.ApiKeys` of the old one |
| Lingo.BaseLingo.OAuth2 | src/AuthenticationHandler.php:31-54 | result, state and host state are those of `Dispatch.OAuth2`, with the exchange made through a freshly created instance; only the headers of this instance change |
| Lingo.Host.Transmit | src/BaseLingo.php:100-110 | the request is appended to the request log and the reply is the transport's answer to it |
| Lingo.Host.Enqueue | src/BaseLingo.php:124-130 | the job is appended to the queued jobs; nothing else changes |
| Lingo.Host.Put | src/AuthenticationHandler.php:46 | the cache maps the key to the new entry; nothing else changes |
| Dispatch.Merge | src/BaseLingo.php:41-53 | `array_merge` on string keys: the keys are the union, the argument wins on shared keys, old values are kept elsewhere |
| Dispatch.SendRejectsUnsupportedMode | src/BaseLingo.php:71-73 | a mode other than sync or async fails with the unsupported-mode error and changes neither state nor world |
| Dispatch.SendRejectsUnknownCommand | src/BaseLingo.php:75-77 | a command missing from the active mode fails with command-not-found before any strategy runs or any request is made; nothing changes |
| Dispatch.SendEffects | src/BaseLingo.php:69-87 | `send` changes only params and headers. The world only grows: no cache key lost, the request and job logs extended, correct memo slots kept. Testing makes no request and queues nothing, and never fails in the transport. A non-async send queues only through an async command set's token exchange. An unsupported mode and an unknown command are rejected; any other failure is one of the auth chain's |
| Dispatch.SendRejectsExactly | src/BaseLingo.php:69-87 | for a command set in the sync default mode, the two rejections happen exactly when their conditions hold (both directions), and no send re-enters endlessly |
| Dispatch.AuthenticateEffects | src/BaseLingo.php:79-83 | the chain changes only params and headers, queues only for a command set that declares async mode and never in testing, makes no request in testing, and fails only on an uninterpolatable token, in the transport outside testing, or with the exchanger's own rejection or endless re-entry when the command set declares a mode other than sync |
| Dispatch.AuthenticateInOrder | src/BaseLingo.php:79-83 | running `first + rest` is running `first` and then, unless it failed, `rest` on the state and world it left: strategies apply once each, in declaration order, and the first failure stops the chain |
| Dispatch.TestingMakesNoCalls | src/BaseLingo.php:99-130 | in testing, `send` leaves the request log and the queue as they were, token exchanges included |
| Dispatch.TestingSyncReturnsShouldReturn | src/BaseLingo.php:79-112 | in testing, a found sync command whose auth chain succeeds returns `(object) shouldReturn`; when the chain fails the send fails with the chain's failure, never a transport one; no request is made |
| Dispatch.SyncSendsInterpolatedRequest | src/BaseLingo.php:79-110 | outside testing, when the auth chain of a found sync command succeeds exactly one more request is made: the command's verb, base URL ++ interpolated template, the post-auth headers and params and the unchanged data; a delivered reply is the result and a refusal a transport failure. A failing chain is the result and nothing more happens. With a plain template and literal bindings the URL is the pairwise fill of the placeholders |
| Dispatch.AsyncAcknowledges | src/BaseLingo.php:79-133 | a found async command whose auth chain succeeds returns `{log: "async message sent"}`, and the world after the chain gains exactly `Job(async.queue, {action, data})` (data as before authentication) outside testing and nothing in testing; a failing chain is the result and nothing more is queued |
| Dispatch.ApiKeysAddsFirstEntry | src/AuthenticationHandler.php:24-29 | with a non-empty config, params gain exactly the first entry (it wins on its key), every other param is kept, and no other field changes |
| Dispatch.OAuth2Effects | src/AuthenticationHandler.php:31-54 | `oauth2` changes at most the Authorization header. On success the command set's key is in the cache. On failure the state is unchanged, and the failure is one the chain may end in. The world only grows, only an async command set's exchange queues, and testing makes no request |
| Dispatch.OAuth2CacheHit | src/AuthenticationHandler.php:33-53 | with the token cached under the command set's key: no request, cache unchanged, and success exactly when the token interpolates. Then the Authorization header is "{token_type} {access_token}" of the cached token and every other header is kept |
| Dispatch.OAuth2CacheMiss | src/AuthenticationHandler.php:33-53 | on a miss outside testing, for a command set in the sync default mode, exactly one request is made: POST to base URL ++ config url as a string, with the initial headers and declared params, of the config minus url merged into the declared data. On refusal the error propagates and state and cache are unchanged. On a reply the cache maps the key to the reply with its `expires_in` as TTL, and the Authorization header is set from it |
| Dispatch.OAuth2ExchangerInOtherModes | src/AuthenticationHandler.php:33-45 | on a miss for a command set declaring another mode: an unsupported mode fails with the unsupported-mode error, async without an "oauth2" command with command-not-found, and an async exchanger with its own `oauth2` strategy with `Unbounded`; each leaves the state, cache, requests and queue alone |
| Dispatch.LoopingExchangeReenters | src/AuthenticationHandler.php:33-45 | for such a looping command set, the exchanger passes both checks of `send` and its `apiKeys` entries before the first `oauth2` one succeed without touching the world, so it reaches `oauth2` again with the same key on the same cache |
| Dispatch.ExchangeEffects | src/AuthenticationHandler.php:36-48 | the miss branch changes only the Authorization header, puts the key in the cache on success, only grows the world, queues only for an async command set, makes no request in testing, and fails only as the chain may |
| Dispatch.ExchangerSends | src/AuthenticationHandler.php:36-45 | outside testing the exchanger of a sync command set sends exactly one POST, to base URL ++ url with the initial headers and declared params, of the config minus url merged into the declared data, and returns the transport's reply |
| Dispatch.AuthorizeEffects | src/AuthenticationHandler.php:49-53 | the header is set exactly when the cached token's type and access token interpolate, to "{type} {token}", every other header kept; otherwise state unchanged and the error is the conversion error |
| Json.AsObject | src/BaseLingo.php:112 | the `(object)` cast always gives an object, keeps an object as it is, maps null to the empty object, turns a list into an object whose properties are its indices "0", "1", …, each holding the item at that index, and wraps any other scalar as its "scalar" property |
| Json.ToText | src/AuthenticationHandler.php:52 | string interpolation fails exactly on an object, keeps a string, turns null and false into the empty string and an array into "Array" |
| Json.ArrayText | src/BaseLingo.php:103 | interpolating a value of a declared config: as `ToText` except that a nested array gives "Array" |
| Url.Substitute | src/BaseLingo.php:93-97 | the loop's result is `Url.Interpolate` of the template and the bindings, each binding in turn replacing the leftmost remaining placeholder |
| Url.FindFrom | src/BaseLingo.php:96 | finds the leftmost placeholder at or after the start, and there is no earlier one |
| Url.SplitJoin | src/BaseLingo.php:96 | cutting a template at its placeholders and joining the pieces back with placeholders gives the template again |
| Url.SplitSegmentsHaveNoMarker | src/BaseLingo.php:96 | no piece of a cut template contains a placeholder, so with `SplitJoin` the pieces are exactly the text between the placeholders |
| Url.Expand | src/BaseLingo.php:96 | a binding with no backslash and no dollar sign is inserted verbatim by `preg_replace`; one that starts with a reference to group 0 starts with the placeholder itself |
| Url.InterpolateFills | src/BaseLingo.php:95-97 | for a template whose only braces are its placeholders and bindings without `{`, `\` or `$`, interpolation equals the reference definition: the pieces between placeholders filled pairwise by the bindings |
| Url.InterpolateReplacesMin | src/BaseLingo.php:95-97 | under the same conditions exactly min(placeholders, bindings) placeholders are replaced, and the rest remain |
| Url.InterpolateIgnoresExcess | src/BaseLingo.php:95-97 | bindings beyond the number of placeholders change nothing |
| CacheKey.Snake | src/AuthenticationHandler.php:16-18 | the snake-cased name has no capital, is at least as long as the name, and starts with the name's first character lower-cased |
| CacheKey.SnakeIsIdempotent | src/AuthenticationHandler.php:16-18 | the snake-cased name has no capital, and snake-casing it again changes nothing |
| CacheKey.KeyForShape | src/AuthenticationHandler.php:16-18 | the key is the snake-cased name followed by ":jwt", and has no capital |
| CacheKey.KeyForSeparatesNames | src/AuthenticationHandler.php:16-18 | two command sets share a key exactly when their names snake-case alike |
| CacheKey.ClassSlotKeyIsKeyFor | src/AuthenticationHandler.php:13-22 | with one memo slot per class, the answer is the class's own key, every slot stays correct, and a second call returns the same key and changes nothing |
| CacheKey.SharedSlotKey | src/AuthenticationHandler.php:11-22 | the one static slot as written: afterwards the slot holds the key returned; a filled slot is returned as it is whatever the asking class, an empty one is filled with the asking class's key |
| CacheKey.SharedSlotLeaks | src/AuthenticationHandler.php:11-22 | with the one static slot as written, after "Weather" asks, "Billing" is handed "weather:jwt", which is not its own key |
| CacheKey.SharedAsksRepeatFirst | src/AuthenticationHandler.php:11-22 | as written, every lookup in a process answers the key of the first command set that asked |
| CacheKey.ClassAsksAreOwnKeys | src/AuthenticationHandler.php:13-22 | with per-class slots, every lookup in any sequence answers the asking command set's own key |

## Left out

- The Guzzle HTTP client and `json_decode` of the response body are one deterministic function, `Host.transport`. It maps a request to a decoded value, or to a refusal that stands for any exception the client raises. Timeouts, retries and response status codes are not modelled.
- The SQS dispatch through `DispatcherJob` is an append to the host's job list. What the queue does with a job is not modelled.
- The Laravel cache keeps the TTL it is given but never expires an entry. A TTL of zero or less, for which Laravel forgets the key instead of storing it, is stored like any other.
- `app('env')` is the boolean `Host.testing`.
- `ReflectionClass` is replaced by a given short class name in `CommandSet.name`.
- `Str::snake` is modelled for names without whitespace: lower-case the first character, and put an underscore before every later ASCII capital. Unicode case mapping and whitespace removal are not modelled.
- Dynamic dispatch by name (`$this->$auth_mode`, `'send' . $this->mode`) becomes a `Strategy` datatype and an explicit branch on the mode. Only the entries `apiKeys` and `oauth2` are modelled. Any other auth entry is not: one naming a method that does not exist is a PHP runtime error, and one naming an existing method of the instance (`withHeaders`, `async`, …) calls it with the entry's config.
- Arrays have string keys only. `array_merge`'s renumbering of integer keys is not modelled.
- Two PHP arrays whose order matters are sequences: the config of `apiKeys` (`array_key_first`) and the auth entries of a mode (run in order). Each stands for an array literal without repeated keys. A sequence that repeats a key has no PHP counterpart: PHP keeps only the last value written under a key, at the position of its first occurrence. For `[("a", 1), ("a", 2)]`, for example, the model's `apiKeys` takes 1 where PHP's array holds only `a => 2`.
- Every other array is a map, so the order in which PHP keeps their keys is not modelled.
- Numbers are integers. Floats in bodies, replies or TTLs are not modelled.
- Bindings are strings. A non-string binding passed to `command` is not modelled.
- A command or auth entry whose configuration is PHP `null` counts as absent for `isset`. Configurations are records here, so that case does not arise.
- Lingo.BaseLingo.OAuth2: as written, the cache-miss branch calls `withPayload`, which no class of the package defines. So every cache miss raises PHP's "Call to undefined method" Error before any exchange request is made, and the outer `send` fails with nothing cached. The model sends the intended exchange instead, passing the config through `withData`, the body setter (see the comment at that call).
- Lingo.BaseLingo.OAuth2: for a command set that declares async mode, an async "oauth2" command and an async `oauth2` strategy, PHP's exchanger re-enters `oauth2` with the same cache key and an unchanged cache until the stack or memory is exhausted; the model stops at that point with the `Unbounded` failure instead (`Dispatch.LoopingExchangeReenters` shows the re-entry).
- Lingo.BaseLingo.GetCacheKey: the dispatcher uses the corrected memo, one slot per command set (`CacheKey.ClassSlotKey`), not the single slot the code shares between all command sets; the shared slot as written is modelled and its leak proved separately (see Findings).
- Url.InterpolateFills, Url.InterpolateReplacesMin, Url.InterpolateIgnoresExcess: these are stated only for templates with no `{` outside their placeholders and for bindings with no `{`, `\` or `$`. Outside those conditions `preg_replace` rescans text it has inserted; `Url.Interpolate` models that case but no count is proved for it.
- Concurrent cache misses by two processes are concurrency and not modelled.
- `src/Console/Commands/GenerateLingo.php` (file scaffolding) and `src/LingoServiceProvider.php` (framework registration) are not part of this model.
- The setters return `$this` for chaining; here they are called in sequence and return nothing.

## Findings

| source | as written | input that shows it | evidently intended | confidence | as-written member | corrected member |
|---|---|---|---|---|---|---|
| src/AuthenticationHandler.php:11-22 | `$cache_key` is a private static property of the trait, so it lives once in `BaseLingo` and every command set extending it shares that one slot; the first command set to call `getCacheKey` fixes the key for all | command set `Weather` authenticates with `oauth2`, then `Billing` does: `Billing` reads and writes the token under `weather:jwt`, so it reuses Weather's token | each command set caches its token under its own snake-cased name followed by ":jwt" | medium, not executed | CacheKey.SharedAsksRepeatFirst | CacheKey.ClassAsksAreOwnKeys |
