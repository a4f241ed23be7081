# Heimdall, modelled in Dafny

Heimdall is a read-through cache for remote procedure calls, written in Go.
A caller wraps a remote call with `GRPCCall` (or `GRPCCallWithTTL`). The
library derives a cache key from the method name, the request, the two TTLs
and a version string. It then serves the call from a cache backend (Redis or
a user-supplied client) or makes the remote call and writes the response
back. An entry older than its soft TTL is still served, and a refresh is
started in the background. The backend evicts an entry after its hard TTL.
Entries are JSON, optionally compressed with gzip or Snappy. Cache hits, soft
hits and misses can be counted by a metrics client. All of this is set up
once, through `Init`, which validates a configuration and installs seven
process-wide settings.

The model has one module per source file or component:

| module | file | what it holds |
|---|---|---|
| `Common` | `common.dfy` | nilable values, `(value, error)` results, errors as `errors.Wrap` builds them, durations in nanoseconds, bytes, and the library code (JSON codecs, compressors) as function values with their round-trip assumptions |
| `Constants` | `constants.dfy` | the enumeration values of the configuration |
| `Decimal` | `decimal.dfy` | the `%d` rendering of integers and its inverse |
| `Helpers` | `helpers.dfy` | `DumpJSON`, `TernaryOp`, `strings.Split` / `Join`, `GetFunctionName` |
| `SetCollection` | `set.dfy` | the generic set, a class over a map that `Add` and `Remove` update in place |
| `HashKey` | `hash_key.dfy` | the unhashed key, padded URL-safe base64 with its decoder, and `GenerateCacheKey` |
| `Codec` | `codec.dfy` | `CompressStruct` and `DecompressStruct` |
| `CacheConfig` | `cache_config.dfy` | cache configuration: `Validate`, `newCustom`, `Freeze` |
| `MetricsConfig` | `metrics_config.dfy` | metrics configuration: `Validate`, `Freeze`, the supported-type set |
| `Policy` | `policy.dfy` | the seven settings as a `Globals` object and its `Inject*` setters |
| `Setup` | `setup.dfy` | the top-level configuration, `validate`, `freeze` and the once-only `Init` |
| `Heimdall` | `heimdall.dfy` | the orchestrator: the pure `GetDataSpec` and the `Orchestrator` class that performs it |
| `GrpcAdapter` | `grpc_adapter.dfy` | `wrapGRPCCallFunc`, `GRPCCallWithTTL`, `GRPCCall` |

How the model represents the system:

- **Library code is a parameter.** The JSON library, SHA-512, gzip, Snappy,
  the Redis and custom-metrics constructors and reflection's function name
  are all function values. A lemma that needs them to behave assumes it in
  its `requires`, never as an axiom. `Faithful` says a JSON codec reads back
  what it writes. `Invertible` says a compressor's reader restores its
  input. A SHA-512 digest is only known to be 64 bytes long.
- **The clock is a parameter.** Every operation that reads `time.Now()`
  takes `now`, in Unix seconds. A remote call is a function from the clock
  reading to its reply, so a refresh made later may get a different answer.
- **Durations are integer nanoseconds.** `int64(d.Seconds())` is
  `WholeSeconds`, which truncates toward zero for negative durations as well.
- **Orchestrator state.** The cache backend is a map from key to stored
  bytes and hard TTL. The class records every effect of a call in order:
  backend Gets and Sets, metric increments, and background actions. A
  goroutine the source starts is kept in `pending` until `RunPending` runs
  it at a chosen clock reading.
- **One call, two forms.** `GetDataSpec` states what one `getData` call
  returns and does. `Orchestrator.GetData` performs the same call step by
  step, through methods named after the source's helpers. Its `ensures`
  ties the reply and each log to `GetDataSpec`.

Behaviour worth knowing, as the source has it:

- `ToggleCache(b)` sets the skip flag to `b` itself, so `true` turns the
  cache off.
- With `SkipCache` set, `validate` accepts anything. `freeze` still builds
  the cache client, so a configuration with no supported cache provider
  fails even though the cache is skipped.
- On the miss path the model stamps the value built from the remote
  response and checks its staleness against one and the same clock reading.
  With that single reading, only a soft TTL of minus one second or less
  schedules a refresh there. The source reads the clock twice (see "Left
  out").
- The caller never gets the remote response object itself on the cached
  paths. It gets what the JSON library parses back from the response's text.
- A remote call that returns neither a response nor an error is served as
  the parse of `null` and is never written back.

## Model

| member | source | states |
|---|---|---|
| `Common.WholeSeconds` | helpers/hash_key.go:56 | a duration becomes its whole seconds truncated toward zero: `s` seconds with `s*1e9 <= d < (s+1)*1e9`, mirrored for negative durations |
| `Helpers.DumpJSON` | helpers/helpers.go:32-38 | the JSON text on success, the empty default on a marshal failure |
| `Helpers.TernaryOp` | helpers/helpers.go:41-46 | the true value exactly when the condition holds, the false value otherwise |
| `Helpers.Split` | helpers/helpers.go:52 | splitting on `/` always yields at least one piece |
| `Helpers.JoinSplit` | helpers/helpers.go:52 | joining the pieces with `/` gives back the name, so splitting loses nothing |
| `Helpers.SplitPiecesHaveNoSlash` | helpers/helpers.go:52 | no piece contains `/` |
| `Helpers.SplitCount` | helpers/helpers.go:51-55 | a name without `/` splits into itself alone; a name with `/` splits into at least two pieces, so the empty-split branch cannot be reached |
| `Helpers.SplitLast` | helpers/helpers.go:56 | the last piece is a suffix of the name and, when the name contains `/`, is preceded by a `/` |
| `Helpers.GetFunctionName` | helpers/helpers.go:49-59 | the result never contains `/` and is a suffix of the name; a name without `/` comes back unchanged; otherwise the result is the text after the last `/` |
| `Decimal.Digits` | helpers/hash_key.go:56 | a natural number renders as at least one decimal digit and nothing else |
| `Decimal.DigitsRoundTrip` | helpers/hash_key.go:56 | parsing the digits of `n` gives back `n` |
| `Decimal.FormatIntRoundTrip` | helpers/hash_key.go:56 | parsing the `%d` rendering of any integer, negative included, gives it back, so distinct TTL seconds render differently |
| `SetCollection.Set.New` | collections/set/set.go:23-25 | a new set is empty |
| `SetCollection.Set.Add` | collections/set/set.go:28-31 | the item is present afterwards and the same set is returned; adding a present item changes nothing and keeps the size; adding an absent one grows the size by one |
| `SetCollection.Set.Contains` | collections/set/set.go:52-55 | true exactly when the item is present |
| `SetCollection.Set.Remove` | collections/set/set.go:34-40 | true exactly when the item was present; then exactly that item is gone and the size drops by one; otherwise the set is unchanged |
| `SetCollection.Set.MustRemove` | collections/set/set.go:44-49 | callable only on a present item (the source panics otherwise); exactly that item is removed |
| `HashKey.Symbol` | helpers/hash_key.go:50 | each 6-bit value maps to a character of the URL-safe base64 alphabet, never `=`, `/` or `+` |
| `HashKey.SymbolRoundTrip` | helpers/hash_key.go:50 | the alphabet is decoded back to the 6-bit value it encodes |
| `HashKey.EncodeQuantum` | helpers/hash_key.go:50 | one to three bytes always take four characters |
| `HashKey.Base64Url` | helpers/hash_key.go:50 | the encoding's length is a multiple of four, and it is empty exactly when the input is |
| `HashKey.QuantumRoundTrip` | helpers/hash_key.go:50 | a group decodes to the bytes it encodes, a padded group only as the final one |
| `HashKey.QuantumShape` | helpers/hash_key.go:50 | a group's characters are alphabet symbols or padding |
| `HashKey.Base64UrlRoundTrip` | helpers/hash_key.go:50 | decoding the base64 encoding of any byte string gives it back |
| `HashKey.Base64UrlInjective` | helpers/hash_key.go:50 | distinct digests give distinct keys |
| `HashKey.Base64UrlLength` | helpers/hash_key.go:50 | the encoding of `n` bytes has `4 * ceil(n / 3)` characters |
| `HashKey.Base64UrlAlphabet` | helpers/hash_key.go:50 | every character of an encoding is an alphabet symbol or padding |
| `HashKey.ConstructUnhashedKey` | helpers/hash_key.go:55-57 | the key text starts with the function name followed by ':' and ends with ':' followed by the version |
| `HashKey.GenerateCacheKey` | helpers/hash_key.go:31-53 | a request that fails to marshal gives that error, wrapped with an empty message, and nothing is hashed; an untyped nil request or one that marshals always gives a key |
| `HashKey.KeyShape` | helpers/hash_key.go:48-50 | every key is 88 characters, each an alphabet symbol or padding |
| `HashKey.KeyFollowsUnhashedKey` | helpers/hash_key.go:46-52 | two derivations give the same key exactly when the digests of their unhashed keys agree; the key depends on nothing else |
| `HashKey.NilRequestSegment` | helpers/hash_key.go:37-38 | an untyped nil request leaves the request segment empty (`name::soft:hard:version`) |
| `HashKey.UnhashedKeySeparatesFields` | helpers/hash_key.go:55-57 | with the rest fixed, changing the name, the request text or the version changes the unhashed key; two soft TTLs (or two hard TTLs) give the same unhashed key exactly when their whole seconds agree |
| `Codec.Unmarshal` | decompress.go:40-43 | a parse failure is wrapped as "unable to unmarshal for struct decompression"; a success is the parsed value |
| `Codec.CompressStruct` | compress.go:35-48 | a success needs the value to marshal; a marshal failure is wrapped as "unable to marshal struct"; a selector other than gzip and Snappy stores the JSON bytes unchanged |
| `Codec.DecompressStruct` | decompress.go:32-61 | a selector other than gzip and Snappy parses the bytes as they are; a gzip or Snappy reader error is returned unwrapped |
| `Codec.CompressBySelector` | compress.go:35-48 | a marshal failure is returned wrapped before anything is compressed; selector 1 gives whatever gzip makes of the JSON, its error included, 2 likewise with Snappy, and every other selector (0 and 3 included) gives the JSON bytes unchanged |
| `Codec.DecompressBySelector` | decompress.go:32-61 | the branch follows the selector alone; a reader error comes back unwrapped; a success is what the JSON library parses from the decompressed bytes, or from the raw bytes for other selectors |
| `Codec.DecompressCompress` | decompress.go:32-61 | for every selector, decompressing what `CompressStruct` wrote restores the value, given faithful JSON and invertible compressors |
| `CacheConfig.Validate` | cache/init.go:40-53 | valid exactly for a custom provider with its configuration or a Redis provider with its configuration, with the source's message for each failure |
| `CacheConfig.NewCustom` | cache/custom.go:36-45 | fails exactly on a nil configuration; otherwise Get and Set both go to the configured client, even a nil one |
| `CacheConfig.Freeze` | cache/init.go:56-68 | a nil configuration is refused; a custom provider gets `newCustom`'s result, a Redis provider the Redis constructor's; any other provider is refused with its number in the message |
| `CacheConfig.FreezeAgreesWithValidate` | cache/init.go:40-68 | for a custom provider, freezing fails exactly when validation does; an unsupported provider fails both |
| `MetricsConfig.SupportedMetricsTypes` | metrics/init.go:34-35 | the supported set holds the custom metrics type and nothing else |
| `MetricsConfig.Validate` | metrics/init.go:47-58 | valid exactly for the custom type with its configuration; a nil configuration and any other type get the source's messages |
| `MetricsConfig.Freeze` | metrics/init.go:61-71 | a nil configuration is refused; the custom type gets the custom constructor's result; any other type is refused with its number in the message |
| `MetricsConfig.UnsupportedProviderRefused` | metrics/init.go:53-54 | a type other than custom fails both validation and freezing |
| `Policy.Globals.constructor` | consts.go:27-39 | before any setter runs, every setting has Go's zero value |
| `Policy.Globals.InjectCacheProvider` | consts.go:41-43 | sets the cache provider and leaves the other six settings unchanged |
| `Policy.Globals.InjectMetricsProvider` | consts.go:45-47 | sets the metrics provider and leaves the other six unchanged |
| `Policy.Globals.InjectSkipCache` | consts.go:49-51 | sets the skip flag and leaves the other six unchanged |
| `Policy.Globals.InjectSoftTTL` | consts.go:53-55 | sets the default soft TTL and leaves the other six unchanged |
| `Policy.Globals.InjectHardTTL` | consts.go:56-58 | sets the default hard TTL and leaves the other six unchanged |
| `Policy.Globals.InjectCompressionLibrary` | consts.go:59-61 | sets the compression selector and leaves the other six unchanged |
| `Policy.Globals.InjectVersion` | consts.go:62-64 | sets the version and leaves the other six unchanged |
| `Setup.Validate` | init.go:116-141 | everything passes when the cache is skipped; otherwise valid exactly when the hard TTL is set and not below the soft TTL (equal passes), the cache section is valid, and the selector lies in 0..3; the two TTL errors carry the source's messages, a cache-section error is returned as that section reported it, and a bad selector gives "invalid compression library type specified." |
| `Setup.Frozen` | init.go:88-114 | a validation error is returned as it is, before anything is frozen; a success comes from a valid configuration, always holds a cache client, and holds a metrics client exactly when emission is enabled and a metrics section is present |
| `Setup.FrozenMirrorsConfig` | init.go:88-114 | a successful freeze comes from a valid configuration, copies the TTLs, skip flag, selector and version, installs the frozen cache client, and installs a metrics client exactly when emission is enabled and a metrics section is present |
| `Setup.FrozenErrors` | init.go:88-103 | a validation error is what freezing reports; next comes the cache client's error; with emission disabled the metrics section never makes freezing fail |
| `Setup.SkippedCacheStillNeedsProvider` | init.go:93-96 | a configuration that skips the cache with no supported provider passes validation and still fails to freeze |
| `Setup.Freeze` | init.go:88-114 | on success the settings become the frozen ones; on failure the error is returned and no setting changes |
| `Setup.Once.constructor` | init.go:30-32 | the guard starts not yet run |
| `Setup.Init` | init.go:144-150 | the first call freezes and reports the error; every later call returns no error and changes nothing, even when the first call failed |
| `Heimdall.IsPastSoftTTLThreshold` | heimdall.go:169-171 | for a non-negative soft TTL an entry is never stale before that TTL has elapsed since its stamp and always stale once a further second has passed; a sub-second soft TTL is stale exactly from the second after the stamp |
| `Heimdall.GetDataSpec` | heimdall.go:43-84 | at most one remote call, made exactly unless a readable entry was found on the read path; one Get exactly on the read path with the cache on and none otherwise; at most two background actions |
| `Heimdall.CacheWrite` | heimdall.go:150-167 | bytes are written only for a non-nil response that the write filter accepts and that marshals, and they are the compressed entry stamped with the write time and the call's soft TTL |
| `Heimdall.MakeCacheValue` | heimdall.go:181-191 | succeeds exactly when the response marshals (nil as `null`); the entry is stamped `now`, keeps the given soft TTL and holds the response's JSON text; a failure is wrapped as "unable to marshal rpc response" |
| `Heimdall.GenerateResp` | heimdall.go:86-93 | no error exactly when the entry's text parses as a response, which is then returned; otherwise the wrapped parse error and no response |
| `Heimdall.Lookup` | cache/cache.go:50-57 | the backend's bytes exactly when it holds the key |
| `Heimdall.SkipCacheIsTransparent` | heimdall.go:56-58 | with the cache skipped, the remote reply comes back verbatim, with one remote call and no backend operation, metric or background action |
| `Heimdall.NoReadSkipsLookup` | heimdall.go:61-67 | with reading disabled, no backend operation and one remote call; only the miss metric; a failed call's error comes back wrapped and nothing is scheduled; a successful call schedules its write-back |
| `Heimdall.ReadPathGetsOnce` | heimdall.go:69 | the read path performs exactly one backend Get, under the call's key |
| `Heimdall.UnusableEntryFallsBack` | heimdall.go:69-75 | an absent or undecodable entry leads to exactly one remote call, the miss counted first; if that call fails, its wrapped error is returned with nothing scheduled and no hit; if it succeeds with a response the JSON library renders, the caller gets exactly that reply and its write-back is scheduled first |
| `Heimdall.UsableEntryServedWithoutCall` | heimdall.go:69-83 | a decodable entry is served from its text with no remote call and no miss metric |
| `Heimdall.FreshValueStaleness` | heimdall.go:169-171 | a value just built is stale at the same clock reading exactly when its soft TTL is at most minus one second, so never for a non-negative soft TTL |
| `Heimdall.StaleEntryRefreshes` | heimdall.go:77-83 | a stale entry is still served from its text; a soft hit then a hit are counted and exactly one refresh is scheduled |
| `Heimdall.FreshEntryHits` | heimdall.go:77-83 | a fresh entry is served with one hit counted and nothing scheduled |
| `Heimdall.HitCountedOnce` | heimdall.go:81 | whenever the read path obtains an entry, from the cache or through the miss fallback, the hit is counted exactly once when metrics are on; otherwise no hit; with no metrics provider nothing is counted on any path |
| `Heimdall.UnparsableEntryIsError` | heimdall.go:86-93 | an entry whose text does not parse is an error, wrapped as "unable to marshal cache value to rpc response", and not a miss: no remote call |
| `Heimdall.CacheWriteConditions` | heimdall.go:150-167 | the cache is written exactly when the response is non-nil, the write filter accepts it, and it marshals and compresses |
| `Heimdall.CacheWriteReadsBack` | heimdall.go:150-167 | the bytes written decode to an entry stamped with the write time and the call's soft TTL, and serving it gives back the response written |
| `Heimdall.MissServesRemoteResponse` | heimdall.go:105-118 | on a miss the caller gets the remote response, given that it survives its JSON round trip |
| `Heimdall.MissThenHit` | heimdall.go:43-84 | the first call on an absent key returns the remote response and schedules its write-back; after the write-back, a call within the soft TTL returns the same response from the cache, with one Get, one hit, no remote call and nothing scheduled |
| `Heimdall.ToggleCache` | heimdall.go:33-35 | sets the skip flag to the argument itself and leaves the other settings unchanged |
| `Heimdall.Orchestrator.BackendGet` | cache/cache.go:50-57 | records one Get and returns the backend's bytes or its wrapped error |
| `Heimdall.Orchestrator.BackendSet` | cache/cache.go:60-66 | records one Set and stores the bytes with the hard TTL under the key |
| `Heimdall.Orchestrator.Increase` | heimdall.go:177-179 | a metric is recorded exactly when a metrics provider is installed |
| `Heimdall.Orchestrator.Invoke` | heimdall.go:111 | one remote call at the current clock reading, counted |
| `Heimdall.Orchestrator.FetchFromCache` | heimdall.go:95-103 | one Get, then the backend's error or the entry decoded with the installed selector |
| `Heimdall.Orchestrator.HandleCacheMiss` | heimdall.go:105-118 | counts the miss, makes one remote call, wraps its error as "rpc call failed", and otherwise schedules one write-back and builds the entry |
| `Heimdall.Orchestrator.HandleCacheSoftHit` | heimdall.go:120-134 | counts the soft hit and schedules exactly one refresh |
| `Heimdall.Orchestrator.HandleCacheHit` | heimdall.go:136-140 | counts the hit |
| `Heimdall.Orchestrator.GetData` | heimdall.go:43-84 | the reply, the backend operations, the metrics, the background actions and the number of remote calls are exactly those of `GetDataSpec` |
| `Heimdall.Orchestrator.UpdateCache` | heimdall.go:150-167 | sets the key to the encoded entry with the hard TTL exactly when `CacheWrite` yields bytes; otherwise the backend is untouched and nothing is reported |
| `Heimdall.Orchestrator.RunPending` | heimdall.go:126-133 | removes one background action and runs it: a write-back writes as `UpdateCache` would; a refresh makes one more remote call and writes its response unless that call fails |
| `GrpcAdapter.WrapGRPCCallFunc` | grpc_adapter.go:50-54 | the wrapped call invokes the method with exactly the captured context, request and call options |
| `GrpcAdapter.AdapterCall` | grpc_adapter.go:46-47 | the adapter reads from the cache and writes every response; the call is named by the method's short name and uses the given key and TTLs |
| `GrpcAdapter.NilMethodRefused` | grpc_adapter.go:35-37 | a nil method fails with "grpcFunc is nil" before any key derivation, backend operation or remote call |
| `GrpcAdapter.KeyErrorReturned` | grpc_adapter.go:41-44 | a key-derivation error is returned, and neither the backend nor the method is touched |
| `GrpcAdapter.AdapterReadsAndWrites` | grpc_adapter.go:39-47 | once the key is derived, one Get under it; a response is written back exactly when it marshals and compresses |
| `GrpcAdapter.AdapterReturnsResponse` | grpc_adapter_test.go:100-121 | hit, soft hit and miss all return the method's response with no error; the miss case covers every entry that cannot be obtained (absent, or bytes that do not decompress or decode under the current selector), not only an absent key |
| `GrpcAdapter.GRPCCallWithTTLSpec` | grpc_adapter.go:34-48 | at most one remote call and one Get; a nil method gives "grpcFunc is nil" with no traffic; any Get is under the key derived from the request, the method's short name, the TTLs and the version |
| `GrpcAdapter.GRPCCallAsWritten` | grpc_adapter.go:29-31 | as written, `GRPCCall` behaves exactly like the intended call made with no call options |
| `GrpcAdapter.GRPCCallAsWrittenDropsOptions` | grpc_adapter.go:29-31 | a method answering with the number of options it receives answers 0 to `GRPCCall` as written, though called with one option |
| `GrpcAdapter.GRPCCallForwardsArguments` | grpc_adapter.go:29-31 | `GRPCCall` uses the injected default TTLs and hands the method the caller's context, request and options |
| `GrpcAdapter.GRPCCallWithTTL` | grpc_adapter.go:34-48 | the reply and every effect are exactly those of `GRPCCallWithTTLSpec`: the nil check, then the key from the short name, the TTLs and the injected version, then `getData` |
| `GrpcAdapter.GRPCCall` | grpc_adapter.go:29-31 | `GRPCCallWithTTL` with the injected default soft and hard TTLs, the caller's options passed on |

## Findings

| source | as written | input that shows it | evidently intended | confidence | as-written member | corrected member |
|---|---|---|---|---|---|---|
| grpc_adapter.go:29-31 | `GRPCCall` takes variadic call options but calls `GRPCCallWithTTL` without them, so the remote method never sees them | any call with a non-empty option list, e.g. one option to a method that reports how many it received: it reports 0 | pass the options on, as `GRPCCallWithTTL` does for its own options | not executed; the options parameter is otherwise unused | `GrpcAdapter.GRPCCallAsWritten` (shown by `GrpcAdapter.GRPCCallAsWrittenDropsOptions`) | `GrpcAdapter.GRPCCall` (proved by `GrpcAdapter.GRPCCallForwardsArguments`) |

## Left out

- Goroutines: background write-backs and refreshes are recorded as pending actions and run one at a time by `RunPending`. Interleavings, races between refreshes and last-write-wins are not modelled.
- `sync.Once` thread safety: `Init`'s guard is a plain already-ran flag.
- Hard-TTL eviction: the backend keeps what it was given together with its TTL. It never evicts.
- Backend failures: a backend Get fails only for an absent key, and `Set` always succeeds. The source drops `Set` errors anyway. The backend's own error text is represented by one fixed error.
- A nil cache provider: the source dereferences it on the read and write paths and panics. The model assumes a provider whenever the cache is not skipped.
- CacheConfig.NewCustom: a nil client is not modelled as a crash. The source builds a provider around a nil `Client` interface, whose Get and Set (cache/cache.go:51,61) then panic; the write panics inside the `updateCache` goroutine and ends the process. The model serves and stores as if the client were present.
- Setup.Init: a nil configuration is not modelled. The source dereferences the nil configuration in `validate` (init.go:144-147 and 116) and panics. `Setup.Init` takes a configuration value, so that case does not arise in the model.
- Heimdall.GetDataSpec: takes one clock reading per `getData` call. The source reads the clock twice on the miss path, in `makeCacheValue` (heimdall.go:187) and in `isPastSoftTTLThreshhold` (heimdall.go:170). When a second boundary falls between the two readings, a soft TTL in [0, 1s) is judged stale and a refresh is scheduled. The model does not capture that case.
- Floating point and overflow: `Duration.Seconds()` is a float64 and `UpdatedTS + seconds` an int64. The model uses exact integers, so durations beyond float64 precision and sums beyond int64 are not modelled.
- The library internals: sonic JSON, SHA-512, gzip and Snappy streams (their writer, close and reader errors included), go-redis construction and network checks, `runtime.FuncForPC` reflection. They are parameters; what they do internally is not modelled.
- `json.ConfigStd` versus the frozen `UseNumber` configuration: the model uses one response codec and one request marshaller and does not distinguish number handling.
- A typed nil request marshalling as `null`: this is the request marshaller's behaviour, a parameter here. No lemma fixes it.
- metrics/custom.go (the custom metrics constructor) is not part of this model. `MetricsConfig.Freeze` takes it as a parameter.
- The `context.Context` passed through every call only identifies the caller. Cancellation and deadlines are not modelled.
