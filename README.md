# stash: a model of the caching facade and its providers

`stash` is a small Go facade over a cache store. `Load` takes a provider
(memory, Redis or Memcached), runs its `Validate` and `Ping` checks, and wraps
the store the provider builds in a `Cache`. The `Cache` then forwards `Get`,
`Set`, `Delete`, `Invalidate` and `Clear` to that store. Values are
JSON-encoded on the way in and decoded into the caller's destination on the
way out.

This project models that facade and the three providers' configuration rules
in Dafny:

- `wrappers.dfy`, `values.dfy`: Go's nil-or-value and value-or-error returns,
  `error` values, and `interface{}` values classified by their dynamic type
  (nil, `[]byte`, `string` as bytes, anything else).
- `options.dfy` (module `CallOptions`): per-call options and their field-for-field
  conversion into the store's option records.
- `backend.dfy` (module `Backend`): the store as an object that records every
  call it receives. What it answers is an unseen function of the call and of
  every call before it.
- `providers.dfy` (module `Providers`): the `Provider` interface, recorded as the
  answers of its four methods, plus the names of those methods for call traces.
- `stash.dfy` (module `Stash`): driver names, `RememberForever`, `Load` (with the
  provider methods it calls, in order), the `Cache` and its five operations.
  It also defines what the store sees for a whole session of requests.
- `memory.dfy`, `redis.dfy`, `memcache.dfy`: each provider's constructor,
  `Validate`, `Driver`, and (memory only) `Ping`. Each also has lemmas on how
  `Load` treats that provider.

The foreign calls are parameters. `json.Marshal`, `json.Unmarshal` and `cast.ToString` are the
fields of a `Codec` argument, a Go string sits inside a `Text` value as its bytes, and so
`[]byte(r)` in `Get` is the identity. The network `Ping` of Redis and Memcached, and the
store object that every provider's `Store` builds, are inputs of `AsProvider`.

The constants `Stash.MemoryDriver`, `Stash.RedisDriver`, `Stash.MemcacheDriver` and
`Stash.RememberForever` (stash.go:55-68) keep the source's values. So does `Stash.NilProvider`,
the error that `Load` returns for a nil provider (stash.go:83).
`Stash.Cache.Serve` dispatches one request to the matching `Cache` method, and
`Stash.Cache.Run` serves a sequence of requests in turn with one destination and one codec. They tie the session functions to the store the methods drive.

The providers' `Validate`, `Driver` and `Ping` are functions of an immutable
value, so none of them can change a field of the provider.

## Model

| member | source | states |
|---|---|---|
| `CallOptions.Options.ToStore` | options.go:32-37 | the store options carry the caller's expiration and the same tags in the same order |
| `CallOptions.InvalidateOptions.ToStore` | options.go:41-43 | the store invalidation record carries the same tags |
| `CallOptions.ZeroOptionsToZero` | options.go:32-43 | zero-value options convert to zero-value store options, for both conversions |
| `CallOptions.ToStoreLossless` | options.go:32-37 | two options convert to the same store options exactly when they are equal: nothing is lost or invented |
| `CallOptions.InvalidateToStoreLossless` | options.go:41-43 | the same for invalidation options |
| `Backend.Store.Call` | stash.go:46-49 | one call on the store is appended to its trace and answered by the backend given the earlier calls |
| `Stash.Load` | stash.go:81-100 | Load succeeds exactly when the provider is non-nil and both Validate and Ping return nil; the cache then holds that provider's store and driver name; the provider calls form a prefix of Validate, Ping, Store, Driver; Ping is called only after Validate succeeded and Store only after both succeeded |
| `Stash.LoadNilProvider` | stash.go:82-84 | a nil provider gives the error "provider cannot be nil", no cache and no provider call |
| `Stash.LoadValidateError` | stash.go:86-89 | a failing Validate gives exactly its error, no cache, and Ping is never called |
| `Stash.LoadPingError` | stash.go:91-94 | Validate passing and Ping failing gives exactly the ping error and no cache |
| `Stash.LoadSuccess` | stash.go:96-99 | on success the cache's Driver is the provider's Driver() and its store is the provider's Store() |
| `Stash.Payload` | stash.go:110-115 | Get decodes exactly when the store's result is a `[]byte` or a `string`, and then decodes its bytes |
| `Stash.GetOutcome` | stash.go:109-121 | after a Get, a `[]byte`/`string` result gives the decoder's value and error, the store's error being dropped; any other result keeps the destination and gives the store's error |
| `Stash.TextAndBytesDecodeAlike` | stash.go:110-115 | a string result and a byte-slice result with the same bytes take the same decode path |
| `Stash.Encodable` | stash.go:130-133 | the facade turns a request away only when it is a Set, and a Set exactly when its value does not encode |
| `Stash.Forward` | stash.go:105-161 | the reference for what the store receives per request: at most one call, and none exactly for a Set whose value does not encode; `Stash.Cache.Serve` proves the `Cache` methods make exactly these calls |
| `Stash.Cache.Get` | stash.go:105-122 | one store Get for the key; a `[]byte`/`string` result is decoded into the destination and the decoder's error replaces the store's; any other result leaves the destination unchanged and returns the store's error |
| `Stash.Cache.Set` | stash.go:127-135 | an encoding failure is returned and the store is not called; otherwise the store gets one Set with the encoded bytes and converted options, and its error is returned unchanged |
| `Stash.Cache.Delete` | stash.go:140-144 | one store Delete with the string form of the key; the store's error is returned unchanged |
| `Stash.Cache.Invalidate` | stash.go:149-153 | one store Invalidate with the converted options; the store's error is returned unchanged |
| `Stash.Cache.Clear` | stash.go:157-161 | one store Clear; the store's error is returned unchanged |
| `Stash.Cache.Serve` | stash.go:105-161 | handing one request to the `Cache` method for it extends the store's trace by exactly `Forward` of that request; only a Get can change the destination, and after a Get the destination and error are those `Stash.GetOutcome` gives for the store's reply; a Set whose value does not encode returns the encoder's error, and every other non-Get request returns the store's error for its one call unchanged |
| `Stash.Cache.Run` | stash.go:105-161 | after `Run` serves a sequence of requests in turn (one destination, one codec), the store has received `Session` of those requests, which equals `Session` of the accepted ones alone; exactly one call per accepted request, in their order, each the one `Forward` gives; every rejected Set yields its encoding error; without a Get the destination is unchanged |
| `Stash.Session` | stash.go:105-161 | a sequence of requests makes no more store calls than there are requests; by `Stash.Cache.Run` this is what the store receives |
| `Stash.Accepted` | stash.go:130-133 | a request is kept exactly when it is one of the original requests and encodes, and there are no more of them than requests; they are kept in the order of `reqs` by its definition, which `Stash.StoreSeesAcceptedInOrder` relies on |
| `Stash.SessionStep` | stash.go:105-161 | one more request extends the session's calls by exactly that request's calls; `Stash.Cache.Run` uses it at each step |
| `Stash.StoreSeesAcceptedInOrder` | stash.go:127-161 | a session's calls are exactly the accepted requests, in order, one call each; through `Stash.Cache.Run` this holds of the store's own trace |
| `Stash.RejectedSetsAreInvisible` | stash.go:130-133 | removing the unencodable Sets beforehand leaves a session's calls unchanged; through `Stash.Cache.Run` a rejected Set leaves no trace on the store |
| `Stash.StoredValuesAreEncodings` | stash.go:130-134 | every Set call in a session is the encoding of a value some caller passed to Set, under that caller's key and converted options; `Stash.Cache.Run` makes the store's trace that session |
| `Memory.MemoryStore.Validate` | memory.go:29-31 | Validate always succeeds |
| `Memory.MemoryStore.Ping` | memory.go:47-49 | Ping always succeeds |
| `Memory.MemoryStore.Driver` | memory.go:35-37 | Driver is always "memory" |
| `Memory.MemoryStore.AsProvider` | memory.go:14-49 | the provider Load sees answers with this store's Validate, Ping and Driver and the store it builds |
| `Memory.NewMemory` | memory.go:21-25 | the go-cache client is built from the given default expiration and cleanup interval |
| `Memory.MemoryAlwaysLoads` | memory.go:21-49 | Load of any memory provider succeeds with a "memory" cache over its store after calling all four provider methods |
| `Redis.RedisStore.Validate` | redis.go:35-40 | Validate fails exactly when the address is empty, with "error: no redis address defined" |
| `Redis.RedisStore.Driver` | redis.go:44-46 | Driver is always "redis" |
| `Redis.RedisStore.AsProvider` | redis.go:18-60 | the provider Load sees answers with this store's Validate and Driver, the given ping outcome and store |
| `Redis.NewRedis` | redis.go:25-31 | the provider holds the client the foreign constructor builds from a pointer to the options, the options as that constructor leaves them, and the given default expiration |
| `Redis.NewRedisKeepsOptions` | redis.go:25-40 | when the client constructor leaves the options alone, the provider keeps them unchanged and its Validate fails exactly when the caller gave no address |
| `Redis.DefaultedAddressPassesValidate` | redis.go:25-40 | when the client constructor fills in an address, the provider's Validate succeeds even for an empty address from the caller |
| `Redis.ValidateReadsOnlyAddr` | redis.go:35-40 | two stores with the same address validate alike whatever their other options, an empty password included |
| `Redis.NoAddressNeverPings` | redis.go:35-40 | without an address Load fails with the address error after calling Validate only, so no network call is made |
| `Redis.LoadsWhenReachable` | redis.go:35-60 | with an address Load gives a "redis" cache over the store if the ping succeeds and the ping error otherwise |
| `Memcache.MemcacheStore.Validate` | memcache.go:34-39 | Validate fails exactly when the server list is empty, with "no memcache hosts defined in env" |
| `Memcache.MemcacheStore.Driver` | memcache.go:43-45 | Driver is always "memcache" |
| `Memcache.MemcacheStore.AsProvider` | memcache.go:17-59 | the provider Load sees answers with this store's Validate and Driver, the given ping outcome and store |
| `Memcache.NewMemcache` | memcache.go:24-30 | the provider keeps the server list (same hosts, same order) and the default expiration, and its client is built from those servers |
| `Memcache.ValidateReadsOnlyServerCount` | memcache.go:34-39 | Validate depends only on how many servers there are, so any non-empty list such as three hosts passes |
| `Memcache.NoHostsNeverPings` | memcache.go:34-39 | without servers Load fails with the host error after calling Validate only |
| `Memcache.LoadsWhenReachable` | memcache.go:34-59 | with servers Load gives a "memcache" cache over the store if the ping succeeds and the ping error otherwise |

## Where the code and its own comments differ

The model follows the code:

- The doc comment of `Load` (stash.go:76-80) says it loads a driver "by the
  environment" and returns `ErrInvalidDriver` for an unknown driver. The code
  (stash.go:81-100) takes a provider value and has no driver lookup and no
  such error. Its only own error is the nil-provider one.
- `Get` (stash.go:109-115) replaces the store's error with the decoder's
  whenever the result is a `[]byte` or a `string`. A store error that comes
  with such a result is lost.
- `NewRedis` (redis.go:25-31) hands the client constructor a pointer to the
  options it then keeps. If that constructor fills in a default address and
  the kept options are read after it, `Validate`'s address check
  (redis.go:35-40) can never fail for a provider built by `NewRedis`
  (`Redis.DefaultedAddressPassesValidate`). This is an observation from the
  code, not executed.

## Left out

- The process-wide mutex around every `Cache` operation is concurrency. Each
  modelled operation is a single atomic step.
- The `context.Context` argument of every operation is passed to the store
  unchanged. It is not part of the model's store calls.
- `Ping` of the Redis and Memcached providers is a network round trip and is an input.
  Each provider's `Store` builds foreign store objects, so its result is given as a `Store` object.
- What the backend does with calls is not modelled: expiry, tag invalidation,
  eviction, clearing and "not found". Its answers are an unseen function, so
  the set-then-get round trip that the demo programs show cannot be stated.
- `encoding/json` and `cast.ToString` are foreign code, left uninterpreted in `Codec`. No
  encode/decode round trip is claimed.
- `time.Duration` is an unbounded integer; int64 overflow is not modelled.
- Go `error` values are compared by message; Go compares the error interface values, so
  two distinct errors with one message are the same here.
- The store library's options records are modelled with only the fields the facade fills in.
  Any other field keeps its zero value.
- Redis.NewRedis: Go leaves open whether the options copied into the provider at redis.go:28 are read before or after the client constructor at redis.go:27 has run on a pointer to them. The model reads them after it; when the constructor leaves them alone the two readings agree (`Redis.NewRedisKeepsOptions`). What the foreign constructor does to them is an input.
- `Redis.RedisOptions` holds the common go-redis connection fields only (network,
  address, user, password, database). The rest of that foreign record is not modelled.
- Stash.Cache.Run: does not state which store error each accepted request returns, nor the destination after a sequence that holds a Get; `Stash.Cache.Serve` and `Stash.Cache.Get` state both request by request.
- Nil and empty slices (tags, server lists) are both the empty sequence.
- A provider whose `Store` returns nil gives a `Cache` that fails on its
  first use. `Providers.Provider` holds a non-null `Store`, so the model cannot express it.
- A typed nil pointer (such as a nil `*RedisStore`) stored in a `Provider` interface is
  not nil in Go and would fail inside `Validate`. The model's nil provider is the untyped nil only.
- The `Store` interface declared in stash.go:18-42 is a declaration only. `Stash.Cache`'s
  methods have its shape.
- cache.go is an older variant in another package, and it does not compile. The demo programs
  in the examples and cmd directories are console I/O. Neither is part of this model.
