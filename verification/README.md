# gocache in-memory store, modelled in Dafny

This project models the core of gocache, a Go caching façade with pluggable drivers.
It covers these parts:

- The in-memory driver `ramcache`, in two pieces:
  - its store (`store.go`): items with an expiry instant, a key-to-item map, and a snapshot of the entries sorted by expiry;
  - its driver (`ramcache.go`): lazy expiry on `Get` and `Exists`, key-not-found on `Del`, and `Set` / `SetWithExpiry` that accept only strings and byte slices.
- The small pure pieces around the driver:
  - TTL validation;
  - option defaulting for the in-memory, Redis and Redis Cluster drivers;
  - the two key-modifier packages;
  - the scheme-tagged error wrapper;
  - the scheme/type registry behind `OpenCache`.

Every operation is a pure function on an immutable value. A Go mutation becomes a function that returns the new state. The clock reading is an integer `now`, in nanoseconds, passed to each call that reads the clock. Durations are `time.Duration`, a signed 64-bit count of nanoseconds.

Modules:

| file | module | models |
|---|---|---|
| results.dfy | `Results` | `Option`, `Result` and `Status` (a Go `error` return) |
| gotypes.dfy | `GoTypes` | `byte`, `int64`, `time.Duration` and its constants, and instants |
| strings.dfy | `Strings` | `EndsWith` (`strings.HasSuffix`) |
| gcerrors.dfy | `GcErrors` | error values: `errors.New`, `fmt.Errorf` with `%w`, `*gcerrors.Error`, `Error()`, `Unwrap` and `errors.Is` |
| cache.dfy | `Cache` | the sentinel errors (errors.go) and `ValidateTTL` (ttl.go) |
| hashtags.dfy | `HashTags` | the Redis Cluster hash-tag rule, as a reference for the key modifiers |
| keymod.dfy | `KeyMod` | `HashTagModifier` and `ModifyKey` (keymod/keymod.go) |
| pkg_keymod.dfy | `PkgKeyMod` | `Key` and its builders (pkg/keymod/keymod.go) |
| keymod_tags.dfy | `KeyModTags` | how the two key-modifier packages compare, and which hash tag each produces |
| ramcache_options.dfy | `RamCacheOptions` | `Options.revise` (ramcache/options.go) |
| redis_options.dfy, rediscluster_options.dfy | `RedisOptions`, `RedisClusterOptions` | `Config.revise` |
| store.dfy | `Store` | ramcache/store.go |
| ramcache.dfy | `RamCache` | ramcache/ramcache.go |
| urls.dfy | `Urls` | `RegisterCache` and `OpenGenericCache` (urls.go) |

The repository's tests are written against functions that `ramcache.go` and `store.go` do not define, and the model follows the code:

- `ramcache/ramcache_test.go:84-92` calls `SetWithTTL` and expects `cache.ErrInvalidTTL` for a TTL of -1s. `ramcache.go` has only `SetWithExpiry` (ramcache.go:225-239), which does not check the sign of its duration. `Set` applies the default TTL, 24 hours unless configured (ramcache.go:209-223, 92-96).
- `ramcache/store_test.go:57-66` calls `KeyItemsSortedByExpiry` and expects the item with the zero `time.Time` last. `store.go` defines `GetItemsSortedByExpiry` (store.go:64-76), which sorts purely by expiry instant, so a zero instant sorts first. An item has no "never expires" marker in the model.

Values handed to `Set` are a `Value` datatype. `Str` is a Go string. Go strings are byte strings, so `[]byte(v)` keeps the bytes unchanged. `Bytes` is a `[]byte`. `Other` stands for any other dynamic type and carries the name that `%T` would print for it.

## Model

| member | source | states |
|---|---|---|
| `GcErrors.Message` | internal/gcerrors/errors.go:13-19 | A `gcerrors.Error` message starts with "gocache". The message of every wrapping error ends with the message of the error it wraps. |
| `GcErrors.NewWithScheme` | internal/gcerrors/errors.go:22-29 | Unwrapping gives back exactly the wrapped error. `errors.Is` sees through the wrapper. With an empty scheme the message is "gocache: " + inner; otherwise it is "gocache/" + scheme + ": " + inner. |
| `GcErrors.New` | internal/gcerrors/errors.go:32-34 | Has the same message as `NewWithScheme("", err)` and unwraps to `err`. Its message starts with "gocache: ". |
| `GcErrors.SchemedNeverLooksPlain` | internal/gcerrors/errors.go:13-19 | A message with a scheme never equals a message without one, whatever the inner errors are. |
| `GcErrors.MessageDeterminesSchemeAndCause` | internal/gcerrors/errors.go:13-19 | The message can be decoded: if neither scheme contains a colon, two equal messages have equal schemes and equal inner messages. |
| `Cache.ValidateTTL` | ttl.go:7-12 | Returns an error iff the TTL is negative. The only error it returns is `ErrInvalidTTL`. |
| `Cache.ValidateTTLExamples` | ttl_test.go:17-37 | 10s and 0 are valid. -1s gives `ErrInvalidTTL`. |
| `KeyMod.HashTagModifier` | keymod/keymod.go:24-31 | The key is always a suffix of the result. The result equals the key iff the tag contains a brace. Otherwise the result starts with `{tag}` and is exactly `|tag| + 2` characters longer. |
| `KeyMod.HashTagModifierSetsHashTag` | keymod/keymod.go:15-31 | For a non-empty, brace-free tag, every modified key has that tag as its Redis Cluster hash tag, so these keys share a slot. |
| `KeyMod.EmptyHashTagIsNotAHashTag` | keymod/keymod.go:24-31 | As written, the empty tag changes "profile" to "{}profile". That key has no hash tag (see Findings). |
| `KeyMod.CheckedHashTagModifier` | keymod/keymod.go:24-31 | The corrected guard: the key is passed through unchanged iff the tag is empty or contains a brace. The key is always a suffix of the result. |
| `KeyMod.CheckedHashTagModifierSetsHashTag` | keymod/keymod.go:15-31 | With the corrected guard, every key that is modified carries the tag as its hash tag. |
| `KeyMod.ModifyKey` | keymod/keymod.go:36-41 | No modifiers leave the key unchanged. A single modifier is applied to the key itself. |
| `KeyMod.ModifyKeyNone` | keymod/keymod.go:36-41 | With no modifiers, `ModifyKey` returns the key unchanged. |
| `KeyMod.ModifyKeyAppend` | keymod/keymod.go:36-41 | Modifiers apply left to right: `ModifyKey(k, ms + [m]) == m(ModifyKey(k, ms))`. |
| `KeyMod.ModifyKeyConcat` | keymod/keymod.go:36-41 | Applying two lists of modifiers one after the other is the same as applying their concatenation. |
| `KeyMod.HashTagModifierExamples` | keymod/keymod_test.go:9-28 | The `HashTagModifier` test table. The key's own braces are never inspected. A braced tag passes the key through. |
| `KeyMod.ModifyKeyExamples` | keymod/keymod_test.go:30-48 | The `ModifyKey` test table. No modifiers keep the key. Stacked tags put the last one outermost. |
| `PkgKeyMod.Key.String` | pkg/keymod/keymod.go:15-17 | Round trip: `Key(k.String()) == k`. |
| `PkgKeyMod.Key.Prefix` | pkg/keymod/keymod.go:20-25 | The result starts with the text, ends with the key, and is exactly as long as both together. |
| `PkgKeyMod.Key.Suffix` | pkg/keymod/keymod.go:28-33 | The result starts with the key, ends with the text, and is exactly as long as both together. |
| `PkgKeyMod.Key.TagPrefix` | pkg/keymod/keymod.go:36-38 | The result starts with `{t}`, ends with the key, and is `|t| + 2` characters longer than the key. There is no brace guard. |
| `PkgKeyMod.Key.TagSuffix` | pkg/keymod/keymod.go:41-43 | The result starts with the key, ends with `{t}`, and is `|t| + 2` characters longer than the key. |
| `PkgKeyMod.EmptyAffixIsIdentity` | pkg/keymod/keymod.go:20-33 | `Prefix("")` and `Suffix("")` return the key unchanged. |
| `PkgKeyMod.AffixesCompose` | pkg/keymod/keymod.go:20-33 | `k.Prefix(a).Prefix(b) == k.Prefix(b + a)` and `k.Suffix(a).Suffix(b) == k.Suffix(a + b)`. |
| `PkgKeyMod.PrefixSuffixCommute` | pkg/keymod/keymod.go:20-33 | A prefix and a suffix can be added in either order. |
| `PkgKeyMod.KeyExamples` | pkg/keymod/keymod_test.go:7-49 | The test cases for `String`, `Prefix`, `Suffix`, `TagPrefix` and `TagSuffix`. |
| `KeyModTags.TagPrefixVersusHashTagModifier` | pkg/keymod/keymod.go:36-38 | For a brace-free tag, `TagPrefix` and `HashTagModifier` build the same key. For a tag with a brace they differ, because only `HashTagModifier` guards against braces. |
| `KeyModTags.TagPrefixSetsHashTag` | pkg/keymod/keymod.go:36-38 | A non-empty, brace-free tag passed to `TagPrefix` becomes the hash tag of any key. |
| `KeyModTags.TagSuffixSetsHashTag` | pkg/keymod/keymod.go:41-43 | A non-empty, brace-free tag passed to `TagSuffix` becomes the hash tag, provided the key contains no `{`. |
| `KeyModTags.TagSuffixAfterBracedKey` | pkg/keymod/keymod.go:41-43 | With `TagSuffix`, an earlier brace in the key decides the hash tag: `{a}x` suffixed with tag `b` keeps hash tag `a`. |
| `RamCacheOptions.Options.Revise` | ramcache/options.go:13-17 | A non-positive `CleanupInterval` becomes 5 minutes. A positive one is kept. The result is always positive. |
| `RamCacheOptions.ReviseIsIdempotent` | ramcache/options.go:13-17 | Revising twice gives the same result as revising once. |
| `RedisOptions.Config.Revise` | redis/options.go:30-34 | A non-positive `CountLimit` becomes `DefaultCountLimit` (10). A positive one is kept. The result is at least 1. |
| `RedisOptions.ReviseIsIdempotent` | redis/options.go:30-34 | Revising twice gives the same result as revising once. |
| `RedisClusterOptions.Config.Revise` | rediscluster/options.go:41-45 | A non-positive `CountLimit` becomes `DefaultCountLimit` (10). A positive one is kept. The result is at least 1. |
| `RedisClusterOptions.ReviseIsIdempotent` | rediscluster/options.go:41-45 | Revising twice gives the same result as revising once. |
| `Store.Item.IsExpired` | ramcache/store.go:16-18 | An item is stale exactly when the clock reads strictly after its expiry instant. At the expiry instant itself it is still live. |
| `Store.ExpiryIsMonotone` | ramcache/store.go:16-18 | An item is not expired at its expiry instant, and is expired one nanosecond later. Once expired, it stays expired. |
| `Store.NewStore` | ramcache/store.go:27-31 | A new store holds nothing under any key. |
| `Store.Store.Get` | ramcache/store.go:33-38 | Reports an item iff the key is present, and reports exactly the stored item. |
| `Store.Store.Set` | ramcache/store.go:40-44 | `Get(key)` afterwards returns the new item, replacing any earlier one. Every other key reads as before. |
| `Store.Store.Delete` | ramcache/store.go:46-50 | The key becomes absent and every other key reads as before. Deleting an absent key changes nothing. |
| `Store.Store.Clear` | ramcache/store.go:52-56 | Every key reads as absent afterwards. |
| `Store.Store.GetItemsSortedByExpiry` | ramcache/store.go:64-76 | The snapshot has one entry per stored key, holding that key's stored item, and its length equals the size of the map. Expiries never decrease along it. |
| `Store.ExpiredEntriesFormAPrefix` | ramcache/store.go:64-76 | In an expiry-sorted snapshot, the entries expired at `now` are exactly the first `ExpiredPrefixLength` entries. A sweep that stops at the first live entry therefore leaves nothing expired behind. |
| `RamCache.Options.Revise` | ramcache/ramcache.go:92-96 | A non-positive `DefaultTTL` becomes 24 hours. A positive one is kept. The result is always positive. |
| `RamCache.ReviseIsIdempotent` | ramcache/ramcache.go:92-96 | Revising twice gives the same result as revising once. |
| `RamCache.New` | ramcache/ramcache.go:124-139 | The new cache has an empty store. Its options are exactly the revised options it was given, so its default TTL is positive and a positive TTL is kept. |
| `RamCache.NewCacheFindsNothing` | ramcache/ramcache.go:124-139 | For every key, modifier list and clock reading, a fresh cache's `Get` fails with key-not-found and its `Exists` reports false. |
| `RamCache.RamCache.Count` | ramcache/ramcache.go:151-153 | Always fails with an error that `errors.Is` matches to `ErrPatternMatchingNotSupported`. Nothing changes. |
| `RamCache.RamCache.Exists` | ramcache/ramcache.go:156-168 | Never fails. Returns true iff the modified key is present and its expiry is not before `now`. An absent key leaves the state unchanged, and so does a true answer. A present but stale key is removed. |
| `RamCache.RamCache.Del` | ramcache/ramcache.go:171-180 | Succeeds iff the modified key is present, stale or not, and then removes it. An absent key gives a key-not-found error that names the key, and nothing changes. |
| `RamCache.RamCache.DelKeys` | ramcache/ramcache.go:183-185 | Always fails with an error that `errors.Is` matches to `ErrPatternMatchingNotSupported`. Nothing changes. |
| `RamCache.RamCache.Clear` | ramcache/ramcache.go:188-193 | Succeeds and leaves an empty store with the same options. |
| `RamCache.ClearedCacheFindsNothing` | ramcache/ramcache.go:188-206 | After `Clear`, for every key, modifier list and clock reading, `Get` fails with key-not-found and `Exists` reports false. The options are unchanged. |
| `RamCache.RamCache.Get` | ramcache/ramcache.go:196-206 | Succeeds iff the modified key is present and its expiry is not before `now`. It then returns the stored bytes and changes nothing. Otherwise it returns the scheme-tagged `ErrKeyNotFound`, and the key is absent afterwards. |
| `RamCache.RamCache.Set` | ramcache/ramcache.go:209-222 | Succeeds iff the value is a string or a byte slice. It then stores the value's bytes under the modified key, expiring at `now` plus the default TTL. Any other value type fails with "unsupported value type" and changes nothing. |
| `RamCache.RamCache.SetWithExpiry` | ramcache/ramcache.go:225-238 | Like `Set`, but the expiry is `now` plus the given duration. The sign of the duration is not checked. |
| `RamCache.RamCache.Close` | ramcache/ramcache.go:241-243 | Always succeeds. |
| `RamCache.RamCache.Ping` | ramcache/ramcache.go:246-248 | Always succeeds. |
| `RamCache.SetThenGet` | ramcache/ramcache.go:196-222 | Round trip: after `Set` at `t`, `Get` of the same key returns the value's bytes iff it is called no later than `t` plus the default TTL. After that it returns key-not-found. |
| `RamCache.NegativeExpiryIsNeverReadable` | ramcache/ramcache.go:225-238 | `SetWithExpiry` with a negative duration succeeds. At that instant and any later one, `Get` fails and `Exists` is false. |
| `RamCache.ValidatedExpiryIsReadableUntilItPasses` | ramcache/ramcache.go:225-238 | If `ValidateTTL` accepts a duration, the stored item can be read from the instant it is set until that duration has passed. |
| `RamCache.SecondWriteSupersedesFirst` | ramcache/ramcache.go:225-238 | A second successful write to the same key leaves the cache exactly as if only the second write had happened. |
| `RamCache.ExistsAgreesWithGet` | ramcache/ramcache.go:156-206 | `Exists` answers true iff `Get` would succeed, and leaves behind the same state as `Get`. |
| `RamCache.DelTwice` | ramcache/ramcache.go:171-180 | After a successful `Del`, `Exists` is false. A second `Del` then fails with key-not-found and changes nothing. |
| `RamCache.GetKeyNotFoundMessage` | ramcache/ramcache.go:196-206 | A failed `Get` reads "gocache/ramcache: gocache: key not found". |
| `RamCache.DelKeyNotFoundMessage` | ramcache/ramcache.go:171-180 | A failed `Del` reads "gocache/ramcache: " + key + ": " + the message of `ErrKeyNotFound`. |
| `RamCache.KeyNotFoundMessagesEndWithSentinel` | ramcache/ramcache.go:171-206 | Both key-not-found messages end with the message of `ErrKeyNotFound`. |
| `Urls.EmptyMux` | urls.go:27 | A fresh registry has no scheme table at all, so it has no opener for any scheme and type. |
| `Urls.RegisterCache` | urls.go:31-45 | Registering an unused (scheme, type) pair adds exactly that entry. The set of schemes grows by at most the one scheme, the scheme's table grows by exactly the one type, every other scheme's table is unchanged, and every other pair looks up as before. Registering a pair already present panics with "scheme and type already registered", and the registry stays as it was. |
| `Urls.OpenGenericCache` | urls.go:55-72 | A parse error is returned unchanged. An unknown scheme and an unknown type for a known scheme each give their own error. Otherwise the call returns exactly what the registered opener returns, including its error. |
| `Urls.RegisterThenOpen` | urls.go:31-72 | After a pair is registered, opening a URL with that scheme and type calls the registered opener. |
| `Urls.RegistrationScenario` | urls_test.go:75-110 | The same scheme registers under two key types. Repeating a pair panics. An unregistered type for a known scheme fails with the type error. |

## Left out

- The background eviction loop: no sweep function exists in the modelled code. `removeExpiredItems` is referenced only by ramcache/ramcache_test.go:36-82. The model keeps the property a sweep relies on (`Store.ExpiredEntriesFormAPrefix`) and invents no ticker or stop channel.
- Locks and one-time initialisation are left out: the `sync.RWMutex` of the store, the driver and the registry, and `sync.Once`. Every operation is one atomic step. The unlocked read in `Exists` before it deletes a stale key is therefore not modelled.
- The real clock is not modelled. `time.Now()` becomes the parameter `now`. The wall and monotonic parts of `time.Time` are left out, and so is the clamping of `time.Time.Add` on overflow: instants are unbounded integers.
- `Store.Store.GetItemsSortedByExpiry`: `slices.SortFunc` is pattern-defeating quicksort, which is not stable. The model builds the snapshot by inserting into a sorted sequence and promises only an ordering by expiry that keeps every entry. The relative order of entries with equal expiry is not stated.
- URL option decoding is left out: `optionsFromURL`, the driver method `OpenCacheURL`, and the package function `ramcache.OpenCacheURL`, which always returns "not implemented". It relies on reflection and query-string decoding.
- `RamCache.RamCache.Set`, `RamCache.RamCache.SetWithExpiry`, `RamCache.RamCache.Get`: byte-slice aliasing is not modelled. ramcache.go:217 and :233 store the caller's `[]byte` without copying it, and ramcache.go:205 returns the stored slice itself. In Go, a later write through either slice changes the cached value. The model's values are immutable byte sequences, so its `Get` always returns what was stored.
- Keys are Dafny strings, whose characters are Unicode scalar values. Go strings are arbitrary byte strings, so keys that are not valid UTF-8 are not modelled. Lengths in the key-modifier contracts count characters, not bytes.
- `RamCache.New` does not model the `*cache.Config` argument or `config.Revise()`, because `cache.Config` is not part of this model.
- `url.Parse` and `getTypeKey` (`%T` formatting) are left out. `Urls.OpenGenericCache` takes the parse result and the type key as inputs, and the opener's `OpenCacheURL` as a function parameter.
- `errors.Is` compares sentinels by value, where Go compares them by pointer identity. Two `errors.New` values with the same text are therefore equal here.
- `GcErrors.Unwrap` has no contract of its own. Its behaviour is stated in the contracts of `GcErrors.NewWithScheme` and `GcErrors.New`.
- `ErrNoCache` is declared but not used by the modelled code.
- The Redis, Redis Cluster and Memcache network adapters are left out: their behaviour depends on external servers.
- The logging helpers, `cache.go` (pure delegation to the driver), and the test harnesses are left out.

## Findings

| source | as written | input that shows it | evidently intended | confidence | as-written member | corrected member |
|---|---|---|---|---|---|---|
| keymod/keymod.go:26-29 | The guard passes a tag through unless it contains a brace, so the empty tag is accepted. | `HashTagModifier("")("profile")` gives `{}profile`. Under the Redis Cluster rule that key has no hash tag, so the whole key is hashed and it does not share a slot with other keys given the same tag. | A tag is added only when the result actually carries it as its hash tag. The empty tag should pass the key through, as a braced tag does. | low, not executed | `KeyMod.EmptyHashTagIsNotAHashTag` | `KeyMod.CheckedHashTagModifier` |
