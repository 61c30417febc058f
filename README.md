# go-sdk core, modelled in Dafny

This project models the decision logic of the fsandov/go-sdk Go packages and proves its properties:

- **HTTP client** (`pkg/client`): option setters, middleware composition in `NewClient`, and `Client.Do`. `Do` covers endpoint-settings resolution, header merging, the bounded retry loop, body buffering and the error/fallback classification. Also the per-endpoint defaulting rules, the `Error` message, and every non-observability RoundTripper decorator: request id, IP propagation, app token, auth, rate limit, circuit breaker, response cache, hooks and the response-size cap.
- **In-memory cache** (`pkg/cache/memory.go`): a class whose item map and sorted sets are updated in place. It covers TTL, typed increment and score-ordered sets. From `pkg/cache/redis.go`, the configuration rules and the result-mapping guards.
- **Token revocation store** (`pkg/tokens/cache_manager.go`), built on the memory cache.
- **Token service rules and authentication middlewares** (`pkg/tokens/service.go`, `pkg/tokens/middleware.go`): configuration validation, claim sets, claim getters, cache guards, and the "Bearer" header acceptance of section 2.1 of RFC 6750.
- **Pagination arithmetic** (`pkg/paginate`).
- **Server middlewares** (`pkg/web/middleware.go`): client-IP selection, request ids, app-token gate, IP headers.
- **Smaller packages**: `pkg/database` validation and DSNs, `pkg/config` once-only initialisation, `pkg/env`, and `pkg/logs` options and notifier names.

One module per Go file. Shared modules model the library code those files call:

- `Wrappers`: Option and Result.
- `Text`: the parts of Go's `strings` and `strconv` that are used, with the decimal round trip.
- `Durations`: nanosecond constants.
- `Http`: canonical header names, header maps, bodies and records.
- `Gin`: the Gin context, as a class that records what a handler writes and whether it aborts.

These library modules have no rows below, because they model no file of this repository.

Conventions:

- Go `int` and `time.Duration` are 64-bit. The model uses unbounded integers and writes out wrap-around in `Increment`, `Decrement` and `GetOffset`, where a stored number or a query parameter can take the result past 2^63. Where an overflow needs an instant about 292 years away, the arithmetic stays unbounded; see "## Left out".
- Time is an explicit `now` in nanoseconds.
- The network, uuids, the rate limiter, the circuit breaker's admission and the JWT library are parameters.


## Model

| member | source | states |
|---|---|---|
| Env.Capture | pkg/env/env.go:5-8 | the environment every query reads is the ENVIRONMENT value captured once, at package initialisation |
| Env.GetEnvironment | pkg/env/env.go:32-34 | the returned string is the whole captured environment: the Environment is rebuilt from it |
| Env.IsDevelopment | pkg/env/env.go:10-13 | holds iff the environment is "development", and then it is neither production nor local |
| Env.IsProduction | pkg/env/env.go:15-18 | holds iff the environment is "production", and then it is not local |
| Env.IsRemote | pkg/env/env.go:20-24 | holds iff the environment is "production" or "development", and a remote environment is never local |
| Env.IsLocal | pkg/env/env.go:26-30 | holds iff the environment is "local"; never for an unset (empty) environment |
| Env.RemoteIffProductionOrDevelopment | pkg/env/env.go:10-24 | IsRemote holds exactly when the environment is "production" or "development" |
| Env.LocalAndRemoteExclusive | pkg/env/env.go:10-30 | IsLocal and IsRemote never both hold, and neither holds for an unset (empty) environment |
| Logs.LogOptions.Apply | pkg/logs/options.go:17-23 | both options switch notification on; WithNotifyTarget appends its targets, in order, after the existing ones |
| Logs.LogOptions.ApplyAll | pkg/logs/logger.go:93-102 | after applying a call's options, notification is on iff it was on or some option was given, and the targets are every option's targets in order |
| Logs.AllTargetsAppend | pkg/logs/options.go:20-23 | collecting targets distributes over concatenating option lists, so no option loses or reorders targets |
| Logs.EmptyTargetListAddsNothing | pkg/logs/options.go:25-31 | WithNotifyTarget() with no targets contributes no target and is a different option from WithNotifier |
| Logs.Capitalize | pkg/logs/init.go:35-43 | length and every byte after the first are kept; a first byte in 'a'..'z' becomes the upper-case letter 32 below it; anything else, and "", is returned unchanged |
| Logs.CapitalizeIdempotent | pkg/logs/init.go:35-43 | capitalising twice equals capitalising once |
| Logs.EnvKey | pkg/logs/init.go:19 | the variable name is "DISCORD_WEBHOOK_" followed by the level with every ASCII letter upper-cased, byte for byte |
| Logs.NotifierUsername | pkg/logs/init.go:27 | the user name is "Logger", then the level with its first letter capitalised, then "Manager", each part in its own position |
| Logs.NotifierNames | pkg/logs/init.go:16-27 | for "error", "warn" and "info" the variable names are DISCORD_WEBHOOK_ERROR/WARN/INFO and the user names LoggerErrorManager/LoggerWarnManager/LoggerInfoManager |
| Database.Config.ApplyDefaults | pkg/database/gorm.go:46-59 | zero MaxIdle, MaxOpen and MaxLifetime become 10, 100 and one hour; an empty SSLMode becomes "disable" for postgres only; every set value and every other field is kept, and so are the results of Validate and buildDSN |
| Database.Config.Validate | pkg/database/gorm.go:61-76 | a disabled configuration is accepted; an unknown dialect gives "invalid dialect"; a known dialect is accepted iff it is sqlite or all five server fields are non-empty, otherwise "missing required fields" |
| Database.Config.BuildDSN | pkg/database/gorm.go:179-203 | the mysql, postgres (sslmode defaulting to disable) and sqlite (DSN or the shared in-memory file) connection strings; an error naming the dialect iff it is none of the three |
| Database.ValidEnabledConfigBuildsDSN | pkg/database/gorm.go:179-203 | an enabled configuration that validates always yields a DSN |
| Database.DisabledConfigValidates | pkg/database/gorm.go:61-76 | a disabled configuration validates whatever it holds, yet yields a DSN only for a known dialect |
| Database.ApplyDefaultsExample | pkg/database/gorm_test.go:85-113 | postgres gets 10, 100, one hour and "disable"; mysql keeps an empty SSL mode; already-set values stay |
| Database.BuildDSNExamples | pkg/database/gorm_test.go:179-202 | sqlite uses its DSN or the shared in-memory file; "oracle" is refused |
| AppConfiguration.AppConfig.ExtraString | pkg/config/config.go:69-78 | a stored string value, and the fallback for a missing key or a value of another type |
| AppConfiguration.AppConfig.ExtraInt | pkg/config/config.go:80-94 | a stored int; a stored string that strconv.Atoi accepts, as its value; the fallback for a missing key, an unparsable string or a value of another type |
| AppConfiguration.ExtraIntReadsRenderedNumbers | pkg/config/config.go:85-91 | a stored string that renders an int64 in decimal reads back as that number |
| AppConfiguration.Registry.Init | pkg/config/config.go:27-53 | the first call fills the empty AppName, Environment, Port, Timezone, OS, Architecture and Extras with their defaults, keeps the set ones and makes that very object the instance; every later call changes nothing |
| AppConfiguration.Registry.Get | pkg/config/config.go:55-60 | the existing instance, or a freshly initialised one holding the defaults when there was none |
| AppConfiguration.Registry.MustGet | pkg/config/config.go:62-67 | the instance iff one exists, otherwise the "not initialized" panic |
| AppConfiguration.GetAutoInitializesExample | pkg/config/config_test.go:13-32 | Get on a fresh registry gives "default-app" on port "8080" |
| AppConfiguration.MustGetPanicsWhenNotInitExample | pkg/config/config_test.go:34-44 | MustGet before any Init is the "not initialized" panic |
| AppConfiguration.InitSetsValuesExample | pkg/config/config_test.go:46-65 | after Init, Get returns the given name, environment and port, and a second Init changes nothing |
| ClientErrors.Message | pkg/client/errors.go:18-24 | the message always starts with the "[HTTP] method URL: status=…, err=…" prefix, is exactly the prefix iff the body is empty, and is the prefix plus ", body=" and the body iff it is not |
| ClientErrors.MessageBody | pkg/client/errors.go:20-22 | the body can be read back from the message after the prefix and ", body=" |
| ClientErrors.MessageSeparatesBodies | pkg/client/errors.go:18-24 | errors with the same prefix and different bodies have different messages |
| ClientErrors.MessageStatus | pkg/client/errors.go:19 | the status written in the message is the record's status code in decimal |
| ClientConfig.Defaulted | pkg/client/config.go:36-52 | after the defaults, Timeout, MaxRetries and Headers are never zero or nil |
| ClientConfig.DefaultedZero | pkg/client/config.go:32-54 | applyDefaults(nil) gives 10s, 2 retries and an empty header map |
| ClientConfig.DefaultedKeeps | pkg/client/config.go:36-52 | a non-zero Timeout, a non-zero MaxRetries and a non-nil Headers are kept |
| ClientConfig.DefaultedIdempotent | pkg/client/config.go:32-54 | applying the defaults twice is applying them once |
| ClientConfig.NoZeroRetries | pkg/client/config.go:39-41 | an explicit MaxRetries of 0 always becomes 2 |
| ClientConfig.ApplyDefaults | pkg/client/config.go:32-54 | the very object passed in is filled and returned (fresh zero settings, filled, for nil); only zero or nil fields change; a missing breaker gets "<APP_NAME>-breaker"; an already complete object is left unchanged |
| ClientConfig.ValidateEndpointConfig | pkg/client/config.go:56-74 | nil is left alone; otherwise only a zero Timeout (to 10s) and a nil Breaker (to "<path>-breaker") are filled, and complete settings are unchanged |
| Paginate.CeilDiv | pkg/paginate/paginate.go:57 | math.Ceil of the quotient, read exactly: the least q with a <= q*b |
| Paginate.CeilDivUnique | pkg/paginate/paginate.go:57 | the ceiling quotient is the only integer bracketing a that way, so any page count with that property equals it |
| Paginate.NewPagination | pkg/paginate/paginate.go:48-79 | page < 1 becomes 1 and a limit outside [1,1000] becomes 10; total pages is 1 for no items, else the ceiling quotient; HasNext iff page < TotalPages and HasPrev iff page > 1; NextPage and PrevPage are page±1 when present, else 0 |
| Paginate.GetOffset | pkg/paginate/paginate.go:88-93 | 0 when the page or the limit is below 1; otherwise (page-1)*limit computed in 64-bit int: exact while the product fits, wrapped modulo 2^64 beyond that, always an int64 |
| Paginate.GetOffsetUnique | pkg/paginate/paginate.go:88-93 | every int64 congruent to (page-1)*limit modulo 2^64 is the offset GetOffset returns, so its wrapped value is Go's two's-complement product |
| Paginate.OffsetExamples | pkg/paginate/paginate_test.go:96-114 | the offsets of the package's table test, including 0 for page 0, page -1, limit 0 and limit -5 |
| Paginate.OffsetWrapsPastInt64 | pkg/paginate/paginate.go:88-93 | the query page=9223372036854775807 passes GinPagination, and its offset at the default limit wraps to -20 |
| Paginate.PagesCoverItems | pkg/paginate/paginate.go:88-93 | for a non-empty listing of at most MaxInt64 items every reported page starts inside it, with no wrap-around, and the last page reaches its end |
| Paginate.NewPaginationTotalPages | pkg/paginate/paginate.go:55-58 | the page count NewPagination reports is CalculateTotalPages for the normalised limit |
| Paginate.ValidateOptions | pkg/paginate/paginate.go:95-103 | succeeds iff 1 <= limit <= 1000, returning the limit and the page with page < 1 made 1; otherwise ErrInvalidLimit |
| Paginate.ValidateAgreesWithNewPagination | pkg/paginate/paginate.go:95-103 | on the limits it accepts, ValidateOptions normalises page and limit as NewPagination does |
| Paginate.CalculateTotalPages | pkg/paginate/paginate.go:162-167 | 0 for a page size <= 0, else the ceiling quotient |
| Paginate.TotalPagesExamples | pkg/paginate/paginate_test.go:139-157 | the page counts of the package's table test, 0 for an empty listing and for page size 0 |
| Paginate.NewPaginationExamples | pkg/paginate/paginate_test.go:16-55 | the first and last page of 95 items, ten per page, with their next/prev fields |
| Paginate.IsValidPage | pkg/paginate/paginate.go:169-171 | with a known page count a page is valid iff 1 <= page <= totalPages; with a count of 0 every page from 1 up is valid |
| Paginate.IsValidPageExamples | pkg/paginate/paginate_test.go:159-177 | the cases of the package's table test: pages 1 and 10 of 10 and page 1 of 0 are valid; 11 of 10, 0 of 10 and -1 of 5 are not |
| Paginate.NormalisedPageIsValid | pkg/paginate/paginate.go:169-171 | a normalised page that is not past the end is valid for its own page count |
| Paginate.DefaultLimitRoundTrip | pkg/paginate/paginate.go:108 | the default limit, rendered by Itoa and parsed by Atoi, is 10 again |
| Paginate.GinPagination | pkg/paginate/paginate.go:105-129 | aborts with ErrInvalidLimit iff the Atoi value of the limit parameter (default "10"; 0 for non-numeric text) is outside [1,1000]; otherwise stores exactly that limit, the Atoi value of the page parameter (default "1") or DefaultPage when it is below 1, and the order_by parameter; an absent limit never aborts |
| Paginate.GinPaginationExample | pkg/paginate/paginate_test.go:187-208 | page=3&limit=25&order_by=name is stored as those three values |
| Paginate.GinPaginationRejects | pkg/paginate/paginate_test.go:210-224 | limit=5000 and the non-numeric limit=ten are rejected with 400 |
| Paginate.GinPaginationDefaults | pkg/paginate/paginate.go:107-109 | an empty query stores page 1, limit 10 and no ordering |
| Paginate.FromContext | pkg/paginate/paginate.go:131-145 | the stored options when the value is a non-nil *Options, else (1, 10, "") |
| Paginate.GinPaginationReadBack | pkg/paginate/paginate.go:117-145 | what GinPagination stores reads back unchanged through FromContext and FromGinContext |
| RedisCache.RedisConfig.ApplyDefaults | pkg/cache/redis.go:23-30 | a zero PoolSize and a zero DialTimeout become 10 and 5s; set values and the other fields are kept, and so is the Validate result |
| RedisCache.RedisConfig.Validate | pkg/cache/redis.go:32-40 | an error ("missing Addr") iff the configuration is enabled and has no address, so a disabled one is always valid |
| RedisCache.ApplyOption | pkg/cache/redis.go:46-64 | each functional option sets exactly its own field of redis.Options |
| RedisCache.LastPoolSizeWins | pkg/cache/redis.go:97-99 | options apply in order, so the last WithPoolSize decides the pool size |
| RedisCache.OptionsKeepAddress | pkg/cache/redis.go:90-99 | options never change the address, password, database or dial timeout |
| RedisCache.NewRedisCacheFromConfig | pkg/cache/redis.go:66-111 | a disabled configuration is refused ("not enabled") although Validate accepts it; an enabled one without an address gives "missing Addr"; a redis:// or rediss:// address takes the URL branch (invalid URL error; positive pool size and dial timeout override the parsed ones; the options are not applied); any other address builds the options from the defaulted configuration and then applies the options in order; a failed ping gives the connection error |
| RedisCache.Pool | pkg/cache/redis.go:24-26 | the defaulted pool size is never zero and keeps a set value |
| RedisCache.Dial | pkg/cache/redis.go:27-29 | the defaulted dial timeout is never zero and keeps a set value |
| RedisCache.Get | pkg/cache/redis.go:113-130 | a nil context and an empty key are refused first; otherwise the value iff Redis replied with one, ErrKeyNotFound for redis.Nil, another error wrapped as "redis get error" |
| RedisCache.TTL | pkg/cache/redis.go:163-176 | -2 becomes ErrKeyNotFound and -1 becomes (0, nil), the memory cache's sentinels; other values and errors pass through |
| RedisCache.Delete | pkg/cache/redis.go:136-145 | success iff the command succeeded and removed a key; a count of 0 is ErrKeyNotFound |
| RedisCache.Exists | pkg/cache/redis.go:147-153 | true iff the count is positive; errors pass through |
| RedisCache.Counter | pkg/cache/redis.go:186-214 | Increment and Decrement refuse a nil context and an empty key, return the command's result, and wrap its error with the verb and the key |
| RedisCache.ZWrite | pkg/cache/redis.go:257-278 | ZAdd and ZRem refuse an empty key and otherwise pass on the command's error |
| RedisCache.ZRange | pkg/cache/redis.go:280-291 | an empty key is refused; the reply passes through, and an error is wrapped |
| RedisCache.BlankNils | pkg/cache/redis.go:230-234 | every nil slot of the reply becomes "" in place and every other slot is kept |
| RedisCache.MGet | pkg/cache/redis.go:216-237 | a nil context is refused, no keys gives an empty list, a failed command passes its error on; otherwise the reply position for position with "" for nil |
| SortedSet.Members | pkg/cache/memory.go:345-348 | the members in slice order, one per item |
| SortedSet.ScoresOfIndex | pkg/cache/memory.go:18-21 | in a set without repeated members, every item's member has that item's score |
| SortedSet.FindFrom | pkg/cache/memory.go:265-301 | the first index from a start position whose item has the member, or the length when there is none |
| SortedSet.InsertPosition | pkg/cache/memory.go:280-282 | the first index whose item scores strictly more than the new score; every item before it scores no more |
| SortedSet.InsertKeepsOrder | pkg/cache/memory.go:275-282 | inserting at that position keeps the set ordered by score |
| SortedSet.InsertUnique | pkg/cache/memory.go:275-278 | inserting a member that is absent keeps the members unique |
| SortedSet.InsertContents | pkg/cache/memory.go:275-278 | inserting an absent member adds exactly that member with its score |
| SortedSet.RemoveAtKeepsOrder | pkg/cache/memory.go:302 | cutting one item out keeps the order |
| SortedSet.RemoveAtContents | pkg/cache/memory.go:302 | cutting one item out removes exactly its member and keeps the members unique |
| SortedSet.RemoveSpec | pkg/cache/memory.go:300-305 | ZRem's splice keeps the set ordered with unique members and removes exactly the member, wherever it was |
| SortedSet.AddSpec | pkg/cache/memory.go:261-284 | ZAdd's effect keeps the set ordered by score with unique members and gives the member its new score, adding it when absent and leaving the others as they were |
| SortedSet.Window | pkg/cache/memory.go:327-343 | negative indices count from the end; start is clamped to 0 and stop to size-1; the window is empty iff start > stop, start >= size or stop < 0; otherwise it lies inside the set |
| SortedSet.WholeWindow | pkg/cache/memory.go:327-343 | (0, -1) selects the whole set |
| SortedSet.TailWindow | pkg/cache/memory.go:327-343 | (-n, -1) selects the last n items, or all of them when there are fewer |
| MemoryCache.ExpiryFor | pkg/cache/memory.go:63-66 | an expiry exists iff ttl > 0, and it lies ttl after now |
| MemoryCache.Lookup | pkg/cache/memory.go:41-57 | the value iff the key is present, unexpired and a string; ErrInvalidType for a visible non-string; ErrKeyNotFound otherwise |
| MemoryCache.Stored | pkg/cache/memory.go:59-69 | the key holds the value with the computed expiry; every other entry is kept |
| MemoryCache.Reexpired | pkg/cache/memory.go:95-112 | a missing key changes nothing; ttl <= 0 deletes the key; a positive ttl keeps the value and moves the expiry to now+ttl; other entries are kept |
| MemoryCache.Remaining | pkg/cache/memory.go:114-133 | found iff present and either without expiry (0) or with expiry after now (the positive time left); ErrKeyNotFound otherwise |
| MemoryCache.MGetValue | pkg/cache/memory.go:215-227 | "" for a missing or expired key; a visible string as it is, a visible int or int64 in decimal and any other value by its %v text, as %v prints them |
| MemoryCache.Incremented | pkg/cache/memory.go:166-194 | an error ("value is not a number") iff the value holds no integer; otherwise the int64 sum with wrap-around, stored back in the same representation and holding that sum |
| MemoryCache.IncrementedText | pkg/cache/memory.go:180-184 | a string is increased iff ParseInt accepts it, and the stored decimal text parses back to the sum |
| MemoryCache.Negate | pkg/cache/memory.go:200-202 | Go's int64 negation, wrapping for the minimum |
| MemoryCache.Unexpired | pkg/cache/memory.go:379-386 | exactly the entries a read still sees, unchanged |
| MemoryCache.SetsAfterAddSpec | pkg/cache/memory.go:253-285 | ZAdd on the set map keeps every set valid, gives the member its score in the key's set and leaves every other key alone |
| MemoryCache.SetsAfterRemoveSpec | pkg/cache/memory.go:287-312 | ZRem on the set map keeps every set valid and leaves other keys alone; the key's set loses the member and is deleted iff nothing else is left |
| MemoryCache.RemovedLast | pkg/cache/memory.go:307-309 | deleting a key keeps the remaining sets valid |
| MemoryCache.MemoryCache.constructor | pkg/cache/memory.go:31-39 | empty item and set maps, open |
| MemoryCache.MemoryCache.Get | pkg/cache/memory.go:41-57 | answers exactly Lookup on the items (a closed cache reads as empty) |
| MemoryCache.MemoryCache.Set | pkg/cache/memory.go:59-69 | the items become Stored(...) and the sorted sets are untouched |
| MemoryCache.MemoryCache.Delete | pkg/cache/memory.go:71-81 | ErrKeyNotFound iff the key is absent, in which case nothing changes; otherwise just that key is removed |
| MemoryCache.MemoryCache.Exists | pkg/cache/memory.go:83-93 | true iff the key is present and unexpired |
| MemoryCache.MemoryCache.Expire | pkg/cache/memory.go:95-112 | true iff the key is an item; the items become Reexpired(...); a key holding only a sorted set reports false |
| MemoryCache.MemoryCache.TTL | pkg/cache/memory.go:114-133 | answers exactly Remaining on the items |
| MemoryCache.MemoryCache.Flush | pkg/cache/memory.go:135-141 | the items become empty and the sorted sets are kept |
| MemoryCache.MemoryCache.Close | pkg/cache/memory.go:143-155 | the first call drops the item map and marks the cache closed; a second call changes nothing |
| MemoryCache.MemoryCache.Increment | pkg/cache/memory.go:157-198 | a missing key gives "key … not found" and changes nothing; a non-number gives the error and changes nothing; otherwise the sum is returned and stored back with the same expiry |
| MemoryCache.MemoryCache.Decrement | pkg/cache/memory.go:200-202 | Increment by the int64 negation of the amount |
| MemoryCache.MemoryCache.MGet | pkg/cache/memory.go:204-231 | a list aligned with the keys, each slot MGetValue of its key; no keys gives an empty list |
| MemoryCache.MemoryCache.MSet | pkg/cache/memory.go:233-251 | an empty batch changes nothing; otherwise every value is stored with the same expiry over the existing items |
| MemoryCache.MemoryCache.ZAdd | pkg/cache/memory.go:253-285 | an error iff the key is empty, and then nothing changes; otherwise the sets become SetsAfterAdd(...), with the member at its new score |
| MemoryCache.MemoryCache.ZRem | pkg/cache/memory.go:287-312 | an error iff the key is empty; a key without a set is left alone; otherwise the member is removed and an emptied set deleted |
| MemoryCache.MemoryCache.ZRange | pkg/cache/memory.go:314-351 | an error iff the key is empty; [] for a missing set or an empty window; otherwise the members of the window in score order; (0, -1) lists the whole set |
| MemoryCache.MemoryCache.Cleanup | pkg/cache/memory.go:367-389 | "cache is closed" once closed and "items map is nil" without a map, changing nothing; otherwise exactly the expired entries are deleted |
| MemoryCache.SetThenGet | pkg/cache/memory.go:41-69 | a string Set at time t is read back by Get until its expiry has passed |
| MemoryCache.SetThenExpired | pkg/cache/memory.go:41-57 | after the expiry the entry is gone for Get, TTL and MGet alike |
| MemoryCache.SetThenTTL | pkg/cache/memory.go:114-133 | TTL after Set is the positive time left, never more than the ttl set |
| MemoryCache.SetWithoutTTL | pkg/cache/memory.go:63-125 | ttl <= 0 stores an entry that never expires and reports TTL 0 |
| MemoryCache.GetAndTTLAtExpiry | pkg/cache/memory.go:48-130 | at the expiry instant Get still returns the value while TTL already reports not found |
| MemoryCache.ExistsAgreesWithGet | pkg/cache/memory.go:83-93 | Exists is true exactly when Get does not report a missing key |
| MemoryCache.MGetAgreesWithGet | pkg/cache/memory.go:204-231 | an MGet slot is Get's string, and "" where Get reports a missing key |
| MemoryCache.CleanupUnobservable | pkg/cache/memory.go:379-386 | after a sweep, Get, TTL and MGet answer the same at any later time |
| MemoryCache.NumberInRange | pkg/cache/memory.go:166-191 | the number a value holds fits in int64 |
| MemoryCache.IncrementedNumber | pkg/cache/memory.go:166-191 | every value holding a number is increased with int64 wrap-around and stays the same kind |
| MemoryCache.IncrementThenDecrement | pkg/cache/memory.go:157-202 | Decrement by d undoes Increment by d, with wrap-around on both steps, and keeps the representation |
| MemoryCache.NegateUndoes | pkg/cache/memory.go:200-202 | adding d and then its int64 negation gives the original number |
| MemoryCache.MembersAreScored | pkg/cache/memory.go:314-351 | ZRange(0, -1) lists a member exactly when it has a score in the set |
| MemoryCache.FindFromFirst | pkg/cache/memory.go:265-301 | the index the search loops stop at is FindFrom's |
| MemoryCache.EmptyScores | pkg/cache/memory.go:307-309 | a set has no items exactly when it has no scored members |
| TokensStore.TokenKey | pkg/tokens/cache_manager.go:67 | "token:" followed by the token itself, so the token is recoverable from its key |
| TokensStore.UserTokensKey | pkg/tokens/cache_manager.go:82 | "user_tokens:" followed by the user id itself, so the user is recoverable from the key |
| TokensStore.KeysDistinct | pkg/tokens/cache_manager.go:67-82 | a token key never equals a user-set key, and equal token keys mean equal tokens |
| TokensStore.TokenKeys | pkg/tokens/cache_manager.go:164-166 | exactly the token keys of the listed tokens |
| TokensStore.CacheManager.constructor | pkg/tokens/cache_manager.go:51-55 | the manager wraps the given cache |
| TokensStore.CacheManager.AddToken | pkg/tokens/cache_manager.go:57-92 | empty token or user and an expiry not in the future are rejected with their messages and leave the cache alone; otherwise the token item holds the encoded owner until the expiry, the token joins its owner's set scored by the expiry's Unix seconds, and the set lives a day past the token |
| TokensStore.CacheManager.TokenExists | pkg/tokens/cache_manager.go:126-147 | an empty token does not exist; otherwise the answer of Exists on the current items |
| TokensStore.Exists | pkg/tokens/cache_manager.go:126-147 | true exactly when the token item is a visible string that decodes; false exactly when no item is visible; an error otherwise |
| TokensStore.CacheManager.RemoveToken | pkg/tokens/cache_manager.go:94-124 | an empty or unknown token is no error and changes nothing; a non-string item or an undecodable owner is reported and changes nothing; otherwise the token leaves its owner's set and its item is deleted |
| TokensStore.CacheManager.InvalidateAllUserTokens | pkg/tokens/cache_manager.go:149-171 | an empty user is rejected; otherwise every token listed in the user's set loses its item and the set itself is gone, nothing else changes |
| TokensStore.CacheManager.DropTokens | pkg/tokens/cache_manager.go:164-168 | the loop: the listed tokens' items are deleted and those tokens leave the set under the key, other sets unchanged |
| TokensStore.AddThenExists | pkg/tokens/cache_manager.go:126-147 | a token just added exists up to its expiry and decodes back to its owner |
| TokensStore.AddThenListed | pkg/tokens/cache_manager.go:82-83 | a token just added is in its owner's set with its expiry in Unix seconds as score |
| TokensStore.RemoveThenGone | pkg/tokens/cache_manager.go:114-121 | after removal the token no longer exists and its owner's set no longer lists it |
| TokensStore.AddThenRemove | pkg/tokens/cache_manager.go:94-124 | adding then removing a token leaves its owner's set with exactly its other tokens, other sets untouched |
| TokensStore.AddThenRemoveAt | pkg/cache/memory.go:253-312 | ZAdd then ZRem of the same member restores the set's other members and their scores |
| TokensStore.InvalidatedTokensGone | pkg/tokens/cache_manager.go:164-168 | after invalidation none of the user's former tokens exists |
| TokensService.ShortLivedTokenConfig.constructor | pkg/tokens/service.go:20-24 | the four settings as given |
| TokensService.LongLivedTokenConfig.constructor | pkg/tokens/service.go:26-29 | the three settings as given |
| TokensService.DefaultShortLivedConfig | pkg/tokens/service.go:31-41 | key and issuer from the environment, access tokens for 15 minutes, refresh tokens for 30 days |
| TokensService.DefaultLongLivedConfig | pkg/tokens/service.go:43-52 | key and issuer from the environment, access tokens for 30 days |
| TokensService.JwtService.constructor | pkg/tokens/service.go:122-125 | a service holding the configuration copy and no cache manager |
| TokensService.NewService | pkg/tokens/service.go:104-132 | a nil configuration, an empty key and an empty issuer are refused in that order; zero lifetimes become 4 hours and 24 hours in the caller's configuration; the service keeps a short-lived copy and the last WithCache manager |
| TokensService.NewLongLivedService | pkg/tokens/service.go:143-168 | the same refusals; a zero lifetime becomes 30 days; the service keeps a long-lived copy and the last WithCache manager |
| TokensService.ApplyOptions | pkg/tokens/service.go:127-141 | after the options the service's manager is the one the last WithCache names |
| TokensService.BaseClaims | pkg/tokens/service.go:218-233 | the registered claims sub, iss, iat and nbf, the email when there is one, then every custom claim over them |
| TokensService.AccessClaimsShape | pkg/tokens/service.go:179-208 | an access token always says typ "access" and expires a lifetime after issue; custom claims win for every other name, and the registered claims fill in the rest |
| TokensService.RefreshClaimsShape | pkg/tokens/service.go:183-186 | a refresh token carries exactly sub, iss, iat, nbf, exp and typ "refresh" |
| TokensService.JwtService.GenerateTokens | pkg/tokens/service.go:170-199 | a long-lived service refuses; otherwise the access token signs the access claims and the refresh token the refresh claims, a signing failure is reported with which token failed, and the refresh expiry is returned |
| TokensService.JwtService.GenerateToken | pkg/tokens/service.go:201-216 | one signed access token and its expiry a lifetime after now, or the signing error |
| TokensService.AddGuard | pkg/tokens/service.go:246-254 | the guards pass exactly when the expiry is not in the past, the user is given and the expiry is not the zero time; a past expiry is reported first |
| TokensService.ZeroTimeIsPast | pkg/tokens/service.go:246-254 | the zero time is refused as already expired whenever the clock reads later than year 1 |
| TokensService.JwtService.AddTokenToCache | pkg/tokens/service.go:241-256 | without a manager nothing happens; a guard failure is reported and changes nothing; otherwise the store's AddToken outcome and new state |
| TokensService.JwtService.RemoveTokenFromCache | pkg/tokens/service.go:258-265 | without a manager no error; a successful removal leaves the token no longer existing |
| TokensService.JwtService.InvalidateAllUserTokens | pkg/tokens/service.go:267-275 | no manager and an empty user are errors; otherwise all the user's token items and the user's set are gone |
| TokensService.JwtService.TokenExistsInCache | pkg/tokens/service.go:277-284 | false without a manager or for an empty token; otherwise the store's answer |
| TokensService.ValidateTokenAndGetClaims | pkg/tokens/service.go:286-302 | the claims exactly when the token verifies under the key, ErrInvalidToken otherwise |
| TokensService.IsTokenValid | pkg/tokens/service.go:304-307 | true exactly when validation yields claims |
| TokensService.GetClaim | pkg/tokens/service.go:309-315 | the claim exactly when it is present, ErrInvalidClaims otherwise |
| TokensService.GetStringClaim | pkg/tokens/service.go:317-327 | the text exactly when the claim is present and a string, ErrInvalidClaims otherwise |
| TokensService.GetStringSliceClaim | pkg/tokens/service.go:329-349 | a []string claim as it is, or a []interface{} whose elements are all strings, element by element in order; every other case ErrInvalidClaims |
| TokensMiddleware.BearerToken | pkg/tokens/middleware.go:85-98 | a header no longer than "Bearer " or not starting with it is malformed; otherwise the rest without surrounding space, and an empty rest is an empty token |
| TokensMiddleware.BearerRoundTrip | pkg/tokens/middleware.go:87-98 | a token without surrounding space sent as "Bearer <token>" is read back unchanged |
| TokensMiddleware.BearerOnlySpace | pkg/tokens/middleware.go:93-98 | "Bearer " followed only by space is an empty token, not a malformed header |
| TokensMiddleware.ValidateFromHeader | pkg/tokens/middleware.go:84-113 | the token, its verified claims and the whole header exactly when the bearer rules pass and the token verifies; the bearer error, or "invalid or expired token" |
| TokensMiddleware.StringClaimOrEmpty | pkg/tokens/service.go:317-327 | the claim's text when it is a string, "" otherwise |
| TokensMiddleware.IsAccessToken | pkg/tokens/middleware.go:115-124 | accepted exactly when typ is the string "access" |
| TokensMiddleware.UserEntries | pkg/tokens/middleware.go:128-147 | none without a subject; otherwise exactly Authorization, user_id and claims, email when it is a non-empty string and token_type when typ is a string |
| TokensMiddleware.SetUserContext | pkg/tokens/middleware.go:126-153 | without a subject the request is aborted with 401 and nothing is stored; otherwise the context gains exactly those entries, the request context carries the header, and the chain continues |
| TokensMiddleware.Admission | pkg/tokens/middleware.go:84-124 | the validated token exactly when the header validates and the token is an access token; otherwise the header error or "invalid token type" |
| TokensMiddleware.Admit | pkg/tokens/middleware.go:70-77 | an admission failure aborts with 401 and its message; an admitted token is handed on with the context untouched |
| TokensMiddleware.AuthMiddleware | pkg/tokens/middleware.go:68-81 | a rejected header aborts with 401 and its reason; an accepted token stores the caller's entries, records the Authorization header in the request context and continues, or aborts when there is no subject; an abort leaves the keys and the request context unchanged |
| TokensMiddleware.CachedAuth | pkg/tokens/middleware.go:39-63 | as AuthMiddleware, except that an accepted token the cache says does not exist aborts with "token has been revoked or expired", while a failing cache lookup lets the request through; every branch states the keys, the request context and the error as AuthMiddleware does |
| WebMiddleware.GetString | pkg/web/middleware.go:232-238 | a non-empty result is the string stored under the key |
| WebMiddleware.SplitHostPort | pkg/web/middleware.go:193 | a result splits the address back into host and port, plain or bracketed, with a port free of colons and brackets |
| WebMiddleware.SplitJoined | pkg/web/middleware.go:193 | a host and port free of colons and brackets, joined with ':', split back into the same two parts |
| WebMiddleware.FromRemoteAddr | pkg/web/middleware.go:190-205 | the IP read from RemoteAddr is a prefix of it, or the part after a leading '[' |
| WebMiddleware.ClientIP | pkg/web/middleware.go:138-210 | a non-empty X-Original-Client-Ip wins; otherwise a non-empty X-Client-IP; with every source header empty the IP comes from RemoteAddr |
| WebMiddleware.ClientIPIsFirstSource | pkg/web/middleware.go:138-210 | clientIP's chain of checks is the same as taking the first source header, in the order X-Original-Client-Ip, X-Client-IP, CF-Connecting-IP, X-Forwarded-For, X-Real-Ip, that has a value |
| WebMiddleware.FirstSourceAt | pkg/web/middleware.go:171-189 | the first non-empty source from a position on decides the IP |
| WebMiddleware.ClientIPFirstSource | pkg/web/middleware.go:171-189 | the first source header with a non-empty value decides the IP: the value itself, or the first X-Forwarded-For element trimmed |
| WebMiddleware.ClientIPFromRemoteAddr | pkg/web/middleware.go:190-205 | with every source header empty the IP comes from RemoteAddr, and an address without ':' is the IP itself |
| WebMiddleware.RemoteAddrHost | pkg/web/middleware.go:192-196 | a host:port RemoteAddr yields its host |
| WebMiddleware.XAuthAppToken | pkg/web/middleware.go:68-77 | a request whose X-Auth-App-Token differs from the configured token is aborted with 401 "Unauthorized"; a matching one continues; nothing else changes |
| WebMiddleware.RequestID | pkg/web/middleware.go:79-90 | the incoming X-Request-ID, or the generated one when it is empty, is stored as request_id and echoed in the response header, and the two agree |
| WebMiddleware.RealIP | pkg/web/middleware.go:103-122 | the detected IP is stored as client_ip and original_client_ip and sent in both response headers; GetIPFromContext then returns it |
| WebMiddleware.GetIPFromContext | pkg/web/middleware.go:124-136 | "" without a context, the stored client_ip when it is a string, the detected IP otherwise |
| WebMiddleware.CopyNonEmpty | pkg/web/middleware.go:226-230 | exactly the listed names whose request header is non-empty, with those values |
| WebMiddleware.GetIPHeadersFromContext | pkg/web/middleware.go:212-242 | only listed names with non-empty values; the request's value for the other names; the stored original client IP over the request's header; the request's X-Client-IP over the stored client IP |
| WebMiddleware.IPContextMiddleware | pkg/web/middleware.go:244-256 | the request context gains exactly one value, the IP headers of the request as IPHeadersOf states them, and the chain continues |
| WebMiddleware.RealIPThenPropagated | pkg/web/middleware.go:232-238 | after RealIPMiddleware the propagated headers name the detected IP as the original client IP, and as the client IP unless the request brought its own |
| ClientMiddlewares.DefaultCacheKey | pkg/client/middlewares.go:399-401 | the key is the method, a ':' right after it, and the URL text |
| ClientMiddlewares.CacheMiddleware | pkg/client/middlewares.go:301-311 | nil exactly without a config or a backend; otherwise a cache layer over the config whose key function is the caller's, or defaultCacheKey when none was given |
| ClientMiddlewares.WithRequestID | pkg/client/middlewares.go:35-37 | a request that has an X-Request-ID keeps its header as it is; otherwise it gains exactly the fresh id |
| ClientMiddlewares.PeerAddr | pkg/client/middlewares.go:46-49 | RemoteAddr cut before its last ':', or the whole address when it has none |
| ClientMiddlewares.ForwardedFor | pkg/client/middlewares.go:50-55 | an empty X-Forwarded-For becomes the peer address; one that does not mention the peer gets ", " and the peer appended; one that does is left alone; a new value always mentions the peer |
| ClientMiddlewares.ForwardedForNamesPeer | pkg/client/middlewares.go:50-55 | after the rule the header mentions the peer address |
| ClientMiddlewares.ForwardedForOnce | pkg/client/middlewares.go:50-55 | propagating a second time adds nothing |
| ClientMiddlewares.IncomingAuthorization | pkg/client/middlewares.go:78-85 | a token exactly when the endpoint requires auth and the request context holds a non-empty "Authorization" string, and that string is the token |
| ClientMiddlewares.WithAppToken | pkg/client/middlewares.go:61-71 | an empty application token leaves the header alone; otherwise X-Auth-App-Token holds it |
| ClientMiddlewares.OperationSucceeded | pkg/client/middlewares.go:123-130 | the breaker's operation fails only for a transport error; a response of any status, 5xx included, returns a nil error |
| ClientMiddlewares.ReadAndRestoreBody | pkg/client/middlewares.go:427-438 | no response or no body reads nothing and changes nothing; a read error is returned with the body left as it was; otherwise the bytes read and a fresh reader over them |
| ClientMiddlewares.RestoredBodyRereads | pkg/client/middlewares.go:427-438 | the restored body yields exactly the bytes returned, and reading and restoring again changes nothing |
| ClientMiddlewares.Listed | pkg/client/middlewares.go:344-382 | the loop finds the value exactly when it is in the list |
| ClientMiddlewares.FromEntry | pkg/client/middlewares.go:358-364 | the response rebuilt from an entry reads back the entry's body and reports its length |
| ClientMiddlewares.CacheTTLFor | pkg/client/middlewares.go:328-331 | the endpoint's CacheTTL when positive, else the config's DefaultTTL |
| ClientMiddlewares.StoredEntryHits | pkg/client/middlewares.go:355-394 | a stored response reads back while it lives as the same status, the headers without X-Request-Id, and the same body |
| ClientMiddlewares.RoundTripKeepsDoState | pkg/client/middlewares.go:32-451 | no decorator sleeps or counts attempts, at any depth of wrapping |
| ClientMiddlewares.LayerKeepsDoState | pkg/client/middlewares.go:32-451 | one layer over a transport that keeps those counters keeps them too |
| ClientMiddlewares.RateLimitShortCircuits | pkg/client/middlewares.go:96-110 | a failed Wait ends the request with its error before the inner transport runs |
| ClientMiddlewares.BreakerCountsResponsesAsSuccess | pkg/client/middlewares.go:116-137 | an admitting breaker runs the inner transport once, passes its outcome through and is told success for every response |
| ClientMiddlewares.BreakerRejects | pkg/client/middlewares.go:116-137 | a rejecting breaker returns its error without a response and never runs the inner transport |
| ClientMiddlewares.CacheHit | pkg/client/middlewares.go:354-366 | on a hit the cached response is returned, the inner transport is not called and the cache is left alone |
| ClientMiddlewares.CacheBypass | pkg/client/middlewares.go:337-353 | caching off, a "true" skip header (removed first) or an unlisted method each run the inner transport on the request as it is |
| ClientMiddlewares.CacheMissStores | pkg/client/middlewares.go:368-396 | on a miss the restored response is returned, and it is stored under the request's key with the endpoint's TTL exactly when its status is listed |
| ClientMiddlewares.MaxResponseSizeCaps | pkg/client/middlewares.go:440-451 | errors and non-positive limits pass through unchanged; otherwise only the body changes, and no read of it returns more than the limit |
| ClientMiddlewares.HooksObserve | pkg/client/middlewares.go:409-425 | the outcome passes through; PreRequest is called before, OnError exactly for errors and PostRequest exactly for responses |
| ClientMiddlewares.RequestIDRule | pkg/client/middlewares.go:32-41 | an id already present reaches the inner transport unchanged; otherwise the next fresh id is set |
| ClientMiddlewares.LayersOfCompose | pkg/client/client.go:51-54 | composing the registered middlewares and listing the layers gives back the registration order, the first registered outermost |
| ClientMiddlewares.ComposeAppend | pkg/client/client.go:51-54 | registering a then b wraps b's layers inside a's |
| HttpClient.ConfigureAppend | pkg/client/client.go:48-50 | running the options a then b is running a + b |
| HttpClient.ConfigureMiddlewares | pkg/client/client.go:34-50 | the registered middlewares follow the earlier ones, in registration order |
| HttpClient.ConfigureBaseURL | pkg/client/client.go:25-27 | whatever the options, the base URL ends without '/' unless no option set it |
| HttpClient.LastDefaultSettingsWin | pkg/client/client.go:31-50 | the last WithDefaultSettings decides the default settings |
| HttpClient.KeepsDefaultSettings | pkg/client/client.go:31-50 | options without WithDefaultSettings keep the default settings |
| HttpClient.Options.constructor | pkg/client/client.go:40-47 | no base URL, endpoint function or middleware, empty hooks, and fresh default settings of 30 seconds, 3 retries and no headers |
| HttpClient.Options.Apply | pkg/client/client.go:25-37 | the options afterwards are what the option function makes of them |
| HttpClient.Client.constructor | pkg/client/client.go:55-58 | the client holds the transport, the default timeout and the options |
| HttpClient.DecoratorsOf | pkg/client/client.go:51-54 | the decorators of the middlewares, one per middleware in the same order |
| HttpClient.NewClient | pkg/client/client.go:39-59 | the options applied in order to the initial ones; a nil middleware or nil default settings panic; otherwise the transport is the middlewares wrapped around the default transport, the first registered outermost, and the timeout is the default settings' |
| HttpClient.FirstRegisteredOutermost | pkg/client/client.go:51-54 | the first registered middleware is the outermost layer, and the layers keep the registration order |
| HttpClient.OutgoingRequest.constructor | pkg/client/client.go:148-154 | a request with the given method, URL, address and header |
| HttpClient.Chosen | pkg/client/client.go:64-70 | the endpoint function's settings when it gives non-nil ones, else the client defaults |
| HttpClient.Deadline | pkg/client/client.go:75 | the earlier of the parent's deadline and now plus the timeout |
| HttpClient.FillMissing | pkg/client/client.go:79-83 | in any key order, names with a value keep it, names the defaults give and the request lacks get a default value, other names are untouched |
| HttpClient.FillStep | pkg/client/client.go:79-83 | one more default header keeps that property |
| HttpClient.SetAll | pkg/client/client.go:84-86 | in any key order, every endpoint header name holds a value the endpoint gives for it, other names are untouched |
| HttpClient.SetStep | pkg/client/client.go:84-86 | one more endpoint header keeps that property |
| HttpClient.OverwrittenUnique | pkg/client/client.go:84-86 | when no two names are spellings of one header, each reads back its own value |
| HttpClient.MergePrecedence | pkg/client/client.go:79-86 | endpoint headers win over defaults and over the request, and defaults never replace a value the request had |
| HttpClient.BearerToken | pkg/client/client.go:88-92 | a token exactly when AuthTokenFn is set and succeeds with a non-empty token |
| HttpClient.WithBearer | pkg/client/client.go:88-92 | with a token, Authorization reads "Bearer " and the token; without one the header is unchanged |
| HttpClient.DefaultPolicies | pkg/client/client.go:101-110 | without settings, retry on an error or a 5xx response, and pause 200 ms |
| HttpClient.Backoffs | pkg/client/client.go:117-119 | the pauses for the attempts from one index to another, in order |
| HttpClient.RetryStops | pkg/client/client.go:112-120 | the loop stops at the first outcome the predicate rejects, or after maxRetries + 1 attempts |
| HttpClient.RetryAttempts | pkg/client/client.go:112-120 | one attempt per index the loop reaches |
| HttpClient.RetrySleeps | pkg/client/client.go:112-120 | a pause backoff(i) after every retried attempt i that is not the last allowed one, and no other |
| HttpClient.BackoffsCons | pkg/client/client.go:117-119 | the pauses from i on are backoff(i) followed by the pauses from i + 1 on |
| HttpClient.AttemptCount | pkg/client/client.go:112-120 | at least one and at most maxRetries + 1 attempts, none for a negative maxRetries; exhausting the retries pauses maxRetries times |
| HttpClient.Materialize | pkg/client/client.go:121-125 | all bytes read, with a read error dropped, and a body that yields exactly them |
| HttpClient.Classify | pkg/client/client.go:126-145 | a call without error or 4xx/5xx status returns the buffered response and no error; a failing call returns the fallback's result, panicking unless its error is an *Error, or else the response and an Error with status, body, cause, retries, method and URL |
| HttpClient.ClassifyFallbackOnlyOnFailure | pkg/client/client.go:126-145 | a successful call never consults the fallback; a failure without response reports status 0 and no body |
| HttpClient.Resolve | pkg/client/client.go:64-72 | the chosen settings object, filled in place with the defaults and validated, and nothing else about it changed |
| HttpClient.Do | pkg/client/client.go:63-146 | the chosen settings filled in place; the request sent with the endpoint settings and the deadline in its context, default headers only where missing, endpoint headers over them and the bearer token; the retry loop's outcome classified |
| HttpClient.RetryLoop | pkg/client/client.go:112-120 | the loop yields exactly the last outcome, retry index, request header and state of the retry specification |
| HttpClient.Send | pkg/client/client.go:148-189 | a URL that does not parse panics; otherwise a new request for the verb and URL starting from exactly the given headers, which then gets the default headers where missing, the endpoint headers on top, the bearer token and the deadline context, and is sent through Do under its chosen settings |

## Left out

- Tracing and metrics middlewares (pkg/client/middlewares.go:139-290): OpenTelemetry and Prometheus calls with no decision logic.
- The network: `http.DefaultTransport`, `http.Client.Do` with its Timeout, redirects and error wrapping, and `CloseIdleConnections` in `Client.Close`. The base transport is an oracle that gives a response or an error, never both.
- `rate.Limiter` and `gobreaker` internals: `Wait` and the breaker's admission are oracles indexed by call number. Only their call contract is modelled.
- `Settings.Breaker` is filled by the defaulting rules but no decorator reads it, and the client-level `hooks` option is stored but never called by `Do`; both are modelled as data only.
- `time.Sleep`: the retry loop records the pauses it asks for instead of sleeping. Closing bodies is not modelled, so the retry bodies that `Do` never closes leave no trace.
- Request bodies are not modelled; only headers, method, URL, remote address and context values travel with a request.
- uuid generation: a sequence of fresh ids passed in, one taken per call.
- JSON coding of `cacheEntry` and of the token data is an encode/decode pair. The round trip is a stated requirement (`RoundTrips`), not an axiom; `json.Marshal` never fails on these records.
- The response cache's backend is the memory cache's item map; errors from `Cache.Set` are ignored, as in the code. The branch of `cacheTransport` with a nil backend is unreachable, because `CacheMiddleware` refuses a nil backend.
- `CacheMiddleware` writes the default key function into the caller's config; the model returns the filled copy instead of updating the shared record.
- Decorators are modelled on request values. The header map the Go code updates in place is threaded out of each round trip, so later retries see what earlier decorators wrote.
- A nil user header map, which would panic in `Do`, is not modelled.
- A negative MaxRetries runs no attempt and `Do` returns no response and no error; this is modelled as written.
- A fallback whose error is not an `*Error` panics; the model returns `Panicked`.
- `WithDefaultSettings(nil)` makes `NewClient` panic reading the timeout; the model returns no client.
- `AuthMiddleware` of the client overwrites the Bearer header that `Do` set with the raw incoming token; modelled as written.
- `Do` drops the read error of the final body; modelled as written.
- Paginate.CeilDiv: computes the exact integer ceiling, while the code divides in float64 and takes math.Ceil; the two agree only while the item count and the limit are exactly representable (below 2^53), and rounding beyond that is not modelled.
- floating point: the float64 branches of `Increment` (pkg/cache/memory.go:177-179, 185-188) and the `ParseFloat` fallback on strings; only integers and decimal strings are modelled. Sorted-set scores are integers.
- The order of sorted-set members with equal scores is not specified by the code (`sort.Slice` is not stable); the model puts a new member after the equal scores.
- The garbage-collection goroutine `startGC` and the `sync.RWMutex` of the memory cache: concurrency. `Cleanup` is an explicit method.
- Memory `Get` treats an item whose expiry equals `now` as live while `TTL` reports it missing; both are modelled as written.
- Memory `Expire` only looks at items, never at sorted sets; so the `Expire` that `AddToken` applies to a user's set does nothing on the memory backend.
- `Set` and `MSet` after `Close` write into a nil map and panic; the model requires the cache to be open for them.
- Redis `Set`, `Expire`, `Flush`, `Close`, `MSet` and the remaining go-redis calls are pass-throughs to the server; only the guards and result mappings are modelled. Options are ignored on the URL branch of the constructor, as in the code.
- The marshal error (pkg/tokens/cache_manager.go:73-75), the `Set` error (78-80), the `ZAdd` rollback (83-87), the delete error of `RemoveToken` (119-121) and the `ZRange` error of `InvalidateAllUserTokens` (157-162) cannot happen on the memory backend, so they are not modelled.
- One clock reading per call: the store and the service take a single `now`.
- TokensService.JwtService.RemoveTokenFromCache: states only that a successful removal leaves the token no longer existing, not the full new state that `TokensStore.CacheManager.RemoveToken` states.
- The zero-time check of `AddTokenToCache` is reachable only for a clock before year 1; `ZeroTimeIsPast` shows that.
- The `ErrInvalidClaims` branch of `ValidateTokenAndGetClaims` (pkg/tokens/service.go:297-300) is left out: the parser used always yields map claims.
- JWT signing and verification are library cryptography, given as sign and verify functions.
- Gin routing and the handler chain are not modelled; `Next` only records that the chain continues. JSON bodies are recorded as the error message.
- Log lines, including those in `clientIP` and the IP propagation middlewares, are side effects only.
- `SecureHeadersMiddleware` sets one constant response header and is left out.
- `IPHeadersContextKey` is defined in a client file that is not part of this model; the model uses a named constant for it.
- `ApplyGormPaginationFromContext` is a GORM query call and is left out.
- `database.Open` with its retry, ping and health checker is I/O and goroutines.
- `DetectTimezone` depends on the host's environment and time-zone data.
- The registration loop of `AutoInitNotifiers` is left out; only the environment keys and usernames it builds are modelled.
- The logger, the notifiers, the job scheduler and the server lifecycle are wrappers over zap, webhooks, cron and the HTTP server.
- TokensStore.CacheManager.AddToken: computes the token's TTL and the set's TTL (TTL + 24 hours) without bounds, while Go's `time.Until` saturates at the largest Duration and the addition then wraps; both need an expiry about 292 years away and are not modelled.
- Text.ToUpper: upper-cases ASCII letters only, while Go's `strings.ToUpper` also maps non-ASCII letters; the levels the logger passes (pkg/logs/init.go:16) are ASCII.
- AppConfiguration.Registry.Init: takes a non-null configuration; Go's `Init(nil)` dereferences nil inside `once.Do`, panics and still uses up the once, and that call is not modelled.
