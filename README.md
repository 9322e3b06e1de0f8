# SQLDataSource cached query coordinator, in Dafny

This project models `SQLDataSource` from `index.js`, a data source that puts a
read-through cache in front of a MySQL connection. A query built with
`.cache(ttl)` carries a cache directive. `execute` sends a query without a
directive straight to the database. A query with a directive goes to
`executeCachedQuery`. That method derives a key from the query's canonical
string with `createCacheKey` and looks the key up in the cache. A truthy entry
is parsed and returned. Otherwise the query runs on the database, and truthy
rows are written back through `updateCache` before they are returned.
`updateCache` can also be called directly. Its `force` flag picks the
configured `defaultTTL` instead of the query's own directive as the ttl.

Files:

- `js_values.dfy` (module `JsValues`): JavaScript values, ECMAScript
  truthiness, and `Completion` (a call returns normally or throws).
- `cache_semantics.dfy` (module `CacheSemantics`): the reference semantics.
  Each operation is a function from the observable state to the call's
  result and the new state. The observable state is the cache entries plus
  the number of database round trips. `Replay` runs a sequence of requests
  one after the other.
- `cache_properties.dfy` (module `CacheProperties`): lemmas about one call
  and about sequences of calls.
- `sql_data_source.dfy` (module `SqlDataSource`): three classes.
  `SQLDataSource` holds the fields the source assigns: `mysql`, `defaultTTL`
  and `cache`. `CacheStore` is the key/value store, whose entries are a `map`
  field. `Database` is the connection, with a round-trip counter. Each method
  is proved to have the effect the reference semantics gives it.

The collaborators are modelled as follows:

- SHA-1 with base64, `JSON.stringify` and `JSON.parse` are function-valued
  fields of `Codec`. They are deterministic and otherwise uninterpreted.
  `JSON.parse` may throw.
- `JSON.stringify(undefined)` is `undefined`, and `JsonStringify` builds that
  case in instead of leaving it to the codec. The stored `undefined` is
  represented as an empty payload. Both are falsy when read back at
  index.js:85, so the next run misses (`RefreshUndefinedThenRunMisses`).
- The database is a function `answer` from the rendered statement (SQL text
  plus bindings) to rows or a driver error.
- These functions are parameters, so every property holds for every choice of
  them, except where a lemma states a hypothesis about the codec or the
  database. Those hypotheses are:
  - `Populates(env, q)`, required by `SecondRunIsHit`,
    `RepeatedRunsQueryOnce`, `MissAddsHitKey` and `AtMostOneQueryPerKey`. It
    says the database answers the query with truthy rows, and that
    `stringify` of those rows is a non-empty string.
  - `RefreshThenRunHits` requires the refreshed rows to be other than
    `undefined`, with a non-empty `stringify`.
  - Its second conclusion holds only if the codec round-trips the rows
    (`parse(stringify(rows)) == rows`).

Several behaviours of the code are easy to misread. The model follows the code in each of them:

- A cache entry that `JSON.parse` rejects is not treated as a miss. The
  exception propagates out of `executeCachedQuery` (index.js:85). In the model
  the result is then the parser's `Throw`.
- `if (rows)` uses JavaScript truthiness (index.js:89). An empty array is
  truthy, so an empty result set is cached. `null`, `undefined`, `0`, `false`,
  `NaN` and `""` are not cached.
- Only an `undefined` directive bypasses the cache (index.js:66). `null`, `0`
  and `false` go through the cache. On a miss that value itself becomes the
  ttl (index.js:99), not the default TTL. `defaultTTL` is used only when
  `force` is true.
- The refresh path is `updateCache(query, rows, force)`. `force` defaults to
  `false`, and then the query's own directive is the ttl (index.js:96-100).
- A failing `cache.set` would reject `executeCachedQuery`. The model's store
  never fails (see Left out).

## Model

| member | source | states |
|---|---|---|
| `CacheSemantics.Lookup` | index.js:83-85 | The entry from `cache.get` is truthy exactly when the key is stored with a non-empty payload, and then it is that payload string. A missing key reads as `undefined`. |
| `CacheSemantics.ExecuteDirect` | index.js:60-63 | `_execute` makes one database call and returns its answer (rows or error) unchanged. The cache is untouched. |
| `CacheSemantics.UpdateCache` | index.js:96-101 | One entry is written, at the query's key (`createCacheKey` of its canonical string). For rows other than `undefined` it holds `stringify(rows)`. For `undefined` rows the entry reads back as falsy. The ttl passed to `cache.set` is `defaultTTL` when `force` is true and the query's directive otherwise (index.js:99). Every other key keeps its entry, and no key disappears. |
| `CacheSemantics.ExecuteCached` | index.js:80-94 | On a truthy entry: the result is `parse(entry)`, no database call is made and the cache is unchanged. On a miss: exactly one database call, whose result (rows or error) is returned. The cache gains `key -> (stringify(rows), directive)` exactly when the call succeeds with truthy rows, and is unchanged otherwise. So the write-back's ttl is the query's own directive, never `defaultTTL` (`force` is false). |
| `CacheSemantics.Execute` | index.js:65-71 | Without a directive: one database call, its result returned unchanged, and the cache entries unchanged. With any other directive value (null and 0 included): the cached path. |
| `CacheSemantics.Apply` | index.js:65-101 | One request (a run or an `updateCache`) makes at most one database call and never removes a cache key. It changes the store only at its own query's key, and only when it is a cached run or a refresh. |
| `CacheSemantics.Replay` | index.js:65-101 | A sequence of requests yields one result per request. It makes at most one database call per request and never removes a cache key. |
| `CacheProperties.FalsyDirectivesStillCache` | index.js:66-67 | A directive of `null`, `false`, `0`, `NaN` or `""` still counts as a cache request (`RequestsCache`). `execute` then takes exactly the cached path. |
| `CacheProperties.RefreshUndefinedThenRunMisses` | index.js:83-98 | After `updateCache(q, undefined, force)`, the next cached run of `q` is a miss. It makes one database call and returns the database's answer. |
| `CacheProperties.SameTextSameKey` | index.js:73-78 | `createCacheKey` depends only on the canonical string (`toString()`), not on the native statement or the directive. So `executeCachedQuery` (line 81) and `updateCache` (line 97) use the same key for the same query. |
| `CacheProperties.SecondRunIsHit` | index.js:80-94 | Start from a miss, with truthy rows whose serialisation is non-empty. Two successive cached runs make exactly one database call. The second run leaves the state unchanged and returns `parse(stringify(rows))`. |
| `CacheProperties.RefreshThenRunHits` | index.js:80-101 | Let `rows` be other than `undefined`, with a non-empty `stringify(rows)`. After `updateCache(q, rows, force)`, a cached run of `q` is a hit. It makes no database call, leaves the cache unchanged and returns `parse(stringify(rows))`. That is `rows` itself when the codec round-trips them. |
| `CacheProperties.HitsAreStable` | index.js:83-85 | Once the query's entry is truthy, any number of cached runs change nothing and each returns the parsed entry. |
| `CacheProperties.RepeatedRunsQueryOnce` | index.js:80-94 | n >= 1 cached runs of one query, starting from a miss, make exactly one database call. The first run returns the database's rows. Every later run returns `parse(stringify(rows))`. |
| `CacheProperties.UncachedRunsBypass` | index.js:65-71 | Any sequence of runs without a directive leaves the store exactly as it was. It makes one database call per run, and each result is the database's answer. |
| `CacheProperties.WritesOnlyTouchedKeys` | index.js:65-101 | After any sequence of requests, every key that is new or changed belongs to a cached run or a refresh in the sequence. |
| `CacheProperties.MissAddsHitKey` | index.js:83-93 | A miss whose rows are written back costs one database call. It makes the query's key a hit and no other key. |
| `CacheProperties.AtMostOneQueryPerKey` | index.js:80-94 | Take a sequence of cached runs whose rows are all written back. Its database calls are at most the number of distinct keys among those runs that were not already hits. So a sequential workload never queries the database twice for one key. |
| `SqlDataSource.Construct` | index.js:14-30 | With `config.mysql` undefined, construction throws "You must define a mysql option in SQLDataSource". Otherwise the new object stores `config.mysql` and `config.defaultTTL` and has no cache yet. |
| `SqlDataSource.SQLDataSource.constructor` | index.js:28-30 | Stores `mysql` and `defaultTTL`. The cache is unset. |
| `SqlDataSource.SQLDataSource.Initialize` | index.js:50-52 | The cache becomes `config.cache` when one is given, and otherwise a fresh, empty store. |
| `SqlDataSource.CacheStore.constructor` | index.js:52 | A new in-memory cache starts empty, with no `get` or `set` made on it yet. |
| `SqlDataSource.CacheStore.Get` | index.js:83 | `cache.get` returns what the reference `Lookup` gives for the current entries, leaves them unchanged and counts one `get`. |
| `SqlDataSource.CacheStore.Set` | index.js:98-100 | `cache.set` replaces the entry at one key with the given payload and ttl and counts one `set`. |
| `SqlDataSource.Database.Query` | index.js:62 | `mysql.query(sql, bindings)` returns the database's answer to that statement and counts one round trip. |
| `SqlDataSource.SQLDataSource.ExecuteOnDatabase` | index.js:60-63 | `_execute` sends the query's native statement once and returns the answer unchanged. |
| `SqlDataSource.SQLDataSource.Execute` | index.js:65-71 | Before `initialize`, a directive-less query still goes straight to the database. A query with a directive rejects with the TypeError from `this.cache.get`, without a database call. Once the cache exists, the result and the new cache/database state are exactly those of `CacheSemantics.Execute`. A directive-less query then makes no `cache.get` and no `cache.set` call at all, and a query with a directive makes exactly one `cache.get`. |
| `SqlDataSource.SQLDataSource.ExecuteCachedQuery` | index.js:80-94 | Before `initialize`, it rejects with the TypeError from `this.cache.get` and makes no database call. Afterwards, the result and the new cache/database state are exactly those of `CacheSemantics.ExecuteCached`. It makes exactly one `cache.get`, and one `cache.set` exactly when the entry missed and the database returned truthy rows. |
| `SqlDataSource.SQLDataSource.UpdateCache` | index.js:96-101 | Before `initialize`, it rejects with the TypeError from `this.cache.set`. Afterwards, it resolves to `undefined`, the new cache entries are exactly those of `CacheSemantics.UpdateCache`, and it makes one `cache.set` and no `cache.get`. |

## Left out

- The query-builder extension (index.js:32-47) is not modelled. It patches `cache`, `useCache` and `execute` onto knex's `QueryBuilder`. Here a query is a value with its canonical text, its native statement and its directive.
- The knex instance `this.db` (index.js:26), `toSQL().toNative()` and `toString()` are not modelled. Query rendering belongs to the builder, so those renderings are fields of `Query`.
- SHA-1 and base64 (index.js:74-77) are a foreign call, modelled as an uninterpreted deterministic `digest`. Collision resistance cannot be stated or proved, so two canonical strings with the same digest share an entry.
- `JSON.stringify` is modelled as string-valued on every value but `undefined`, whose `undefined` result is stored as the empty payload. The modelled values hold no cycles, functions, symbols or BigInt. Those are the other inputs on which it throws or returns `undefined`.
- The cache store's internals are not modelled: LRU eviction, TTL expiry and failures of `get`/`set`. Entries stay until overwritten, and the ttl option is only recorded.
- The connection's pooling, retries and timing are not modelled. The database is a fixed function from statement to rows or error during a run. So the model does not capture writes that change later answers, whether other clients make them or this data source sends them through an uncached `execute`. After such an INSERT or UPDATE, the model still gives the old answer to the next SELECT. That stale read is the situation `updateCache` exists for, but the model cannot show it.
- `SqlDataSource.Construct`: `config.mysql` is either undefined or a connection. A `null` option passes the source's `typeof` check and fails later, at query time. The model does not represent that case.
- `CacheSemantics.Execute`: the reference state holds the cache entries and the database calls, not the number of `cache.get` calls, so the reference semantics cannot say that the bypass does not read the store. The class model counts `get` and `set` calls on `CacheStore`, and `SqlDataSource.SQLDataSource.Execute` states that a directive-less query makes neither.
- The TypeError texts (`CacheUnsetOnGet`, `CacheUnsetOnSet`) follow current V8 wording. The exact text depends on the JavaScript engine.
- Logging (`DEBUG`, the global `hasLogger` flag and knex-tiny-logger, index.js:9, 11, 54-57) is not modelled: it has no effect on results.
- The Apollo `DataSource` base class and `context` (index.js:4, 13, 22, 51) are framework wiring and are not modelled.
- Asynchronous interleaving is not modelled. Each call is one atomic step, so concurrent misses on one key (a stampede) are outside the model.
