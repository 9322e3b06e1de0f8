/** The `SQLDataSource` object of index.js and the two collaborators whose
    state it changes: the cache store it reads and writes, and the database
    connection whose round trips are counted. Each method is proved to have
    exactly the effect that CacheSemantics assigns to it. */
module SqlDataSource {
  import opened JsValues
  import opened CacheSemantics

  /** The key/value cache (`config.cache`, or a fresh `InMemoryLRUCache`).
      It may be shared by several data sources. `gets` and `sets` count the
      calls made on it, so that a caller's contract can say whether it
      consulted the store at all. */
  class CacheStore {
    var entries: Store
    var gets: nat
    var sets: nat

    constructor ()
      ensures entries == map[] && gets == 0 && sets == 0
    {
      entries := map[];
      gets := 0;
      sets := 0;
    }

    /** `cache.get(key)`. */
    method Get(key: string) returns (v: JsValue)
      modifies this
      ensures v == Lookup(entries, key)
      ensures entries == old(entries) && gets == old(gets) + 1 && sets == old(sets)
    {
      v := Lookup(entries, key);
      gets := gets + 1;
    }

    /** `cache.set(key, value, { ttl })`. */
    method Set(key: string, value: string, ttl: JsValue)
      modifies this
      ensures entries == old(entries)[key := Entry(value, ttl)]
      ensures gets == old(gets) && sets == old(sets) + 1
    {
      entries := entries[key := Entry(value, ttl)];
      sets := sets + 1;
    }
  }

  /** The `mysql` connection: answers each statement from `answer` and
      counts its round trips. */
  class Database {
    const answer: Statement -> Completion<JsValue>
    var calls: nat

    constructor (answer: Statement -> Completion<JsValue>)
      ensures this.answer == answer && calls == 0
    {
      this.answer := answer;
      calls := 0;
    }

    /** `mysql.query(sql, bindings)`. */
    method Query(sql: string, bindings: seq<JsValue>) returns (r: Completion<JsValue>)
      modifies this
      ensures r == answer(Statement(sql, bindings))
      ensures calls == old(calls) + 1
    {
      r := answer(Statement(sql, bindings));
      calls := calls + 1;
    }
  }

  /** The constructor's argument; `mysql` is `None` when it is `undefined`. */
  datatype Config = Config(mysql: Option<Database>, defaultTTL: JsValue)

  /** The argument of `initialize`; `cache` is `None` when it is not given. */
  datatype InitConfig = InitConfig(cache: Option<CacheStore>)

  const MissingMysqlMessage := "You must define a mysql option in SQLDataSource"

  /** The TypeErrors raised by `this.cache.get` and `this.cache.set` while
      `this.cache` is still undefined, before `initialize` has run. */
  const CacheUnsetOnGet := "TypeError: Cannot read properties of undefined (reading 'get')"
  const CacheUnsetOnSet := "TypeError: Cannot read properties of undefined (reading 'set')"

  /** `new SQLDataSource(config)`: throws when `config.mysql` is undefined. */
  method Construct(config: Config, codec: Codec) returns (r: Completion<SQLDataSource>)
    ensures config.mysql.None? ==> r == Throw(MissingMysqlMessage)
    ensures config.mysql.Some? ==>
      && r.Normal? && fresh(r.value)
      && r.value.mysql == config.mysql.value
      && r.value.defaultTTL == config.defaultTTL
      && r.value.codec == codec
      && r.value.cache == null
  {
    if config.mysql.None? {
      return Throw(MissingMysqlMessage);
    }
    var source := new SQLDataSource(config.mysql.value, config.defaultTTL, codec);
    r := Normal(source);
  }

  class SQLDataSource {
    const mysql: Database
    const defaultTTL: JsValue
    const codec: Codec
    /** `null` until `initialize` runs. */
    var cache: CacheStore?

    /** The field assignments of the constructor once `config.mysql` has
        been found defined (see `Construct`). */
    constructor (mysql: Database, defaultTTL: JsValue, codec: Codec)
      ensures this.mysql == mysql && this.defaultTTL == defaultTTL && this.codec == codec
      ensures cache == null
    {
      this.mysql := mysql;
      this.defaultTTL := defaultTTL;
      this.codec := codec;
      cache := null;
    }

    /** The collaborators a call depends on, as the reference semantics sees them. */
    function Environment(): Env {
      Env(codec, defaultTTL, mysql.answer)
    }

    /** The observable state: the cache's entries and the database's round trips. */
    function Observed(): State
      requires cache != null
      reads this, cache, mysql
    {
      State(cache.entries, mysql.calls)
    }

    /** `initialize(config)`: use the given cache, or a fresh empty one. */
    method Initialize(config: InitConfig)
      modifies this`cache
      ensures config.cache.Some? ==> cache == config.cache.value
      ensures config.cache.None? ==> cache != null && fresh(cache) && cache.entries == map[]
    {
      if config.cache.Some? {
        cache := config.cache.value;
      } else {
        cache := new CacheStore();
      }
    }

    /** `_execute(query)`: render the native statement and send it. */
    method ExecuteOnDatabase(q: Query) returns (r: Completion<JsValue>)
      modifies mysql
      ensures r == mysql.answer(q.native) && mysql.calls == old(mysql.calls) + 1
    {
      var native := q.native;
      r := mysql.Query(native.sql, native.bindings);
    }

    /** `execute(query)`: queries without a cache directive go straight to the
        database, before `initialize` too; the others take the cached path. */
    method Execute(q: Query) returns (r: Completion<JsValue>)
      modifies mysql, cache
      ensures cache == null && !RequestsCache(q) ==>
        r == mysql.answer(q.native) && mysql.calls == old(mysql.calls) + 1
      ensures cache == null && RequestsCache(q) ==>
        r == Throw(CacheUnsetOnGet) && mysql.calls == old(mysql.calls)
      ensures cache != null ==> Step(r, Observed()) == CacheSemantics.Execute(Environment(), old(Observed()), q)
      ensures cache != null && !RequestsCache(q) ==>
        cache.gets == old(cache.gets) && cache.sets == old(cache.sets)
      ensures cache != null && RequestsCache(q) ==> cache.gets == old(cache.gets) + 1
    {
      if RequestsCache(q) {
        r := ExecuteCachedQuery(q);
      } else {
        r := ExecuteOnDatabase(q);
      }
    }

    /** `executeCachedQuery(query)`: rejects with a TypeError before `initialize`. */
    method ExecuteCachedQuery(q: Query) returns (r: Completion<JsValue>)
      modifies mysql, cache
      ensures cache == null ==> r == Throw(CacheUnsetOnGet) && mysql.calls == old(mysql.calls)
      ensures cache != null ==> Step(r, Observed()) == ExecuteCached(Environment(), old(Observed()), q)
      ensures cache != null ==> cache.gets == old(cache.gets) + 1
      ensures cache != null ==>
        cache.sets == old(cache.sets) +
          (if !Hit(old(cache.entries), CacheKey(codec, q)) && Storable(mysql.answer(q.native)) then 1 else 0)
    {
      var key := CacheKey(codec, q);
      if cache == null {
        return Throw(CacheUnsetOnGet);
      }
      var entry := cache.Get(key);
      if Truthy(entry) {
        r := codec.parse(entry.s);
        return;
      }
      r := ExecuteOnDatabase(q);
      if r.Normal? && Truthy(r.value) {
        var _ := UpdateCache(q, r.value, false);
      }
    }

    /** `updateCache(query, rows, force)`: resolves to `undefined`, or rejects
        with a TypeError before `initialize`. */
    method UpdateCache(q: Query, rows: JsValue, force: bool) returns (r: Completion<JsValue>)
      modifies cache
      ensures cache == null ==> r == Throw(CacheUnsetOnSet)
      ensures cache != null ==>
        r == Normal(Undefined) &&
        cache.entries == CacheSemantics.UpdateCache(Environment(), old(cache.entries), q, rows, force)
      ensures cache != null ==> cache.gets == old(cache.gets) && cache.sets == old(cache.sets) + 1
    {
      var key := CacheKey(codec, q);
      if cache == null {
        return Throw(CacheUnsetOnSet);
      }
      cache.Set(key, JsonStringify(codec, rows), TtlFor(Environment(), q, force));
      r := Normal(Undefined);
    }
  }
}
