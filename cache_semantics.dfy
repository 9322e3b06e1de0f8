/** Reference semantics of the cached query coordinator of `SQLDataSource`
    (index.js), as functions from the observable state (the cache store's
    entries and the number of database round trips so far) to the result
    of a call and the new state. The class model in sql_data_source.dfy is
    proved to behave exactly as these functions say. */
module CacheSemantics {
  import opened JsValues

  /** What `toSQL().toNative()` renders: statement text and its ordered bindings. */
  datatype Statement = Statement(sql: string, bindings: seq<JsValue>)

  /** A built query. `text` is its canonical string (`toString()`, the only
      input of the cache key), `native` what is sent to the database, and
      `directive` what `useCache()` returns: the value last given to
      `.cache(ttl)`, or `Undefined` when caching was never requested. */
  datatype Query = Query(text: string, native: Statement, directive: JsValue)

  /** `typeof query.useCache() !== 'undefined'`: any other value, null, 0 and
      false included, asks for the cached path. */
  predicate RequestsCache(q: Query) {
    q.directive != Undefined
  }

  /** One cache entry: the serialised rows and the ttl option it was set with.
      An empty payload also stands for the `undefined` that `JSON.stringify`
      returns for `undefined`: both read back as a falsy entry. */
  datatype Entry = Entry(payload: string, ttl: JsValue)

  /** The cache store's contents; eviction and expiry belong to the store. */
  type Store = map<string, Entry>

  /** The foreign functions the coordinator calls, left uninterpreted:
      `digest` is SHA-1 followed by base64 (`createCacheKey`), `stringify`
      is `JSON.stringify` on every value but `undefined` (see JsonStringify),
      and `parse` is `JSON.parse`, which throws on a payload it cannot read. */
  datatype Codec = Codec(
    digest: string -> string,
    stringify: JsValue -> string,
    parse: string -> Completion<JsValue>)

  /** Everything a call depends on besides the state: the codec, the
      configured `defaultTTL`, and what the database answers to each
      statement (rows, or a driver error). */
  datatype Env = Env(
    codec: Codec,
    defaultTTL: JsValue,
    answer: Statement -> Completion<JsValue>)

  /** The observable state: the cache store's entries and how many times
      the database has been queried. */
  datatype State = State(store: Store, calls: nat)

  /** The outcome of one call and the state after it. */
  datatype Step = Step(result: Completion<JsValue>, state: State)

  /** `createCacheKey(query.toString())`. */
  function CacheKey(codec: Codec, q: Query): string {
    codec.digest(q.text)
  }

  /** `JSON.stringify(v)` as stored by `cache.set`: `undefined` serialises
      to `undefined`, stored here as the empty payload. */
  function JsonStringify(codec: Codec, v: JsValue): string {
    if v == Undefined then "" else codec.stringify(v)
  }

  /** `cache.get(key)`: the stored string, or `undefined` when there is none. */
  function Lookup(store: Store, key: string): (v: JsValue)
    ensures Truthy(v) <==> Hit(store, key)
    ensures Truthy(v) ==> v == Str(store[key].payload)
    ensures key !in store ==> v == Undefined
  {
    if key in store then Str(store[key].payload) else Undefined
  }

  /** The entry under `key` is truthy, so `executeCachedQuery` answers from the cache. */
  predicate Hit(store: Store, key: string) {
    key in store && store[key].payload != ""
  }

  /** The rows `_execute` produced are written back (`if (rows)`). */
  predicate Storable(rows: Completion<JsValue>) {
    rows.Normal? && Truthy(rows.value)
  }

  /** The ttl option of `updateCache`: the configured default when forced,
      the query's own directive otherwise. */
  function TtlFor(env: Env, q: Query, force: bool): JsValue {
    if force then env.defaultTTL else q.directive
  }

  /** `updateCache(query, rows, force)`: one `cache.set` at the query's key. */
  function UpdateCache(env: Env, store: Store, q: Query, rows: JsValue, force: bool): (r: Store)
    ensures r.Keys == store.Keys + {CacheKey(env.codec, q)}
    ensures rows != Undefined ==> r[CacheKey(env.codec, q)].payload == env.codec.stringify(rows)
    ensures rows == Undefined ==> !Hit(r, CacheKey(env.codec, q))
    ensures force ==> r[CacheKey(env.codec, q)].ttl == env.defaultTTL
    ensures !force ==> r[CacheKey(env.codec, q)].ttl == q.directive
    ensures forall k :: k in store && k != CacheKey(env.codec, q) ==> r[k] == store[k]
  {
    store[CacheKey(env.codec, q) := Entry(JsonStringify(env.codec, rows), TtlFor(env, q, force))]
  }

  /** `_execute`: one database round trip; its result, rows or error, is passed on unchanged. */
  function ExecuteDirect(env: Env, st: State, q: Query): (s: Step)
    ensures s.result == env.answer(q.native)
    ensures s.state.store == st.store && s.state.calls == st.calls + 1
  {
    Step(env.answer(q.native), st.(calls := st.calls + 1))
  }

  /** `executeCachedQuery`: read through the cache at the query's key. */
  function ExecuteCached(env: Env, st: State, q: Query): (s: Step)
    ensures var key := CacheKey(env.codec, q);
      Hit(st.store, key) ==>
        s.result == env.codec.parse(st.store[key].payload) && s.state == st
    ensures var key := CacheKey(env.codec, q);
      !Hit(st.store, key) ==>
        s.result == env.answer(q.native) && s.state.calls == st.calls + 1
    ensures var key := CacheKey(env.codec, q);
      !Hit(st.store, key) && Storable(env.answer(q.native)) ==>
        s.state.store == st.store[key := Entry(env.codec.stringify(env.answer(q.native).value), q.directive)]
    ensures !Storable(env.answer(q.native)) ==> s.state.store == st.store
  {
    var key := CacheKey(env.codec, q);
    var entry := Lookup(st.store, key);
    if Truthy(entry) then
      Step(env.codec.parse(entry.s), st)
    else
      var s := ExecuteDirect(env, st, q);
      if Storable(s.result) then
        Step(s.result, s.state.(store := UpdateCache(env, st.store, q, s.result.value, false)))
      else
        s
  }

  /** `execute`: route on the cache directive. */
  function Execute(env: Env, st: State, q: Query): (s: Step)
    ensures !RequestsCache(q) ==>
      s.result == env.answer(q.native) && s.state.store == st.store && s.state.calls == st.calls + 1
    ensures RequestsCache(q) ==> s == ExecuteCached(env, st, q)
  {
    if RequestsCache(q) then ExecuteCached(env, st, q) else ExecuteDirect(env, st, q)
  }

  /** A caller's request: run a query, or refresh the cache through
      `updateCache(query, rows, force)`. */
  datatype Op =
    | Run(q: Query)
    | Refresh(q: Query, rows: JsValue, force: bool)

  /** The request may write the cache at its query's key. */
  predicate MayWrite(op: Op) {
    op.Refresh? || RequestsCache(op.q)
  }

  /** One request. `updateCache` resolves to `undefined`. */
  function Apply(env: Env, st: State, op: Op): (s: Step)
    ensures st.calls <= s.state.calls <= st.calls + 1
    ensures st.store.Keys <= s.state.store.Keys
    ensures forall k :: k in s.state.store && (k !in st.store || s.state.store[k] != st.store[k]) ==>
      MayWrite(op) && k == CacheKey(env.codec, op.q)
  {
    match op
    case Run(q) => Execute(env, st, q)
    case Refresh(q, rows, force) =>
      Step(Normal(Undefined), st.(store := UpdateCache(env, st.store, q, rows, force)))
  }

  /** The final state and the results of a sequence of requests handled one after the other. */
  datatype Trace = Trace(final: State, results: seq<Completion<JsValue>>)

  function Replay(env: Env, st: State, ops: seq<Op>): (t: Trace)
    ensures |t.results| == |ops|
    ensures st.calls <= t.final.calls <= st.calls + |ops|
    ensures st.store.Keys <= t.final.store.Keys
    decreases |ops|
  {
    if ops == [] then
      Trace(st, [])
    else
      var s := Apply(env, st, ops[0]);
      var rest := Replay(env, s.state, ops[1..]);
      Trace(rest.final, [s.result] + rest.results)
  }

  /** The keys the requests in `ops` may write. */
  function TouchedKeys(codec: Codec, ops: seq<Op>): set<string>
    decreases |ops|
  {
    if ops == [] then {}
    else
      (if MayWrite(ops[0]) then {CacheKey(codec, ops[0].q)} else {}) + TouchedKeys(codec, ops[1..])
  }

  /** The keys `executeCachedQuery` would currently answer from the cache. */
  function HitKeys(store: Store): set<string> {
    set k | k in store && Hit(store, k)
  }
}
