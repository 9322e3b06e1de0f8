/** What the coordinator promises over one call and over a sequence of
    calls, proved about the reference semantics of CacheSemantics. */
module CacheProperties {
  import opened JsValues
  import opened CacheSemantics

  /** The key is a function of the canonical text alone, so
      `executeCachedQuery` reads where `updateCache` writes for the same query
      (and for any query that renders to the same text). */
  lemma SameTextSameKey(codec: Codec, q1: Query, q2: Query)
    requires q1.text == q2.text
    ensures CacheKey(codec, q1) == CacheKey(codec, q2)
  {
  }

  /** The database answers `q` with truthy rows whose serialisation is a
      non-empty string, so a miss on `q` leaves a truthy entry behind. */
  predicate Populates(env: Env, q: Query) {
    Storable(env.answer(q.native)) && env.codec.stringify(env.answer(q.native).value) != ""
  }

  /** Two successive cached runs of the same query starting from a miss:
      one database call in all, and the second run returns the parsed
      serialisation of the rows the first one fetched. */
  lemma SecondRunIsHit(env: Env, st: State, q: Query)
    requires RequestsCache(q) && !Hit(st.store, CacheKey(env.codec, q)) && Populates(env, q)
    ensures var first := Execute(env, st, q);
      var second := Execute(env, first.state, q);
      && first.result == env.answer(q.native)
      && first.state.calls == st.calls + 1
      && second.state == first.state
      && second.result == env.codec.parse(env.codec.stringify(env.answer(q.native).value))
  {
  }

  /** Any directive other than `undefined`, the falsy ones included, sends
      `execute` down the cached path. */
  lemma FalsyDirectivesStillCache(env: Env, st: State, q: Query)
    requires q.directive in {Null, Bool(false), Num(0.0), NaN, Str("")}
    ensures RequestsCache(q)
    ensures Execute(env, st, q) == ExecuteCached(env, st, q)
  {
  }

  /** After `updateCache(q, rows, force)` with rows other than `undefined`
      whose serialisation is non-empty, a cached run of `q` is a hit: no
      database call, the cache unchanged, and the result is the parsed
      payload; under a round-trip hypothesis on the codec it is `rows`. */
  lemma RefreshThenRunHits(env: Env, st: State, q: Query, rows: JsValue, force: bool)
    requires RequestsCache(q) && rows != Undefined && env.codec.stringify(rows) != ""
    ensures var refreshed := st.(store := UpdateCache(env, st.store, q, rows, force));
      Execute(env, refreshed, q) == Step(env.codec.parse(env.codec.stringify(rows)), refreshed)
    ensures env.codec.parse(env.codec.stringify(rows)) == Normal(rows) ==>
      Execute(env, st.(store := UpdateCache(env, st.store, q, rows, force)), q).result == Normal(rows)
  {
  }

  /** `updateCache(q, undefined, force)` stores what `JSON.stringify(undefined)`
      gives, which reads back as falsy: the next cached run of `q` is a miss
      that queries the database once and returns its answer. */
  lemma RefreshUndefinedThenRunMisses(env: Env, st: State, q: Query, force: bool)
    requires RequestsCache(q)
    ensures var refreshed := st.(store := UpdateCache(env, st.store, q, Undefined, force));
      var s := Execute(env, refreshed, q);
      s.result == env.answer(q.native) && s.state.calls == st.calls + 1
  {
  }

  /** Once the query's entry is truthy, any number of cached runs leave the
      state alone and all return the parsed entry. */
  lemma {:induction false} HitsAreStable(env: Env, st: State, q: Query, n: nat)
    requires RequestsCache(q) && Hit(st.store, CacheKey(env.codec, q))
    ensures Replay(env, st, seq(n, i => Run(q)))
         == Trace(st, seq(n, i => env.codec.parse(st.store[CacheKey(env.codec, q)].payload)))
  {
    if n > 0 {
      var ops := seq(n, i => Run(q));
      assert ops[1..] == seq(n - 1, i => Run(q));
      HitsAreStable(env, st, q, n - 1);
      var hit := env.codec.parse(st.store[CacheKey(env.codec, q)].payload);
      assert [hit] + seq(n - 1, i => hit) == seq(n, i => hit);
    }
  }

  /** n cached runs of the same query starting from a miss: exactly one
      database call; the first run returns the database's rows and every
      later one the parsed serialisation of those rows. */
  lemma {:induction false} RepeatedRunsQueryOnce(env: Env, st: State, q: Query, n: nat)
    requires n >= 1
    requires RequestsCache(q) && !Hit(st.store, CacheKey(env.codec, q)) && Populates(env, q)
    ensures var t := Replay(env, st, seq(n, i => Run(q)));
      && t.final.calls == st.calls + 1
      && t.results[0] == env.answer(q.native)
      && forall i :: 1 <= i < n ==>
           t.results[i] == env.codec.parse(env.codec.stringify(env.answer(q.native).value))
  {
    var ops := seq(n, i => Run(q));
    var first := Apply(env, st, ops[0]);
    assert ops[1..] == seq(n - 1, i => Run(q));
    HitsAreStable(env, first.state, q, n - 1);
  }

  /** Runs without a cache directive never touch the store: each is one
      database call whose result is passed on unchanged. */
  lemma {:induction false} UncachedRunsBypass(env: Env, st: State, ops: seq<Op>)
    requires forall i :: 0 <= i < |ops| ==> ops[i].Run? && !RequestsCache(ops[i].q)
    ensures var t := Replay(env, st, ops);
      && t.final.store == st.store
      && t.final.calls == st.calls + |ops|
      && forall i :: 0 <= i < |ops| ==> t.results[i] == env.answer(ops[i].q.native)
    decreases |ops|
  {
    if ops != [] {
      var s := Apply(env, st, ops[0]);
      UncachedRunsBypass(env, s.state, ops[1..]);
      var t := Replay(env, st, ops);
      forall i | 0 <= i < |ops|
        ensures t.results[i] == env.answer(ops[i].q.native)
      {
        if i > 0 {
          assert ops[1..][i - 1] == ops[i];
        }
      }
    }
  }

  /** A sequence of requests changes the store only at keys of cached runs
      and refreshes in it: uncached runs write nothing, and no request writes
      a key other than its own query's. */
  lemma {:induction false} WritesOnlyTouchedKeys(env: Env, st: State, ops: seq<Op>)
    ensures var t := Replay(env, st, ops);
      forall k :: k in t.final.store && (k !in st.store || t.final.store[k] != st.store[k]) ==>
        k in TouchedKeys(env.codec, ops)
    decreases |ops|
  {
    if ops != [] {
      var s := Apply(env, st, ops[0]);
      WritesOnlyTouchedKeys(env, s.state, ops[1..]);
    }
  }

  lemma SubsetCardinality(a: set<string>, b: set<string>)
    requires a <= b
    ensures |a| <= |b|
  {
    assert b == a + (b - a);
  }

  /** A miss on a query whose rows are written back makes its key a hit and
      no other key. */
  lemma MissAddsHitKey(env: Env, st: State, q: Query)
    requires RequestsCache(q) && !Hit(st.store, CacheKey(env.codec, q)) && Populates(env, q)
    ensures var s := Execute(env, st, q);
      s.state.calls == st.calls + 1 && HitKeys(s.state.store) == HitKeys(st.store) + {CacheKey(env.codec, q)}
  {
    var s := Execute(env, st, q);
    var key := CacheKey(env.codec, q);
    assert s.state.store == st.store[key := Entry(env.codec.stringify(env.answer(q.native).value), q.directive)];
  }

  /** Counting step: a key that was not a hit and becomes one accounts for
      one of the pending keys. */
  lemma PendingShrinks(later: set<string>, hits: set<string>, key: string)
    requires key !in hits
    ensures |later - (hits + {key})| + 1 <= |({key} + later) - hits|
  {
    var left := later - (hits + {key});
    assert key !in left;
    SubsetCardinality(left + {key}, ({key} + later) - hits);
  }

  /** Cached runs whose rows are written back cost at most one database
      call per distinct key that is not already a hit: a sequential
      workload never queries the database twice for the same key. */
  lemma {:induction false} AtMostOneQueryPerKey(env: Env, st: State, ops: seq<Op>)
    requires forall i :: 0 <= i < |ops| ==> ops[i].Run? && RequestsCache(ops[i].q) && Populates(env, ops[i].q)
    ensures Replay(env, st, ops).final.calls <= st.calls + |TouchedKeys(env.codec, ops) - HitKeys(st.store)|
    decreases |ops|
  {
    if ops != [] {
      var q := ops[0].q;
      var key := CacheKey(env.codec, q);
      var s := Apply(env, st, ops[0]);
      var rest := ops[1..];
      assert Replay(env, st, ops).final == Replay(env, s.state, rest).final;
      assert forall i :: 0 <= i < |rest| ==> rest[i] == ops[i + 1];
      AtMostOneQueryPerKey(env, s.state, rest);
      var later := TouchedKeys(env.codec, rest);
      assert TouchedKeys(env.codec, ops) == {key} + later;
      if Hit(st.store, key) {
        assert s.state == st;
        SubsetCardinality(later - HitKeys(st.store), ({key} + later) - HitKeys(st.store));
      } else {
        MissAddsHitKey(env, st, q);
        PendingShrinks(later, HitKeys(st.store), key);
      }
    }
  }
}
