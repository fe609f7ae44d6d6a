/** The two-level LLM response cache of evals/cache.py in front of a provider whose answer
    is a function of (model, role, prompt). `cache_key` is injective, so the triple is the
    key; the table has one writer. */
module Cache {
  import opened Dicts

  datatype Key = Key(model: string, role: Option<string>, prompt: string)

  /** The llm_cache table, which outlives a process. */
  class CacheTable {
    var rows: map<Key, string>

    constructor ()
      ensures rows == map[]
    {
      rows := map[];
    }
  }

  class LLMCache {
    const pool: CacheTable?
    var memory: map<Key, string>
    var hits: nat
    var misses: nat

    /** A new process starts with an empty memory, whatever the table holds. */
    constructor (pool: CacheTable?)
      ensures this.pool == pool && memory == map[] && hits == 0 && misses == 0
    {
      this.pool := pool;
      memory, hits, misses := map[], 0, 0;
    }

    function Rows(): map<Key, string> reads this, pool {
      if pool == null then map[] else pool.rows
    }

    /** What a lookup finds, at either level. */
    function Lookup(key: Key): Option<string> reads this, pool {
      if key in memory then Some(memory[key]) else if key in Rows() then Some(Rows()[key]) else None
    }

    /** Memory never says anything the table does not. */
    ghost predicate Coherent() reads this, pool {
      pool != null ==> forall k :: k in memory ==> k in pool.rows && pool.rows[k] == memory[k]
    }

    method Get(key: Key) returns (value: Option<string>)
      modifies this
      ensures value == old(Lookup(key))
      ensures forall k :: Lookup(k) == old(Lookup(k))
      ensures memory == if value.Some? then old(memory)[key := value.value] else old(memory)
      ensures old(Coherent()) ==> Coherent()
      ensures hits == old(hits) + (if value.Some? then 1 else 0)
      ensures misses == old(misses) + (if value.Some? then 0 else 1)
    {
      if key in memory {
        hits := hits + 1;
        return Some(memory[key]);
      }
      if pool != null && key in pool.rows {
        memory := memory[key := pool.rows[key]];
        hits := hits + 1;
        return Some(pool.rows[key]);
      }
      misses := misses + 1;
      value := None;
    }

    /** INSERT ... ON CONFLICT DO NOTHING: the table keeps a response it has, while memory
        takes the new one; the two agree unless the table said something else. */
    method Put(key: Key, response: string)
      modifies this, pool
      ensures hits == old(hits) && misses == old(misses)
      ensures forall k :: Lookup(k) == if k == key then Some(response) else old(Lookup(k))
      ensures memory == old(memory)[key := response]
      ensures pool != null ==>
                pool.rows == if key in old(pool.rows) then old(pool.rows) else old(pool.rows)[key := response]
      ensures old(Coherent()) ==> (Coherent() <==> (key in old(Rows()) ==> old(Rows())[key] == response))
    {
      memory := memory[key := response];
      if pool != null && key !in pool.rows {
        pool.rows := pool.rows[key := response];
      }
    }
  }

  /** `CachedProvider`; `calls` are the requests that reached the wrapped provider. */
  class CachedProvider {
    const inner: Key -> string
    var cache: LLMCache
    ghost var calls: seq<Key>

    constructor (inner: Key -> string, cache: LLMCache)
      ensures this.inner == inner && this.cache == cache && calls == []
    {
      this.inner, this.cache, calls := inner, cache, [];
    }

    /** Whatever is cached is the provider's answer. */
    ghost predicate Valid() reads this, cache, cache.pool {
      && cache.Coherent()
      && forall k :: cache.Lookup(k).Some? ==> cache.Lookup(k).value == inner(k)
    }

    ghost predicate Known(k: Key) reads this, cache, cache.pool {
      cache.Lookup(k).Some?
    }

    /** The content is the uncached answer; the provider is asked exactly for a key that is
        not known, which is known from then on; every lookup is a hit or a miss. */
    method Complete(key: Key) returns (content: string)
      requires Valid()
      modifies this`calls, cache, cache.pool
      ensures Valid() && content == inner(key)
      ensures calls == if old(Known(key)) then old(calls) else old(calls) + [key]
      ensures forall k :: Known(k) <==> old(Known(k)) || k == key
      ensures cache.hits + cache.misses == old(cache.hits + cache.misses) + 1
      ensures cache.misses == old(cache.misses) + |calls| - |old(calls)|
    {
      var cached := cache.Get(key);
      if cached.Some? {
        return cached.value;
      }
      content := inner(key);
      calls := calls + [key];
      cache.Put(key, content);
    }

    /** The process dies and a new one opens the same table: what is known is the table, and
        counting starts anew. */
    method Restart()
      requires Valid()
      modifies this`cache
      ensures Valid() && fresh(cache) && cache.pool == old(cache.pool) && cache.hits == 0 && cache.misses == 0
      ensures forall k :: Known(k) <==> cache.pool != null && old(Known(k))
    {
      cache := new LLMCache(cache.pool);
    }
  }

  // ------------------------------------------------------------ whole sessions

  datatype Op = Complete(key: Key) | Restart

  datatype Counters = Counters(hits: nat, misses: nat) {
    function Plus(other: Counters): Counters {
      Counters(hits + other.hits, misses + other.misses)
    }
  }

  /** What is known, which requests reached the provider, and the counters: those of the
      running process, and those that earlier processes took with them, added up. */
  datatype Session = Session(known: set<Key>, calls: seq<Key>, counters: Counters, earlier: Counters)

  /** The effect that the two methods above are proved to have. */
  function Apply(s: Session, op: Op, persistent: bool): Session {
    match op
    case Restart =>
      Session(if persistent then s.known else {}, s.calls, Counters(0, 0), s.earlier.Plus(s.counters))
    case Complete(key) =>
      if key in s.known then s.(counters := s.counters.Plus(Counters(1, 0)))
      else Session(s.known + {key}, s.calls + [key], s.counters.Plus(Counters(0, 1)), s.earlier)
  }

  function Play(start: set<Key>, ops: seq<Op>, persistent: bool): Session {
    if ops == [] then Session(start, [], Counters(0, 0), Counters(0, 0))
    else Apply(Play(start, ops[..|ops| - 1], persistent), ops[|ops| - 1], persistent)
  }

  /** The keys of a table; a cache without one starts with nothing. */
  function KeysOf(table: CacheTable?): set<Key> reads table {
    if table == null then {} else table.rows.Keys
  }

  /** What the table says is the provider's answer. */
  ghost predicate Truthful(inner: Key -> string, table: CacheTable?) reads table {
    table != null ==> forall k :: k in table.rows ==> table.rows[k] == inner(k)
  }

  /** The provider stands where the session specification says. */
  ghost predicate StandsAt(provider: CachedProvider, s: Session)
    reads provider, provider.cache, provider.cache.pool
  {
    && provider.Valid() && provider.calls == s.calls
    && Counters(provider.cache.hits, provider.cache.misses) == s.counters
    && forall k :: provider.Known(k) <==> k in s.known
  }

  /** The uncached answer; a restart has none. */
  function AnswerTo(inner: Key -> string, op: Op): seq<string> {
    match op
    case Restart => []
    case Complete(key) => [inner(key)]
  }

  function AnswersOf(inner: Key -> string, ops: seq<Op>): seq<string> {
    if ops == [] then []
    else AnswersOf(inner, ops[..|ops| - 1]) + AnswerTo(inner, ops[|ops| - 1])
  }

  lemma PlayNext(start: set<Key>, inner: Key -> string, before: seq<Op>, op: Op, persistent: bool)
    ensures Play(start, before + [op], persistent) == Apply(Play(start, before, persistent), op, persistent)
    ensures AnswersOf(inner, before + [op]) == AnswersOf(inner, before) + AnswerTo(inner, op)
  {
    assert (before + [op])[..|before|] == before;
  }

  /** One request or restart; `lost` is what a dying process had counted. */
  method Serve(provider: CachedProvider, op: Op, ghost s: Session) returns (answers: seq<string>, ghost lost: Counters)
    requires StandsAt(provider, s)
    modifies provider, provider.cache, provider.cache.pool
    ensures provider.cache.pool == old(provider.cache.pool)
    ensures provider.cache == old(provider.cache) || fresh(provider.cache)
    ensures StandsAt(provider, Apply(s, op, provider.cache.pool != null))
    ensures answers == AnswerTo(provider.inner, op)
    ensures s.earlier.Plus(lost) == Apply(s, op, provider.cache.pool != null).earlier
  {
    match op
    case Restart =>
      lost := Counters(provider.cache.hits, provider.cache.misses);
      provider.Restart();
      answers := [];
    case Complete(key) =>
      lost := Counters(0, 0);
      var content := provider.Complete(key);
      answers := [content];
  }

  /** The provider has served these operations, with these answers. */
  ghost predicate Served(provider: CachedProvider, start: set<Key>, ops: seq<Op>, answers: seq<string>,
                         earlier: Counters)
    reads provider, provider.cache, provider.cache.pool
  {
    var s := Play(start, ops, provider.cache.pool != null);
    StandsAt(provider, s) && answers == AnswersOf(provider.inner, ops) && earlier == s.earlier
  }

  method ServeNext(provider: CachedProvider, ghost start: set<Key>, ghost before: seq<Op>, op: Op,
                   answers: seq<string>, ghost earlier: Counters)
    returns (more: seq<string>, ghost later: Counters)
    requires Served(provider, start, before, answers, earlier)
    modifies provider, provider.cache, provider.cache.pool
    ensures provider.cache.pool == old(provider.cache.pool)
    ensures provider.cache == old(provider.cache) || fresh(provider.cache)
    ensures Served(provider, start, before + [op], more, later)
  {
    PlayNext(start, provider.inner, before, op, provider.cache.pool != null);
    var answer, lost := Serve(provider, op, Play(start, before, provider.cache.pool != null));
    more, later := answers + answer, earlier.Plus(lost);
  }

  method ServeAll(provider: CachedProvider, ghost start: set<Key>, ops: seq<Op>)
    returns (answers: seq<string>, ghost earlier: Counters)
    requires Served(provider, start, [], [], Counters(0, 0))
    modifies provider, provider.cache, provider.cache.pool
    ensures provider.cache.pool == old(provider.cache.pool)
    ensures Served(provider, start, ops, answers, earlier)
  {
    answers, earlier := [], Counters(0, 0);
    assert ops[..0] == [];
    for n := 0 to |ops|
      invariant provider.cache.pool == old(provider.cache.pool)
      invariant provider.cache == old(provider.cache) || fresh(provider.cache)
      invariant Served(provider, start, ops[..n], answers, earlier)
    {
      assert ops[..n + 1] == ops[..n] + [ops[n]];
      answers, earlier := ServeNext(provider, start, ops[..n], ops[n], answers, earlier);
    }
    assert ops[..|ops|] == ops;
  }

  /** With a table, what is known is what the table holds. */
  lemma TableKeys(provider: CachedProvider)
    requires provider.Valid() && provider.cache.pool != null
    ensures forall k :: provider.Known(k) <==> k in provider.cache.pool.rows
    ensures Truthful(provider.inner, provider.cache.pool)
  {
  }

  method RunSession(inner: Key -> string, ops: seq<Op>, table: CacheTable?)
    returns (answers: seq<string>, counters: Counters, ghost earlier: Counters, ghost calls: seq<Key>)
    requires Truthful(inner, table)
    modifies table
    ensures answers == AnswersOf(inner, ops)
    ensures var s := Play(old(KeysOf(table)), ops, table != null);
            && calls == s.calls && counters == s.counters && earlier == s.earlier
            && Truthful(inner, table) && (table != null ==> table.rows.Keys == s.known)
  {
    var cache := new LLMCache(table);
    var provider := new CachedProvider(inner, cache);
    answers, earlier := ServeAll(provider, KeysOf(table), ops);
    calls := provider.calls;
    counters := Counters(provider.cache.hits, provider.cache.misses);
    if table != null {
      TableKeys(provider);
    }
  }

  ghost predicate Asked(ops: seq<Op>, k: Key) {
    Complete(k) in ops
  }

  /** The number of requests among the operations. */
  function Requests(ops: seq<Op>): nat {
    if ops == [] then 0 else Requests(ops[..|ops| - 1]) + if ops[|ops| - 1].Complete? then 1 else 0
  }

  /** The number of requests that the running process has served. */
  function SinceRestart(ops: seq<Op>): nat {
    if ops == [] || ops[|ops| - 1].Restart? then 0 else SinceRestart(ops[..|ops| - 1]) + 1
  }

  lemma AskedNext(ops: seq<Op>, k: Key)
    requires ops != []
    ensures Asked(ops, k) <==> Asked(ops[..|ops| - 1], k) || ops[|ops| - 1] == Complete(k)
  {
    assert ops == ops[..|ops| - 1] + [ops[|ops| - 1]];
  }

  lemma ApplyCounts(s: Session, op: Op, persistent: bool)
    ensures var t, request := Apply(s, op, persistent), if op.Complete? then 1 else 0;
            && t.counters.hits + t.counters.misses ==
               (if op.Restart? then 0 else s.counters.hits + s.counters.misses + 1)
            && t.earlier.hits + t.counters.hits + |t.calls| ==
               s.earlier.hits + s.counters.hits + |s.calls| + request
            && t.earlier.misses + t.counters.misses - |t.calls| == s.earlier.misses + s.counters.misses - |s.calls|
  {
  }

  lemma {:induction false} AllCounted(start: set<Key>, ops: seq<Op>, persistent: bool)
    ensures var s := Play(start, ops, persistent);
            && s.counters.hits + s.counters.misses == SinceRestart(ops)
            && s.earlier.hits + s.counters.hits + |s.calls| == Requests(ops)
            && s.earlier.misses + s.counters.misses == |s.calls|
  {
    if ops != [] {
      var front, last := ops[..|ops| - 1], ops[|ops| - 1];
      AllCounted(start, front, persistent);
      ApplyCounts(Play(start, front, persistent), last, persistent);
    }
  }

  /** The provider was asked for the key exactly if it was requested and not known at the
      start; with a table either way it is known now. */
  ghost predicate CallsFit(s: Session, start: set<Key>, persistent: bool, k: Key, asked: bool) {
    && (k in s.calls <==> asked && k !in start)
    && (k in s.known ==> k in start || asked)
    && (persistent && (k in start || asked) ==> k in s.known)
  }

  lemma ApplyCallsFit(s: Session, start: set<Key>, persistent: bool, k: Key, asked: bool, op: Op)
    requires (persistent || start == {}) && CallsFit(s, start, persistent, k, asked)
    ensures CallsFit(Apply(s, op, persistent), start, persistent, k, asked || op == Complete(k))
  {
  }

  lemma {:induction false} CallsFor(start: set<Key>, ops: seq<Op>, persistent: bool, k: Key)
    requires persistent || start == {}
    ensures CallsFit(Play(start, ops, persistent), start, persistent, k, Asked(ops, k))
  {
    if ops != [] {
      var front, last := ops[..|ops| - 1], ops[|ops| - 1];
      CallsFor(start, front, persistent, k);
      ApplyCallsFit(Play(start, front, persistent), start, persistent, k, Asked(front, k), last);
      AskedNext(ops, k);
    }
  }

  ghost predicate AskedOnce(s: Session) {
    Distinct(s.calls) && forall k :: k in s.calls ==> k in s.known
  }

  lemma ApplyAsksOnce(s: Session, op: Op)
    requires AskedOnce(s)
    ensures AskedOnce(Apply(s, op, true))
  {
  }

  lemma {:induction false} CallsDistinct(start: set<Key>, ops: seq<Op>)
    ensures AskedOnce(Play(start, ops, true))
  {
    if ops != [] {
      CallsDistinct(start, ops[..|ops| - 1]);
      ApplyAsksOnce(Play(start, ops[..|ops| - 1], true), ops[|ops| - 1]);
    }
  }

  /** Over any sequence of requests and restarts the running process has counted each of its
      requests once, and all processes together have counted every request as a hit or as one
      provider call. The provider is asked for exactly the requested keys that were not known
      at the start, and with a table once for each. */
  lemma OneCallPerKey(start: set<Key>, ops: seq<Op>, persistent: bool)
    requires persistent || start == {}
    ensures var s := Play(start, ops, persistent);
            && s.counters.hits + s.counters.misses == SinceRestart(ops)
            && s.earlier.hits + s.counters.hits + |s.calls| == Requests(ops)
            && s.earlier.misses + s.counters.misses == |s.calls|
            && (forall k :: k in s.calls <==> Asked(ops, k) && k !in start)
            && (persistent ==> Distinct(s.calls) && forall k :: k in s.known <==> k in start || Asked(ops, k))
  {
    AllCounted(start, ops, persistent);
    var s := Play(start, ops, persistent);
    forall k ensures CallsFit(s, start, persistent, k, Asked(ops, k)) {
      CallsFor(start, ops, persistent, k);
    }
    assert forall k :: CallsFit(s, start, persistent, k, Asked(ops, k));
    if persistent {
      CallsDistinct(start, ops);
    }
  }
}
