/**
 * `CacheService` of `src/services/cache.service.ts`: a time-boxed key-value
 * store over one SQL table (`key` primary key, `data`, `created_at`,
 * `expires_at`), set up lazily and degraded to a no-op when storage is
 * unavailable. The table is a map from key to entry, the clock is an explicit
 * `now` in milliseconds, and what the storage client does on each call is an
 * explicit outcome.
 */
module CacheService {
  import opened Wrappers

  /** `CACHE_TTL`: 90 days in milliseconds. */
  const CacheTtl: int := 90 * 24 * 60 * 60 * 1000

  /** One row of the table. */
  datatype Entry<V> = Entry(data: V, createdAt: int, expiresAt: int)

  /**
   * The service's `initialized` flag and the rows of its table. Before the
   * first successful `init` the table holds whatever an earlier process left.
   */
  datatype Cache<V> = Cache(initialized: bool, table: map<string, Entry<V>>)

  /** How far `init` gets with the storage client. */
  datatype InitOutcome =
    | NoClient     // the store exposes no client: cache disabled
    | DropFails    // `DROP TABLE IF EXISTS` throws
    | CreateFails  // the drop succeeds, `CREATE TABLE` throws
    | Created      // both statements succeed

  /** Whether the one SQL statement of `get`, `set` or `cleanup` succeeds or throws. */
  datatype Storage = Succeeds | Throws

  /** The result of `get`: the state after its lazy `init`, and the row's data or `null`. */
  datatype Read<V> = Read(cache: Cache<V>, hit: Option<V>)

  /**
   * `init`: a no-op once initialized; otherwise drop and re-create the table,
   * and set the flag only when both statements succeed.
   */
  function Init<V>(c: Cache<V>, o: InitOutcome): (r: Cache<V>)
    ensures c.initialized ==> r == c
    ensures !c.initialized ==> (r.initialized <==> o == Created)
    ensures !c.initialized && o in {CreateFails, Created} ==> r.table == map[]
    ensures o in {NoClient, DropFails} ==> r == c
  {
    if c.initialized then c
    else
      match o
      case NoClient => c
      case DropFails => c
      case CreateFails => Cache(false, map[])
      case Created => Cache(true, map[])
  }

  /**
   * `get(key)` at time `now`: the stored data when a row for `key` has
   * `expires_at > now`; `null` when the cache is disabled, the row is missing
   * or expired, or the query throws.
   */
  function Get<V>(c: Cache<V>, o: InitOutcome, key: string, now: int, s: Storage): (r: Read<V>)
    ensures r.cache == Init(c, o)
    ensures r.hit.Some? <==>
              && r.cache.initialized && s == Succeeds
              && key in r.cache.table && now < r.cache.table[key].expiresAt
    ensures r.hit.Some? ==> r.hit.value == r.cache.table[key].data
  {
    var c1 := Init(c, o);
    if !c1.initialized then Read(c1, None)
    else if s.Throws? then Read(c1, None)
    else if key in c1.table && c1.table[key].expiresAt > now then Read(c1, Some(c1.table[key].data))
    else Read(c1, None)
  }

  /**
   * `set(key, data, ttl)` at time `now`: `INSERT OR REPLACE` of the row
   * `(key, data, now, now + ttl)`; nothing when the cache is disabled or the
   * statement throws.
   */
  function Set<V>(c: Cache<V>, o: InitOutcome, key: string, data: V, ttl: int, now: int, s: Storage): (r: Cache<V>)
    ensures r.initialized == Init(c, o).initialized
    ensures Init(c, o).initialized && s == Succeeds ==>
              && key in r.table && r.table[key] == Entry(data, now, now + ttl)
              && r.table.Keys == Init(c, o).table.Keys + {key}
              && forall k :: k in r.table && k != key ==> r.table[k] == Init(c, o).table[k]
    ensures !Init(c, o).initialized || s == Throws ==> r == Init(c, o)
  {
    var c1 := Init(c, o);
    if !c1.initialized || s.Throws? then c1
    else c1.(table := c1.table[key := Entry(data, now, now + ttl)])
  }

  /**
   * `cleanup()` at time `now`: `DELETE ... WHERE expires_at <= now`; nothing
   * when the cache is disabled or the statement throws.
   */
  function Cleanup<V>(c: Cache<V>, o: InitOutcome, now: int, s: Storage): (r: Cache<V>)
    ensures r.initialized == Init(c, o).initialized
    ensures Init(c, o).initialized && s == Succeeds ==>
              forall k :: k in r.table <==> k in Init(c, o).table && now < Init(c, o).table[k].expiresAt
    ensures forall k :: k in r.table ==> k in Init(c, o).table && r.table[k] == Init(c, o).table[k]
    ensures !Init(c, o).initialized || s == Throws ==> r == Init(c, o)
  {
    var c1 := Init(c, o);
    if !c1.initialized || s.Throws? then c1
    else c1.(table := map k | k in c1.table && c1.table[k].expiresAt > now :: c1.table[k])
  }

  /** The constant is 7,776,000,000 ms. */
  lemma CacheTtlValue()
    ensures CacheTtl == 7_776_000_000
  {
  }

  /** A disabled cache misses on every read and ignores every write and sweep. */
  lemma DisabledCacheIsInert<V>(c: Cache<V>, o: InitOutcome, key: string, data: V, ttl: int, now: int, s: Storage)
    requires !Init(c, o).initialized
    ensures Get(c, o, key, now, s).hit == None
    ensures Set(c, o, key, data, ttl, now, s) == Init(c, o)
    ensures Cleanup(c, o, now, s) == Init(c, o)
  {
  }

  /** A storage error never escapes: the read misses and the write or sweep changes nothing beyond `init`. */
  lemma StorageErrorsAreAbsorbed<V>(c: Cache<V>, o: InitOutcome, key: string, data: V, ttl: int, now: int)
    ensures Get(c, o, key, now, Throws).hit == None
    ensures Set(c, o, key, data, ttl, now, Throws) == Init(c, o)
    ensures Cleanup(c, o, now, Throws) == Init(c, o)
  {
  }

  /**
   * Round trip: after a successful `set(key, data, ttl)` at `now`, a
   * successful `get(key)` at time `t` returns `data` exactly while
   * `t < now + ttl`, and misses from then on.
   */
  lemma SetThenGet<V>(c: Cache<V>, o: InitOutcome, key: string, data: V, ttl: int, now: int, o': InitOutcome, t: int)
    requires Init(c, o).initialized
    ensures var c' := Set(c, o, key, data, ttl, now, Succeeds);
            Get(c', o', key, t, Succeeds).hit == if t < now + ttl then Some(data) else None
  {
  }

  /** A write to one key is invisible to reads of every other key. */
  lemma SetLeavesOtherKeys<V>(c: Cache<V>, o: InitOutcome, key: string, data: V, ttl: int, now: int, s: Storage,
                              other: string, t: int, s': Storage)
    requires Init(c, o).initialized
    requires other != key
    ensures Get(Set(c, o, key, data, ttl, now, s), o, other, t, s').hit == Get(c, o, other, t, s').hit
  {
  }

  /**
   * A sweep at `now` is unobservable by reads at `now`: every key reads the
   * same before and after it, also when the sweep is the call that first
   * initialises the cache.
   */
  lemma CleanupPreservesReads<V>(c: Cache<V>, o: InitOutcome, now: int, s: Storage, key: string, o': InitOutcome, s': Storage)
    ensures Get(Cleanup(c, o, now, s), o', key, now, s').hit == Get(c, o', key, now, s').hit
  {
  }

  /** One call of the service, with the outcomes its storage calls will have. */
  datatype Op<V> =
    | GetOp(key: string, now: int, init: InitOutcome, storage: Storage)
    | SetOp(key: string, data: V, ttl: int, now: int, init: InitOutcome, storage: Storage)
    | CleanupOp(now: int, init: InitOutcome, storage: Storage)

  function Apply<V>(c: Cache<V>, op: Op<V>): Cache<V> {
    match op
    case GetOp(key, now, o, s) => Get(c, o, key, now, s).cache
    case SetOp(key, data, ttl, now, o, s) => Set(c, o, key, data, ttl, now, s)
    case CleanupOp(now, o, s) => Cleanup(c, o, now, s)
  }

  /** The state after a sequence of calls, in order. */
  function Run<V>(c: Cache<V>, ops: seq<Op<V>>): Cache<V>
    decreases |ops|
  {
    if ops == [] then c else Run(Apply(c, ops[0]), ops[1..])
  }

  /**
   * `init` clears the table at most once: once the flag is set, no later call
   * clears it again. A row survives every sequence of calls that neither
   * overwrites its key nor sweeps at or after its expiry.
   */
  lemma {:induction false} InitializedNeverCleared<V>(c: Cache<V>, ops: seq<Op<V>>, key: string)
    requires c.initialized && key in c.table
    requires forall i :: 0 <= i < |ops| ==> !(ops[i].SetOp? && ops[i].key == key)
    requires forall i :: 0 <= i < |ops| && ops[i].CleanupOp? ==> ops[i].now < c.table[key].expiresAt
    ensures Run(c, ops).initialized
    ensures key in Run(c, ops).table && Run(c, ops).table[key] == c.table[key]
    decreases |ops|
  {
    if ops != [] {
      var c1 := Apply(c, ops[0]);
      assert key in c1.table && c1.table[key] == c.table[key];
      InitializedNeverCleared(c1, ops[1..], key);
    }
  }
}
