# Clustered session store over Infinispan, in Dafny

This project models Jetty's Infinispan-backed session persistence. The
session data store (`InfinispanSessionDataStore`) keeps session records in a
cache that all cluster nodes share. The cache maps a string key to a session
record. The store loads, stores, deletes and checks records, and it decides
which candidate sessions are expired by advisory ownership: only the node that
last wrote a record may declare it expired. Bulk expiry queries and the
cluster-wide orphan sweep are delegated to an optional query manager
(`EmbeddedQueryManager`).

Modules, one per component:

- `Sessions` (`sessions.dfy`): the session record, the deployment context
  (canonical context path, virtual host, worker name), the error outcomes, the
  "due at time" test and attribute deserialization as a flag.
- `KeyBuilder` (`key_builder.dfy`): the cache key built from
  (contextPath, vhost, id), with a parser that recovers the triple.
- `Cache` (`session_cache.dfy`): the backing cache as a class with a map of
  entries and a set of keys on which cache operations fail. The store and the
  query manager can hold the same cache object, or different ones: which cache
  each gets is configuration (the store's setter, the manager's constructor),
  and the model allows either.
- `EmbeddedQuery` (`embedded_query_manager.dfy`): the two queries as set
  comprehensions over the cache map, and the `EmbeddedQueryManager` class.
- `InfinispanStore` (`infinispan_session_data_store.dfy`): the store's
  decision functions and lemmas, and the `InfinispanSessionDataStore` class.

The clock is an explicit `now` parameter. The Hot Rod class probe is a boolean
input to `DoStart`. A cache failure is modelled by the cache's `failing` key
set: a get, put or remove of such a key throws. Each stored entry records the
idle time-to-live its put asked for. The code's `exists` treats `expiry <= 0`
as "never expires"; the model follows the code.

## Model

| member | source | states |
|---|---|---|
| `Sessions.DeserializeAttributes` | jetty-infinispan/infinispan-common/src/main/java/org/eclipse/jetty/session/infinispan/InfinispanSessionDataStore.java:115-120 | after deserializing, the attributes are live and every other field is unchanged |
| `Sessions.DeserializeIdempotent` | jetty-infinispan/infinispan-common/src/main/java/org/eclipse/jetty/session/infinispan/InfinispanSessionDataStore.java:115-120 | deserializing twice is the same as once, and deserializing an already live record changes nothing |
| `KeyBuilder.ParseBuild` | jetty-infinispan/infinispan-common/src/main/java/org/eclipse/jetty/session/infinispan/InfinispanSessionDataStore.java:228-231 | every key parses back to the (contextPath, vhost, id) it was built from |
| `KeyBuilder.BuildInjective` | jetty-infinispan/infinispan-embedded-query/src/main/java/org/eclipse/jetty/session/infinispan/EmbeddedQueryManager.java:75 | distinct (contextPath, vhost, id) triples never share a key, so a key rebuilt from query columns names only that record |
| `InfinispanStore.CacheKey` | jetty-infinispan/infinispan-common/src/main/java/org/eclipse/jetty/session/infinispan/InfinispanSessionDataStore.java:228-231 | the session key is determined by the context's canonical path, its vhost and the id, and those three can be recovered from it |
| `InfinispanStore.Load` | jetty-infinispan/infinispan-common/src/main/java/org/eclipse/jetty/session/infinispan/InfinispanSessionDataStore.java:106-128 | a failing key gives an unreadable-session error carrying the id and context and no record; an absent key gives no record; otherwise the stored record comes back, with attributes deserialized exactly when passivating (or already live) and all other fields as stored |
| `InfinispanStore.IdleTtl` | jetty-infinispan/infinispan-common/src/main/java/org/eclipse/jetty/session/infinispan/InfinispanSessionDataStore.java:219-222 | a put carries an idle TTL exactly when maxInactiveMs > 0 and the idle timeout is > 0, and that TTL is the idle timeout in seconds |
| `InfinispanStore.NewSessionData` | jetty-infinispan/infinispan-common/src/main/java/org/eclipse/jetty/session/infinispan/InfinispanSessionDataStore.java:283-287 | the new record carries the given id, timestamps and maxInactiveMs, is stamped with this context's path and vhost, and belongs under its own id's cache key |
| `InfinispanStore.LoadedBelongsToContext` | jetty-infinispan/infinispan-common/src/main/java/org/eclipse/jetty/session/infinispan/InfinispanSessionDataStore.java:114 | on a cache where every record sits under its own key, a loaded record has the requested id and this store's context path and vhost |
| `InfinispanStore.StoreThenLoad` | jetty-infinispan/infinispan-common/src/main/java/org/eclipse/jetty/session/infinispan/InfinispanSessionDataStore.java:212-226 | after a put, a load of the same id returns the stored record (attributes deserialized when passivating) |
| `InfinispanStore.DeleteThenLoad` | jetty-infinispan/infinispan-common/src/main/java/org/eclipse/jetty/session/infinispan/InfinispanSessionDataStore.java:130-136 | after a delete, a load finds nothing, and the expiry scan reports the id as gone |
| `InfinispanStore.StoreKeepsWellKeyed` | jetty-infinispan/infinispan-common/src/main/java/org/eclipse/jetty/session/infinispan/InfinispanSessionDataStore.java:212-222 | putting any record whose id, context path and vhost are those of the key it is put under keeps every record under the key built from its own fields |
| `InfinispanStore.CacheKeyIgnoresWorker` | jetty-infinispan/infinispan-common/src/main/java/org/eclipse/jetty/session/infinispan/InfinispanSessionDataStore.java:228-231 | two contexts with the same canonical path and vhost give every id the same key, whatever their worker names |
| `InfinispanStore.AtMostOneOwnerExpires` | jetty-infinispan/infinispan-common/src/main/java/org/eclipse/jetty/session/infinispan/InfinispanSessionDataStore.java:163-172 | two nodes with different worker names in the same context never both report a session that is present in the cache |
| `InfinispanStore.ScanWithinQuery` | jetty-infinispan/infinispan-common/src/main/java/org/eclipse/jetty/session/infinispan/InfinispanSessionDataStore.java:163-172 | a present session that the candidate scan reports as due is also among the ids the expiry query returns for the context |
| `InfinispanStore.InfinispanSessionDataStore.constructor` | jetty-infinispan/infinispan-common/src/main/java/org/eclipse/jetty/session/infinispan/InfinispanSessionDataStore.java:47-53 | the configured cache, idle timeout and query manager are held; the store is neither started nor passivating |
| `InfinispanStore.InfinispanSessionDataStore.DoStart` | jetty-infinispan/infinispan-common/src/main/java/org/eclipse/jetty/session/infinispan/InfinispanSessionDataStore.java:75-94 | with no cache, start fails and the store stays unstarted; otherwise it starts and is passivating exactly when the Hot Rod classes are present and the cache is remote (false when the classes are absent) |
| `InfinispanStore.InfinispanSessionDataStore.Delete` | jetty-infinispan/infinispan-common/src/main/java/org/eclipse/jetty/session/infinispan/InfinispanSessionDataStore.java:130-136 | returns whether a record existed under the session's key; afterwards that key is absent and all other keys are unchanged; a failing remove is reported and the cache is unchanged; a cache where every record sits under its own key stays so |
| `InfinispanStore.InfinispanSessionDataStore.DoStore` | jetty-infinispan/infinispan-common/src/main/java/org/eclipse/jetty/session/infinispan/InfinispanSessionDataStore.java:212-226 | the record is put under the session's key with the idle TTL only for a mortal session with a configured idle timeout; nothing else changes; a later load returns it; a failing put is reported; putting a record of this id, context and vhost keeps every record under its own key |
| `InfinispanStore.InfinispanSessionDataStore.Exists` | jetty-infinispan/infinispan-common/src/main/java/org/eclipse/jetty/session/infinispan/InfinispanSessionDataStore.java:240-281 | an absent record gives false, expiry <= 0 gives true, otherwise expiry > now; a failing load is passed on as an error, not answered |
| `InfinispanStore.InfinispanSessionDataStore.DoGetExpiredCandidates` | jetty-infinispan/infinispan-common/src/main/java/org/eclipse/jetty/session/infinispan/InfinispanSessionDataStore.java:138-181 | a null or empty candidate set is returned unchanged; otherwise the result is the subset of candidates that are absent, or owned by this node and due; a failing candidate is left out and the rest are still checked; a record owned by another node is never reported |
| `InfinispanStore.InfinispanSessionDataStore.DoGetExpired` | jetty-infinispan/infinispan-common/src/main/java/org/eclipse/jetty/session/infinispan/InfinispanSessionDataStore.java:183-199 | with no query manager the result is empty; with one it is exactly the query's due ids for this context |
| `InfinispanStore.InfinispanSessionDataStore.DoCleanOrphans` | jetty-infinispan/infinispan-common/src/main/java/org/eclipse/jetty/session/infinispan/InfinispanSessionDataStore.java:201-210 | with a query manager its cache becomes the result of the orphan sweep; with none the cache is unchanged |
| `EmbeddedQuery.Swept` | jetty-infinispan/infinispan-embedded-query/src/main/java/org/eclipse/jetty/session/infinispan/EmbeddedQueryManager.java:64-85 | the sweep only removes keys: every remaining record is unchanged, and every removed key is one whose removal did not fail and that was rebuilt from a due row |
| `EmbeddedQuery.ExpiredIdsExact` | jetty-infinispan/infinispan-embedded-query/src/main/java/org/eclipse/jetty/session/infinispan/EmbeddedQueryManager.java:51-60 | an id is returned exactly when some record with that id has the given context path and 0 < expiry <= time |
| `EmbeddedQuery.ExpiredIdsIgnoreVhost` | jetty-infinispan/infinispan-embedded-query/src/main/java/org/eclipse/jetty/session/infinispan/EmbeddedQueryManager.java:53 | the context filter compares the context path only: two contexts with the same path get the same result, whatever their vhosts |
| `EmbeddedQuery.SweptExactly` | jetty-infinispan/infinispan-embedded-query/src/main/java/org/eclipse/jetty/session/infinispan/EmbeddedQueryManager.java:67-84 | on a cache where every record sits under its own key, a record survives the sweep exactly when it is not due (expiry 0 or after the limit) or its removal fails |
| `EmbeddedQuery.NoExpiredAfterSweep` | jetty-infinispan/infinispan-embedded-query/src/main/java/org/eclipse/jetty/session/infinispan/EmbeddedQueryManager.java:64-85 | after a sweep with no failing removal, the expiry query finds nothing due in any context |
| `EmbeddedQuery.EmbeddedQueryManager.constructor` | jetty-infinispan/infinispan-embedded-query/src/main/java/org/eclipse/jetty/session/infinispan/EmbeddedQueryManager.java:41-44 | the manager queries the cache it is given |
| `EmbeddedQuery.EmbeddedQueryManager.QueryExpiredSessions` | jetty-infinispan/infinispan-embedded-query/src/main/java/org/eclipse/jetty/session/infinispan/EmbeddedQueryManager.java:47-62 | a null context is rejected; otherwise the result is the set of due ids of that context path; the cache is only read |
| `EmbeddedQuery.EmbeddedQueryManager.DeleteOrphanSessions` | jetty-infinispan/infinispan-embedded-query/src/main/java/org/eclipse/jetty/session/infinispan/EmbeddedQueryManager.java:64-85 | each due row of any context and host has the key rebuilt from its columns removed, failing removals are skipped, and the cache ends as the sweep function says; a cache where every record sits under its own key stays so |

## Left out

- `KeyBuilder.Build`: `InfinispanKeyBuilder` is not part of this model. Its
  stand-in escapes `\` and `_` in each component and joins the components with
  `_`. This makes the key injective, which the store and the orphan sweep rely
  on. The real key format is not reproduced.
- `InfinispanStore.NewSessionData`: the `SessionData` constructor is not part
  of this model, so the expiry it computes is not reproduced. The new record
  has expiry 0, an empty last node and empty live attributes.
- Stored records are values. An embedded cache's `get` can return the stored
  object itself, so a caller's later changes to it reach the cache before any
  `doStore`. The model does not capture that aliasing: `Load` returns a copy,
  and only `DoStore` changes what the cache holds.
- Attribute (de)serialization is a `deserialized` flag. A remote cache hands
  back a copy, so deserializing it leaves the cache unchanged.
- Deserialization failures are folded into the cache's `failing` key set.
  A get, put or remove of such a key fails.
- A query that throws as a whole is not modelled. Only per-key failures are.
- Setters and getters (`setCache`, `setQueryManager`,
  `setInfinispanIdleTimeoutSec`, `getCache`, `getQueryManager`,
  `getInfinispanIdleTimeoutSec`) are folded into the constructor and the
  fields.
- `IsPassivating` and `GetCacheKey` are plain accessors of `passivating` and
  `CacheKey`. Their properties are stated by `DoStart` and `CacheKey`.
- The lifecycle and `AbstractSessionDataStore` are not part of this model.
  Store operations require a started store with a cache. The scan and `Exists`
  call the load directly rather than through the base class's `load`.
- `_context.run` (running the load under the context class loader) is left
  out. `Exists` loads directly.
- Reflective loading of the Hot Rod class is the `hotRodOnClasspath` input to
  `DoStart`. The `isAssignableFrom` test is the cache's `isRemote` flag.
- The Infinispan query DSL is left out. Each query is a set comprehension over
  the cache map.
- TTL eviction by the cache is not simulated. Only the requested idle TTL is
  recorded.
- Other `QueryManager` implementations (for remote caches) are not part of
  this model. The store's optional query manager is the embedded one.
- `Delete` and `DoStore`: when the cache throws, the model leaves the cache
  unchanged. Whether a failing remote operation took effect is not modelled.
- `SweptExactly` holds for caches where every record sits under the key built
  from its own fields. `doStore` does not check that the record's id and
  context match the id it is stored under. `DoStore` keeps the property for a
  record whose id, context path and vhost match its key; `Delete` and the
  orphan sweep always keep it.
- A null worker name or a null `lastNode` is not modelled. Both are strings.
- Logging, JMX annotations and `toString` are left out.
- Concurrency between nodes and threads is left out. Each operation is one
  atomic step on the cache.
- Java `long` timestamps are unbounded integers. The code only compares them,
  so no overflow arises.
