/**
 InfinispanSessionDataStore: a session data store over a shared key-to-record
 cache, with an optional query manager for cluster-wide expiry queries.
 */
module InfinispanStore {
  import opened Sessions
  import opened Cache
  import opened EmbeddedQuery
  import KeyBuilder

  /** getCacheKey: the key of session `id` in `context`; it depends on the
      canonical context path, the virtual host and the id alone. */
  function CacheKey(context: SessionContext, id: string): (k: string)
    ensures KeyBuilder.Parse(k) == Some((context.canonicalContextPath, context.vhost, id))
  {
    KeyBuilder.ParseBuild(context.canonicalContextPath, context.vhost, id);
    KeyBuilder.Build(context.canonicalContextPath, context.vhost, id)
  }

  /** doLoad: the record under `id`'s key, its attributes deserialized when the
      store is passivating; any cache failure is reported as unreadable. */
  function Load(entries: map<string, Entry>, failing: set<string>, passivating: bool,
                context: SessionContext, id: string): (r: Result<Option<SessionData>, StoreError>)
    ensures r.Failure? <==> CacheKey(context, id) in failing
    ensures r.Failure? ==> r.error == Unreadable(id, context)
    ensures r == Success(None) <==> CacheKey(context, id) !in failing && CacheKey(context, id) !in entries
    ensures r.Success? && r.value.Some? ==>
      CacheKey(context, id) in entries &&
      var stored := entries[CacheKey(context, id)].data;
      r.value.value.(deserialized := stored.deserialized) == stored &&
      r.value.value.deserialized == (passivating || stored.deserialized)
  {
    var key := CacheKey(context, id);
    if key in failing then Failure(Unreadable(id, context))
    else if key !in entries then Success(None)
    else if passivating then Success(Some(DeserializeAttributes(entries[key].data)))
    else Success(Some(entries[key].data))
  }

  /** The expiry decision for one candidate, on what the cache holds: it is
      reported when its record is gone, or when this node is the record's
      last writer and the record is due; a candidate whose load fails is not. */
  predicate ExpiredCandidate(entries: map<string, Entry>, failing: set<string>,
                             context: SessionContext, id: string, time: int)
  {
    var key := CacheKey(context, id);
    key !in failing &&
    (key !in entries || (entries[key].data.lastNode == context.workerName && Due(entries[key].data, time)))
  }

  /** The idle time-to-live (seconds) a put asks for: the configured idle
      timeout when the session is not immortal and a timeout is configured. */
  function IdleTtl(maxInactiveMs: int, idleTimeoutSec: int): (r: Option<int>)
    ensures r.Some? <==> maxInactiveMs > 0 && idleTimeoutSec > 0
    ensures r.Some? ==> r.value == idleTimeoutSec && r.value > 0
  {
    if maxInactiveMs > 0 && idleTimeoutSec > 0 then Some(idleTimeoutSec) else None
  }

  /** newSessionData: a fresh record stamped with this context's path and
      virtual host; it belongs under its own id's cache key. */
  function NewSessionData(context: SessionContext, id: string, created: int, accessed: int,
                          lastAccessed: int, maxInactiveMs: int): (sd: SessionData)
    ensures sd.id == id && sd.contextPath == context.canonicalContextPath && sd.vhost == context.vhost
    ensures sd.created == created && sd.accessed == accessed && sd.lastAccessed == lastAccessed
    ensures sd.maxInactiveMs == maxInactiveMs
    ensures RowKey(RowOf(sd)) == CacheKey(context, id)
  {
    SessionData(id, context.canonicalContextPath, context.vhost, created, accessed, lastAccessed,
                maxInactiveMs, 0, "", map[], true)
  }

  /** A record loaded from a well-keyed cache is the session asked for, of
      this store's context and virtual host. */
  lemma LoadedBelongsToContext(entries: map<string, Entry>, failing: set<string>, passivating: bool,
                               context: SessionContext, id: string)
    requires WellKeyed(entries)
    requires Load(entries, failing, passivating, context, id).Success?
    requires Load(entries, failing, passivating, context, id).value.Some?
    ensures var sd := Load(entries, failing, passivating, context, id).value.value;
      sd.id == id && sd.contextPath == context.canonicalContextPath && sd.vhost == context.vhost
  {
    var key := CacheKey(context, id);
    var stored := entries[key].data;
    KeyBuilder.BuildInjective(context.canonicalContextPath, context.vhost, id,
                              stored.contextPath, stored.vhost, stored.id);
  }

  /** Storing a record and loading it back gives the record, with its
      attributes deserialized when passivating. */
  lemma StoreThenLoad(entries: map<string, Entry>, failing: set<string>, passivating: bool,
                      context: SessionContext, id: string, data: SessionData, ttl: Option<int>)
    requires CacheKey(context, id) !in failing
    ensures Load(entries[CacheKey(context, id) := Entry(data, ttl)], failing, passivating, context, id)
      == Success(Some(if passivating then DeserializeAttributes(data) else data))
  {
  }

  /** After a delete the session is absent, and a scan reports it. */
  lemma DeleteThenLoad(entries: map<string, Entry>, failing: set<string>, passivating: bool,
                       context: SessionContext, id: string, time: int)
    requires CacheKey(context, id) !in failing
    ensures Load(entries - {CacheKey(context, id)}, failing, passivating, context, id) == Success(None)
    ensures ExpiredCandidate(entries - {CacheKey(context, id)}, failing, context, id, time)
  {
  }

  /** Storing a record under the key of its own id, in its own context and
      virtual host, keeps every record under the key built from its fields. */
  lemma StoreKeepsWellKeyed(entries: map<string, Entry>, context: SessionContext, id: string,
                            data: SessionData, ttl: Option<int>)
    requires WellKeyed(entries)
    requires RowOf(data) == Row(id, context.canonicalContextPath, context.vhost)
    ensures WellKeyed(entries[CacheKey(context, id) := Entry(data, ttl)])
  {
  }

  /** The cache key depends on the context path, the virtual host and the id,
      not on which node computes it. */
  lemma CacheKeyIgnoresWorker(c1: SessionContext, c2: SessionContext, id: string)
    requires c1.canonicalContextPath == c2.canonicalContextPath && c1.vhost == c2.vhost
    ensures CacheKey(c1, id) == CacheKey(c2, id)
  {
  }

  /** Two nodes serving the same context never both report a session that is
      present in the cache: only its last writer may. */
  lemma AtMostOneOwnerExpires(entries: map<string, Entry>, failing: set<string>,
                              nodeA: SessionContext, nodeB: SessionContext, id: string, time: int)
    requires nodeA.canonicalContextPath == nodeB.canonicalContextPath && nodeA.vhost == nodeB.vhost
    requires nodeA.workerName != nodeB.workerName
    requires CacheKey(nodeA, id) in entries
    ensures !(ExpiredCandidate(entries, failing, nodeA, id, time) && ExpiredCandidate(entries, failing, nodeB, id, time))
  {
    CacheKeyIgnoresWorker(nodeA, nodeB, id);
  }

  /** A scan and the query agree: on a well-keyed cache a candidate this node
      reports as due (present, owned here) is also among the ids the query
      returns for this context. */
  lemma ScanWithinQuery(entries: map<string, Entry>, failing: set<string>,
                        context: SessionContext, id: string, time: int)
    requires WellKeyed(entries)
    requires CacheKey(context, id) in entries
    requires ExpiredCandidate(entries, failing, context, id, time)
    ensures id in ExpiredIds(entries, context.canonicalContextPath, time)
  {
    var key := CacheKey(context, id);
    var stored := entries[key].data;
    KeyBuilder.BuildInjective(context.canonicalContextPath, context.vhost, id,
                              stored.contextPath, stored.vhost, stored.id);
  }

  class InfinispanSessionDataStore {
    const context: SessionContext
    var cache: SessionCache?
    var infinispanIdleTimeoutSec: int
    var queryManager: EmbeddedQueryManager?
    var passivating: bool
    var started: bool

    /** Started, and so holding a cache. */
    ghost predicate Valid()
      reads this
    {
      started && cache != null
    }

    /** The store as configured through its setters, not yet started. */
    constructor (context: SessionContext, cache: SessionCache?, idleTimeoutSec: int,
                 queryManager: EmbeddedQueryManager?)
      ensures this.context == context && this.cache == cache
      ensures infinispanIdleTimeoutSec == idleTimeoutSec && this.queryManager == queryManager
      ensures !passivating && !started
    {
      this.context := context;
      this.cache := cache;
      infinispanIdleTimeoutSec := idleTimeoutSec;
      this.queryManager := queryManager;
      passivating := false;
      started := false;
    }

    /** doStart: fails without a cache; otherwise the store passivates exactly
        when the Hot Rod classes are present and the cache is a remote one. */
    method DoStart(hotRodOnClasspath: bool) returns (o: Outcome<StoreError>)
      modifies this
      ensures cache == old(cache) && queryManager == old(queryManager)
      ensures infinispanIdleTimeoutSec == old(infinispanIdleTimeoutSec)
      ensures old(cache) == null ==> o == Fail(NoCache) && !started && passivating == old(passivating)
      ensures old(cache) != null ==> o == Pass && Valid() && passivating == (hotRodOnClasspath && cache.isRemote)
    {
      if cache == null {
        started := false;
        return Fail(NoCache);
      }
      passivating := false;
      if hotRodOnClasspath && cache.isRemote {
        passivating := true;
      }
      started := true;
      return Pass;
    }

    function IsPassivating(): bool
      reads this
    {
      passivating
    }

    function GetCacheKey(id: string): string
    {
      CacheKey(context, id)
    }

    /** doLoad, on the current cache. */
    function DoLoad(id: string): Result<Option<SessionData>, StoreError>
      reads this, cache
      requires Valid()
    {
      Load(cache.entries, cache.failing, IsPassivating(), context, id)
    }

    /** delete: removes the session's key; says whether a record was there.
        A failing remove is reported and leaves the cache as it was. */
    method Delete(id: string) returns (r: Result<bool, StoreError>)
      requires Valid()
      modifies cache
      ensures cache.failing == old(cache.failing)
      ensures GetCacheKey(id) in old(cache.failing) ==>
        r == Failure(CacheFailure(GetCacheKey(id))) && cache.entries == old(cache.entries)
      ensures GetCacheKey(id) !in old(cache.failing) ==>
        r == Success(GetCacheKey(id) in old(cache.entries)) &&
        GetCacheKey(id) !in cache.entries && cache.entries == old(cache.entries) - {GetCacheKey(id)}
      ensures WellKeyed(old(cache.entries)) ==> WellKeyed(cache.entries)
    {
      var key := GetCacheKey(id);
      if key in cache.failing {
        return Failure(CacheFailure(key));
      }
      var existed := key in cache.entries;
      cache.entries := cache.entries - {key};
      return Success(existed);
    }

    /** doStore: puts the record under the session's key, with an idle
        time-to-live only for a mortal session and a configured idle timeout. */
    method DoStore(id: string, data: SessionData, lastSaveTime: int) returns (o: Outcome<StoreError>)
      requires Valid()
      modifies cache
      ensures cache.failing == old(cache.failing)
      ensures GetCacheKey(id) in old(cache.failing) ==>
        o == Fail(CacheFailure(GetCacheKey(id))) && cache.entries == old(cache.entries)
      ensures GetCacheKey(id) !in old(cache.failing) ==>
        o == Pass &&
        cache.entries == old(cache.entries)[GetCacheKey(id) := Entry(data, IdleTtl(data.maxInactiveMs, infinispanIdleTimeoutSec))]
      ensures o == Pass ==> DoLoad(id) == Success(Some(if passivating then DeserializeAttributes(data) else data))
      ensures WellKeyed(old(cache.entries)) && RowOf(data) == Row(id, context.canonicalContextPath, context.vhost) ==>
        WellKeyed(cache.entries)
    {
      var key := GetCacheKey(id);
      if key in cache.failing {
        return Fail(CacheFailure(key));
      }
      if data.maxInactiveMs > 0 && infinispanIdleTimeoutSec > 0 {
        cache.entries := cache.entries[key := Entry(data, Some(infinispanIdleTimeoutSec))];
      } else {
        cache.entries := cache.entries[key := Entry(data, None)];
      }
      return Pass;
    }

    /** exists: false for an absent session, true for one that never expires,
        otherwise whether its expiry is still ahead of `now`; a failing load is
        reported, not answered. */
    method Exists(id: string, now: int) returns (r: Result<bool, StoreError>)
      requires Valid()
      ensures GetCacheKey(id) in cache.failing ==> r == Failure(Unreadable(id, context))
      ensures GetCacheKey(id) !in cache.failing && GetCacheKey(id) !in cache.entries ==> r == Success(false)
      ensures GetCacheKey(id) !in cache.failing && GetCacheKey(id) in cache.entries ==>
        var expiry := cache.entries[GetCacheKey(id)].data.expiry;
        r == Success(expiry <= 0 || expiry > now)
    {
      var reference := false;
      var exception: Option<StoreError> := None;
      var loaded := DoLoad(id);
      match loaded {
        case Failure(e) =>
          exception := Some(e);
        case Success(None) =>
          reference := false;
        case Success(Some(sd)) =>
          if sd.expiry <= 0 {
            reference := true;
          } else {
            reference := sd.expiry > now;
          }
      }
      if exception.Some? {
        return Failure(exception.value);
      }
      return Success(reference);
    }

    /** doGetExpired(candidates, time): a missing or empty candidate set is
        returned as it is; otherwise the candidates that are gone from the
        cache or that this node owns and are due. */
    method DoGetExpiredCandidates(candidates: Option<set<string>>, time: int) returns (r: Option<set<string>>)
      requires Valid()
      ensures candidates.None? || candidates == Some({}) ==> r == candidates
      ensures candidates.Some? ==> r.Some? && r.value <= candidates.value
      ensures candidates.Some? ==> forall c | c in candidates.value ::
        c in r.value <==> ExpiredCandidate(cache.entries, cache.failing, context, c, time)
      ensures candidates.Some? ==> forall c | c in candidates.value && GetCacheKey(c) in cache.entries &&
        cache.entries[GetCacheKey(c)].data.lastNode != context.workerName :: c !in r.value
    {
      if candidates.None? || candidates.value == {} {
        return candidates;
      }
      var expired: set<string> := {};
      var rest := candidates.value;
      while rest != {}
        invariant rest <= candidates.value
        invariant expired <= candidates.value - rest
        invariant forall c | c in candidates.value - rest ::
          c in expired <==> ExpiredCandidate(cache.entries, cache.failing, context, c, time)
        decreases rest
      {
        var candidate :| candidate in rest;
        var loaded := DoLoad(candidate);
        match loaded {
          case Failure(_) =>
            // logged and skipped
          case Success(None) =>
            expired := expired + {candidate};
          case Success(Some(sd)) =>
            if context.workerName == sd.lastNode && sd.expiry > 0 && sd.expiry <= time {
              expired := expired + {candidate};
            }
        }
        rest := rest - {candidate};
      }
      return Some(expired);
    }

    /** doGetExpired(time): with a query manager, exactly the ids it finds due
        for this context; without one, none. */
    method DoGetExpired(time: int) returns (r: set<string>)
      requires Valid()
      ensures queryManager == null ==> r == {}
      ensures queryManager != null ==>
        r == ExpiredIds(queryManager.cache.entries, context.canonicalContextPath, time)
    {
      if queryManager != null {
        var found := queryManager.QueryExpiredSessions(Some(context), time);
        var ids := found.value;
        var expired: set<string> := {};
        var rest := ids;
        while rest != {}
          invariant rest <= ids
          invariant expired == ids - rest
          decreases rest
        {
          var sessionId :| sessionId in rest;
          expired := expired + {sessionId};
          rest := rest - {sessionId};
        }
        return expired;
      }
      return {};
    }

    /** doCleanOrphans: with a query manager, its sweep of every context; with
        none, nothing changes. */
    method DoCleanOrphans(timeLimit: int)
      requires Valid()
      modifies if queryManager != null then {queryManager.cache} else {}
      ensures queryManager != null ==> queryManager.cache.failing == old(queryManager.cache.failing)
      ensures queryManager != null ==>
        queryManager.cache.entries == Swept(old(queryManager.cache.entries), old(queryManager.cache.failing), timeLimit)
      ensures queryManager == null ==> cache.entries == old(cache.entries) && cache.failing == old(cache.failing)
    {
      if queryManager != null {
        queryManager.DeleteOrphanSessions(timeLimit);
      }
    }
  }
}
