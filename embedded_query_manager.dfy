/**
 EmbeddedQueryManager: the query capability of an embedded Infinispan cache.
 A query over the cache is modelled as a set comprehension over its entries.
 */
module EmbeddedQuery {
  import opened Sessions
  import opened Cache
  import KeyBuilder

  datatype QueryError = NullContext

  /** One row of the orphan query: the columns (id, contextPath, vhost). */
  datatype Row = Row(id: string, contextPath: string, vhost: string)

  function RowOf(sd: SessionData): Row
  {
    Row(sd.id, sd.contextPath, sd.vhost)
  }

  /** The cache key a row is removed under. */
  function RowKey(r: Row): string
  {
    KeyBuilder.Build(r.contextPath, r.vhost, r.id)
  }

  /** Every record is stored under the key built from its own context path,
      virtual host and id (what the store's put maintains). */
  predicate WellKeyed(entries: map<string, Entry>)
  {
    forall k | k in entries :: k == RowKey(RowOf(entries[k].data))
  }

  /** Ids of the records of context `contextPath` that are due at `time`. */
  function ExpiredIds(entries: map<string, Entry>, contextPath: string, time: int): set<string>
  {
    set k | k in entries && entries[k].data.contextPath == contextPath && Due(entries[k].data, time)
      :: entries[k].data.id
  }

  /** Rows of all records, of every context and host, that are due at `time`. */
  function OrphanRows(entries: map<string, Entry>, time: int): set<Row>
  {
    set k | k in entries && Due(entries[k].data, time) :: RowOf(entries[k].data)
  }

  /** Keys the orphan sweep removes: each due row's rebuilt key, unless the
      removal of that key fails. */
  function RemovedKeys(entries: map<string, Entry>, failing: set<string>, time: int): set<string>
  {
    set r | r in OrphanRows(entries, time) && RowKey(r) !in failing :: RowKey(r)
  }

  /** The cache after an orphan sweep at `time`. */
  function Swept(entries: map<string, Entry>, failing: set<string>, time: int): (r: map<string, Entry>)
    ensures forall k | k in r :: k in entries && r[k] == entries[k]
    ensures forall k | k in entries && k !in r ::
      k !in failing && exists row | row in OrphanRows(entries, time) :: RowKey(row) == k
  {
    entries - RemovedKeys(entries, failing, time)
  }

  /** The query result is exactly the ids of the due records of that context. */
  lemma ExpiredIdsExact(entries: map<string, Entry>, contextPath: string, time: int, id: string)
    ensures id in ExpiredIds(entries, contextPath, time) <==>
      exists k | k in entries :: entries[k].data.id == id && entries[k].data.contextPath == contextPath
        && 0 < entries[k].data.expiry <= time
  {
  }

  /** On a well-keyed cache the sweep removes exactly the due records whose
      removal does not fail, across all contexts and hosts, and keeps every
      other record as it was. */
  lemma SweptExactly(entries: map<string, Entry>, failing: set<string>, time: int)
    requires WellKeyed(entries)
    ensures forall k :: k in Swept(entries, failing, time) <==>
      k in entries && (!Due(entries[k].data, time) || k in failing)
  {
    var removed := RemovedKeys(entries, failing, time);
    forall k | k in entries
      ensures k in removed <==> Due(entries[k].data, time) && k !in failing
    {
      var row := RowOf(entries[k].data);
      if Due(entries[k].data, time) && k !in failing {
        assert row in OrphanRows(entries, time);
        assert RowKey(row) == k;
      }
      if k in removed {
        var r :| r in OrphanRows(entries, time) && RowKey(r) !in failing && RowKey(r) == k;
        var k' :| k' in entries && Due(entries[k'].data, time) && RowOf(entries[k'].data) == r;
        assert k' == k;
      }
    }
  }

  /** After a sweep at `time` in which no removal failed, the query finds no
      expired session in any context. */
  lemma NoExpiredAfterSweep(entries: map<string, Entry>, time: int, contextPath: string)
    requires WellKeyed(entries)
    ensures ExpiredIds(Swept(entries, {}, time), contextPath, time) == {}
  {
    SweptExactly(entries, {}, time);
  }

  class EmbeddedQueryManager {
    const cache: SessionCache

    constructor (cache: SessionCache)
      ensures this.cache == cache
    {
      this.cache := cache;
    }

    /** queryExpiredSessions: ids of this context's records that are due at
        `time`; a missing (null) context is rejected. */
    function QueryExpiredSessions(context: Option<SessionContext>, time: int): (r: Result<set<string>, QueryError>)
      reads cache
      ensures r.Failure? <==> context.None?
      ensures context.Some? ==> r == Success(ExpiredIds(cache.entries, context.value.canonicalContextPath, time))
    {
      if context.None? then Failure(NullContext)
      else Success(ExpiredIds(cache.entries, context.value.canonicalContextPath, time))
    }

    /** deleteOrphanSessions: removes, for every due row of any context and
        host, the key rebuilt from that row; a failing removal is skipped. */
    method DeleteOrphanSessions(time: int)
      modifies cache
      ensures cache.failing == old(cache.failing)
      ensures cache.entries == Swept(old(cache.entries), old(cache.failing), time)
      ensures WellKeyed(old(cache.entries)) ==> WellKeyed(cache.entries)
    {
      var rows := OrphanRows(cache.entries, time);
      var rest := rows;
      while rest != {}
        invariant rest <= rows
        invariant cache.failing == old(cache.failing)
        invariant cache.entries ==
          old(cache.entries) - (set r | r in rows - rest && RowKey(r) !in cache.failing :: RowKey(r))
        decreases rest
      {
        var row :| row in rest;
        var key := RowKey(row);
        ghost var before := set r | r in rows - rest && RowKey(r) !in cache.failing :: RowKey(r);
        if key !in cache.failing {
          cache.entries := cache.entries - {key};
        }
        rest := rest - {row};
        ghost var after := set r | r in rows - rest && RowKey(r) !in cache.failing :: RowKey(r);
        assert after == before + (if key in cache.failing then {} else {key});
      }
    }
  }

  /** The context filter compares the context path only: two contexts with
      the same path get the same ids, whatever their virtual hosts. */
  lemma ExpiredIdsIgnoreVhost(qm: EmbeddedQueryManager, c1: SessionContext, c2: SessionContext, time: int)
    requires c1.canonicalContextPath == c2.canonicalContextPath
    ensures qm.QueryExpiredSessions(Some(c1), time) == qm.QueryExpiredSessions(Some(c2), time)
  {
  }
}
