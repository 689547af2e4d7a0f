/**
 The values exchanged by the clustered session store: the session record kept in
 the cache (InfinispanSessionData), the deployment context a store serves, and the
 error outcomes of store operations.
 */
module Sessions {

  datatype Option<+T> = None | Some(value: T)

  datatype Result<+T, +E> = Success(value: T) | Failure(error: E)

  datatype Outcome<+E> = Pass | Fail(error: E)

  /** The deployment a store serves: its canonical context path, its virtual
      host and the name of this cluster node (the worker name). */
  datatype SessionContext = SessionContext(canonicalContextPath: string, vhost: string, workerName: string)

  /** A session record. `expiry` is an absolute time in milliseconds, 0 meaning
      "never expires"; `lastNode` is the worker that last wrote the record, its
      advisory owner for expiry. `deserialized` tells whether `attributes` are
      live values or still the serialized payload a remote cache hands back. */
  datatype SessionData = SessionData(
    id: string,
    contextPath: string,
    vhost: string,
    created: int,
    accessed: int,
    lastAccessed: int,
    maxInactiveMs: int,
    expiry: int,
    lastNode: string,
    attributes: map<string, string>,
    deserialized: bool)

  /** Errors a store operation reports instead of a value. */
  datatype StoreError =
    | NoCache                                            // start without a cache
    | Unreadable(id: string, context: SessionContext)    // a load that failed
    | CacheFailure(key: string)                          // a put or remove that failed

  /** Due for expiry at `time`: a deadline is set and it has passed. */
  predicate Due(sd: SessionData, time: int)
  {
    0 < sd.expiry <= time
  }

  /** The attribute payload turned into live values; a no-op once done. */
  function DeserializeAttributes(sd: SessionData): (r: SessionData)
    ensures r.deserialized
    ensures r.(deserialized := sd.deserialized) == sd
  {
    sd.(deserialized := true)
  }

  lemma DeserializeIdempotent(sd: SessionData)
    ensures DeserializeAttributes(DeserializeAttributes(sd)) == DeserializeAttributes(sd)
    ensures sd.deserialized ==> DeserializeAttributes(sd) == sd
  {
  }
}
