/**
 The backing Infinispan cache, seen through its key-value contract. The store and
 the embedded query manager each hold a cache object; when they are configured
 with the same one, a sweep run by the query manager changes what the store sees.
 */
module Cache {
  import opened Sessions

  /** A stored session together with the idle time-to-live (seconds) its put
      asked for; `None` is a put without a time-to-live. */
  datatype Entry = Entry(data: SessionData, maxIdleSec: Option<int>)

  class SessionCache {
    /** The cache is a Hot Rod RemoteCache (network-attached). */
    const isRemote: bool
    var entries: map<string, Entry>
    /** Keys on which the cache throws: a get, put or remove of such a key
        fails, and so does deserializing what a get of it returns. */
    var failing: set<string>

    constructor (isRemote: bool, entries: map<string, Entry>, failing: set<string>)
      ensures this.isRemote == isRemote && this.entries == entries && this.failing == failing
    {
      this.isRemote := isRemote;
      this.entries := entries;
      this.failing := failing;
    }
  }
}
