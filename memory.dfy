/** The in-process provider (memory.go), backed by a go-cache client. */
module Memory {
  import opened Wrappers
  import opened Values
  import opened Backend
  import opened Providers
  import opened Stash

  /** The foreign go-cache client, recorded by the arguments it was built with. */
  datatype GoCacheClient = GoCacheClient(defaultExpiration: int, cleanupInterval: int)

  datatype MemoryStore = MemoryStore(client: GoCacheClient) {

    /** Validate: there is nothing to configure, so it always succeeds. */
    function Validate(): (err: Option<Error>)
      ensures err == None
    {
      None
    }

    /** Ping: there is no backend to reach, so it always succeeds. */
    function Ping(): (err: Option<Error>)
      ensures err == None
    {
      None
    }

    /** Driver: always the memory driver name. */
    function Driver(): (name: string)
      ensures name == MemoryDriver
    {
      MemoryDriver
    }

    /** This provider as Load sees it, given the store that its Store method builds. */
    function AsProvider(store: Store): (p: Provider)
      ensures p.validate == Validate() && p.ping == Ping() && p.driver == Driver()
      ensures p.store == store
    {
      Provider(Validate(), Ping(), Driver(), store)
    }
  }

  /** NewMemory: a provider over a go-cache client built from the two durations. */
  function NewMemory(defaultExpiration: int, cleanupInterval: int): (m: MemoryStore)
    ensures m.client.defaultExpiration == defaultExpiration
    ensures m.client.cleanupInterval == cleanupInterval
  {
    MemoryStore(GoCacheClient(defaultExpiration, cleanupInterval))
  }

  /** A memory provider always passes Validate and Ping, so Load always yields a cache over its store. */
  lemma MemoryAlwaysLoads(defaultExpiration: int, cleanupInterval: int, store: Store)
    ensures Load(Some(NewMemory(defaultExpiration, cleanupInterval).AsProvider(store))) ==
      Loading(Success(Cache(store, MemoryDriver)), FullLoad)
  {
  }
}
