/** The Memcached provider (memcache.go), backed by a gomemcache client. */
module Memcache {
  import opened Wrappers
  import opened Values
  import opened Backend
  import opened Providers
  import opened Stash

  /** The foreign gomemcache client, recorded by the servers it was built with. */
  datatype MemcacheClient = MemcacheClient(servers: seq<string>)

  /** The error Validate returns when no server is configured. */
  const NoHosts := Error("no memcache hosts defined in env")

  datatype MemcacheStore = MemcacheStore(client: MemcacheClient, servers: seq<string>, defaultExpiration: int) {

    /** Validate: fails, with NoHosts, exactly when the server list is empty. */
    function Validate(): (err: Option<Error>)
      ensures err.Some? <==> |servers| == 0
      ensures err.Some? ==> err.value == NoHosts
    {
      if |servers| == 0 then Some(NoHosts) else None
    }

    /** Driver: always the memcache driver name. */
    function Driver(): (name: string)
      ensures name == MemcacheDriver
    {
      MemcacheDriver
    }

    /**
     * This provider as Load sees it. Ping asks the servers and Store builds
     * foreign objects, so both outcomes are given.
     */
    function AsProvider(ping: Option<Error>, store: Store): (p: Provider)
      ensures p.validate == Validate() && p.driver == Driver()
      ensures p.ping == ping && p.store == store
    {
      Provider(Validate(), ping, Driver(), store)
    }
  }

  /** NewMemcache: a provider keeping the server list (same hosts, same order) and default expiration. */
  function NewMemcache(servers: seq<string>, defaultExpiration: int): (m: MemcacheStore)
    ensures m.servers == servers && m.defaultExpiration == defaultExpiration
    ensures m.client.servers == servers
  {
    MemcacheStore(MemcacheClient(servers), servers, defaultExpiration)
  }

  /** Validate depends on the server list only, and not on which hosts are in it. */
  lemma ValidateReadsOnlyServerCount(a: MemcacheStore, b: MemcacheStore)
    requires |a.servers| == |b.servers|
    ensures a.Validate() == b.Validate()
  {
  }

  /** Without servers, Load stops at Validate with NoHosts and never pings. */
  lemma NoHostsNeverPings(m: MemcacheStore, ping: Option<Error>, store: Store)
    requires |m.servers| == 0
    ensures Load(Some(m.AsProvider(ping, store))) == Loading(Failure(NoHosts), [CallValidate])
  {
  }

  /** With servers, Load yields a memcache cache over the store exactly when the ping succeeds. */
  lemma LoadsWhenReachable(m: MemcacheStore, ping: Option<Error>, store: Store)
    requires |m.servers| > 0
    ensures Load(Some(m.AsProvider(ping, store))).result ==
      if ping.None? then Success(Cache(store, MemcacheDriver)) else Failure(ping.value)
  {
  }
}
