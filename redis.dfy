/** The Redis provider (redis.go), backed by a go-redis client. */
module Redis {
  import opened Wrappers
  import opened Values
  import opened Backend
  import opened Providers
  import opened Stash

  /** The connection options of go-redis that a caller fills in most often. */
  datatype RedisOptions = RedisOptions(network: string, addr: string, username: string, password: string, db: int)

  /** The foreign go-redis client, recorded by the options it was built from. */
  datatype RedisClient = RedisClient(options: RedisOptions)

  /**
   * What the foreign client constructor gives back: the client, and the
   * options as it leaves them, since it is handed a pointer to them and may
   * fill in defaults.
   */
  datatype ClientBuild = ClientBuild(client: RedisClient, options: RedisOptions)

  /** The error Validate returns when no address is configured. */
  const NoAddress := Error("error: no redis address defined")

  datatype RedisStore = RedisStore(client: RedisClient, options: RedisOptions, defaultExpiration: int) {

    /** Validate: fails, with NoAddress, exactly when no address is configured. */
    function Validate(): (err: Option<Error>)
      ensures err.Some? <==> options.addr == ""
      ensures err.Some? ==> err.value == NoAddress
    {
      if options.addr == "" then Some(NoAddress) else None
    }

    /** Driver: always the redis driver name. */
    function Driver(): (name: string)
      ensures name == RedisDriver
    {
      RedisDriver
    }

    /**
     * This provider as Load sees it. Ping is a network round trip and Store
     * builds foreign objects, so both outcomes are given.
     */
    function AsProvider(ping: Option<Error>, store: Store): (p: Provider)
      ensures p.validate == Validate() && p.driver == Driver()
      ensures p.ping == ping && p.store == store
    {
      Provider(Validate(), ping, Driver(), store)
    }
  }

  /**
   * NewRedis: the client is built by the foreign constructor `newClient` from
   * a pointer to the options, and the provider keeps the options as the
   * constructor leaves them, with the default expiration it is given.
   */
  function NewRedis(options: RedisOptions, defaultExpiration: int,
                    newClient: RedisOptions -> ClientBuild): (r: RedisStore)
    ensures r.client == newClient(options).client
    ensures r.options == newClient(options).options
    ensures r.defaultExpiration == defaultExpiration
  {
    var built := newClient(options);
    RedisStore(built.client, built.options, defaultExpiration)
  }

  /** A client constructor that leaves its options alone makes NewRedis keep them unchanged. */
  lemma NewRedisKeepsOptions(options: RedisOptions, defaultExpiration: int,
                             newClient: RedisOptions -> ClientBuild)
    requires newClient(options).options == options
    ensures NewRedis(options, defaultExpiration, newClient).options == options
    ensures NewRedis(options, defaultExpiration, newClient).Validate().Some? <==> options.addr == ""
  {
  }

  /**
   * When the client constructor fills in an empty address, the provider's
   * Validate can no longer fail, whatever address the caller gave.
   */
  lemma DefaultedAddressPassesValidate(options: RedisOptions, defaultExpiration: int,
                                       newClient: RedisOptions -> ClientBuild)
    requires newClient(options).options.addr != ""
    ensures NewRedis(options, defaultExpiration, newClient).Validate() == None
  {
  }

  /** Validate looks at the address only: password, user, database and the rest do not matter. */
  lemma ValidateReadsOnlyAddr(a: RedisStore, b: RedisStore)
    requires a.options.addr == b.options.addr
    ensures a.Validate() == b.Validate()
  {
  }

  /** Without an address, Load stops at Validate with NoAddress and never pings the server. */
  lemma NoAddressNeverPings(r: RedisStore, ping: Option<Error>, store: Store)
    requires r.options.addr == ""
    ensures Load(Some(r.AsProvider(ping, store))) == Loading(Failure(NoAddress), [CallValidate])
  {
  }

  /** With an address, Load yields a redis cache over the store exactly when the ping succeeds. */
  lemma LoadsWhenReachable(r: RedisStore, ping: Option<Error>, store: Store)
    requires r.options.addr != ""
    ensures Load(Some(r.AsProvider(ping, store))).result ==
      if ping.None? then Success(Cache(store, RedisDriver)) else Failure(ping.value)
  {
  }
}
