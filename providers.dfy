/** The Provider interface (providers.go), as the answers its four methods give. */
module Providers {
  import opened Wrappers
  import opened Values
  import opened Backend

  /**
   * A provider as Load sees it: what Validate, Ping and Driver return and the
   * store that Store builds. The three concrete providers map into this
   * record; so does any other implementation of the interface.
   */
  datatype Provider = Provider(validate: Option<Error>, ping: Option<Error>, driver: string, store: Store)

  /** A call of one of the provider's methods. */
  datatype ProviderCall = CallValidate | CallPing | CallStore | CallDriver
}
