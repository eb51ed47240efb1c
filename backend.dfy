/**
 * The store capability the facade wraps (the store library's StoreInterface).
 * Its behaviour lives in foreign libraries and services, so the model keeps
 * only what the facade can observe: the calls it receives, in order, and the
 * answer it gives to each.
 */
module Backend {
  import opened Wrappers
  import opened Values
  import opened CallOptions

  /** One call the facade makes on the store (the context argument is not modelled). */
  datatype StoreCall =
    | StoreGet(key: Any)
    | StoreSet(key: Any, value: Any, options: StoreOptions)
    | StoreDelete(key: Any)
    | StoreInvalidate(invalidate: StoreInvalidateOptions)
    | StoreClear

  /**
   * The store's answer to a call: the result of a Get (ignored for the other
   * calls) and the error it returns.
   */
  datatype Reply = Reply(result: Any, err: Option<Error>)

  class Store {
    /** Every call made on this store so far, oldest first. */
    var calls: seq<StoreCall>

    /**
     * The unseen backend: its answer to a call, given every call made before
     * it. Since each call has its own history, any sequence of answers fits.
     */
    const respond: (seq<StoreCall>, StoreCall) -> Reply

    constructor (respond: (seq<StoreCall>, StoreCall) -> Reply)
      ensures calls == [] && this.respond == respond
    {
      calls := [];
      this.respond := respond;
    }

    /** Sends one call to the backend and records it. */
    method Call(c: StoreCall) returns (r: Reply)
      modifies this
      ensures calls == old(calls) + [c]
      ensures r == respond(old(calls), c)
    {
      r := respond(calls, c);
      calls := calls + [c];
    }
  }
}
