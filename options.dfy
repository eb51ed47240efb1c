/** Per-call options and their conversion to the store's own option records (options.go). */
module CallOptions {

  /** The options a caller passes to Set; `expiration` is a time.Duration in nanoseconds. */
  datatype Options = Options(expiration: int, tags: seq<string>) {

    /** Options.toStore: the store's options record, built field for field. */
    function ToStore(): (s: StoreOptions)
      ensures s.expiration == expiration
      ensures s.tags == tags
    {
      StoreOptions(expiration, tags)
    }
  }

  /** The options a caller passes to Invalidate. */
  datatype InvalidateOptions = InvalidateOptions(tags: seq<string>) {

    /** InvalidateOptions.toStore: the store's invalidation record. */
    function ToStore(): (s: StoreInvalidateOptions)
      ensures s.tags == tags
    {
      StoreInvalidateOptions(tags)
    }
  }

  /** The store library's `Options` record, as far as the facade fills it in. */
  datatype StoreOptions = StoreOptions(expiration: int, tags: seq<string>)

  /** The store library's `InvalidateOptions` record. */
  datatype StoreInvalidateOptions = StoreInvalidateOptions(tags: seq<string>)

  /** The zero values a caller gets from `Options{}` and `InvalidateOptions{}`. */
  const ZeroOptions := Options(0, [])
  const ZeroInvalidateOptions := InvalidateOptions([])

  /** Zero-value options map to zero-value store options. */
  lemma ZeroOptionsToZero()
    ensures ZeroOptions.ToStore() == StoreOptions(0, [])
    ensures ZeroInvalidateOptions.ToStore() == StoreInvalidateOptions([])
  {
  }

  /** Options.toStore loses nothing: two options agree exactly when their store forms agree. */
  lemma ToStoreLossless(a: Options, b: Options)
    ensures a.ToStore() == b.ToStore() <==> a == b
  {
  }

  /** InvalidateOptions.toStore loses nothing either. */
  lemma InvalidateToStoreLossless(a: InvalidateOptions, b: InvalidateOptions)
    ensures a.ToStore() == b.ToStore() <==> a == b
  {
  }
}
