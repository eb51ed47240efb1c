/** The Go values the facade passes around without interpreting them. */
module Values {

  newtype byte = b: int | 0 <= b < 256

  /** A Go `error`; two errors are the same when they carry the same message. */
  datatype Error = Error(message: string)

  /**
   * A Go `interface{}` value, classified by its dynamic type as far as the
   * facade looks at it: nil, a `[]byte`, a `string` (a Go string is an
   * immutable sequence of bytes) or a value of any other dynamic type.
   */
  datatype Any =
    | Nil
    | Bytes(bytes: seq<byte>)
    | Text(text: seq<byte>)
    | Other(typeName: string, id: int)
}
