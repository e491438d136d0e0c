/**
  Values shared by the dispatch hook and the connection pool: byte payloads,
  Go's "value or nil" as an Option, and Go `error` values as far as the core
  inspects them.
 */
module Types {

  /** One octet of a payload (Go's `byte`). */
  newtype byte = b: int | 0 <= b < 256

  /** A Go `[]byte` payload. */
  type Bytes = seq<byte>

  /** A value that may be absent; `None` stands for Go's `nil`. */
  datatype Option<+T> = None | Some(value: T)

  /**
    How an error answers the type assertion `err.(net.Error)`: either it is
    no network error, or it is one and reports `Temporary()` and `Timeout()`.
   */
  datatype NetClass = NotNetError | NetError(temporary: bool, timeout: bool)

  /** A Go `error` value: its message and its network classification. */
  datatype Error = Error(message: string, kind: NetClass)

  /**
    The bytes of a string literal. For ASCII text, the only text the model
    encodes, these are its UTF-8 bytes, one per character, as Go's
    `[]byte("...")` gives them.
   */
  function BytesOf(s: string): (bytes: Bytes)
  {
    seq(|s|, i requires 0 <= i < |s| => (s[i] as int % 256) as byte)
  }
}
