/** pkg/cache/cache.go: the errors and the stored values shared by every Cache implementation. */
module CacheTypes {
  /** The package's sentinel errors, and the formatted errors of the implementations. */
  datatype CacheError =
    | ErrKeyNotFound       // "key not found"
    | ErrInvalidType       // "invalid type"
    | ErrInvalidKey        // "invalid key"
    | ErrInvalidContext    // "invalid context"
    | Failure(message: string)

  /** Go's int64, and its int on a 64-bit platform. */
  newtype int64 = x: int | -0x8000_0000_0000_0000 <= x < 0x8000_0000_0000_0000

  /**
   * A stored interface{} value: a string, a Go int, an int64, or any other value,
   * kept with the text fmt's %v prints for it.
   */
  datatype Value = Str(s: string) | GoInt(i: int64) | Int64(i: int64) | Other(repr: string)

  /** The text of an error, as err.Error() gives it. */
  function Message(e: CacheError): string {
    match e
      case ErrKeyNotFound => "key not found"
      case ErrInvalidType => "invalid type"
      case ErrInvalidKey => "invalid key"
      case ErrInvalidContext => "invalid context"
      case Failure(m) => m
  }
}
