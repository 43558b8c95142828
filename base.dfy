/** Option, Result and the error kinds the filters report, plus Go's 64-bit `int`. */
module Base {

  /** A Go pointer field: `None` is nil. */
  datatype Option<T> = None | Some(value: T) {
    function GetOr(default: T): T {
      match this
      case Some(v) => v
      case None => default
    }
  }

  /** The errors the filters return; each one is a distinct message in the Go source. */
  datatype Error =
    | UnsupportedFormat                   // "unsupported format when unmarshalling json"
    | LayoutsNotSpecified                 // "layouts are not specified for unmarshal json"
    | MarshalLayoutNotSpecified(field: string)  // "<field> is not specified for marshal json"

  datatype Result<T> = Ok(value: T) | Err(error: Error)

  const MinInt64: int := -0x8000_0000_0000_0000
  const MaxInt64: int := 0x7fff_ffff_ffff_ffff

  /** Go's `int` on a 64-bit platform. */
  type Int64 = x: int | MinInt64 <= x <= MaxInt64

  predicate IsInt64(x: int) {
    MinInt64 <= x <= MaxInt64
  }

  /** Two's-complement wrap-around of Go's `int` arithmetic. */
  function Wrap64(x: int): (r: Int64)
    ensures IsInt64(x) ==> r == x
    ensures (x - r) % 0x1_0000_0000_0000_0000 == 0
  {
    var m := (x - MinInt64) % 0x1_0000_0000_0000_0000;
    m + MinInt64
  }
}
