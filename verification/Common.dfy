/** Values shared by every module: optional values, results, bytes. */
module Common {

  datatype Option<+T> = None | Some(value: T) {
    function GetOr(default: T): T {
      if Some? then value else default
    }
  }

  datatype Result<+T, +E> = Ok(value: T) | Err(error: E)

  type byte = b: int | 0 <= b < 256

  function Min(a: int, b: int): int {
    if a < b then a else b
  }
}
