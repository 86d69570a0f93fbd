/** Small value types shared by the simulator oracle and the fast-reset wrapper:
    optional and fallible results, positions, and Python's `int()` on a float. */
module Base {

  datatype Option<+T> = None | Some(value: T) {
    /** The wrapped value, or `default` when there is none. */
    function GetOr(default: T): T {
      match this
      case Some(v) => v
      case None => default
    }
  }

  datatype Result<+T, +E> = Success(value: T) | Failure(error: E)

  /** A position dictionary `{"x": .., "y": .., "z": ..}` of the wrapper. */
  datatype Pos = Pos(x: real, y: real, z: real)

  /** Python's `int(f)` on a float: truncation toward zero. */
  function Truncate(f: real): (r: int)
    ensures 0.0 <= f ==> 0 <= r && r as real <= f < r as real + 1.0
    ensures f < 0.0 ==> r <= 0 && r as real - 1.0 < f <= r as real
  {
    if f >= 0.0 then f.Floor else -((-f).Floor)
  }
}
