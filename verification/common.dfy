/** Small vocabulary shared by every module: optional values, handler
    results, and the handful of JavaScript number operations the dairy ERP
    relies on (Math.round, Math.ceil of a page count, `x || 0`). Money,
    litres and percentages are exact reals. */
module Common {

  /** An optional value. A JavaScript `parseFloat` that yields NaN, a
      missing request field or a SQL NULL is `None`. */
  datatype Option<+T> = None | Some(value: T) {
    function GetOr(default: T): T {
      match this
      case Some(v) => v
      case None => default
    }
  }

  /** The outcome of a request handler: a value, or the error response it sends. */
  datatype Result<+T, +E> = Ok(value: T) | Err(error: E)

  /** A handler that changes stored state: the state afterwards and the response sent. */
  datatype Step<+S, +T, +E> = Step(state: S, response: Result<T, E>)

  /** `parseFloat(x) || 0`: an unparsable value (NaN) and zero both collapse to zero. */
  function OrZero(x: Option<real>): (r: real)
    ensures x.None? ==> r == 0.0
    ensures x.Some? ==> r == x.value
  {
    x.GetOr(0.0)
  }

  /** `x || d` on a stored number: zero is falsy, so it is replaced by `d`. */
  function OrIfZero(x: real, d: real): (r: real)
    ensures x != 0.0 ==> r == x
    ensures x == 0.0 ==> r == d
  {
    if x == 0.0 then d else x
  }

  /** JavaScript `Math.round`: round half up (towards positive infinity). */
  function Round(x: real): (r: real)
    ensures r == r.Floor as real
    ensures x - 0.5 < r <= x + 0.5
  {
    (x + 0.5).Floor as real
  }

  /** `Math.ceil(n / size)` for a list length and a positive page size. */
  function CeilDiv(n: nat, size: nat): (r: nat)
    requires size > 0
    ensures r * size >= n
    ensures r == 0 || (r - 1) * size < n
  {
    (n + size - 1) / size
  }

  function Min(a: int, b: int): int {
    if a <= b then a else b
  }

  function Max(a: int, b: int): int {
    if a >= b then a else b
  }

  function MaxReal(a: real, b: real): real {
    if a >= b then a else b
  }
}
