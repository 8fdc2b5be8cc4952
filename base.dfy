/** The few Go runtime notions the service's code relies on: optional values,
    values-or-errors, the 64-bit integer type and the error values it returns. */
module Base {

  datatype Option<+T> = None | Some(value: T)

  /** A value or an error; usable with `:-`. */
  datatype Result<+T, +E> = Ok(value: T) | Err(error: E) {
    predicate IsFailure() { Err? }

    function PropagateFailure<U>(): Result<U, E>
      requires Err?
    {
      Err(error)
    }

    function Extract(): T
      requires Ok?
    {
      value
    }
  }

  const MinInt64: int := -0x8000_0000_0000_0000
  const MaxInt64: int := 0x7FFF_FFFF_FFFF_FFFF

  /** Go's `int64`; also Go's `int`, which is 64 bits wide on the targets the service is built for. */
  newtype int64 = x: int | -0x8000_0000_0000_0000 <= x <= 0x7FFF_FFFF_FFFF_FFFF

  /** The two reasons `strconv` gives for refusing a number. */
  datatype NumErrorKind = ErrSyntax | ErrRange

  /** The `error` values the service produces or passes along. */
  datatype Error =
    | Message(text: string)                                   // errors.New, a driver or decoder error
    | NumError(func: string, input: string, kind: NumErrorKind)  // *strconv.NumError
    | Fatal(text: string)                                     // log.Fatalf: the process exits
}
