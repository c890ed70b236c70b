/** Shared vocabulary: optional values, the store's error kinds and i64 arithmetic. */
module Types {
  /** UUID text, or the reserved owner name "__root__" that no UUID can spell. */
  datatype Id = RootOwner | Uuid(n: nat)

  datatype Option<+T> = None | Some(value: T)

  datatype StoreError =
    | RateLimited
    | InvalidInput
    | Conflict
    | NotFound
    | Forbidden
    | QuotaExceeded
    | InvalidCredentials
    | PasswordHash
    | Database

  datatype Result<+T> = Ok(value: T) | Err(error: StoreError) {
    predicate IsFailure() {
      Err?
    }

    function PropagateFailure<U>(): Result<U>
      requires Err?
    {
      Err(error)
    }

    function Extract(): T
      requires Ok?
    {
      value
    }
  }

  const I64_MAX: int := 0x7fff_ffff_ffff_ffff
  const I64_MIN: int := -0x8000_0000_0000_0000

  predicate Fits(x: int) {
    I64_MIN <= x <= I64_MAX
  }

  /** Unchecked i64 subtraction of the source: callers must show that it cannot overflow. */
  function Minus(a: int, b: int): (r: int)
    requires Fits(a) && Fits(b) && Fits(a - b)
  {
    a - b
  }

  /** Unchecked i64 addition of the source: callers must show that it cannot overflow. */
  function Plus(a: int, b: int): (r: int)
    requires Fits(a) && Fits(b) && Fits(a + b)
  {
    a + b
  }

  /** i64::try_from of an unsigned value. */
  function Number(x: nat): (r: Result<nat>) {
    if x <= I64_MAX then Ok(x) else Err(InvalidInput)
  }

  /** i64::checked_add, reporting overflow as an exceeded quota. */
  function CheckedAdd(a: nat, b: nat): (r: Result<nat>) {
    if a + b <= I64_MAX then Ok(a + b) else Err(QuotaExceeded)
  }

  function ValueOr(o: Option<nat>, default: nat): (r: nat) {
    match o
    case Some(v) => v
    case None => default
  }

  function Min(a: nat, b: nat): (r: nat) {
    if a <= b then a else b
  }

  function Max(a: nat, b: nat): (r: nat) {
    if a <= b then b else a
  }
}
