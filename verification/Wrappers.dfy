/** Shared result types and the error values that flow through the service. */
module Wrappers {
  datatype Option<+T> = None | Some(value: T)

  datatype Result<+T> = Ok(value: T) | Fail(error: Err)

  /** Errors as the Go code sees them. `Wrapped` is one `fmt.Errorf("...%w", err)` layer. */
  datatype Err =
    | InvalidAmount
    | SameAccountTransfer
    | CurrencyMismatch
    | InsufficientFunds
    | NoRows
    | BalanceMismatch
    | Sql(state: string)
    | Driver
    | Cancelled
    | Wrapped(inner: Err)

  const NUMERIC_OVERFLOW: Err := Sql("22003")
  const FOREIGN_KEY_VIOLATION: Err := Sql("23503")
  const CHECK_VIOLATION: Err := Sql("23514")

  /** errors.As(err, *pq.Error) with code 40001, looking through every wrapping layer. */
  predicate IsSerializationError(e: Err) {
    match e
    case Sql(state) => state == "40001"
    case Wrapped(inner) => IsSerializationError(inner)
    case _ => false
  }

  /** errors.Is(err, target). */
  predicate Is(e: Err, target: Err) {
    e == target || (e.Wrapped? && Is(e.inner, target))
  }

  /** `n` layers of fmt.Errorf around an error. */
  function Wraps(n: nat, e: Err): Err {
    if n == 0 then e else Wrapped(Wraps(n - 1, e))
  }

  lemma {:induction false} WrapsAreSeenThrough(n: nat, state: string)
    ensures IsSerializationError(Wraps(n, Sql(state))) <==> state == "40001"
  {
    if n > 0 {
      WrapsAreSeenThrough(n - 1, state);
    }
  }

  lemma {:induction false} UnwrapSerializationError(e: Err) returns (n: nat)
    requires IsSerializationError(e)
    ensures e == Wraps(n, Sql("40001"))
  {
    n := 0;
    if e.Wrapped? {
      n := UnwrapSerializationError(e.inner);
      n := n + 1;
    }
  }

  /** Retried are the errors of SQLSTATE 40001, under any number of layers, and no others. */
  lemma {:induction false} SerializationErrorsExactly(e: Err)
    ensures IsSerializationError(e) <==> exists n: nat :: e == Wraps(n, Sql("40001"))
  {
    if IsSerializationError(e) {
      var n := UnwrapSerializationError(e);
    }
    if n: nat :| e == Wraps(n, Sql("40001")) {
      WrapsAreSeenThrough(n, "40001");
    }
  }

  lemma {:induction false} WrapsAreIs(n: nat, target: Err)
    ensures Is(Wraps(n, target), target)
  {
    if n > 0 {
      WrapsAreIs(n - 1, target);
    }
  }

  lemma {:induction false} UnwrapIs(e: Err, target: Err) returns (n: nat)
    requires Is(e, target)
    ensures e == Wraps(n, target)
  {
    n := 0;
    if e != target {
      n := UnwrapIs(e.inner, target);
      n := n + 1;
    }
  }

  /** errors.Is finds its target under any number of layers, and nothing else. */
  lemma {:induction false} IsExactly(e: Err, target: Err)
    ensures Is(e, target) <==> exists n: nat :: e == Wraps(n, target)
  {
    if Is(e, target) {
      var n := UnwrapIs(e, target);
    }
    if n: nat :| e == Wraps(n, target) {
      WrapsAreIs(n, target);
    }
  }
}
