/** A value-or-error result (`nx::outcome::Outcome<T, E>`): a two-way variant
    holding either a value of type `T` or an error of type `E`. */
module Outcomes {

  /** The variant `std::variant<T, E>`; exactly one alternative is held. Build
      one with `Ok` or `Err`. */
  datatype Outcome<T, E> = HoldsValue(value: T) | HoldsError(error: E) {

    /** Whether the value alternative is held, i.e. no error is. */
    predicate IsOk(): (ok: bool)
      ensures ok <==> !HoldsError?
    {
      HoldsValue?
    }

    /** Whether the error alternative is held, i.e. no value is. */
    predicate IsError(): (err: bool)
      ensures err <==> !HoldsValue?
    {
      HoldsError?
    }

    /** The held value; reading the value of an error outcome is an
        assertion failure. */
    function GetValue(): (v: T)
      requires IsOk()
      ensures this == HoldsValue(v)
    {
      value
    }

    /** The held error; reading the error of a successful outcome is an
        assertion failure. */
    function GetError(): (e: E)
      requires IsError()
      ensures this == HoldsError(e)
    {
      error
    }
  }

  /** `Ok(value)`: a successful outcome that hands back `value`. */
  function Ok<T, E>(value: T): (o: Outcome<T, E>)
    ensures o.IsOk() && !o.IsError()
    ensures o.GetValue() == value
  {
    HoldsValue(value)
  }

  /** `Err(error)`: a failed outcome that hands back `error`. */
  function Err<T, E>(error: E): (o: Outcome<T, E>)
    ensures o.IsError() && !o.IsOk()
    ensures o.GetError() == error
  {
    HoldsError(error)
  }

  /** Every outcome satisfies exactly one of `IsOk` and `IsError`. */
  lemma ExactlyOneAlternative<T, E>(o: Outcome<T, E>)
    ensures o.IsOk() != o.IsError()
  {
  }

  /** Every outcome is the one `Ok` or `Err` builds from what it holds, so the
      queries and accessors lose nothing. */
  lemma RebuiltFromParts<T, E>(o: Outcome<T, E>)
    ensures o.IsOk() ==> o == Ok(o.GetValue())
    ensures o.IsError() ==> o == Err(o.GetError())
  {
  }
}
