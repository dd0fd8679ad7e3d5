/** Error values returned by the fallible operations: a one-byte code and an
    optional human-readable message (`nx::outcome::Error`). */
module Errors {

  /** `std::uint8_t`, the type every error code is stored in. */
  type uint8 = x: int | 0 <= x < 256

  /** An error. `message` is empty when no message was given; a `code` of 0
      means "no error". Both parts are fixed at construction. */
  datatype Error = Error(message: string, code: uint8) {

    /** The stored text; it is empty exactly when no message was given. */
    function GetMessage(): (m: string)
      ensures m == "" <==> !HasMessage()
    {
      message
    }

    /** A message is present exactly when the error differs from the
        code-only one with the same code. */
    predicate HasMessage(): (h: bool)
      ensures h <==> this != Error("", code)
    {
      |message| != 0
    }

    /** The raw stored code; `GetCode<E>()` reinterprets this byte as the
        enumeration `E`, whose values are given by each enumeration's `Code()`.
        The message and the code together rebuild the error. */
    function GetCode(): (c: uint8)
      ensures Error(GetMessage(), c) == this
    {
      code
    }

    /** "Ok" is code 0, whatever the message. */
    predicate IsOk(): (ok: bool)
      ensures ok <==> this == Error(message, 0)
    {
      code == 0
    }
  }

  /** The conversion `static_cast<std::uint8_t>` applied by both `CreateError`
      overloads: the value modulo 2^8. */
  function Narrow(value: int): (b: uint8)
    ensures 0 <= value < 256 ==> b == value
    ensures (value - b) % 256 == 0
  {
    value % 256
  }

  /** The code-only constructor `Error(code)`: the message stays empty. */
  function FromCode(code: uint8): (e: Error)
    ensures !e.HasMessage() && e.GetMessage() == ""
    ensures e.GetCode() == code
    ensures e.IsOk() <==> code == 0
  {
    Error("", code)
  }

  /** `CreateError(code)`: an error with no message whose code is the
      enumeration value narrowed to one byte. */
  function CreateError(code: int): (e: Error)
    ensures !e.HasMessage()
    ensures e.GetCode() == Narrow(code)
    ensures 0 <= code < 256 ==> e.GetCode() == code
    ensures e.IsOk() <==> code % 256 == 0
  {
    FromCode(Narrow(code))
  }

  /** `CreateError(message, code)`: both parts are kept, the code narrowed. */
  function CreateErrorWithMessage(message: string, code: int): (e: Error)
    ensures e.GetMessage() == message
    ensures e.HasMessage() <==> message != ""
    ensures e.GetCode() == Narrow(code)
    ensures 0 <= code < 256 ==> e.GetCode() == code
    ensures e.IsOk() <==> code % 256 == 0
  {
    Error(message, Narrow(code))
  }

  /** Creating an error from an enumeration value that fits in a byte and
      reading the code back gives that value again; two such codes give equal
      errors only when they are equal. */
  lemma CreateErrorRoundTrip(code: int, other: int)
    requires 0 <= code < 256 && 0 <= other < 256
    ensures CreateError(code).GetCode() == code
    ensures CreateError(code) == CreateError(other) <==> code == other
  {
    assert CreateError(code).GetCode() == code;
    assert CreateError(other).GetCode() == other;
  }

  /** A message that is the empty string counts as no message. */
  lemma EmptyMessageIsNoMessage(code: uint8)
    ensures !Error("", code).HasMessage()
    ensures Error("", code) == FromCode(code)
  {
  }
}
