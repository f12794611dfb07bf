/** Shared vocabulary: optional values, the exceptions the services throw,
    and the decimal rendering of numbers used inside their messages. */
module Common {

  datatype Option<T> = None | Some(value: T) {
    function GetOr(default: T): T {
      match this
      case Some(v) => v
      case None => default
    }
  }

  /** The exceptions the modelled code raises: `RuntimeException` with its
      message, `IllegalArgumentException` with its message, the
      `NullPointerException` of a `switch` over a null enum value, and the
      repository's refusal to store a row that breaks a unique column. */
  datatype Error =
    | RuntimeError(message: string)
    | IllegalArgument(message: string)
    | NullPointer
    | DataIntegrityViolation

  datatype Result<T> = Ok(value: T) | Err(error: Error)

  function DigitChar(d: nat): (c: char)
    requires d < 10
    ensures '0' <= c <= '9'
  {
    "0123456789"[d]
  }

  /** Decimal text of a natural number, as Java's string concatenation prints it. */
  function NatToString(n: nat): (s: string)
    ensures |s| >= 1
    ensures forall i :: 0 <= i < |s| ==> '0' <= s[i] <= '9'
  {
    if n < 10 then [DigitChar(n)] else NatToString(n / 10) + [DigitChar(n % 10)]
  }

  /** Decimal text of an integer, with a leading '-' when negative. */
  function IntToString(i: int): (s: string)
    ensures |s| >= 1
    ensures (i < 0) == (s[0] == '-')
  {
    if i < 0 then "-" + NatToString(-i) else NatToString(i)
  }

  function Max(a: int, b: int): (m: int)
    ensures m >= a && m >= b && (m == a || m == b)
  {
    if a >= b then a else b
  }

  function Abs(a: int): (m: int)
    ensures m >= 0 && (m == a || m == -a)
  {
    if a >= 0 then a else -a
  }
}
