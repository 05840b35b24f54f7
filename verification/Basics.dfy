/** Small datatypes shared by every module of the model. */
module Basics {
  datatype Option<+T> = None | Some(value: T)

  /** The outcome of an operation that either returns or aborts the daemon
      (a failed `ASSERT` or a call of `panic`). */
  datatype Result<+T> = Ok(value: T) | Panic(fault: Fault)

  datatype Fault =
    | CondArgNotInt      // an ifXX argument names a variable that is not an integer
    | MissingArg         // an ifXX function was written with too few arguments
    | NoSuchFunction     // unknown template function
    | CondStackEmpty     // else or endif without an open if
    | NotPrintable       // a variable that is neither a string nor an integer is printed
    | NotAnArray         // foreach over something that is not an array
    | TooManyScopes      // a loop inside more loops than there is room for
    | BadLoopItem        // a foreach item that is neither a name-value list nor a string
    | BadStageInput      // a pipeline stage was given a value of the wrong type
    | BadCommandArg      // a post command with a missing or a forbidden argument

  function Last<T>(s: seq<T>): T
    requires s != []
  {
    s[|s| - 1]
  }

  function DropLast<T>(s: seq<T>): seq<T>
    requires s != []
  {
    s[..|s| - 1]
  }

  /** printf's %d / %u / PRIu64 for a non-negative number. */
  function Decimal(n: nat): string
  {
    if n < 10 then [DIGITS[n]] else Decimal(n / 10) + [DIGITS[n % 10]]
  }

  const DIGITS: string := "0123456789"

  predicate IsDigit(c: char)
  {
    '0' <= c <= '9'
  }

  /** The number a string of digits stands for. */
  function Value(s: string): int
  {
    if s == "" then 0 else 10 * Value(DropLast(s)) + (Last(s) as int - '0' as int)
  }

  /** Printing a number loses nothing. */
  lemma {:induction false} DecimalValue(n: nat)
    ensures Value(Decimal(n)) == n && Decimal(n) != ""
    ensures forall i :: 0 <= i < |Decimal(n)| ==> IsDigit(Decimal(n)[i])
  {
    if n < 10 {
      assert DropLast(Decimal(n)) == "";
    } else {
      DecimalValue(n / 10);
      assert DropLast(Decimal(n)) == Decimal(n / 10);
    }
  }

  function Min(a: int, b: int): int
  {
    if a < b then a else b
  }

  function Max(a: int, b: int): int
  {
    if a > b then a else b
  }
}
