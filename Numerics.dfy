/** The few pieces of C# number semantics the model needs: the unsigned byte,
    its unchecked narrowing conversion, and integer division that truncates
    toward zero (Dafny's own `/` is Euclidean). */
module Numerics {

  /** C#'s `byte`. */
  newtype byte = b: int | 0 <= b < 256

  datatype Option<+T> = None | Some(value: T)

  /** The unchecked conversion `(byte)n`: keeps the low eight bits of `n`. */
  function ToByte(n: int): (b: byte)
    ensures 0 <= n < 256 ==> b as int == n
    ensures (n - b as int) % 256 == 0
  {
    (n % 256) as byte
  }

  /** C#'s `a / b` on `int` for a positive divisor: the quotient is rounded
      toward zero, so a negative dividend rounds up rather than down. */
  function TruncDiv(a: int, b: int): (q: int)
    requires b > 0
    ensures a >= 0 ==> 0 <= q * b <= a
    ensures a < 0 ==> a <= q * b <= 0
  {
    if a >= 0 then
      DivBelow(a, b);
      a / b
    else
      DivBelow(-a, b);
      -((-a) / b)
  }

  /** Euclidean division of a natural number rounds down. */
  lemma DivBelow(a: int, b: int)
    requires a >= 0 && b > 0
    ensures 0 <= (a / b) * b <= a
  {
    assert a == (a / b) * b + a % b;
  }

  /** The quotient rounds toward zero: down for a non-negative dividend, up
      for a negative one. */
  lemma TruncDivBounds(a: int, b: int)
    requires b > 0
    ensures a >= 0 ==> TruncDiv(a, b) * b <= a < (TruncDiv(a, b) + 1) * b
    ensures a < 0 ==> (TruncDiv(a, b) - 1) * b < a <= TruncDiv(a, b) * b
  {
  }

  /** For a non-negative dividend truncation and Euclidean division agree. */
  lemma TruncDivOfNatural(a: int, b: int)
    requires a >= 0 && b > 0
    ensures TruncDiv(a, b) == a / b
  {
  }
}
