/**
 * The four static methods of the `Calculator` class. Python floats are
 * modelled as reals; `divide` raises a `ValueError` on a zero divisor, which
 * is the `Err` case here and carries the exception's text.
 */
module Calculator {
  import opened Wrappers

  const DIVIDE_BY_ZERO_MESSAGE: string := "Cannot divide by zero"

  /** `add` is total: the sum, from which either operand is recovered. */
  function Add(a: real, b: real): (r: real)
    ensures r - b == a && r - a == b
  {
    a + b
  }

  /** `subtract` is total: the difference, which added back to `b` gives `a`. */
  function Subtract(a: real, b: real): (r: real)
    ensures r + b == a
  {
    a - b
  }

  /** `multiply` is total; the product is zero exactly when a factor is. */
  function Multiply(a: real, b: real): (r: real)
    ensures r == 0.0 <==> (a == 0.0 || b == 0.0)
    ensures b != 0.0 ==> r / b == a
  {
    a * b
  }

  /**
   * `divide` fails, with the message "Cannot divide by zero", exactly when
   * the divisor is zero; otherwise it returns the quotient, the number that
   * multiplied by `b` gives `a`.
   */
  function Divide(a: real, b: real): (r: Result<real, string>)
    ensures r.Err? <==> b == 0.0
    ensures r.Err? ==> r.error == DIVIDE_BY_ZERO_MESSAGE
    ensures r.Ok? ==> r.value * b == a
  {
    if b == 0.0 then Err(DIVIDE_BY_ZERO_MESSAGE) else Ok(a / b)
  }

  /** Dividing by a non-zero `b` undoes multiplying by it, and conversely. */
  lemma MultiplyDivideInverse(a: real, b: real)
    requires b != 0.0
    ensures Divide(Multiply(a, b), b) == Ok(a)
    ensures Multiply(Divide(a, b).value, b) == a
  {
  }

  /** The cases that tests/test_app.py checks for the four methods. */
  lemma CalculatorExamples()
    ensures Add(2.0, 3.0) == 5.0 && Add(-1.0, 1.0) == 0.0 && Add(0.0, 0.0) == 0.0
    ensures Subtract(5.0, 3.0) == 2.0 && Subtract(1.0, 1.0) == 0.0 && Subtract(0.0, 5.0) == -5.0
    ensures Multiply(2.0, 3.0) == 6.0 && Multiply(-2.0, 3.0) == -6.0 && Multiply(0.0, 5.0) == 0.0
    ensures Divide(6.0, 2.0) == Ok(3.0) && Divide(5.0, 2.0) == Ok(2.5) && Divide(-6.0, 2.0) == Ok(-3.0)
    ensures Divide(5.0, 0.0) == Err("Cannot divide by zero")
  {
  }
}
