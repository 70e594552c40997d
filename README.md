# Calculator service: a Dafny model of the `/calculate` route

The service is a small Flask application. Its only logic is the `Calculator`
class and the `/calculate` route that uses it, both in `src/app.py`.

- `Calculator` has four static methods: `add`, `subtract`, `multiply` and
  `divide`. `divide` raises `ValueError("Cannot divide by zero")` when the
  divisor is zero.
- `/calculate` takes the decoded JSON body and reads `operation`. It coerces
  `a` and `b` with `float`, each defaulting to 0. It then tests the operation
  against a four-entry table, applies the matching method and maps the outcome
  to a status code and an envelope:
  - 200 with `{status: "success", result}`;
  - 400 with `{status: "error", message}` for an unknown operation or a
    `ValueError`;
  - 500 with the fixed message "Internal server error" for any other exception.

The model is pure, like the source: datatypes, functions and lemmas, with no
state and no loops.

- `wrappers.dfy` (`Wrappers`): `Option` and `Result`.
- `json.dfy` (`Json`): the Python values a JSON body decodes to (numbers as
  `real`, strings, booleans, None, lists, dicts with string keys), Python's
  hashability of them, and `dict.get` with a default.
- `calculator.dfy` (`Calculator`): the four methods as functions on `real`.
  `divide`'s `ValueError` becomes an `Err` carrying its text.
- `app.dfy` (`App`): the route. The exceptions the try-block can raise are the
  datatype `Raised`: `ValueError(message)`, `TypeError`, `AttributeError` and
  `HttpError`. `TryBlock` runs the block's statements in the source's order and
  returns the early response or the exception. `Handle` is the pair of `except`
  clauses, and `Calculate` is the whole route. `Render` and `Respond` build the
  dict given to `jsonify`. `Home` and `Health` are the two constant routes.
- `calculate_properties.dfy` (`CalculateProperties`): lemmas over every request
  body. They cover the order of the checks, which inputs reach 200, 400 and 500,
  the envelope invariant, and the examples from `tests/test_app.py`.

Python's `float(s)` on a string is a parameter, `parse: string -> Result<real, string>`.
`Err(m)` means `float` raises `ValueError` with text `m`. The route's
`request.get_json()` is an `Option<Json>`; `None` means the call raised (a
malformed or non-JSON request), which the generic handler turns into 500.

A body that is not a dict (including `None`) makes `data.get` raise
`AttributeError`, so the answer is 500 (`NonObjectBodyIsInternalError`).

## Model

| member | source | states |
|---|---|---|
| `Calculator.Add` | src/app.py:19-22 | `add` is total; subtracting either operand from the result gives the other one |
| `Calculator.Subtract` | src/app.py:24-27 | `subtract` is total; adding `b` back to the result gives `a` |
| `Calculator.Multiply` | src/app.py:29-32 | `multiply` is total; the product is zero exactly when a factor is, and dividing it by a non-zero `b` gives `a` |
| `Calculator.Divide` | src/app.py:34-39 | `divide` fails exactly when `b == 0`, with the message "Cannot divide by zero"; otherwise the quotient times `b` is `a` |
| `Calculator.MultiplyDivideInverse` | src/app.py:29-39 | for `b != 0`, dividing by `b` undoes multiplying by it and conversely |
| `Calculator.CalculatorExamples` | tests/test_app.py:19-51 | the values the unit tests expect from the four methods, including the zero-divisor failure |
| `Json.HashableValues` | src/app.py:76 | the `in` test can hash numbers, strings, booleans and None, but not lists or dicts |
| `Json.Get` | src/app.py:63-65 | `dict.get` gives the stored value for a present key and the default for a missing one |
| `App.OperationsTable` | src/app.py:69-74 | the lookup table has exactly the keys "add", "subtract", "multiply" and "divide", and each key is the name of the operation it holds |
| `App.Operation` | src/app.py:63 | the operation is the stored value, or None when the key is missing |
| `App.Operand` | src/app.py:64-65 | an operand is the stored value, or the number 0 when the key is missing |
| `App.Name` | src/app.py:69-74 | each operation has a key in the table, and that key maps back to it |
| `App.ToFloat` | src/app.py:64-65 | `float` of a decoded value: numbers are themselves, booleans 1 and 0, strings go through the parser (a failure is a `ValueError` with the parser's text), and None, lists and dicts raise `TypeError` |
| `App.Lookup` | src/app.py:69-76 | the membership test raises `TypeError` exactly for an unhashable operation, finds nothing exactly for a hashable value that is not one of the four names, and otherwise finds the operation that the name denotes |
| `App.Apply` | src/app.py:82 | the dispatched call returns a + b, a − b, a · b, or a / b for `b != 0`; it fails exactly for `divide` with `b == 0`, with the `ValueError` "Cannot divide by zero" |
| `App.TryBlock` | src/app.py:61-87 | the try block raises an HTTP error exactly when the body could not be obtained, and `AttributeError` exactly when the body is not a dict; when it returns, the response is the early 400 "Invalid operation" or a 200 with a result |
| `App.Handle` | src/app.py:89-98 | a `ValueError` becomes 400 with its text; every other exception becomes 500 with "Internal server error" |
| `App.Calculate` | src/app.py:58-98 | every response has code 200, 400 or 500; it is 200 exactly when it carries a result; a 500 always carries the generic message |
| `App.Render` | src/app.py:76-98 | the envelope dict has `status` "success" with `result`, or "error" with `message`, never both and nothing else |
| `App.Respond` | src/app.py:84-98 | the client's body carries `result` exactly on success, with the computed value, and otherwise the message |
| `App.Home` | src/app.py:42-49 | `/` answers 200 with status "success" and a version |
| `App.Health` | src/app.py:52-55 | `/health` answers 200 with status "healthy" |
| `CalculateProperties.NonObjectBodyIsInternalError` | src/app.py:61-63 | a body that is missing, fails to decode or is not a dict gets 500 "Internal server error" |
| `CalculateProperties.MissingOperandIsZero` | src/app.py:64-65 | a missing `a` or `b` gives the same response as an explicit 0 |
| `CalculateProperties.InvalidOperationIff` | src/app.py:63-80 | the early "Invalid operation" return happens exactly when both operands coerce and the operation is hashable but not a known name |
| `CalculateProperties.InvalidOperationIsRejected` | src/app.py:76-80 | in that case the response is 400 "Invalid operation" with no result |
| `CalculateProperties.KnownOperationSucceeds` | src/app.py:82-87 | a known operation whose arithmetic succeeds gives 200 with the matching Calculator function of the coerced operands |
| `CalculateProperties.EveryCalculationIsReachable` | src/app.py:69-87 | for every operation and every pair of reals, some request gets that Calculator outcome as its response |
| `CalculateProperties.SuccessOnlyFromKnownOperation` | src/app.py:61-87 | a 200 requires a dict body, two coercible operands, a known operation name, and no `divide` by 0 |
| `CalculateProperties.DivideByZeroIsRejected` | src/app.py:82-93 | `divide` with a coerced divisor of 0 gives 400 "Cannot divide by zero" |
| `CalculateProperties.CoercionBeforeLookup` | src/app.py:63-76 | a failure to coerce `a` (or else `b`) decides the response whatever the operation is, even an unknown or unhashable one |
| `CalculateProperties.NonNumericOperandIsRejected` | src/app.py:64-93 | a string operand that `float` rejects gives 400 with `float`'s message: `a`, or `b` once `a` has coerced |
| `CalculateProperties.ClientErrorMessages` | src/app.py:76-93 | a 400 carries "Invalid operation", "Cannot divide by zero", or a `ValueError` text produced by `float` |
| `CalculateProperties.InternalErrorIff` | src/app.py:61-98 | 500 is answered exactly when the body is not a dict, when an operand is None, a list or a dict (`a` checked first), or when the operation is unhashable after both operands have coerced |
| `CalculateProperties.EnvelopeInvariant` | src/app.py:76-98 | every response is 200 with exactly `{status: "success", result}`, or 400/500 with exactly `{status: "error", message}` |
| `CalculateProperties.EndpointExamples` | tests/test_app.py:72-115 | the four `/calculate` requests of the test suite get the expected codes and envelopes |

## Left out

- Flask setup, `load_dotenv`, `SECRET_KEY` and the `__main__` block (src/app.py:4-13, 101-104). They are process bootstrap and environment I/O.
- The HTTP transport and `request.get_json()`. This is foreign library code whose behaviour on malformed bodies depends on the Flask version. Its output is the abstract `Option<Json>`, and every way it fails leads to 500.
- IEEE-754 arithmetic: rounding, overflow to infinity, NaN, and -0.0 (which Python still treats as `== 0`). Floats are modelled as `real`. Serialising an infinite or NaN result is not modelled either.
- `float` of a JSON integer too large for a float raises `OverflowError` (so 500). It is not modelled, because numbers are `real` and JSON integers and floats are not told apart.
- The exact grammar of Python's `float` on strings, and the wording of its error message (a repr-quoted copy of the string). Both come from the `parse` parameter.
- A JSON object with repeated keys is modelled as the dict that the decoder has already built from it.
- Repeated identical requests get identical responses. This holds by construction: `Calculate` is a function of the body and the parser, so there is no lemma for it.
- The pytest fixture and test-client plumbing (tests/test_app.py:8-13).
