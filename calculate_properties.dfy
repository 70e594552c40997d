/**
 * What the `/calculate` route promises, stated over the whole input space:
 * the order in which its checks run, which inputs reach which status code,
 * and the examples its test suite exercises.
 */
module CalculateProperties {
  import opened Wrappers
  import opened Json
  import opened App
  import Calculator

  /** The two operands of a dict body both coerce, to `a` and `b`. */
  predicate OperandsAre(fields: map<string, Json>, parse: FloatParser, a: real, b: real)
  {
    ToFloat(Operand(fields, "a"), parse) == Ok(a) && ToFloat(Operand(fields, "b"), parse) == Ok(b)
  }

  /** Python raises `TypeError` for `float` of these values. */
  predicate NotConvertible(v: Json)
  {
    v.Null? || v.List? || v.Obj?
  }

  /** A body that is missing or not a dict ends in 500 before anything is read from it. */
  lemma NonObjectBodyIsInternalError(body: Option<Json>, parse: FloatParser)
    requires body.None? || !body.value.Obj?
    ensures Calculate(body, parse) == Response(500, Failure(INTERNAL_SERVER_ERROR_MESSAGE))
  {
  }

  /** A missing `a` or `b` is the number 0: adding it explicitly changes nothing. */
  lemma MissingOperandIsZero(fields: map<string, Json>, key: string, parse: FloatParser)
    requires key == "a" || key == "b"
    requires key !in fields
    ensures Calculate(Some(Obj(fields)), parse) == Calculate(Some(Obj(fields[key := Num(0.0)])), parse)
  {
  }

  /**
   * The early "Invalid operation" return is taken exactly when both operands
   * coerce and the operation is hashable but not one of the four names
   * (absent, another string, a number, a boolean, null).
   */
  lemma InvalidOperationIff(fields: map<string, Json>, parse: FloatParser)
    ensures TryBlock(Some(Obj(fields)), parse) == Ok(Response(400, Failure(INVALID_OPERATION_MESSAGE)))
        <==> ToFloat(Operand(fields, "a"), parse).Ok? && ToFloat(Operand(fields, "b"), parse).Ok?
             && Hashable(Operation(fields))
             && !(Operation(fields).Str? && Operation(fields).s in OPERATIONS)
  {
  }

  /** ... and then the client receives 400 with that message and no result. */
  lemma InvalidOperationIsRejected(fields: map<string, Json>, parse: FloatParser, a: real, b: real)
    requires OperandsAre(fields, parse, a, b)
    requires Hashable(Operation(fields)) && !(Operation(fields).Str? && Operation(fields).s in OPERATIONS)
    ensures Calculate(Some(Obj(fields)), parse) == Response(400, Failure(INVALID_OPERATION_MESSAGE))
    ensures "result" !in Respond(Calculate(Some(Obj(fields)), parse)).body
  {
  }

  /**
   * A known operation whose arithmetic succeeds answers 200 with the
   * matching Calculator function applied to the coerced operands.
   */
  lemma KnownOperationSucceeds(fields: map<string, Json>, parse: FloatParser, op: Op, a: real, b: real)
    requires OperandsAre(fields, parse, a, b)
    requires Operation(fields) == Str(Name(op))
    requires !(op == Divide && b == 0.0)
    ensures Calculate(Some(Obj(fields)), parse).code == 200
    ensures op == Add ==> Calculate(Some(Obj(fields)), parse).envelope == Success(Calculator.Add(a, b))
    ensures op == Subtract ==> Calculate(Some(Obj(fields)), parse).envelope == Success(Calculator.Subtract(a, b))
    ensures op == Multiply ==> Calculate(Some(Obj(fields)), parse).envelope == Success(Calculator.Multiply(a, b))
    ensures op == Divide ==> Calculate(Some(Obj(fields)), parse).envelope == Success(Calculator.Divide(a, b).value)
  {
  }

  /**
   * Every outcome of every Calculator function is reachable through the
   * route: for each operation and pair of reals some request body gets the
   * function's result as a 200, or its `ValueError` through the handler.
   */
  lemma EveryCalculationIsReachable(op: Op, a: real, b: real, parse: FloatParser)
    ensures Apply(op, a, b).Ok? ==>
      exists fields :: Calculate(Some(Obj(fields)), parse) == Response(200, Success(Apply(op, a, b).value))
    ensures Apply(op, a, b).Err? ==>
      exists fields :: Calculate(Some(Obj(fields)), parse) == Handle(Apply(op, a, b).error)
  {
    var fields := map["operation" := Str(Name(op)), "a" := Num(a), "b" := Num(b)];
    assert OperandsAre(fields, parse, a, b) && Operation(fields) == Str(Name(op));
    assert TryBlock(Some(Obj(fields)), parse) == (
      match Apply(op, a, b)
      case Ok(x) => Ok(Response(200, Success(x)))
      case Err(e) => Err(e));
  }

  /** A 200 answer only ever comes from that case. */
  lemma SuccessOnlyFromKnownOperation(body: Option<Json>, parse: FloatParser)
    requires Calculate(body, parse).code == 200
    ensures body.Some? && body.value.Obj?
    ensures ToFloat(Operand(body.value.fields, "a"), parse).Ok?
    ensures ToFloat(Operand(body.value.fields, "b"), parse).Ok?
    ensures Operation(body.value.fields).Str? && Operation(body.value.fields).s in OPERATIONS
    ensures !(Operation(body.value.fields) == Str("divide") && ToFloat(Operand(body.value.fields, "b"), parse).value == 0.0)
  {
  }

  /** `divide` with a coerced divisor of 0 answers 400 "Cannot divide by zero". */
  lemma DivideByZeroIsRejected(fields: map<string, Json>, parse: FloatParser, a: real)
    requires OperandsAre(fields, parse, a, 0.0)
    requires Operation(fields) == Str("divide")
    ensures Calculate(Some(Obj(fields)), parse) == Response(400, Failure(Calculator.DIVIDE_BY_ZERO_MESSAGE))
  {
  }

  /**
   * The operands are coerced before the operation is looked at: when `a`
   * fails to coerce, or `a` does and `b` does not, that failure decides the
   * response whatever the operation is, even an invalid or unhashable one.
   */
  lemma CoercionBeforeLookup(fields: map<string, Json>, parse: FloatParser, operation: Json)
    requires ToFloat(Operand(fields, "a"), parse).Err? || ToFloat(Operand(fields, "b"), parse).Err?
    ensures Calculate(Some(Obj(fields)), parse) == Calculate(Some(Obj(fields["operation" := operation])), parse)
    ensures ToFloat(Operand(fields, "a"), parse).Err? ==>
      Calculate(Some(Obj(fields)), parse) == Handle(ToFloat(Operand(fields, "a"), parse).error)
    ensures ToFloat(Operand(fields, "a"), parse).Ok? ==>
      Calculate(Some(Obj(fields)), parse) == Handle(ToFloat(Operand(fields, "b"), parse).error)
  {
  }

  /**
   * In particular a string operand that `float` rejects gives 400 with
   * `float`'s message: `a`, or `b` once `a` has coerced.
   */
  lemma NonNumericOperandIsRejected(fields: map<string, Json>, parse: FloatParser, s: string, message: string)
    requires parse(s) == Err(message)
    requires Operand(fields, "a") == Str(s)
          || (ToFloat(Operand(fields, "a"), parse).Ok? && Operand(fields, "b") == Str(s))
    ensures Calculate(Some(Obj(fields)), parse) == Response(400, Failure(message))
  {
  }

  /**
   * A 400 carries one of three texts: "Invalid operation", "Cannot divide by
   * zero", or the `ValueError` message `float` gave for some operand string.
   */
  lemma ClientErrorMessages(body: Option<Json>, parse: FloatParser)
    requires Calculate(body, parse).code == 400
    ensures var m := Calculate(body, parse).envelope.message;
      || m == INVALID_OPERATION_MESSAGE
      || m == Calculator.DIVIDE_BY_ZERO_MESSAGE
      || exists s :: parse(s) == Err(m)
  {
  }

  /**
   * 500 is answered exactly in the cases the handler does not expect: no
   * dict body, an operand that `float` rejects with `TypeError` (checked
   * for `a` first), or an unhashable operation once both operands coerced.
   */
  lemma InternalErrorIff(body: Option<Json>, parse: FloatParser)
    ensures Calculate(body, parse).code == 500
        <==> body.None? || !body.value.Obj?
             || NotConvertible(Operand(body.value.fields, "a"))
             || (ToFloat(Operand(body.value.fields, "a"), parse).Ok? && NotConvertible(Operand(body.value.fields, "b")))
             || (ToFloat(Operand(body.value.fields, "a"), parse).Ok? && ToFloat(Operand(body.value.fields, "b"), parse).Ok?
                 && !Hashable(Operation(body.value.fields)))
  {
  }

  /**
   * Every response the client receives is `{status: "success", result}`
   * with 200 or `{status: "error", message}` with 400 or 500.
   */
  lemma EnvelopeInvariant(body: Option<Json>, parse: FloatParser)
    ensures var out := Respond(Calculate(body, parse));
      && "status" in out.body
      && (out.code == 200 <==> out.body["status"] == Str("success"))
      && (out.code == 200 ==> out.body.Keys == {"status", "result"})
      && (out.code != 200 ==> (out.code == 400 || out.code == 500) && out.body.Keys == {"status", "message"})
  {
  }

  /** The `/calculate` requests of tests/test_app.py and their answers. */
  lemma EndpointExamples(parse: FloatParser)
    ensures Calculate(Some(Obj(map["operation" := Str("add"), "a" := Num(10.0), "b" := Num(5.0)])), parse)
      == Response(200, Success(15.0))
    ensures Calculate(Some(Obj(map["operation" := Str("divide"), "a" := Num(10.0), "b" := Num(2.0)])), parse)
      == Response(200, Success(5.0))
    ensures Calculate(Some(Obj(map["operation" := Str("divide"), "a" := Num(10.0), "b" := Num(0.0)])), parse)
      == Response(400, Failure("Cannot divide by zero"))
    ensures Calculate(Some(Obj(map["operation" := Str("invalid"), "a" := Num(10.0), "b" := Num(5.0)])), parse)
      == Response(400, Failure("Invalid operation"))
  {
  }
}
