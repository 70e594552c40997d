/**
 * The Flask routes of the service. `/calculate` reads the decoded JSON body,
 * coerces the operands `a` and `b` with `float` (each defaulting to 0), looks
 * the `operation` up in a four-entry table and applies the matching
 * `Calculator` function; the outcome, or the exception raised on the way, is
 * mapped to a status code and a `{status, result | message}` envelope.
 * `/` and `/health` return constant dicts.
 */
module App {
  import opened Wrappers
  import opened Json
  import Calculator

  /** The exceptions the `/calculate` try-block can raise. */
  datatype Raised =
    | ValueError(message: string)  // float() of a non-numeric string; divide by zero
    | TypeError                    // float() of None, a list or a dict; an unhashable operation
    | AttributeError               // `.get` on a body that is not a dict
    | HttpError                    // request.get_json() rejecting the request

  /**
   * Python's `float(s)` on a string: the number, or the text of the
   * `ValueError` it raises. Its grammar is not part of this model.
   */
  type FloatParser = string -> Result<real, string>

  /** The four entries of the route's lookup table. */
  datatype Op = Add | Subtract | Multiply | Divide

  const OPERATIONS: map<string, Op> :=
    map["add" := Add, "subtract" := Subtract, "multiply" := Multiply, "divide" := Divide]

  const INVALID_OPERATION_MESSAGE: string := "Invalid operation"
  const INTERNAL_SERVER_ERROR_MESSAGE: string := "Internal server error"

  /** The body of a response: success with a result, or error with a message. */
  datatype Envelope = Success(result: real) | Failure(message: string)

  datatype Response = Response(code: int, envelope: Envelope)

  /** A status code with the dict that `jsonify` serialises. */
  datatype JsonResponse = JsonResponse(code: int, body: map<string, Json>)

  /** The key under which the table holds `op`. */
  function Name(op: Op): (name: string)
    ensures name in OPERATIONS && OPERATIONS[name] == op
  {
    match op
    case Add => "add"
    case Subtract => "subtract"
    case Multiply => "multiply"
    case Divide => "divide"
  }

  /** The table holds exactly the four names, and `Name` inverts it. */
  lemma OperationsTable()
    ensures OPERATIONS.Keys == {"add", "subtract", "multiply", "divide"}
    ensures forall name | name in OPERATIONS :: Name(OPERATIONS[name]) == name
  {
  }

  /** `data.get('operation')`: None (Null) when the key is missing. */
  function Operation(fields: map<string, Json>): (v: Json)
    ensures "operation" in fields ==> v == fields["operation"]
    ensures "operation" !in fields ==> v.Null?
  {
    Get(fields, "operation", Null)
  }

  /** `data.get(key, 0)` for an operand. */
  function Operand(fields: map<string, Json>, key: string): (v: Json)
    ensures key in fields ==> v == fields[key]
    ensures key !in fields ==> v == Num(0.0)
  {
    Get(fields, key, Num(0.0))
  }

  /**
   * Python's `float(v)` on a decoded JSON value: numbers convert to
   * themselves, booleans to 1 and 0, strings through the parser (whose
   * failure is a `ValueError`), and None, lists and dicts raise `TypeError`.
   */
  function ToFloat(v: Json, parse: FloatParser): (r: Result<real, Raised>)
    ensures v.Num? ==> r == Ok(v.n)
    ensures v.Bool? ==> r == Ok(if v.b then 1.0 else 0.0)
    ensures v.Str? ==> (r.Ok? <==> parse(v.s).Ok?)
    ensures v.Str? && r.Ok? ==> r.value == parse(v.s).value
    ensures r.Err? && r.error.ValueError? <==> v.Str? && parse(v.s).Err?
    ensures r.Err? && r.error.ValueError? ==> r.error.message == parse(v.s).error
    ensures r == Err(TypeError) <==> (v.Null? || v.List? || v.Obj?)
  {
    match v
    case Num(n) => Ok(n)
    case Bool(b) => Ok(if b then 1.0 else 0.0)
    case Str(s) =>
      (match parse(s)
       case Ok(x) => Ok(x)
       case Err(m) => Err(ValueError(m)))
    case _ => Err(TypeError)
  }

  /**
   * `operation in operations`, then `operations[operation]`: an unhashable
   * operation raises `TypeError`, any other value that is not one of the
   * four names is absent (`None`), and each name finds its entry.
   */
  function Lookup(operation: Json): (r: Result<Option<Op>, Raised>)
    ensures r.Err? <==> !Hashable(operation)
    ensures r.Err? ==> r.error == TypeError
    ensures r == Ok(None) <==> Hashable(operation) && !(operation.Str? && operation.s in OPERATIONS)
    ensures r.Ok? && r.value.Some? ==> operation == Str(Name(r.value.value))
  {
    if !Hashable(operation) then Err(TypeError)
    else if operation.Str? && operation.s in OPERATIONS then Ok(Some(OPERATIONS[operation.s]))
    else Ok(None)
  }

  /** `operations[operation](a, b)`: the Calculator function for `op`. */
  function Apply(op: Op, a: real, b: real): (r: Result<real, Raised>)
    ensures r.Err? <==> op == Divide && b == 0.0
    ensures r.Err? ==> r.error == ValueError(Calculator.DIVIDE_BY_ZERO_MESSAGE)
    ensures op == Add ==> r == Ok(a + b)
    ensures op == Subtract ==> r == Ok(a - b)
    ensures op == Multiply ==> r == Ok(a * b)
    ensures op == Divide && b != 0.0 ==> r == Ok(a / b)
  {
    match op
    case Add => Ok(Calculator.Add(a, b))
    case Subtract => Ok(Calculator.Subtract(a, b))
    case Multiply => Ok(Calculator.Multiply(a, b))
    case Divide =>
      (match Calculator.Divide(a, b)
       case Ok(q) => Ok(q)
       case Err(m) => Err(ValueError(m)))
  }

  /**
   * The statements inside `try`, in order: get the body, read the operation,
   * coerce `a` then `b`, test the operation against the table (an early
   * 400 return), apply it. The result is the response returned from inside
   * the block, or the exception that left it. A body of `None` stands for
   * `request.get_json()` raising.
   */
  function TryBlock(body: Option<Json>, parse: FloatParser): (r: Result<Response, Raised>)
    ensures body.None? <==> r == Err(HttpError)
    ensures r == Err(AttributeError) <==> body.Some? && !body.value.Obj?
    ensures r.Ok? ==> r.value == Response(400, Failure(INVALID_OPERATION_MESSAGE))
                      || (r.value.code == 200 && r.value.envelope.Success?)
  {
    match body
    case None => Err(HttpError)
    case Some(data) =>
      if !data.Obj? then Err(AttributeError)
      else
        var operation := Operation(data.fields);
        match ToFloat(Operand(data.fields, "a"), parse)
        case Err(e) => Err(e)
        case Ok(a) =>
          match ToFloat(Operand(data.fields, "b"), parse)
          case Err(e) => Err(e)
          case Ok(b) =>
            match Lookup(operation)
            case Err(e) => Err(e)
            case Ok(None) => Ok(Response(400, Failure(INVALID_OPERATION_MESSAGE)))
            case Ok(Some(op)) =>
              match Apply(op, a, b)
              case Err(e) => Err(e)
              case Ok(result) => Ok(Response(200, Success(result)))
  }

  /**
   * The two handlers: a `ValueError` becomes 400 with its text, anything
   * else 500 with a fixed message that reveals nothing.
   */
  function Handle(e: Raised): (resp: Response)
    ensures resp.envelope.Failure?
    ensures e.ValueError? ==> resp == Response(400, Failure(e.message))
    ensures !e.ValueError? ==> resp == Response(500, Failure(INTERNAL_SERVER_ERROR_MESSAGE))
  {
    match e
    case ValueError(m) => Response(400, Failure(m))
    case _ => Response(500, Failure(INTERNAL_SERVER_ERROR_MESSAGE))
  }

  /**
   * The `/calculate` route. Every response is 200 with a result, or 400 or
   * 500 with a message, and a 500 always carries the generic message.
   */
  function Calculate(body: Option<Json>, parse: FloatParser): (resp: Response)
    ensures resp.code == 200 || resp.code == 400 || resp.code == 500
    ensures resp.code == 200 <==> resp.envelope.Success?
    ensures resp.code == 500 ==> resp.envelope == Failure(INTERNAL_SERVER_ERROR_MESSAGE)
  {
    match TryBlock(body, parse)
    case Ok(resp) => resp
    case Err(e) => Handle(e)
  }

  /**
   * The dict `jsonify` is given: `status` is "success" with a `result`, or
   * "error" with a `message`, never both.
   */
  function Render(envelope: Envelope): (fields: map<string, Json>)
    ensures "status" in fields
    ensures fields["status"] == Str("success") || fields["status"] == Str("error")
    ensures "result" in fields <==> fields["status"] == Str("success")
    ensures "message" in fields <==> fields["status"] == Str("error")
    ensures fields.Keys == {"status", "result"} || fields.Keys == {"status", "message"}
  {
    match envelope
    case Success(r) => map["status" := Str("success"), "result" := Num(r)]
    case Failure(m) => map["status" := Str("error"), "message" := Str(m)]
  }

  /** What the client of `/calculate` receives. */
  function Respond(resp: Response): (out: JsonResponse)
    ensures out.code == resp.code
    ensures "result" in out.body <==> resp.envelope.Success?
    ensures resp.envelope.Success? ==> out.body["result"] == Num(resp.envelope.result)
    ensures resp.envelope.Failure? ==> "message" in out.body && out.body["message"] == Str(resp.envelope.message)
  {
    JsonResponse(resp.code, Render(resp.envelope))
  }

  /** The `/` route: 200, status "success", with a version. */
  function Home(): (out: JsonResponse)
    ensures out.code == 200
    ensures "status" in out.body && out.body["status"] == Str("success")
    ensures "version" in out.body
  {
    JsonResponse(200, map[
      "status" := Str("success"),
      "message" := Str("Welcome to Python CI/CD Demo"),
      "version" := Str("1.0.0")])
  }

  /** The `/health` route: 200, status "healthy". */
  function Health(): (out: JsonResponse)
    ensures out.code == 200
    ensures "status" in out.body && out.body["status"] == Str("healthy")
  {
    JsonResponse(200, map["status" := Str("healthy")])
  }
}
