/** The request and response objects of the web runtime, reduced to what the
    library reads and writes, and the exceptions its actions throw. */
module Http {
  import opened PhpValue

  datatype Method = GET | POST | PUT | PATCH | DELETE | HEAD | OPTIONS

  /** Methods whose parameters travel in the body (`isPost || isPut || isPatch`). */
  predicate CarriesBody(m: Method) {
    m == POST || m == PUT || m == PATCH
  }

  /** `WrongParamException` and the HTTP exceptions the controllers throw. */
  datatype Exception =
    | WrongParam(message: string)
    | BadRequest(message: string)
    | Forbidden(message: string)

  /** What running an action gives: a value, or an exception. */
  datatype Outcome = Returned(value: Value) | Thrown(error: Exception)

  /** A parameter of a parameter map: the entry, or null when absent. */
  function Param(params: map<string, Value>, name: string): Value {
    if name in params then params[name] else Null
  }

  class Request {
    var verb: Method
    var queryParams: map<string, Value>
    var bodyParams: map<string, Value>

    constructor(verb: Method, queryParams: map<string, Value>, bodyParams: map<string, Value>)
      ensures this.verb == verb
      ensures this.queryParams == queryParams && this.bodyParams == bodyParams
    {
      this.verb := verb;
      this.queryParams := queryParams;
      this.bodyParams := bodyParams;
    }

    /** `$request->get($name)`. */
    function Get(name: string): (v: Value)
      reads this
      ensures name in queryParams ==> v == queryParams[name]
      ensures name !in queryParams ==> v.Null?
    {
      Param(queryParams, name)
    }

    /** `$request->post($name)`, which is `$request->getBodyParam($name)`. */
    function Post(name: string): (v: Value)
      reads this
      ensures name in bodyParams ==> v == bodyParams[name]
      ensures name !in bodyParams ==> v.Null?
    {
      Param(bodyParams, name)
    }
  }

  class Response {
    var statusCode: int
    var data: Value

    constructor(statusCode: int, data: Value)
      ensures this.statusCode == statusCode && this.data == data
    {
      this.statusCode := statusCode;
      this.data := data;
    }
  }
}
