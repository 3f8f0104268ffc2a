/** The legacy controller: the response-code table, the `{status, msg[, data]}`
    message builder, the `exitWith*` family that stores such a message in the
    response, and the access-secret check. */
module ApiController {
  import opened Wrappers
  import opened PhpValue
  import opened Http

  // The response codes, part of the wire contract.
  const CODE_SUCCESS: int := 0
  const CODE_INVALID_PARAM: int := -1
  const CODE_UNAUTHORIZED: int := -2
  const CODE_ALREADY_REGISTERED: int := -3
  const CODE_NOT_EXIST: int := -4
  const CODE_VALIDATION_FAILED: int := -5
  const CODE_INTERNAL_ERROR: int := -100

  /** The "limit exceeded" code. The response helpers use it, but the
      controller's table does not define it, so its value is left open here. */
  const CODE_EXCESS_LIMIT: int

  // The keys of the envelope built by the response helpers.
  const KEY_CODE: string := "code"
  const KEY_MSG: string := "message"
  const KEY_DATA: string := "data"

  /** The seven codes of the table are pairwise distinct; every failure code is negative. */
  lemma CodesDistinct()
    ensures |{CODE_SUCCESS, CODE_INVALID_PARAM, CODE_UNAUTHORIZED, CODE_ALREADY_REGISTERED,
              CODE_NOT_EXIST, CODE_VALIDATION_FAILED, CODE_INTERNAL_ERROR}| == 7
    ensures CODE_INVALID_PARAM < 0 && CODE_UNAUTHORIZED < 0 && CODE_ALREADY_REGISTERED < 0
    ensures CODE_NOT_EXIST < 0 && CODE_VALIDATION_FAILED < 0 && CODE_INTERNAL_ERROR < 0
  {
  }

  /** `makeDataMessage`: `{status, msg}`, plus `data` only when the payload is truthy. */
  function MakeDataMessage(code: Value, msg: Value, data: Value): (r: Value)
    ensures r.Dict?
    ensures r.fields.Keys == if Truthy(data) then {"status", "msg", "data"} else {"status", "msg"}
    ensures r.fields["status"] == code && r.fields["msg"] == msg
    ensures Truthy(data) ==> r.fields["data"] == data
  {
    var result := map["status" := code, "msg" := msg];
    Dict(if Truthy(data) then result["data" := data] else result)
  }

  /** `exitWithCode`: the message becomes the response body. The request
      then ends, so every `exitWith*` call is the last thing an action does. */
  method ExitWithCode(response: Response, code: Value, msg: Value, data: Value)
    modifies response
    ensures response.data == MakeDataMessage(code, msg, data)
    ensures response.statusCode == old(response.statusCode)
  {
    response.data := MakeDataMessage(code, msg, data);
  }

  /** `exitWithInvalidParam`: code -1; an empty message becomes "参数错误". */
  method ExitWithInvalidParam(response: Response, msg: Value)
    modifies response
    ensures response.data == Dict(map["status" := Int(CODE_INVALID_PARAM),
                                      "msg" := if Truthy(msg) then msg else Str("参数错误")])
    ensures response.statusCode == old(response.statusCode)
  {
    ExitWithCode(response, Int(CODE_INVALID_PARAM), if !Truthy(msg) then Str("参数错误") else msg, Null);
  }

  /** `exitWithSuccess`: code 0 with the fixed message "操作成功". */
  method ExitWithSuccess(response: Response, data: Value)
    modifies response
    ensures response.data.Dict? && Get(response.data, "status") == Int(CODE_SUCCESS)
    ensures Get(response.data, "msg") == Str("操作成功")
    ensures ("data" in response.data.fields) == Truthy(data)
    ensures Truthy(data) ==> response.data.fields["data"] == data
    ensures response.data == MakeDataMessage(Int(CODE_SUCCESS), Str("操作成功"), data)
    ensures response.statusCode == old(response.statusCode)
  {
    ExitWithCode(response, Int(CODE_SUCCESS), Str("操作成功"), data);
  }

  /** `exitWithErrorData`: code -100, the payload wrapped as `{data: payload}`,
      so the `data` key is present even for a null payload. */
  method ExitWithErrorData(response: Response, error: Value, data: Value)
    modifies response
    ensures response.data == Dict(map["status" := Int(CODE_INTERNAL_ERROR), "msg" := error,
                                      "data" := Dict(map["data" := data])])
    ensures response.statusCode == old(response.statusCode)
  {
    ExitWithCode(response, Int(CODE_INTERNAL_ERROR), error, Dict(map["data" := data]));
  }

  /** The message `exitWithValidationError` reports: the first message of the
      first attribute in error, or null when there is none. */
  function ValidationError(errors: seq<AttributeErrors>): (r: Option<string>)
    ensures r.Some? <==> |errors| > 0 && |errors[0].messages| > 0
    ensures r.Some? ==> r.value == errors[0].messages[0]
  {
    if |errors| == 0 || |errors[0].messages| == 0 then None else Some(errors[0].messages[0])
  }

  /** `exitWithValidationError`: code -5 with the first validation message. */
  method ExitWithValidationError(response: Response, model: Record)
    modifies response
    ensures response.data == Dict(map["status" := Int(CODE_VALIDATION_FAILED),
                                      "msg" := StrOrNull(ValidationError(model.errors))])
    ensures response.statusCode == old(response.statusCode)
  {
    var error := ValidationError(model.errors);
    ExitWithCode(response, Int(CODE_VALIDATION_FAILED), StrOrNull(error), Null);
  }

  /** `checkSecret`: the application parameters configure `accessSecret`
      and it loosely equals the given secret. */
  function CheckSecret(appParams: map<string, Value>, secret: Value): (ok: bool)
    ensures ok ==> "accessSecret" in appParams && appParams["accessSecret"] != Null
    ensures ok ==> LooseEquals(appParams["accessSecret"], secret)
  {
    "accessSecret" in appParams && appParams["accessSecret"] != Null &&
    LooseEquals(appParams["accessSecret"], secret)
  }

  /** A configured secret accepts itself and every secret loosely equal to
      it, and nothing passes when no secret is configured. */
  lemma CheckSecretAcceptsConfigured(appParams: map<string, Value>, secret: Value)
    ensures "accessSecret" in appParams && appParams["accessSecret"] == secret && secret != Null
            ==> CheckSecret(appParams, secret)
    ensures ("accessSecret" in appParams && appParams["accessSecret"] != Null &&
             LooseEquals(appParams["accessSecret"], secret)) ==> CheckSecret(appParams, secret)
    ensures "accessSecret" !in appParams ==> !CheckSecret(appParams, secret)
  {
  }
}
