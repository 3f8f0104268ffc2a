/** The response behaviour that, just before a response is sent, rewrites
    the framework's error bodies for HTTP 400/401/403/404 into the envelope
    `{code, message}` and resets the transport status to 200, so that
    clients branch on `code` alone. */
module ExceptionFormatter {
  import opened Wrappers
  import opened PhpValue
  import opened Http
  import opened ApiController

  const STATUS_OK: int := 200

  /** The code and message `_formatExceptionData` picks for an error body,
      testing `status == 400`, `401`, `404`, `403` in that order; `None`
      for every other status. */
  function Translation(data: Value): (t: Option<(int, Value)>)
    ensures Get(data, "status") == Int(400) ==> t == Some((CODE_INVALID_PARAM, Get(data, "message")))
    ensures Get(data, "status") == Int(401) ==> t == Some((CODE_UNAUTHORIZED, Str("请求包认证信息错误")))
    ensures Get(data, "status") == Int(403) ==> t == Some((CODE_UNAUTHORIZED, Get(data, "message")))
    ensures Get(data, "status") == Int(404) ==> t == Some((CODE_NOT_EXIST, Str("请求的对象不存在")))
    ensures Get(data, "status").Int? && Get(data, "status").i !in {400, 401, 403, 404} ==> t.None?
    ensures t.Some? ==> t.value.0 < 0
  {
    var status := Get(data, "status");
    if LooseEquals(status, Int(400)) then Some((CODE_INVALID_PARAM, Get(data, "message")))
    else if LooseEquals(status, Int(401)) then Some((CODE_UNAUTHORIZED, Str("请求包认证信息错误")))
    else if LooseEquals(status, Int(404)) then Some((CODE_NOT_EXIST, Str("请求的对象不存在")))
    else if LooseEquals(status, Int(403)) then Some((CODE_UNAUTHORIZED, Get(data, "message")))
    else None
  }

  /** The status code and body `beforeSendResponse` leaves behind. */
  function Formatted(statusCode: int, data: Value): (r: (int, Value))
    ensures statusCode == STATUS_OK ==> r == (statusCode, data)
    ensures !Isset(data, "status") ==> r == (statusCode, data)
    ensures Translation(data).None? ==> r == (statusCode, data)
    ensures statusCode != STATUS_OK && Isset(data, "status") && Translation(data).Some? ==>
              var (code, msg) := Translation(data).value;
              r == (STATUS_OK, Dict(map[KEY_CODE := Int(code), KEY_MSG := msg]))
    ensures r != (statusCode, data) ==>
              r.0 == STATUS_OK && r.1.Dict? && r.1.fields.Keys == {KEY_CODE, KEY_MSG} && !Isset(r.1, "status")
  {
    if statusCode == STATUS_OK || !Isset(data, "status") then (statusCode, data)
    else
      match Translation(data)
      case None => (statusCode, data)
      case Some((code, msg)) => (STATUS_OK, Dict(map[KEY_CODE := Int(code), KEY_MSG := msg]))
  }

  /** Formatting an already formatted response changes nothing. */
  lemma FormattedIdempotent(statusCode: int, data: Value)
    ensures var (s, d) := Formatted(statusCode, data); Formatted(s, d) == (s, d)
  {
  }

  /** `beforeSendResponse`: nothing happens to a 200 response or to a body
      without a `status` entry; otherwise the body is formatted. */
  method BeforeSendResponse(response: Response)
    modifies response
    ensures (response.statusCode, response.data) == Formatted(old(response.statusCode), old(response.data))
  {
    if response.statusCode == STATUS_OK {
      return;
    }
    if Isset(response.data, "status") {
      FormatExceptionData(response);
    }
  }

  /** `_formatExceptionData`: for a mapped status the body is replaced by
      exactly `{code, message}` and the status code becomes 200; any other
      status leaves both untouched. */
  method FormatExceptionData(response: Response)
    requires Isset(response.data, "status")
    modifies response
    ensures Translation(old(response.data)).None? ==>
              response.data == old(response.data) && response.statusCode == old(response.statusCode)
    ensures Translation(old(response.data)).Some? ==>
              var (code, msg) := Translation(old(response.data)).value;
              response.data == Dict(map[KEY_CODE := Int(code), KEY_MSG := msg]) &&
              response.statusCode == STATUS_OK
  {
    var data := response.data;
    var status := Get(data, "status");
    var code: Option<int> := None;
    var msg: Value := Null;
    if LooseEquals(status, Int(400)) {
      code, msg := Some(CODE_INVALID_PARAM), Get(data, "message");
    } else if LooseEquals(status, Int(401)) {
      code, msg := Some(CODE_UNAUTHORIZED), Str("请求包认证信息错误");
    } else if LooseEquals(status, Int(404)) {
      code, msg := Some(CODE_NOT_EXIST), Str("请求的对象不存在");
    } else if LooseEquals(status, Int(403)) {
      code, msg := Some(CODE_UNAUTHORIZED), Get(data, "message");
    }
    if code.Some? {
      response.statusCode := STATUS_OK;
      response.data := Dict(map[KEY_CODE := Int(code.value), KEY_MSG := msg]);
    }
  }
}
