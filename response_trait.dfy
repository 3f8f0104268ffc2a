/** The response envelope `{code, message[, data]}` and the helpers that
    build it for each outcome. Every helper is one call of `Exit`. */
module ResponseTrait {
  import opened Wrappers
  import opened PhpValue
  import opened ApiController
  import ActionTool

  /** The message `exit` uses when the given one is empty. */
  const SUCCESS_MESSAGE: string := "成功"

  /** `r` is exactly the envelope with this code and message, and with a
      `data` entry exactly when `data` is given. */
  predicate IsEnvelope(r: Value, code: int, message: string, data: Option<Value>) {
    r == Dict(if data.Some? then map[KEY_CODE := Int(code), KEY_MSG := Str(message), KEY_DATA := data.value]
              else map[KEY_CODE := Int(code), KEY_MSG := Str(message)])
  }

  /** The message `exit` stores for a given message: the message when it
      is truthy, otherwise "成功" (so `''` and `'0'` also become "成功"). */
  function MessageText(message: Option<string>): (m: string)
    ensures Truthy(Str(m))
    ensures TruthyString(message) ==> m == message.value
    ensures !TruthyString(message) ==> m == SUCCESS_MESSAGE
  {
    if TruthyString(message) then message.value else SUCCESS_MESSAGE
  }

  /** `exit`: the code as given, the message or "成功", and the `data` entry
      only for a non-empty payload array, never as null or empty. */
  function Exit(code: int, message: Option<string> := None, data: Value := Null): (r: Value)
    requires data.Null? || IsArray(data)
    ensures r.Dict? && Get(r, KEY_CODE) == Int(code) && Get(r, KEY_MSG) == Str(MessageText(message))
    ensures KEY_DATA in r.fields <==> Truthy(data)
    ensures KEY_DATA in r.fields ==> r.fields[KEY_DATA] == data && IsArray(data) && Truthy(r.fields[KEY_DATA])
    ensures r.fields.Keys <= {KEY_CODE, KEY_MSG, KEY_DATA}
    ensures IsEnvelope(r, code, MessageText(message), if Truthy(data) then Some(data) else None)
  {
    var result := map[KEY_CODE := Int(code), KEY_MSG := Str(if TruthyString(message) then message.value else SUCCESS_MESSAGE)];
    Dict(if Truthy(data) then result[KEY_DATA := data] else result)
  }

  /** `_mergeMessage`: the category alone when the context is empty, the
      context alone when the category is empty, otherwise "category -> context". */
  function MergeMessage(category: Option<string>, context: Option<string>): (r: Option<string>)
    ensures !TruthyString(category) ==> r == context
    ensures TruthyString(category) && !TruthyString(context) ==> r == category
    ensures TruthyString(category) && TruthyString(context) ==>
              r == Some(category.value + " -> " + context.value)
  {
    if !TruthyString(category) then context
    else if !TruthyString(context) then category
    else Some(category.value + " -> " + context.value)
  }

  /** A merged message is truthy exactly when one of its parts is, and a
      truthy category is always where it starts. */
  lemma MergeMessageTruthy(category: Option<string>, context: Option<string>)
    ensures TruthyString(MergeMessage(category, context)) <==>
            TruthyString(category) || TruthyString(context)
    ensures TruthyString(category) ==>
              var m := MergeMessage(category, context).value;
              |category.value| <= |m| && m[..|category.value|] == category.value
  {
    if TruthyString(category) && TruthyString(context) {
      var m := category.value + " -> " + context.value;
      assert |m| > 1;
      assert m[..|category.value|] == category.value;
    }
  }

  /** `failedWithWrongParam`: code -1 with the context as message. */
  function FailedWithWrongParam(context: Option<string> := None): (r: Value)
    ensures IsEnvelope(r, CODE_INVALID_PARAM, MessageText(context), None)
  {
    Exit(CODE_INVALID_PARAM, context)
  }

  /** The context `failedWhenSaveModel`/`failedWhenDeleteModel` merge with
      their category: the caller's, or the given default. */
  function ContextOr(context: Option<string>, default: string): string {
    if TruthyString(context) then context.value else default
  }

  /** The text `.=` appends for the error summary: PHP's `false` appends nothing. */
  function SummaryText(model: Record): string {
    ActionTool.MakeErrorSummary(model).GetOr("")
  }

  /** `failedWhenSaveModel`: code -100 and the message
      "保存 <class> 对象 -> <context or 保存失败：><first error>". */
  function FailedWhenSaveModel(model: Record, context: Option<string> := None): (r: Value)
    ensures IsEnvelope(r, CODE_INTERNAL_ERROR,
                       "保存 " + model.className + " 对象 -> " + ContextOr(context, "保存失败：") + SummaryText(model),
                       None)
  {
    var category := "保存 " + model.className + " 对象";
    var error := MergeMessage(Some(category), Some(if TruthyString(context) then context.value else "保存失败："));
    var message := error.value + SummaryText(model);
    assert message == "保存 " + model.className + " 对象 -> " + ContextOr(context, "保存失败：") + SummaryText(model);
    assert |message| > 1 && MessageText(Some(message)) == message;
    Exit(CODE_INTERNAL_ERROR, Some(message))
  }

  /** `failedWhenDeleteModel`: code -100 and the message
      "删除 <class> 对象 -> <context or 删除失败：><first error>". */
  function FailedWhenDeleteModel(model: Record, context: Option<string> := None): (r: Value)
    ensures IsEnvelope(r, CODE_INTERNAL_ERROR,
                       "删除 " + model.className + " 对象 -> " + ContextOr(context, "删除失败：") + SummaryText(model),
                       None)
  {
    var category := "删除 " + model.className + " 对象";
    var error := MergeMessage(Some(category), Some(if TruthyString(context) then context.value else "删除失败："));
    var message := error.value + SummaryText(model);
    assert message == "删除 " + model.className + " 对象 -> " + ContextOr(context, "删除失败：") + SummaryText(model);
    assert |message| > 1 && MessageText(Some(message)) == message;
    Exit(CODE_INTERNAL_ERROR, Some(message))
  }

  /** `failedWithExceedLimit`: the limit code with "超过限制", followed by
      " -> context" when there is a context. */
  function FailedWithExceedLimit(context: Option<string> := None): (r: Value)
    ensures IsEnvelope(r, CODE_EXCESS_LIMIT,
                       if TruthyString(context) then "超过限制 -> " + context.value else "超过限制",
                       None)
  {
    var message := MergeMessage(Some("超过限制"), context);
    assert "超过限制" + " -> " == "超过限制 -> ";
    assert |message.value| > 1 && MessageText(message) == message.value;
    Exit(CODE_EXCESS_LIMIT, message)
  }

  /** `failedWithReason`: code -100 unless a status is given, the reason as message. */
  function FailedWithReason(reason: Option<string>, status: int := CODE_INTERNAL_ERROR): (r: Value)
    ensures IsEnvelope(r, status, MessageText(reason), None)
  {
    Exit(status, reason)
  }

  /** `success`: code 0, the context or "成功" as message, no data. */
  function Success(context: Option<string> := None): (r: Value)
    ensures IsEnvelope(r, CODE_SUCCESS, MessageText(context), None)
  {
    Exit(CODE_SUCCESS, context)
  }

  /** `successWithObject`: the context is ignored; code 0, "成功", and data
      `{object: object}`, present even for a null object. */
  function SuccessWithObject(obj: Value, context: Option<string> := None): (r: Value)
    ensures IsEnvelope(r, CODE_SUCCESS, SUCCESS_MESSAGE, Some(Dict(map["object" := obj])))
  {
    Exit(CODE_SUCCESS, None, Dict(map["object" := obj]))
  }

  /** `successWithData`: code 0 and the payload as data when it is not empty. */
  function SuccessWithData(data: Value, context: Option<string> := None): (r: Value)
    requires IsArray(data)
    ensures IsEnvelope(r, CODE_SUCCESS, MessageText(context), if Truthy(data) then Some(data) else None)
  {
    Exit(CODE_SUCCESS, context, data)
  }

  /** `failedWithPrivilege`: code -2; a context that is `== null` (null or
      '') becomes "没有权限". */
  function FailedWithPrivilege(context: Option<string> := None): (r: Value)
    ensures context.None? || context == Some("") ==> IsEnvelope(r, CODE_UNAUTHORIZED, "没有权限", None)
    ensures context.Some? && context != Some("") ==> IsEnvelope(r, CODE_UNAUTHORIZED, MessageText(context), None)
  {
    var message := if LooseEquals(StrOrNull(context), Null) then Some("没有权限") else context;
    Exit(CODE_UNAUTHORIZED, message)
  }

  /** `failedWithNotExist`: code -4 with "对象不存在" and no data. */
  function FailedWithNotExist(): (r: Value)
    ensures IsEnvelope(r, CODE_NOT_EXIST, "对象不存在", None)
  {
    Exit(CODE_NOT_EXIST, Some("对象不存在"))
  }
}
