/** The `view` action: find the model, check access, and return it under
    its singular lower-case key. */
module ViewAction {
  import opened Wrappers
  import opened PhpString
  import opened PhpValue
  import opened Http
  import opened ApiController
  import opened ResponseTrait
  import opened ActionTrait
  import ActionTool

  /** An access check as configured on the action: it is called with the
      action id and the model and may throw. */
  type AccessCheck = (string, Value) -> Option<Exception>

  /** `run`: a model that was not found gives the code -1 envelope
      "对象不存在"; otherwise the access check, when configured, may throw;
      otherwise the model is returned as `{<key>: model}`. */
  function Run(model: Option<Record>, actionId: string, modelClass: string,
               checkAccess: Option<AccessCheck>): (r: Outcome)
    ensures model.None? ==>
              r.Returned? && IsEnvelope(r.value, CODE_INVALID_PARAM, "对象不存在", None)
    ensures model.Some? && checkAccess.Some? && checkAccess.value(actionId, Obj(model.value)).Some? ==>
              r == Thrown(checkAccess.value(actionId, Obj(model.value)).value)
    ensures model.Some? && r.Returned? ==>
              IsEnvelope(r.value, CODE_SUCCESS, SUCCESS_MESSAGE,
                         Some(Dict(map[ActionTool.CollectionNameForModel(modelClass) := Obj(model.value)])))
  {
    if model.None? then Returned(FailedWithWrongParam(Some("对象不存在")))
    else
      var denied := if checkAccess.Some? then checkAccess.value(actionId, Obj(model.value)) else None;
      if denied.Some? then Thrown(denied.value)
      else
        var key := ActionTool.CollectionNameForModel(modelClass);
        Returned(SuccessWithData(Dict(map[key := Obj(model.value)])))
  }

  /** A view succeeds exactly when the model exists and access is granted,
      and then its data has one key, singular and lower-case, holding the model. */
  lemma {:induction false} ViewSucceedsIff(model: Option<Record>, actionId: string, modelClass: string,
                                           checkAccess: Option<AccessCheck>)
    ensures var r := Run(model, actionId, modelClass, checkAccess);
            (r.Returned? && IsSuccess(r.value)) <==>
              model.Some? && (checkAccess.None? || checkAccess.value(actionId, Obj(model.value)).None?)
    ensures var r := Run(model, actionId, modelClass, checkAccess);
            r.Returned? && IsSuccess(r.value) ==>
              var key := ActionTool.CollectionNameForModel(modelClass);
              Get(r.value, KEY_DATA).Dict? && Get(r.value, KEY_DATA).fields.Keys == {key} &&
              Get(Get(r.value, KEY_DATA), key) == Obj(model.value) &&
              NoUpper(key) && '\\' !in key
  {
    var r := Run(model, actionId, modelClass, checkAccess);
    if model.None? {
      assert Get(r.value, KEY_CODE) == Int(CODE_INVALID_PARAM);
    }
  }

  /** Without a model the access check is never consulted: the result is
      the same whatever check is configured. */
  lemma NoAccessCheckWithoutModel(actionId: string, modelClass: string,
                                  check1: Option<AccessCheck>, check2: Option<AccessCheck>)
    ensures Run(None, actionId, modelClass, check1) == Run(None, actionId, modelClass, check2)
  {
  }
}
