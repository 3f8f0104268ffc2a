/** The REST controller: it wraps query results into the envelope, applies
    the paging parameters, guards updates by the owner field, and turns a
    missing-parameter exception into an error envelope. */
module ActiveController {
  import opened Wrappers
  import opened PhpValue
  import opened Http
  import opened ApiController
  import opened ResponseTrait
  import opened ActionTrait
  import ActionTool

  /** The serializer's collection envelope key. */
  const QUERY_ENVELOPE: string := "items"

  /** `afterAction`: a serialized result carrying `items` becomes the
      success envelope "查询成功" whose data holds the item count and the
      items under the plural, lower-case model key; any other result passes
      through unchanged. */
  function AfterAction(data: Value, modelClass: string, inflect: string -> string): (r: Value)
    requires Isset(data, QUERY_ENVELOPE) ==> IsArray(data.fields[QUERY_ENVELOPE])
    ensures !Isset(data, QUERY_ENVELOPE) ==> r == data
    ensures Isset(data, QUERY_ENVELOPE) ==>
              var items := data.fields[QUERY_ENVELOPE];
              var key := ActionTool.CollectionNameForModel(modelClass, Some(inflect));
              IsSuccess(r) && r.fields.Keys == {KEY_CODE, KEY_MSG, KEY_DATA} &&
              Get(r, KEY_MSG) == Str("查询成功") &&
              Get(r, KEY_DATA).Dict? && Get(r, KEY_DATA).fields.Keys == {"count", key} &&
              Get(Get(r, KEY_DATA), key) == items &&
              (key != "count" ==> Get(Get(r, KEY_DATA), "count") == Int(Count(items)))
  {
    if Isset(data, QUERY_ENVELOPE) then
      var items := data.fields[QUERY_ENVELOPE];
      var collectionKey := ActionTool.CollectionNameForModel(modelClass, Some(inflect));
      Dict(map["code" := Int(0), "message" := Str("查询成功"),
               "data" := Dict(map["count" := Int(Count(items))][collectionKey := items])])
    else data
  }

  /** Wrapping happens once: the envelope has no `items` entry, so a second
      pass leaves it alone. */
  lemma AfterActionIdempotent(data: Value, modelClass: string, inflect: string -> string)
    requires Isset(data, QUERY_ENVELOPE) ==> IsArray(data.fields[QUERY_ENVELOPE])
    ensures AfterAction(AfterAction(data, modelClass, inflect), modelClass, inflect) ==
            AfterAction(data, modelClass, inflect)
  {
  }

  /** The data provider's paging state: whether pagination is on, and the
      page size and page number assigned to its pagination object. */
  class DataProvider {
    var paginationEnabled: bool
    var pageSize: Value
    var page: Value

    constructor()
      ensures paginationEnabled && pageSize == Null && page == Null
    {
      paginationEnabled, pageSize, page := true, Null, Null;
    }
  }

  /** A paging parameter that `preparePagination` applies: set and numeric. */
  predicate PagingParam(queryParams: map<string, Value>, name: string) {
    name in queryParams && queryParams[name] != Null && IsNumeric(queryParams[name])
  }

  /** `preparePagination`: a numeric `pageSize` or `page` is assigned to the
      pagination; when neither is, pagination is switched off. When the
      provider's pagination is already off, `getPagination()` gives `false`
      and the first assignment to it raises an `Error` (`failed`) before
      anything has changed. */
  method PreparePagination(provider: DataProvider, queryParams: map<string, Value>) returns (failed: bool)
    modifies provider
    ensures failed <==> !old(provider.paginationEnabled) &&
                        (PagingParam(queryParams, "pageSize") || PagingParam(queryParams, "page"))
    ensures failed ==> provider.pageSize == old(provider.pageSize) && provider.page == old(provider.page) &&
                       provider.paginationEnabled == old(provider.paginationEnabled)
    ensures !failed ==>
              provider.pageSize ==
                if PagingParam(queryParams, "pageSize") then queryParams["pageSize"] else old(provider.pageSize)
    ensures !failed ==>
              provider.page == if PagingParam(queryParams, "page") then queryParams["page"] else old(provider.page)
    ensures !failed ==> (provider.paginationEnabled <==>
              old(provider.paginationEnabled) &&
              (PagingParam(queryParams, "pageSize") || PagingParam(queryParams, "page")))
  {
    var paging := false;
    if PagingParam(queryParams, "pageSize") {
      if !provider.paginationEnabled {
        return true;
      }
      provider.pageSize := queryParams["pageSize"];
      paging := true;
    }
    if PagingParam(queryParams, "page") {
      if !provider.paginationEnabled {
        return true;
      }
      provider.page := queryParams["page"];
      paging := true;
    }
    if !paging {
      provider.paginationEnabled := false;
    }
    return false;
  }

  /** `checkAccess`: only an `update` of a model whose `kuserId` is set and
      differs (loosely) from the current user is refused; every other call
      passes. */
  function CheckAccess(action: string, model: Value, userId: Value): (r: Option<Exception>)
    ensures r.Some? <==> action == "update" && model.Obj? && AttributeSet(model.record, "kuserId") &&
                         !LooseEquals(model.record.attributes["kuserId"], userId)
    ensures r.Some? ==> r.value == Forbidden("禁止修改其它用户的数据")
  {
    if action == "update" && model.Obj? && AttributeSet(model.record, "kuserId") &&
       !LooseEquals(model.record.attributes["kuserId"], userId)
    then Some(Forbidden("禁止修改其它用户的数据"))
    else None
  }

  /** The owner of a record may always update it. */
  lemma OwnerMayUpdate(r: Record, userId: Value)
    requires "kuserId" in r.attributes && r.attributes["kuserId"] == userId
    ensures CheckAccess("update", Obj(r), userId).None?
  {
  }

  /** `runAction`: a `WrongParamException` becomes the code -1 envelope
      carrying its message; results and other exceptions pass through. */
  function RunAction(outcome: Outcome): (r: Outcome)
    ensures outcome.Thrown? && outcome.error.WrongParam? ==>
              r.Returned? && IsEnvelope(r.value, CODE_INVALID_PARAM, MessageText(Some(outcome.error.message)), None)
    ensures !(outcome.Thrown? && outcome.error.WrongParam?) ==> r == outcome
    ensures r.Thrown? ==> !r.error.WrongParam?
  {
    match outcome
    case Thrown(WrongParam(message)) => Returned(FailedWithWrongParam(Some(message)))
    case _ => outcome
  }

  /** A strict `getGet` of a missing query parameter ends, through
      `runAction`, as the envelope -1 "[GET]缺少 <key> 参数". */
  lemma MissingStrictParamBecomesEnvelope(request: Request, key: string)
    requires request.Get(key) == Null
    ensures var r := RunAction(GetGet(request, key, true));
            r.Returned? && IsEnvelope(r.value, CODE_INVALID_PARAM, "[GET]缺少 " + key + " 参数", None)
  {
    var message := "[GET]缺少 " + key + " 参数";
    assert |message| > 1;
  }

  /** `forbiddenRequest`: the 403 exception, with "禁止访问不属于自己的数据"
      for an empty message. */
  function ForbiddenRequest(msg: Option<string> := None): (e: Exception)
    ensures e.Forbidden?
    ensures e.message == if TruthyString(msg) then msg.value else "禁止访问不属于自己的数据"
  {
    Forbidden(if !TruthyString(msg) then "禁止访问不属于自己的数据" else msg.value)
  }
}
