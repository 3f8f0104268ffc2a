/** The shared action behaviour: a result builder over private fields,
    resolution of an object from an id-or-sid request parameter, request
    parameter access and injection, and the predicates callers use to test
    results. */
module ActionTrait {
  import opened Wrappers
  import opened PhpString
  import opened PhpValue
  import opened Http
  import opened Store
  import opened ApiController
  import opened ResponseTrait
  import ActionTool

  // ---------------------------------------------------------------------------
  // Result builder: `_status`, `_msg`, `_object`, `_items`.
  // ---------------------------------------------------------------------------

  /** The array `_makeReturns` builds from the four fields: `status` and
      `msg` always, `object` only for a truthy object, `items` whenever the
      items are an array, even an empty one. */
  function Returns(status: int, msg: string, obj: Value, items: Value): (r: Value)
    ensures r.Dict? && Get(r, "status") == Int(status) && Get(r, "msg") == Str(msg)
    ensures "object" in r.fields <==> Truthy(obj)
    ensures "object" in r.fields ==> r.fields["object"] == obj
    ensures "items" in r.fields <==> IsArray(items)
    ensures "items" in r.fields ==> r.fields["items"] == items
    ensures r.fields.Keys <= {"status", "msg", "object", "items"}
  {
    var base := map["status" := Int(status), "msg" := Str(msg)];
    var withObject := if Truthy(obj) then base["object" := obj] else base;
    Dict(if IsArray(items) then withObject["items" := items] else withObject)
  }

  class ResultBuilder {
    var status: int
    var msg: string
    var obj: Value
    var items: Value

    constructor()
      ensures status == 0 && msg == "" && obj == Null && items == Null
    {
      status, msg, obj, items := 0, "", Null, Null;
    }

    /** `_setObject`. */
    method SetObject(o: Value)
      modifies this
      ensures obj == o
      ensures status == old(status) && msg == old(msg) && items == old(items)
    {
      obj := o;
    }

    /** `_setItems`. */
    method SetItems(i: Value)
      modifies this
      ensures items == i
      ensures status == old(status) && msg == old(msg) && obj == old(obj)
    {
      items := i;
    }

    /** `_setReturns`. */
    method SetReturns(s: int, m: string)
      modifies this
      ensures status == s && msg == m
      ensures obj == old(obj) && items == old(items)
    {
      status, msg := s, m;
    }

    /** `_makeReturns`: a content list of two or more elements first
      replaces status and message with its first two elements (which must
      be an int and a string); the result is built from the fields. */
    method MakeReturns(content: Option<seq<Value>>) returns (r: Value)
      requires content.Some? && |content.value| > 1 ==> content.value[0].Int? && content.value[1].Str?
      modifies this
      ensures content.Some? && |content.value| > 1 ==>
                status == content.value[0].i && msg == content.value[1].s
      ensures !(content.Some? && |content.value| > 1) ==> status == old(status) && msg == old(msg)
      ensures obj == old(obj) && items == old(items)
      ensures r == Returns(status, msg, obj, items)
    {
      if content.Some? && |content.value| > 1 {
        SetReturns(content.value[0].i, content.value[1].s);
      }
      r := Returns(status, msg, obj, items);
    }
  }

  // ---------------------------------------------------------------------------
  // Id-or-sid resolution.
  // ---------------------------------------------------------------------------

  /** The lookup both resolvers make: a numeric id by primary key, any other
      id by the `sid` column. */
  function LookupIdOrSid(st: Store, objectId: Value): (r: Option<Record>)
    ensures IsNumeric(objectId) ==> r == FindOne(st, objectId)
    ensures !IsNumeric(objectId) ==> r == FindOneBySid(st, objectId)
  {
    if IsNumeric(objectId) then FindOne(st, objectId) else FindOneBySid(st, objectId)
  }

  /** The lookup strategy depends only on the id: a numeric id never
      consults the sid index, any other id never the primary key. */
  lemma LookupStrategy(st1: Store, st2: Store, objectId: Value)
    ensures IsNumeric(objectId) && st1.byPk == st2.byPk ==>
              LookupIdOrSid(st1, objectId) == LookupIdOrSid(st2, objectId)
    ensures !IsNumeric(objectId) && st1.bySid == st2.bySid ==>
              LookupIdOrSid(st1, objectId) == LookupIdOrSid(st2, objectId)
  {
  }

  /** `_objectWithId`: null for a missing id (no lookup), the object when
      found, otherwise a code -1 envelope "<param> 目标对象不存在". */
  function ObjectWithId(objectId: Value, param: string, st: Store): (r: Value)
    ensures objectId == Null ==> r == Null
    ensures objectId != Null && LookupIdOrSid(st, objectId).Some? ==>
              r == Obj(LookupIdOrSid(st, objectId).value)
    ensures objectId != Null && LookupIdOrSid(st, objectId).None? ==>
              IsEnvelope(r, CODE_INVALID_PARAM, param + " 目标对象不存在", None)
  {
    if objectId == Null then Null
    else
      match LookupIdOrSid(st, objectId)
      case Some(found) => Obj(found)
      case None =>
        var message := param + " 目标对象不存在";
        assert |message| > 1;
        FailedWithWrongParam(Some(message))
  }

  /** `objectOk`: false exactly for null and for arrays (error envelopes). */
  predicate ObjectOk(result: Value): (ok: bool)
    ensures result.Obj? ==> ok
    ensures result.Null? || result.List? || result.Dict? ==> !ok
  {
    !(result == Null || IsArray(result))
  }

  /** `_objectWithId` succeeds exactly when an id was given and a record
      matches it. */
  lemma ObjectWithIdOk(objectId: Value, param: string, st: Store)
    ensures ObjectOk(ObjectWithId(objectId, param, st)) <==>
              objectId != Null && LookupIdOrSid(st, objectId).Some?
  {
  }

  /** `failedWithResult`: a result that is `== null` becomes the code -1
      envelope "缺少 <param> 参数"; anything else is returned unchanged. */
  function FailedWithResult(result: Value, param: string): (r: Value)
    ensures LooseEquals(result, Null) ==> IsEnvelope(r, CODE_INVALID_PARAM, "缺少 " + param + " 参数", None)
    ensures !LooseEquals(result, Null) ==> r == result
  {
    if LooseEquals(result, Null) then
      var message := "缺少 " + param + " 参数";
      assert |message| > 1;
      FailedWithWrongParam(Some(message))
    else result
  }

  /** `isSuccess`: the `code` entry exists and is identical to the integer 0. */
  predicate IsSuccess(result: Value): (ok: bool)
    ensures ok <==> Get(result, KEY_CODE) == Int(CODE_SUCCESS)
    ensures Get(result, KEY_CODE) == Str("0") ==> !ok
  {
    Isset(result, KEY_CODE) && result.fields[KEY_CODE] == Int(CODE_SUCCESS)
  }

  /** An envelope built by `exit` is a success exactly when its code is 0. */
  lemma ExitSuccessIff(code: int, message: Option<string>, data: Value)
    requires data.Null? || IsArray(data)
    ensures IsSuccess(Exit(code, message, data)) <==> code == CODE_SUCCESS
  {
  }

  /** Feeding a resolution through `failedWithResult` gives the object when
      one was found, and otherwise an envelope that is not a success:
      "缺少 <param> 参数" for a missing id, "<param> 目标对象不存在" for an
      unknown one. */
  lemma ResolutionThroughFailedWithResult(objectId: Value, param: string, st: Store)
    ensures var r := FailedWithResult(ObjectWithId(objectId, param, st), param);
            (ObjectOk(r) <==> objectId != Null && LookupIdOrSid(st, objectId).Some?) &&
            (ObjectOk(r) ==> r == Obj(LookupIdOrSid(st, objectId).value)) &&
            (!ObjectOk(r) ==> !IsSuccess(r) && Get(r, KEY_CODE) == Int(CODE_INVALID_PARAM)) &&
            (objectId == Null ==> Get(r, KEY_MSG) == Str("缺少 " + param + " 参数")) &&
            (objectId != Null && LookupIdOrSid(st, objectId).None? ==>
               Get(r, KEY_MSG) == Str(param + " 目标对象不存在"))
  {
    var result := ObjectWithId(objectId, param, st);
    var r := FailedWithResult(result, param);
    if objectId == Null {
      assert LooseEquals(result, Null);
      assert IsEnvelope(r, CODE_INVALID_PARAM, "缺少 " + param + " 参数", None);
    } else if LookupIdOrSid(st, objectId).Some? {
      assert result.Obj? && r == result;
    } else {
      assert IsEnvelope(result, CODE_INVALID_PARAM, param + " 目标对象不存在", None);
      assert KEY_CODE in result.fields;
      assert !LooseEquals(result, Null);
      assert r == result;
    }
  }

  // ---------------------------------------------------------------------------
  // Request parameters.
  // ---------------------------------------------------------------------------

  /** `getGet`: the query parameter; with `strict`, a value `== null`
      throws `WrongParamException("[GET]缺少 <key> 参数")`. */
  function GetGet(request: Request, key: string, strict: bool := false): (r: Outcome)
    reads request
    ensures r.Thrown? <==> strict && LooseEquals(request.Get(key), Null)
    ensures r.Thrown? ==> r.error == WrongParam("[GET]缺少 " + key + " 参数")
    ensures r.Returned? ==> r.value == request.Get(key)
  {
    var value := request.Get(key);
    if LooseEquals(value, Null) && strict then Thrown(WrongParam("[GET]缺少 " + key + " 参数"))
    else Returned(value)
  }

  /** `getPost`: as `getGet`, on the body parameters. */
  function GetPost(request: Request, key: string, strict: bool := false): (r: Outcome)
    reads request
    ensures r.Thrown? <==> strict && LooseEquals(request.Post(key), Null)
    ensures r.Thrown? ==> r.error == WrongParam("[POST]缺少 " + key + " 参数")
    ensures r.Returned? ==> r.value == request.Post(key)
  {
    var value := request.Post(key);
    if LooseEquals(value, Null) && strict then Thrown(WrongParam("[POST]缺少 " + key + " 参数"))
    else Returned(value)
  }

  /** `objectWithGetParam`: `_objectWithId` on a query parameter. */
  function ObjectWithGetParam(request: Request, param: string, st: Store): (r: Value)
    reads request
    ensures r == ObjectWithId(request.Get(param), param, st)
    ensures request.Get(param) == Null ==> r == Null
    ensures ObjectOk(r) <==> request.Get(param) != Null && LookupIdOrSid(st, request.Get(param)).Some?
  {
    ObjectWithIdOk(request.Get(param), param, st);
    ObjectWithId(request.Get(param), param, st)
  }

  /** `objectWithPostParam`: `_objectWithId` on a body parameter. */
  function ObjectWithPostParam(request: Request, param: string, st: Store): (r: Value)
    reads request
    ensures r == ObjectWithId(request.Post(param), param, st)
    ensures request.Post(param) == Null ==> r == Null
    ensures ObjectOk(r) <==> request.Post(param) != Null && LookupIdOrSid(st, request.Post(param)).Some?
  {
    ObjectWithIdOk(request.Post(param), param, st);
    ObjectWithId(request.Post(param), param, st)
  }

  /** The parameter `objectWithParam` reads: from the body for POST, PUT and
      PATCH, from the query string otherwise. */
  function RequestParam(verb: Method, queryParams: map<string, Value>, bodyParams: map<string, Value>,
                        name: string): (v: Value)
    ensures CarriesBody(verb) ==> v == Param(bodyParams, name)
    ensures !CarriesBody(verb) ==> v == Param(queryParams, name)
  {
    if verb == POST then Param(bodyParams, name)
    else if verb == PUT || verb == PATCH then Param(bodyParams, name)
    else Param(queryParams, name)
  }

  /** The resolution `objectWithParam` makes once it has the id: null for a
      missing id, otherwise the record found by id or sid, or null. */
  function ResolveId(objectId: Value, st: Store): (r: Value)
    ensures r.Obj? <==> objectId != Null && LookupIdOrSid(st, objectId).Some?
    ensures r.Obj? ==> r.record == LookupIdOrSid(st, objectId).value
    ensures r.Null? <==> !r.Obj?
  {
    if objectId == Null then Null
    else AsValue(LookupIdOrSid(st, objectId))
  }

  /** `objectWithParam`: the id is read from the body for POST, PUT and
      PATCH and from the query string otherwise, then resolved. */
  function ObjectWithParam(request: Request, param: string, st: Store): (r: Value)
    reads request
    ensures r == ResolveId(RequestParam(request.verb, request.queryParams, request.bodyParams, param), st)
  {
    var objectId := RequestParam(request.verb, request.queryParams, request.bodyParams, param);
    ResolveId(objectId, st)
  }

  /** `shortClassName`: the class name without namespace, first letter lowered. */
  function ShortClassName(modelClass: string): (r: string)
    ensures r == LcFirst(ActionTool.LastSegment(modelClass))
    ensures '\\' !in r
    ensures Lowercase(r) == ActionTool.CollectionNameForModel(modelClass)
  {
    var name := ActionTool.LastSegment(modelClass);
    LowercaseAfterLcFirst(name);
    LcFirst(name)
  }

  /** The parameter name and the collection key agree exactly when the short
      class name has no capital letter after its first character. */
  lemma ShortNameVersusCollectionKey(modelClass: string)
    ensures var segment := ActionTool.LastSegment(modelClass);
            ShortClassName(modelClass) == ActionTool.CollectionNameForModel(modelClass) <==>
              forall i :: 1 <= i < |segment| ==> !IsUpper(segment[i])
  {
    var segment := ActionTool.LastSegment(modelClass);
    assert ShortClassName(modelClass) == LcFirst(segment);
    assert ActionTool.CollectionNameForModel(modelClass) == Lowercase(segment);
    LcFirstVersusLowercase(segment);
  }

  /** The last segment of `frontend\models\PayType` is `PayType`. */
  lemma PayTypeSegment()
    ensures ActionTool.LastSegment("frontend\\models\\PayType") == "PayType"
  {
    ActionTool.LastSegmentAfterSeparator("frontend\\models", "PayType");
    assert "frontend\\models" + ['\\'] + "PayType" == "frontend\\models\\PayType";
  }

  /** For `frontend\models\PayType` the two names differ: the parameter
      name is `payType`, the collection key `paytype`. */
  lemma PayTypeNames()
    ensures ShortClassName("frontend\\models\\PayType") == "payType"
    ensures ActionTool.CollectionNameForModel("frontend\\models\\PayType") == "paytype"
  {
    assert LcFirst("PayType") == "payType";
    assert Lowercase("PayType") == "paytype";
    PayTypeSegment();
  }

  /** `classicObjectWithParam`: the object named by the `<shortName>Sid` parameter. */
  function ClassicObjectWithParam(request: Request, modelClass: string, st: Store): (r: Value)
    reads request
    ensures var id := RequestParam(request.verb, request.queryParams, request.bodyParams,
                                   ShortClassName(modelClass) + "Sid");
            (r.Obj? <==> id != Null && LookupIdOrSid(st, id).Some?) &&
            (r.Obj? ==> r.record == LookupIdOrSid(st, id).value) &&
            (r.Null? <==> !r.Obj?)
  {
    ObjectWithParam(request, ShortClassName(modelClass) + "Sid", st)
  }

  /** The query and body parameters after `updateParams(params)`: the
      parameters are merged, later keys winning, into the body parameters for
      POST, PUT and PATCH and into the query parameters otherwise. */
  function UpdatedParams(verb: Method, queryParams: map<string, Value>, bodyParams: map<string, Value>,
                         params: map<string, Value>): (r: (map<string, Value>, map<string, Value>))
    ensures CarriesBody(verb) ==> r.0 == queryParams && r.1.Keys == bodyParams.Keys + params.Keys
    ensures !CarriesBody(verb) ==> r.1 == bodyParams && r.0.Keys == queryParams.Keys + params.Keys
  {
    if CarriesBody(verb) then (queryParams, bodyParams + params) else (queryParams + params, bodyParams)
  }

  /** What `updateParams` writes is what `objectWithParam` then reads: the
      merged value for a merged key, the old value for any other key. */
  lemma {:induction false} ReadAfterUpdate(verb: Method, queryParams: map<string, Value>,
                                           bodyParams: map<string, Value>, params: map<string, Value>,
                                           name: string)
    ensures var (q, b) := UpdatedParams(verb, queryParams, bodyParams, params);
            RequestParam(verb, q, b, name) ==
              if name in params then params[name] else RequestParam(verb, queryParams, bodyParams, name)
  {
  }

  /** `updateQueryParam`: merge into the query parameters. */
  method UpdateQueryParam(request: Request, params: map<string, Value>)
    modifies request
    ensures request.queryParams == old(request.queryParams) + params
    ensures request.bodyParams == old(request.bodyParams) && request.verb == old(request.verb)
  {
    var oldParams := request.queryParams;
    request.queryParams := oldParams + params;
  }

  /** `updateRequestBody`: merge into the body parameters. */
  method UpdateRequestBody(request: Request, params: map<string, Value>)
    modifies request
    ensures request.bodyParams == old(request.bodyParams) + params
    ensures request.queryParams == old(request.queryParams) && request.verb == old(request.verb)
  {
    var oldParams := request.bodyParams;
    request.bodyParams := oldParams + params;
  }

  /** `updateParams`: merge into the parameters of the request's kind. */
  method UpdateParams(request: Request, params: map<string, Value>)
    modifies request
    ensures (request.queryParams, request.bodyParams) ==
            UpdatedParams(request.verb, old(request.queryParams), old(request.bodyParams), params)
    ensures request.verb == old(request.verb)
  {
    if request.verb == POST || request.verb == PATCH || request.verb == PUT {
      UpdateRequestBody(request, params);
    } else {
      UpdateQueryParam(request, params);
    }
  }

  /** The outcome of `updateObjectParam` on a request's parameters: whether
      the object named by `<shortName>Sid` was found, and the query and body
      parameters afterwards, `<shortName>Id => object.id` merged in when it was. */
  function ObjectParamUpdate(verb: Method, queryParams: map<string, Value>, bodyParams: map<string, Value>,
                             modelClass: string, st: Store): (r: (bool, map<string, Value>, map<string, Value>))
    ensures var name := ShortClassName(modelClass);
            var id := RequestParam(verb, queryParams, bodyParams, name + "Sid");
            (r.0 <==> id != Null && LookupIdOrSid(st, id).Some?) &&
            (r.0 ==> (r.1, r.2) == UpdatedParams(verb, queryParams, bodyParams,
                                                 map[name + "Id" := Int(LookupIdOrSid(st, id).value.id)])) &&
            (!r.0 ==> r.1 == queryParams && r.2 == bodyParams)
  {
    var name := ShortClassName(modelClass);
    var found := ResolveId(RequestParam(verb, queryParams, bodyParams, name + "Sid"), st);
    if found.Obj? then
      var updated := UpdatedParams(verb, queryParams, bodyParams, map[name + "Id" := Int(found.record.id)]);
      (true, updated.0, updated.1)
    else (false, queryParams, bodyParams)
  }

  /** `updateObjectParam`: find the object named by `<shortName>Sid`; when
      there is none report false and change nothing, otherwise merge
      `<shortName>Id => object.id` into the request and report true. */
  method UpdateObjectParam(request: Request, modelClass: string, st: Store) returns (updated: bool)
    modifies request
    ensures (updated, request.queryParams, request.bodyParams) ==
            ObjectParamUpdate(old(request.verb), old(request.queryParams), old(request.bodyParams), modelClass, st)
    ensures request.verb == old(request.verb)
  {
    ghost var verb, queryParams, bodyParams := request.verb, request.queryParams, request.bodyParams;
    var name := ShortClassName(modelClass);
    var sidName := name + "Sid";
    var idName := name + "Id";
    var found := ObjectWithParam(request, sidName, st);
    assert found == ResolveId(RequestParam(verb, queryParams, bodyParams, sidName), st);
    if !Truthy(found) {
      assert !found.Obj?;
      return false;
    }
    assert found.Obj?;
    UpdateParams(request, map[idName := Int(found.record.id)]);
    return true;
  }
}
