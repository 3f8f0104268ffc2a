/** The `create` action: report validation errors, otherwise re-read the
    saved record and return it under its singular lower-case key. */
module CreateAction {
  import opened Wrappers
  import opened PhpString
  import opened PhpValue
  import opened Store
  import opened ApiController
  import opened ResponseTrait
  import opened ActionTrait
  import ActionTool

  /** `Json::encode` of the first errors. */
  type Encoder = seq<(string, string)> -> string

  /** The response `run` gives: code -1 with the encoded first errors when
      the created model has errors; otherwise code 0, "成功", and the
      record re-read by the new id (null if gone) under the model's key. */
  function CreateResponse(created: Record, modelClass: string, st: Store, encode: Encoder): (r: Value)
    ensures HasErrors(created) ==>
              IsEnvelope(r, CODE_INVALID_PARAM, MessageText(Some(encode(FirstErrors(created.errors)))), None)
    ensures !HasErrors(created) ==>
              IsEnvelope(r, CODE_SUCCESS, SUCCESS_MESSAGE,
                         Some(Dict(map[ActionTool.CollectionNameForModel(modelClass) :=
                                         AsValue(FindOne(st, Int(created.id)))])))
  {
    if HasErrors(created) then FailedWithWrongParam(Some(encode(FirstErrors(created.errors))))
    else
      var payload := SingleEntry(ActionTool.CollectionNameForModel(modelClass), AsValue(FindOne(st, Int(created.id))));
      SuccessWithData(payload)
  }

  /** The payload `[$key => $value]`: one entry, so never empty. */
  function SingleEntry(key: string, value: Value): (d: Value)
    ensures d == Dict(map[key := value])
    ensures IsArray(d) && Truthy(d)
  {
    var fields := map[key := value];
    assert key in fields;
    Dict(fields)
  }

  /** A create succeeds exactly when the model has no errors, and a created
      record is returned under the same key a view of it uses. */
  lemma CreateSucceedsIff(created: Record, modelClass: string, st: Store, encode: Encoder)
    ensures IsSuccess(CreateResponse(created, modelClass, st, encode)) <==> !HasErrors(created)
    ensures !HasErrors(created) ==>
              Get(CreateResponse(created, modelClass, st, encode), KEY_DATA).fields.Keys ==
              {ActionTool.CollectionNameForModel(modelClass)}
  {
  }

  class CreateAction {
    const modelClass: string
    /** The record the last successful `run` re-read. */
    var newObject: Value

    constructor(modelClass: string)
      ensures this.modelClass == modelClass && newObject == Null
    {
      this.modelClass := modelClass;
      newObject := Null;
    }

    /** `run`, given the model the framework's create step produced: on
      errors nothing is re-read and `newObject` is untouched; otherwise
      `newObject` becomes the record found by the new id. */
    method Run(created: Record, st: Store, encode: Encoder) returns (r: Value)
      modifies this
      ensures HasErrors(created) ==> newObject == old(newObject)
      ensures !HasErrors(created) ==> newObject == AsValue(FindOne(st, Int(created.id)))
      ensures r == CreateResponse(created, modelClass, st, encode)
    {
      if HasErrors(created) {
        return FailedWithWrongParam(Some(encode(FirstErrors(created.errors))));
      }
      var model := AsValue(FindOne(st, Int(created.id)));
      newObject := model;
      var arr := Explode('\\', modelClass);
      var classLastName := arr[|arr| - 1];
      assert classLastName == ActionTool.LastSegment(modelClass);
      classLastName := Lowercase(classLastName);
      assert classLastName == ActionTool.CollectionNameForModel(modelClass);
      r := SuccessWithData(SingleEntry(classLastName, model));
    }
  }
}
