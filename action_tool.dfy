/** Static helpers shared by the actions: the key a model's data is stored
    under, and the summary of a model's validation errors. */
module ActionTool {
  import opened Wrappers
  import opened PhpString
  import opened PhpValue

  /** `explode('\\', $modelClass)` followed by `array_pop`: the class name
      without its namespace, i.e. everything after the last backslash. */
  function LastSegment(modelClass: string): (r: string)
    ensures '\\' !in r
    ensures |r| <= |modelClass| && modelClass[|modelClass| - |r|..] == r
    ensures |r| < |modelClass| ==> modelClass[|modelClass| - |r| - 1] == '\\'
    ensures '\\' !in modelClass ==> r == modelClass
  {
    var parts := Explode('\\', modelClass);
    ExplodeLastIsSuffix('\\', modelClass);
    parts[|parts| - 1]
  }

  /** `collectionNameForModel`: the lower-cased class name without namespace,
      passed through the inflector when the plural is asked for. The plural is
      asked for by passing the inflector's `pluralize`. */
  function CollectionNameForModel(modelClass: string, pluralize: Option<string -> string> := None): (r: string)
    ensures pluralize.None? ==> '\\' !in r && NoUpper(r) && |r| == |LastSegment(modelClass)|
    ensures pluralize.None? ==> forall i :: 0 <= i < |r| ==> r[i] == ToLower(LastSegment(modelClass)[i])
    ensures pluralize.Some? ==> r == pluralize.value(CollectionNameForModel(modelClass))
    decreases pluralize.Some?
  {
    var classLastName := Lowercase(LastSegment(modelClass));
    if pluralize.Some? then pluralize.value(classLastName) else classLastName
  }

  /** A class name without namespace gives itself, lower-cased. */
  lemma CollectionNameWithoutNamespace(modelClass: string)
    requires '\\' !in modelClass
    ensures CollectionNameForModel(modelClass) == Lowercase(modelClass)
  {
  }

  /** The singular key is a fixed point: applying the function to its own
      result gives the result back. */
  lemma {:induction false} CollectionNameIdempotent(modelClass: string)
    ensures CollectionNameForModel(CollectionNameForModel(modelClass)) == CollectionNameForModel(modelClass)
  {
    var r := CollectionNameForModel(modelClass);
    assert LastSegment(r) == r;
    LowercaseOfLower(r);
  }

  /** The segment after a final backslash is exactly the class's own name. */
  lemma LastSegmentAfterSeparator(namespace: string, name: string)
    requires '\\' !in name
    ensures LastSegment(namespace + ['\\'] + name) == name
  {
    var s := namespace + ['\\'] + name;
    var r := LastSegment(s);
    assert s[|s| - |name| - 1] == '\\';
    assert s[|s| - |name|..] == name;
    if |r| < |name| {
      assert false;
    } else if |r| > |name| {
      assert false;
    }
  }

  /** For 'common\models\User' the doc comment promises 'User'; the code
      gives the class's own name lower-cased, 'user'. */
  lemma CollectionNameOfQualifiedClass(namespace: string, name: string)
    requires '\\' !in name
    ensures CollectionNameForModel(namespace + ['\\'] + name) == Lowercase(name)
  {
    LastSegmentAfterSeparator(namespace, name);
  }

  /** `makeErrorSummary`: the first message of the first attribute that has
      one (`reset` of `getFirstErrors()`), or PHP `false` (here `None`)
      when the model has no error messages. */
  function MakeErrorSummary(model: Record): (r: Option<string>)
    ensures r.None? <==> forall j :: 0 <= j < |model.errors| ==> |model.errors[j].messages| == 0
    ensures r.Some? ==> exists j :: 0 <= j < |model.errors| && |model.errors[j].messages| > 0 &&
                                    r.value == model.errors[j].messages[0] &&
                                    forall k :: 0 <= k < j ==> |model.errors[k].messages| == 0
  {
    var errors := FirstErrors(model.errors);
    FirstErrorsHead(model.errors);
    if |errors| == 0 then None else Some(errors[0].1)
  }

  /** The head of `getFirstErrors()` belongs to the first attribute that has
      messages, and there is none exactly when no attribute has any. */
  lemma {:induction false} FirstErrorsHead(errors: seq<AttributeErrors>)
    ensures |FirstErrors(errors)| == 0 <==> forall j :: 0 <= j < |errors| ==> |errors[j].messages| == 0
    ensures |FirstErrors(errors)| > 0 ==>
              exists j :: 0 <= j < |errors| && |errors[j].messages| > 0 &&
                          FirstErrors(errors)[0].1 == errors[j].messages[0] &&
                          forall k :: 0 <= k < j ==> |errors[k].messages| == 0
    decreases |errors|
  {
    if |errors| > 0 {
      FirstErrorsHead(errors[1..]);
      if |errors[0].messages| == 0 && |FirstErrors(errors[1..])| > 0 {
        var j :| 0 <= j < |errors[1..]| && |errors[1..][j].messages| > 0 &&
                 FirstErrors(errors[1..])[0].1 == errors[1..][j].messages[0] &&
                 forall k :: 0 <= k < j ==> |errors[1..][k].messages| == 0;
        assert errors[j + 1] == errors[1..][j];
        forall k | 0 <= k < j + 1
          ensures |errors[k].messages| == 0
        {
          if k > 0 {
            assert errors[k] == errors[1..][k - 1];
          }
        }
      }
      if |errors[0].messages| == 0 && |FirstErrors(errors[1..])| == 0 {
        forall j | 0 <= j < |errors|
          ensures |errors[j].messages| == 0
        {
          if j > 0 {
            assert errors[j] == errors[1..][j - 1];
          }
        }
      }
    }
  }
}
