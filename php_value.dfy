/** PHP values as the library handles them: request parameters, response
    arrays and ActiveRecord objects, with PHP 8's truthiness (`if ($x)`,
    `empty`) and loose comparison (`==`). */
module PhpValue {
  import opened Wrappers
  import opened PhpString

  /** A PHP value. Arrays come in two shapes: a list (keys 0..n-1, in order)
      and a dictionary (string keys). */
  datatype Value =
    | Null
    | Bool(b: bool)
    | Int(i: int)
    | Str(s: string)
    | List(elems: seq<Value>)
    | Dict(fields: map<string, Value>)
    | Obj(record: Record)

  /** The validation errors of one attribute, in the order they were added. */
  datatype AttributeErrors = AttributeErrors(attribute: string, messages: seq<string>)

  /** An ActiveRecord / Model object: its class name, its primary key `id`,
      its other attributes and its validation errors (`getErrors()`). */
  datatype Record = Record(
    className: string,
    id: int,
    attributes: map<string, Value>,
    errors: seq<AttributeErrors>)

  predicate IsArray(v: Value) {
    v.List? || v.Dict?
  }

  /** `count($v)` on an array. */
  function Count(v: Value): nat
    requires IsArray(v)
  {
    if v.List? then |v.elems| else |v.fields|
  }

  /** PHP's conversion to bool: what `if ($v)` tests and `empty($v)` negates. */
  predicate Truthy(v: Value) {
    match v
    case Null => false
    case Bool(b) => b
    case Int(i) => i != 0
    case Str(s) => s != "" && s != "0"
    case List(e) => |e| > 0
    case Dict(f) => |f| > 0
    case Obj(_) => true
  }

  /** Truthiness of a nullable string. */
  predicate TruthyString(s: Option<string>) {
    s.Some? && Truthy(Str(s.value))
  }

  /** A nullable string as a PHP value. */
  function StrOrNull(s: Option<string>): Value {
    if s.Some? then Str(s.value) else Null
  }

  /** `$v[$key]` on a string-keyed array: the entry, or null when there is none. */
  function Get(v: Value, key: string): Value {
    if v.Dict? && key in v.fields then v.fields[key] else Null
  }

  /** `isset($v[$key])`: the entry exists and is not null. */
  predicate Isset(v: Value, key: string) {
    v.Dict? && key in v.fields && v.fields[key] != Null
  }

  /** `isset($object->name)` on a record attribute. */
  predicate AttributeSet(r: Record, name: string) {
    name in r.attributes && r.attributes[name] != Null
  }

  /** PHP 8 loose comparison `$a == $b` on the values above. Strings in
      integer form compare as integers with integers and with each other;
      null and booleans compare by truthiness (null equals only "" among
      strings); arrays and objects compare structurally. */
  predicate LooseEquals(a: Value, b: Value) {
    match (a, b)
    case (Null, Null) => true
    case (Bool(x), _) => x == Truthy(b)
    case (_, Bool(y)) => Truthy(a) == y
    case (Null, Str(t)) => t == ""
    case (Str(s), Null) => s == ""
    case (Null, _) => !Truthy(b)
    case (_, Null) => !Truthy(a)
    case (Int(i), Int(j)) => i == j
    case (Int(i), Str(t)) => IntegerValue(t) == Some(i)
    case (Str(s), Int(j)) => IntegerValue(s) == Some(j)
    case (Str(s), Str(t)) =>
      if IntegerValue(s).Some? && IntegerValue(t).Some? then IntegerValue(s) == IntegerValue(t)
      else s == t
    case _ => a == b
  }

  /** Loose comparison does not depend on the order of its operands. */
  lemma LooseEqualsSymmetric(a: Value, b: Value)
    ensures LooseEquals(a, b) == LooseEquals(b, a)
  {
  }

  /** `$v == null` holds exactly for the falsy values other than "0". */
  lemma LooselyNull(v: Value)
    ensures LooseEquals(v, Null) <==> !Truthy(v) && v != Str("0")
  {
  }

  /** `is_numeric($v)`: integers, and strings of PHP 8's numeric form. */
  predicate IsNumeric(v: Value) {
    match v
    case Int(_) => true
    case Str(s) => NumericString(s)
    case _ => false
  }

  /** `$model->hasErrors()`. */
  predicate HasErrors(r: Record) {
    |r.errors| > 0
  }

  /** `$model->getFirstErrors()`: for each attribute with errors, in order,
      the attribute and its first message. */
  function FirstErrors(errors: seq<AttributeErrors>): (r: seq<(string, string)>)
    ensures |r| <= |errors|
    ensures forall k :: 0 <= k < |r| ==>
              exists j :: 0 <= j < |errors| && r[k].0 == errors[j].attribute &&
                          |errors[j].messages| > 0 && r[k].1 == errors[j].messages[0]
    ensures (exists j :: 0 <= j < |errors| && |errors[j].messages| > 0) ==> |r| > 0
    ensures |errors| == 1 ==>
              r == if |errors[0].messages| > 0 then [(errors[0].attribute, errors[0].messages[0])] else []
    decreases |errors|
  {
    if |errors| == 0 then []
    else
      var tail := FirstErrors(errors[1..]);
      var e := errors[0];
      if |e.messages| > 0 then [(e.attribute, e.messages[0])] + tail else tail
  }

  /** `getFirstErrors` goes attribute by attribute: the first errors of two
      runs of attributes are those of the first run followed by those of the
      second. With the single-attribute case this fixes the whole list. */
  lemma {:induction false} FirstErrorsConcat(a: seq<AttributeErrors>, b: seq<AttributeErrors>)
    ensures FirstErrors(a + b) == FirstErrors(a) + FirstErrors(b)
    decreases |a|
  {
    if |a| == 0 {
      assert a + b == b;
    } else {
      assert (a + b)[1..] == a[1..] + b;
      FirstErrorsConcat(a[1..], b);
    }
  }

  /** Every attribute that has messages contributes its first one. */
  lemma FirstErrorsComplete(errors: seq<AttributeErrors>, j: int)
    requires 0 <= j < |errors| && |errors[j].messages| > 0
    ensures (errors[j].attribute, errors[j].messages[0]) in FirstErrors(errors)
  {
    var before, here, after := errors[..j], [errors[j]], errors[j + 1..];
    assert errors == before + here + after;
    FirstErrorsConcat(before + here, after);
    FirstErrorsConcat(before, here);
  }
}
