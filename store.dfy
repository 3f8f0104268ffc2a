/** The record store behind `findOne`: what it answers for a primary-key
    argument and for an `['sid' => ...]` condition. */
module Store {
  import opened Wrappers
  import opened PhpValue

  /** `byPk[v]` is the record `findOne(v)` finds; `bySid[v]` the record
      `findOne(['sid' => v])` finds. How the database coerces `v` to the
      column type is part of these maps. */
  datatype Store = Store(byPk: map<Value, Record>, bySid: map<Value, Record>)

  /** `Model::findOne($key)`. */
  function FindOne(st: Store, key: Value): (r: Option<Record>)
    ensures r.Some? <==> key in st.byPk
    ensures r.Some? ==> r.value == st.byPk[key]
  {
    if key in st.byPk then Some(st.byPk[key]) else None
  }

  /** `Model::findOne(['sid' => $sid])`. */
  function FindOneBySid(st: Store, sid: Value): (r: Option<Record>)
    ensures r.Some? <==> sid in st.bySid
    ensures r.Some? ==> r.value == st.bySid[sid]
  {
    if sid in st.bySid then Some(st.bySid[sid]) else None
  }

  /** A found record as the PHP value `findOne` returns: the object or null. */
  function AsValue(r: Option<Record>): (v: Value)
    ensures v.Null? <==> r.None?
    ensures r.Some? ==> v == Obj(r.value)
  {
    if r.Some? then Obj(r.value) else Null
  }
}
