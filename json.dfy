/**
  Decoded JSON values, as `JSON.parse` and `req.json()` produce them, and the
  few JavaScript operations the routes apply to them (property access,
  truthiness).
  */
module Json {
  import opened Wrappers
  import JsNumber

  datatype Value =
    | JNull
    | JBool(b: bool)
    | JNum(n: real)
    | JStr(s: string)
    | JArr(items: seq<Value>)
    | JObj(fields: map<string, Value>)

  /** Why evaluating a JavaScript expression threw. */
  datatype JsError = TypeError(what: string)

  /** `obj[key]` on a decoded value: `undefined` (None) for a missing key or a
      non-object, and a TypeError when `obj` is null. */
  function Prop(v: Value, key: string): (r: Result<Option<Value>, JsError>)
    ensures r.Err? <==> v == JNull
    ensures r.Ok? && r.value.Some? ==> v.JObj? && key in v.fields && r.value.value == v.fields[key]
    ensures v.JObj? && key in v.fields ==> r == Ok(Some(v.fields[key]))
  {
    match v
    case JNull => Err(TypeError("Cannot destructure null"))
    case JObj(m) => Ok(if key in m then Some(m[key]) else None)
    case _ => Ok(None)
  }

  /** The own enumerable properties of an array (or of a string's
      characters): element `i` under the key `String(i)`. */
  function Indexed(items: seq<Value>): (m: map<string, Value>)
    ensures m.Keys == IndexKeys(|items|)
    ensures forall i :: 0 <= i < |items| ==> m[JsNumber.DecimalString(i)] == items[i]
  {
    DecimalsDistinct();
    map i | 0 <= i < |items| :: JsNumber.DecimalString(i) := items[i]
  }

  /** The keys `"0"` to `String(len - 1)`. */
  function IndexKeys(len: nat): set<string> {
    set i | 0 <= i < len :: JsNumber.DecimalString(i)
  }

  lemma DecimalsDistinct()
    ensures forall i: nat, j: nat :: JsNumber.DecimalString(i) == JsNumber.DecimalString(j) ==> i == j
  {
    forall i: nat, j: nat | JsNumber.DecimalString(i) == JsNumber.DecimalString(j)
      ensures i == j
    {
      JsNumber.DecimalInjective(i, j);
    }
  }

  /** `const { key, ...rest } = v`: `rest` is a fresh plain object holding
      the own enumerable properties of `v` other than `key`. A boolean or a
      number has none, a string has one per character and an array one per
      element; destructuring null throws. */
  function RestWithout(v: Value, key: string): (r: Result<Value, JsError>)
    ensures r.Err? <==> v == JNull
    ensures r.Ok? ==> r.value.JObj? && key !in r.value.fields
    ensures v.JObj? ==> r.Ok? && r.value.fields.Keys == v.fields.Keys - {key}
    ensures v.JObj? ==> forall k :: k in v.fields && k != key ==> r.value.fields[k] == v.fields[k]
    ensures v.JBool? || v.JNum? ==> r == Ok(JObj(map[]))
    ensures v.JArr? ==> r.Ok? && forall i :: 0 <= i < |v.items| && JsNumber.DecimalString(i) != key ==>
      JsNumber.DecimalString(i) in r.value.fields && r.value.fields[JsNumber.DecimalString(i)] == v.items[i]
    ensures v.JStr? ==> r.Ok? && forall i :: 0 <= i < |v.s| && JsNumber.DecimalString(i) != key ==>
      JsNumber.DecimalString(i) in r.value.fields && r.value.fields[JsNumber.DecimalString(i)] == JStr([v.s[i]])
  {
    match v
    case JNull => Err(TypeError("Cannot destructure null"))
    case JBool(_) => Ok(JObj(map[]))
    case JNum(_) => Ok(JObj(map[]))
    case JStr(s) => Ok(JObj(Indexed(seq(|s|, i requires 0 <= i < |s| => JStr([s[i]]))) - {key}))
    case JArr(items) => Ok(JObj(Indexed(items) - {key}))
    case JObj(m) => Ok(JObj(m - {key}))
  }

  /** `obj[key]` where `obj` is known not to be null. */
  function Get(v: Value, key: string): (r: Option<Value>)
    ensures r.Some? <==> v.JObj? && key in v.fields
    ensures r.Some? ==> r.value == v.fields[key]
  {
    if v.JObj? && key in v.fields then Some(v.fields[key]) else None
  }

  /** JavaScript truthiness of a value that may be `undefined`. */
  predicate Truthy(v: Option<Value>) {
    match v
    case None => false
    case Some(JNull) => false
    case Some(JBool(b)) => b
    case Some(JNum(n)) => n != 0.0
    case Some(JStr(s)) => s != ""
    case Some(_) => true
  }

  /** `typeof v === 'string'` */
  predicate IsStr(v: Option<Value>) {
    v.Some? && v.value.JStr?
  }

  /** `typeof v === 'object' && v !== null` (arrays included, as in JavaScript). */
  predicate IsNonNullObject(v: Value) {
    v.JObj? || v.JArr?
  }
}
