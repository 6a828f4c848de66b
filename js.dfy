/** The JavaScript values the core inspects: configuration values, parsed JSON documents,
    webview message fields and manifest fields. Numbers are integers here. */
module Js {
  import opened Wrappers

  datatype JsValue =
    | Undefined
    | Null
    | Bool(b: bool)
    | Num(n: int)
    | Str(s: string)
    | Arr(items: seq<JsValue>)
    | Obj(props: seq<Prop>)

  /** One own property of an object, in the object's key order. Objects built by `JSON.parse`
      have distinct keys. */
  datatype Prop = Prop(key: string, value: JsValue)

  /** JavaScript truthiness: `undefined`, `null`, `false`, `0` and `""` are falsy. */
  predicate Truthy(v: JsValue) {
    match v
    case Undefined => false
    case Null => false
    case Bool(b) => b
    case Num(n) => n != 0
    case Str(s) => s != ""
    case _ => true
  }

  /** `v ?? fallback`: only `null` and `undefined` fall through. */
  function Coalesce(v: JsValue, fallback: JsValue): JsValue {
    if v.Undefined? || v.Null? then fallback else v
  }

  /** `typeof v === "string" ? v : ""`. */
  function StringOrEmpty(v: JsValue): string {
    if v.Str? then v.s else ""
  }

  /** The value of the first property named `key`, if any. */
  function Lookup(props: seq<Prop>, key: string): (r: Option<JsValue>)
    ensures r.Some? <==> exists i :: 0 <= i < |props| && props[i].key == key
    ensures r.Some? ==> exists i :: 0 <= i < |props| && props[i] == Prop(key, r.value)
  {
    if props == [] then None
    else if props[0].key == key then Some(props[0].value)
    else
      var r := Lookup(props[1..], key);
      assert forall i :: 1 <= i < |props| ==> props[i] == props[1..][i - 1];
      r
  }

  /** Reading property `key` of `v`: `None` when the read throws (on `null`/`undefined`),
      `Undefined` when the property is absent. Only objects have the properties the core reads. */
  function Property(v: JsValue, key: string): (r: Option<JsValue>)
    ensures r.None? <==> v.Undefined? || v.Null?
    ensures !v.Obj? && r.Some? ==> r.value == Undefined
  {
    match v
    case Undefined => None
    case Null => None
    case Obj(props) => Some(Lookup(props, key).GetOr(Undefined))
    case _ => Some(Undefined)
  }

  /** `v[key]` where `v` is known not to be `null`/`undefined`, or `v?.[key]`: `undefined` when
      absent or when `v` is nullish. */
  function Field(v: JsValue, key: string): JsValue {
    Property(v, key).GetOr(Undefined)
  }

  /** `Array.isArray(v)`. */
  predicate IsArray(v: JsValue) {
    v.Arr?
  }

  /** The `{}` an empty body parses to. */
  const EmptyObject: JsValue := Obj([])
}
