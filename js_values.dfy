/**
 * The JavaScript values the resolvers look into: resolver arguments, parsed
 * criteria and records. `undefined` is `None` of a `Value`; everything that
 * JSON can carry is a `Json`. Numbers are integers here.
 */
module JsValues {
  import opened Wrappers

  datatype Json =
    | Null
    | Bool(b: bool)
    | Num(n: int)
    | Str(s: string)
    | Arr(items: seq<Json>)
    | Obj(fields: map<string, Json>)

  /** A value read from an object; `None` is `undefined`. */
  type Value = Option<Json>

  /** What the core throws or returns in place of a result. */
  datatype JsError =
    | TypeError                       // property access on undefined or null
    | InvalidModels                   // getGraphQLSchemaFrom called with a falsy model set
    | MissingParameter(message: string)
    | SyntaxError                     // JSON.parse on text that is not JSON

  /** JavaScript truthiness (no NaN: numbers are integers). */
  predicate Truthy(v: Value) {
    match v
    case None => false
    case Some(j) =>
      match j
      case Null => false
      case Bool(b) => b
      case Num(n) => n != 0
      case Str(s) => s != ""
      case Arr(_) => true
      case Obj(_) => true
  }

  /** `m[key]` on a plain object. */
  function Lookup(m: map<string, Json>, key: string): Value {
    if key in m then Some(m[key]) else None
  }

  /**
   * `v.key` for the named properties the core reads (`type`, `criteria`,
   * `where`, `id`): a TypeError on undefined and null, the entry of an
   * object, and undefined on every other value.
   */
  function Prop(v: Value, key: string): (r: Result<Value, JsError>)
    ensures r.Failure? <==> v.None? || v == Some(Null)
    ensures r.Failure? ==> r.error == TypeError
    ensures r.Success? && r.value.Some? ==> v.value.Obj? && key in v.value.fields && r.value.value == v.value.fields[key]
    ensures v.Some? && v.value.Obj? ==> r == Success(Lookup(v.value.fields, key))
    ensures v.Some? && !v.value.Obj? && v.value != Null ==> r == Success(None)
  {
    match v
    case None => Failure(TypeError)
    case Some(Null) => Failure(TypeError)
    case Some(Obj(f)) => Success(Lookup(f, key))
    case Some(_) => Success(None)
  }

  /** The decimal spelling of an array index, the key an object would use for it. */
  function IndexKey(i: nat): string
    decreases i
  {
    if i < 10 then [Digit(i)] else IndexKey(i / 10) + [Digit(i % 10)]
  }

  function Digit(d: nat): char
    requires d < 10
  {
    "0123456789"[d]
  }

  /**
   * `v[i]`: a TypeError on undefined and null, the element of an array, the
   * one-character string of a string, the entry of an object under the
   * index's decimal key, and undefined on booleans and numbers.
   */
  function At(v: Value, i: nat): (r: Result<Value, JsError>)
    ensures r.Failure? <==> v.None? || v == Some(Null)
    ensures Truthy(v) ==> r.Success?
    ensures v.Some? && v.value.Arr? ==>
      r == Success(if i < |v.value.items| then Some(v.value.items[i]) else None)
    ensures v.Some? && v.value.Str? ==>
      r == Success(if i < |v.value.s| then Some(Str([v.value.s[i]])) else None)
    ensures v.Some? && v.value.Obj? ==> r == Success(Lookup(v.value.fields, IndexKey(i)))
    ensures v.Some? && (v.value.Bool? || v.value.Num?) ==> r == Success(None)
  {
    match v
    case None => Failure(TypeError)
    case Some(Null) => Failure(TypeError)
    case Some(Arr(items)) => Success(if i < |items| then Some(items[i]) else None)
    case Some(Str(s)) => Success(if i < |s| then Some(Str([s[i]])) else None)
    case Some(Obj(f)) => Success(Lookup(f, IndexKey(i)))
    case Some(_) => Success(None)
  }
}
