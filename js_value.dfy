/** The JavaScript values the handler inspects: everything `JSON.parse` can
    produce, plus `undefined`, which reading a missing property yields,
    and the built-in functions that reading a string's properties yields.
    Of a number the handler only ever reads its truthiness and its
    (always false) strict equality with a string, so a real stands for
    every number: any non-zero real can stand for an infinity such as
    the one `JSON.parse("1e400")` gives, and NaN, which is falsy, never
    comes out of `JSON.parse`. */
module JsValue {

  datatype Value =
    | Undefined
    | Null
    | Bool(b: bool)
    | Num(n: real)
    | Str(s: string)
    | Arr(elems: seq<Value>)
    | Obj(props: map<string, Value>)
      /** A built-in function of the engine, such as `String.prototype.link`;
          `name` is its `name` property. */
    | Builtin(name: string)

  /** `undefined` and `null`: reading a property of one of these without
      optional chaining throws a TypeError. */
  predicate Nullish(v: Value) {
    v.Undefined? || v.Null?
  }

  /** JavaScript's ToBoolean: `undefined`, `null`, `false`, `0` and `""`
      are falsy, every array and object is truthy. */
  predicate Truthy(v: Value) {
    match v
    case Undefined => false
    case Null => false
    case Bool(b) => b
    case Num(n) => n != 0.0
    case Str(s) => s != ""
    case Arr(_) => true
    case Obj(_) => true
    case Builtin(_) => true
  }

  /** `a || b`: the left operand when it is truthy, else the right one. */
  function Or(a: Value, b: Value): (r: Value)
    ensures Truthy(r) <==> Truthy(a) || Truthy(b)
    ensures Truthy(a) ==> r == a
    ensures !Truthy(a) ==> r == b
  {
    if Truthy(a) then a else b
  }

  /** `v?.key` for the property names the handler reads (`name`, `offers`,
      `price`, `priceCurrency`, `brand`, `sku`, `@type`, `link`): an
      object's own property of that name; on a string, `link` is the
      inherited HTML method `String.prototype.link`; on a function, `name`
      is its name; `undefined` in every other case, `null` and `undefined`
      included. No other of these names is a property of the number,
      boolean, string, array, function or object prototypes. */
  function Member(v: Value, key: string): Value {
    match v
    case Obj(props) => if key in props then props[key] else Undefined
    case Str(_) => if key == "link" then Builtin("link") else Undefined
    case Builtin(name) => if key == "name" then Str(name) else Undefined
    case _ => Undefined
  }

  /** Whether JavaScript's ToString throws on a parsed value, as it does in
      a template literal or in `parseFloat`. An object first has its
      `toString` called and then its `valueOf`; a parsed object inherits
      callable ones from the prototype, but an own `toString` property
      shadows the inherited one with a value that cannot be called, after
      which the inherited `valueOf` answers the object itself, which is
      not a primitive: a TypeError. An array is joined, so it throws
      exactly when one of its elements does. Primitives never throw, and
      neither does a built-in function, whose `toString` gives its source
      text. */
  predicate ToStringThrows(v: Value) {
    match v
    case Obj(props) => "toString" in props
    case Arr(elems) => exists i :: 0 <= i < |elems| && ToStringThrows(elems[i])
    case _ => false
  }

  /** The message of that TypeError in the Node.js engine. */
  const ConversionTypeError: string := "Cannot convert object to primitive value"
}
