/**
 * The few pieces of JavaScript semantics the modelled TypeScript relies on:
 * optional values, completions that may throw, string truthiness,
 * `String.prototype.startsWith`, and the `in` operator on a plain object
 * literal, which also sees the keys inherited from `Object.prototype`.
 */
module Js {

  /** `T | undefined` */
  datatype Option<+T> = None | Some(value: T) {
    /** `x ?? d` */
    function GetOr(d: T): T {
      match this
      case Some(v) => v
      case None => d
    }
  }

  datatype JsError = TypeError

  /** The outcome of evaluating a call: a value, or a thrown error. */
  datatype Completion<+T> = Normal(value: T) | Throw(error: JsError)

  /** A JavaScript value, as far as this model needs to tell values apart. */
  datatype JsValue =
    | JsNumber(n: int)
    | JsString(s: string)
    | JsBoolean(b: bool)
    | JsUndefined
    | JsObject

  /** `!!s` for `s: string | undefined`: absent and empty strings are falsy. */
  predicate Truthy(s: Option<string>) {
    s.Some? && s.value != ""
  }

  /** `s.startsWith(prefix)` */
  predicate StartsWith(s: string, prefix: string) {
    |prefix| <= |s| && s[..|prefix|] == prefix
  }

  /** The property names every plain object literal inherits from `Object.prototype`. */
  const ObjectPrototypeKeys: set<string> := {
    "constructor", "__defineGetter__", "__defineSetter__", "hasOwnProperty",
    "__lookupGetter__", "__lookupSetter__", "isPrototypeOf", "propertyIsEnumerable",
    "toString", "valueOf", "__proto__", "toLocaleString"
  }

  /** `key in obj` for an object literal whose own keys are `own`. */
  predicate HasProperty(own: set<string>, key: string) {
    key in own || key in ObjectPrototypeKeys
  }

  /**
   * The completion of `obj[key](x, y)` where `obj` is a plain object literal that has
   * no own property `key`, `key` is inherited from `Object.prototype`, `x` is a number
   * or a plain object and `y` is a number or undefined.
   */
  function CallInherited(key: string): (c: Completion<JsValue>)
    requires key in ObjectPrototypeKeys
    ensures c.Throw? <==> key in {"__proto__", "__defineGetter__", "__defineSetter__"}
    ensures c.Normal? ==> !c.value.JsNumber?
  {
    if key == "__proto__" then
      // Object.prototype itself is not callable
      Throw(TypeError)
    else if key == "__defineGetter__" || key == "__defineSetter__" then
      // its second argument is not a function
      Throw(TypeError)
    else if key == "__lookupGetter__" || key == "__lookupSetter__" then
      Normal(JsUndefined)
    else if key == "hasOwnProperty" || key == "isPrototypeOf" || key == "propertyIsEnumerable" then
      Normal(JsBoolean(false))
    else if key == "toString" || key == "toLocaleString" then
      Normal(JsString("[object Object]"))
    else
      // "constructor" boxes its argument, "valueOf" returns the object itself
      Normal(JsObject)
  }
}
