/** The slice of JavaScript's value domain that the action-thunk factory
    inspects: truthiness (`data && data.payload`, `p && p.then && p.catch`),
    property reads on objects, and native promises. Function values other than
    the `then`/`catch` methods a native promise inherits from
    `Promise.prototype` are not part of this domain. */
module JsValues {

  datatype Option<+T> = None | Some(value: T)

  /** A JavaScript value. Numbers are integers here; `Obj` is a plain object
      (or, with `isError`, an `Error` instance) whose `props` are every
      string-keyed property a read sees on it, own or inherited through its
      prototype chain; `Promise` is a native promise that has already
      settled. */
  datatype JsValue =
    | Undefined
    | Null
    | Bool(b: bool)
    | Num(n: int)
    | Str(s: string)
    | Arr(items: seq<JsValue>)
    | Obj(props: map<string, JsValue>, isError: bool)
    | Promise(state: Settlement)

  /** How a promise settled. */
  datatype Settlement = Fulfilled(value: JsValue) | Rejected(reason: JsValue)

  /** JavaScript's ToBoolean: exactly `undefined`, `null`, `false`, `0` and
      the empty string are falsy (NaN and `-0` are not in this domain). */
  predicate Truthy(v: JsValue): (b: bool)
    ensures b <==> v !in {Undefined, Null, Bool(false), Num(0), Str("")}
  {
    match v
    case Undefined => false
    case Null => false
    case Bool(b) => b
    case Num(n) => n != 0
    case Str(s) => s != ""
    case _ => true
  }

  /** The value of `v[key]` for a data property. Reading a property of
      `undefined` or `null` throws, so the source only does it behind a
      truthiness test. Native promises, arrays and primitives carry no data
      property that the factory reads. */
  function Prop(v: JsValue, key: string): (r: JsValue)
    requires !v.Undefined? && !v.Null?
    ensures r != Undefined ==> v.Obj? && key in v.props && r == v.props[key]
    ensures v.Obj? && key in v.props ==> r == v.props[key]
  {
    if v.Obj? && key in v.props then v.props[key] else Undefined
  }

  /** `isPromise(p)`: `p && p.then && p.catch`. A native promise has both
      methods; an object passes when the `then` and `catch` properties it
      sees are both truthy, whether or not they are callable; nothing else
      passes. */
  predicate IsPromise(p: JsValue): (b: bool)
    ensures b <==>
      p.Promise? ||
      (p.Obj? && "then" in p.props && Truthy(p.props["then"]) && "catch" in p.props && Truthy(p.props["catch"]))
  {
    Truthy(p) &&
    (p.Promise? || (Truthy(Prop(p, "then")) && Truthy(Prop(p, "catch"))))
  }

  /** Values that pass `isPromise` without being a promise: their `then`
      property is data, so calling it throws a TypeError. */
  predicate IsFakeThenable(p: JsValue) {
    IsPromise(p) && !p.Promise?
  }

  /** An `Error` instance, as `instanceof Error` would see it. */
  predicate IsError(v: JsValue) {
    v.Obj? && v.isError
  }

  /** The TypeError thrown by calling a `then` property that is not a function. */
  const ThenIsNotAFunction: JsValue :=
    Obj(map["message" := Str("result.then is not a function")], true)

  /** `{elapsed: ms}`, the payload of every ENDED action. */
  function ElapsedRecord(ms: int): (r: JsValue)
    ensures r.Obj? && !IsError(r)
    ensures Prop(r, "elapsed") == Num(ms)
  {
    Obj(map["elapsed" := Num(ms)], false)
  }
}
