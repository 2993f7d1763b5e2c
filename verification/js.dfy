/** The few JavaScript language rules the rest of the model relies on:
    plain values, truthiness, property reads that throw on `undefined`
    and `null`, and Immutable's `List(...)` conversion. */
module Js {

  datatype Option<+T> = None | Some(value: T) {
    predicate IsFailure() { None? }

    function PropagateFailure<U>(): Option<U>
      requires None?
    {
      None
    }

    function Extract(): T
      requires Some?
    {
      value
    }
  }

  datatype Result<+T, +E> = Success(value: T) | Failure(error: E) {
    predicate IsFailure() { Failure? }

    function PropagateFailure<U>(): Result<U, E>
      requires Failure?
    {
      Failure(error)
    }

    function Extract(): T
      requires Success?
    {
      value
    }
  }

  /** The exceptions the modelled code raises without throwing them itself. */
  datatype JsError =
    | TypeError   // a property read on `undefined`/`null`, a call of something that is not a function
    | RangeError  // the call stack is exhausted

  /** A JavaScript value as it appears in JSON-like data. Numbers are
      integers: the modelled code never does arithmetic on them. */
  datatype JsValue =
    | Undefined
    | Null
    | Bool(b: bool)
    | Num(n: int)
    | Str(s: string)
    | Arr(items: seq<JsValue>)
    | Obj(props: map<string, JsValue>)

  predicate Nullish(v: JsValue) {
    v.Undefined? || v.Null?
  }

  /** `!!v`. */
  predicate Truthy(v: JsValue) {
    match v
    case Undefined => false
    case Null => false
    case Bool(b) => b
    case Num(n) => n != 0
    case Str(s) => s != ""
    case Arr(_) => true
    case Obj(_) => true
  }

  /** `v[key]` where it does not throw: the property of an object, and
      `undefined` for a missing key or a value that is not an object. */
  function Prop(v: JsValue, key: string): JsValue {
    if v.Obj? && key in v.props then v.props[key] else Undefined
  }

  /** `v[key]`: a TypeError on `undefined` and `null`. */
  function GetProp(v: JsValue, key: string): (r: Result<JsValue, JsError>)
    ensures r.Failure? <==> Nullish(v)
    ensures r.Failure? ==> r.error == TypeError
    ensures r.Success? ==> r.value == Prop(v, key)
  {
    if Nullish(v) then Failure(TypeError) else Success(Prop(v, key))
  }

  /** A value with a default: a field of an Immutable `Record` given
      `undefined` reads as the field's default, and so does a function
      parameter with a default that is omitted or passed `undefined`. */
  function FieldOr(v: JsValue, default: JsValue): (r: JsValue)
    ensures v != Undefined ==> r == v
    ensures v == Undefined ==> r == default
  {
    if v == Undefined then default else v
  }

  /** Immutable's `List(v)`: nothing for `undefined`/`null`, the elements of
      an array, the characters of a string; anything else is a TypeError. */
  function ToList(v: JsValue): (r: Result<seq<JsValue>, JsError>)
    ensures Nullish(v) ==> r == Success([])
    ensures v.Arr? ==> r == Success(v.items)
    ensures r.Failure? <==> !(Nullish(v) || v.Arr? || v.Str?)
    ensures v.Str? ==> r.Success? && |r.value| == |v.s|
  {
    match v
    case Undefined => Success([])
    case Null => Success([])
    case Arr(xs) => Success(xs)
    case Str(s) => Success(seq(|s|, i requires 0 <= i < |s| => Str([s[i]])))
    case _ => Failure(TypeError)
  }
}
