/** JavaScript values as the search client reads and writes them, and
    JavaScript truthiness, which decides which options and response fields
    the client acts on. */
module Js {

  /** `None` stands for a property that is absent (JavaScript `undefined`);
      where a property may also hold `null`, that is said at its use. */
  datatype Option<+T> = None | Some(value: T)

  /** The kinds of JavaScript value that occur in this client: option values,
      request parameters and the fields copied out of a response. Numbers are
      integers here (the client only sees counts and offsets). */
  datatype Value = Null | Str(s: string) | Num(n: int) | StrArray(elems: seq<string>)

  /** JavaScript truthiness of a present value: `null`, `""` and `0` are
      falsy; every array, even an empty one, is truthy. */
  predicate Truthy(v: Value)
  {
    match v
    case Null => false
    case Str(s) => s != ""
    case Num(n) => n != 0
    case StrArray(_) => true
  }

  /** Truthiness of a property that may be absent (`undefined` is falsy). */
  predicate IsTruthy(v: Option<Value>)
  {
    v.Some? && Truthy(v.value)
  }

  /** A string property, `undefined` when absent. */
  function OfString(o: Option<string>): (v: Option<Value>)
    ensures v.Some? <==> o.Some?
    ensures IsTruthy(v) <==> o.Some? && o.value != ""
  {
    match o
    case None => None
    case Some(s) => Some(Str(s))
  }

  /** A string property that holds `null` when `None`. */
  function OrNull(o: Option<string>): (v: Value)
    ensures Truthy(v) <==> o.Some? && o.value != ""
  {
    match o
    case None => Null
    case Some(s) => Str(s)
  }

  /** A numeric property, `undefined` when absent. */
  function OfNumber(o: Option<int>): (v: Option<Value>)
    ensures v.Some? <==> o.Some?
    ensures IsTruthy(v) <==> o.Some? && o.value != 0
  {
    match o
    case None => None
    case Some(n) => Some(Num(n))
  }

  /** An array-of-strings property, `undefined` when absent. */
  function OfStrings(o: Option<seq<string>>): (v: Option<Value>)
    ensures v.Some? <==> o.Some?
    ensures IsTruthy(v) <==> o.Some?
  {
    match o
    case None => None
    case Some(a) => Some(StrArray(a))
  }
}
