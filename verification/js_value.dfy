/**
  The slice of JavaScript's value semantics that src/index.js relies on:
  truthiness (every `x || default`), `Object.keys`, property reads and
  thrown exceptions. Objects are ordered entry lists, in the order
  `Object.keys` reports them.
*/
module Js {
  import opened Wrappers

  /** A JavaScript value. Numbers are integers; functions are not values here. */
  datatype Value =
    | Undefined
    | Null
    | Bool(b: bool)
    | Num(n: int)
    | Str(s: string)
    | Arr(elems: seq<Value>)
    | Obj(entries: seq<(string, Value)>)
  {
    /** `undefined` and `null`: reading a property of either throws a TypeError. */
    predicate Nullish() {
      Undefined? || Null?
    }
  }

  /** What `if (v)` and `v || d` test. */
  predicate Truthy(v: Value) {
    match v
    case Undefined => false
    case Null => false
    case Bool(b) => b
    case Num(n) => n != 0
    case Str(s) => s != ""
    case Arr(_) => true
    case Obj(_) => true
  }

  /** JavaScript's `a || b`: the left operand when truthy, else the right one. */
  function Or(a: Value, b: Value): Value {
    if Truthy(a) then a else b
  }

  /** The outcome of evaluating JavaScript code: a value, or a thrown exception. */
  datatype Completion<+T> = Returned(value: T) | Threw(exception: Value)

  /** The exception object the runtime throws for a bad operation on a value. */
  function TypeError(message: string): Value {
    Obj([("name", Str("TypeError")), ("message", Str(message))])
  }

  function DigitChar(d: nat): char
    requires d < 10
  {
    ['0', '1', '2', '3', '4', '5', '6', '7', '8', '9'][d]
  }

  /** The decimal spelling of an array or string index, as used for its property key. */
  function IndexKey(n: nat): string
    decreases n
  {
    if n < 10 then [DigitChar(n)] else IndexKey(n / 10) + [DigitChar(n % 10)]
  }

  /** The smallest index below `n`, from `i` on, whose property key is `k`. */
  function FindIndex(k: string, i: nat, n: nat): (r: Option<nat>)
    ensures r.Some? ==> i <= r.value < n && IndexKey(r.value) == k
    ensures r.Some? ==> forall m :: i <= m < r.value ==> IndexKey(m) != k
    ensures r.None? ==> forall m :: i <= m < n ==> IndexKey(m) != k
    decreases n - i
  {
    if i >= n then None
    else if IndexKey(i) == k then Some(i)
    else FindIndex(k, i + 1, n)
  }

  /** The value of the first entry named `k`, `undefined` when there is none. */
  function Lookup(entries: seq<(string, Value)>, k: string): Value {
    if entries == [] then Undefined
    else if entries[0].0 == k then entries[0].1
    else Lookup(entries[1..], k)
  }

  /** `v[k]` for a value that has properties (own properties only). */
  function Get(v: Value, k: string): Value
    requires !v.Nullish()
  {
    match v
    case Obj(es) => Lookup(es, k)
    case Arr(xs) =>
      if k == "length" then Num(|xs|)
      else (match FindIndex(k, 0, |xs|)
            case Some(i) => xs[i]
            case None => Undefined)
    case Str(s) =>
      if k == "length" then Num(|s|)
      else (match FindIndex(k, 0, |s|)
            case Some(i) => Str([s[i]])
            case None => Undefined)
    case _ => Undefined
  }

  /** `Object.keys(v)`: own enumerable keys, in order; throws on `undefined` and `null`. */
  function Keys(v: Value): (r: Completion<seq<string>>)
    ensures r.Threw? <==> v.Nullish()
    ensures v.Obj? ==> r == Returned(seq(|v.entries|, i requires 0 <= i < |v.entries| => v.entries[i].0))
    ensures (v.Bool? || v.Num?) ==> r == Returned([])
  {
    match v
    case Undefined => Threw(TypeError("Cannot convert undefined or null to object"))
    case Null => Threw(TypeError("Cannot convert undefined or null to object"))
    case Obj(es) => Returned(seq(|es|, i requires 0 <= i < |es| => es[i].0))
    case Arr(xs) => Returned(seq(|xs|, i requires 0 <= i < |xs| => IndexKey(i)))
    case Str(s) => Returned(seq(|s|, i requires 0 <= i < |s| => IndexKey(i)))
    case _ => Returned([])
  }
}
