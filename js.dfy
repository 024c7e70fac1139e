/**
 * The loosely typed JavaScript values that the provisioning core passes
 * around: parameter maps, configuration slices and serialised records.
 * Numbers are modelled as integers.
 */
module Js {

  /** A JavaScript value. `Undefined` also stands for a missing property. */
  datatype Js =
    | Undefined
    | Null
    | Bool(b: bool)
    | Num(n: int)
    | Str(s: string)
    | Arr(items: seq<Js>)
    | Obj(fields: map<string, Js>)

  /** A plain object literal: its own properties by name. */
  type Record = map<string, Js>

  /** The outcome of a step that may throw: the value, or the thrown error's message. */
  datatype Result<T> = Success(value: T) | Failure(error: string) {
    predicate IsFailure() { Failure? }
    function PropagateFailure<U>(): Result<U>
      requires Failure?
    {
      Failure(error)
    }
    function Extract(): T
      requires Success?
    {
      value
    }
  }

  /** A property that an object may or may not have been given. */
  datatype Option<T> = None | Some(value: T)

  /** JavaScript truthiness: `undefined`, `null`, `false`, `0` and `''` are falsy. */
  predicate Truthy(v: Js) {
    match v
    case Undefined => false
    case Null => false
    case Bool(b) => b
    case Num(n) => n != 0
    case Str(s) => s != ""
    case Arr(_) => true
    case Obj(_) => true
  }

  /** `a || b`: the left operand when it is truthy, otherwise the right one. */
  function Or(a: Js, b: Js): (r: Js)
    ensures Truthy(a) ==> r == a
    ensures !Truthy(a) ==> r == b
  {
    if Truthy(a) then a else b
  }

  /** A default parameter: it takes effect exactly when the argument is `undefined`. */
  function Default(arg: Js, default: Js): (r: Js)
    ensures arg != Undefined ==> r == arg
    ensures arg == Undefined ==> r == default
  {
    if arg == Undefined then default else arg
  }

  /** Reading `o.key` of an object: a missing property reads as `undefined`. */
  function Get(o: Record, key: string): (r: Js)
    ensures key in o ==> r == o[key]
    ensures key !in o ==> r == Undefined
  {
    if key in o then o[key] else Undefined
  }

  /**
   * The own properties that a value contributes when it is read as a
   * parameter object: an object's fields; reading a property of any other
   * non-nullish value yields `undefined`, so it contributes none.
   */
  function Fields(v: Js): (r: Record)
    ensures v.Obj? ==> r == v.fields
    ensures !v.Obj? ==> r == map[]
  {
    if v.Obj? then v.fields else map[]
  }

  /** The V8 message of a property read on `undefined` or `null`. */
  function CannotRead(v: Js, key: string): string
  {
    "Cannot read properties of " + (if v == Null then "null" else "undefined") + " (reading '" + key + "')"
  }

  /** Reading `v.key` of an arbitrary value: nullish values throw a TypeError. */
  function ReadProp(v: Js, key: string): (r: Result<Js>)
    ensures r.Failure? <==> (v == Undefined || v == Null)
    ensures v.Obj? ==> r == Success(Get(v.fields, key))
  {
    match v
    case Undefined => Failure(CannotRead(v, key))
    case Null => Failure(CannotRead(v, key))
    case Obj(m) => Success(Get(m, key))
    case _ => Success(Undefined)
  }

  /** ASCII lower-casing of one character. */
  function LowerChar(c: char): char
  {
    if 'A' <= c <= 'Z' then (c as int + 32) as char else c
  }

  /** `s.toLowerCase()` on the ASCII range. */
  function ToLower(s: string): (r: string)
    ensures |r| == |s|
    ensures forall i :: 0 <= i < |s| ==> r[i] == LowerChar(s[i])
  {
    seq(|s|, i requires 0 <= i < |s| => LowerChar(s[i]))
  }

  lemma ToLowerIdempotent(s: string)
    ensures ToLower(ToLower(s)) == ToLower(s)
  {
  }

  /** A string without upper-case ASCII letters is its own lower-case form. */
  lemma ToLowerOfLower(s: string)
    requires forall i :: 0 <= i < |s| ==> !('A' <= s[i] <= 'Z')
    ensures ToLower(s) == s
  {
  }

  /**
   * `v.toLowerCase()` where `v` is whatever the caller passed: a string is
   * lower-cased; a nullish value or another value without that method throws
   * a TypeError whose message names the expression `expr`.
   */
  function CallToLowerCase(v: Js, expr: string): (r: Result<string>)
    ensures r.Success? <==> v.Str?
    ensures v.Str? ==> r.value == ToLower(v.s)
  {
    match v
    case Str(s) => Success(ToLower(s))
    case Undefined => Failure(CannotRead(v, "toLowerCase"))
    case Null => Failure(CannotRead(v, "toLowerCase"))
    case _ => Failure(expr + ".toLowerCase is not a function")
  }

  /** Decimal text of a natural number. */
  function NatText(n: nat): (r: string)
    ensures |r| >= 1
    decreases n
  {
    var d := ['0' + (n % 10) as char];
    if n < 10 then d else NatText(n / 10) + d
  }

  /** `String(v)` for the values a template literal may interpolate here. */
  function Text(v: Js): string
  {
    match v
    case Undefined => "undefined"
    case Null => "null"
    case Bool(b) => if b then "true" else "false"
    case Num(n) => if n < 0 then "-" + NatText(-n) else NatText(n)
    case Str(s) => s
    case Arr(_) => "[array]"
    case Obj(_) => "[object Object]"
  }
}
