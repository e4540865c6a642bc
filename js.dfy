/** JavaScript values as they appear in Firestore document data and in the
    object literals the application builds, with the operators the code
    applies to them (`||`, `??`, optional property access, `typeof`,
    template interpolation). */
module Js {
  import opened Text

  datatype Option<+T> = None | Some(value: T)

  datatype Result<+T> = Ok(value: T) | Err(message: string)

  /** A Firestore `Timestamp`. Nothing in the model computes with it. */
  datatype Timestamp = Timestamp(seconds: int, nanoseconds: int)

  /** A JavaScript value. Numbers are integers here (see README). */
  datatype Value =
    | Undefined
    | Null
    | Bool(b: bool)
    | Num(n: int)
    | Str(s: string)
    | Stamp(ts: Timestamp)
    | List(items: seq<Value>)
    | Obj(fields: map<string, Value>)

  /** A plain object: a key may be absent, or present and bound to `undefined`. */
  type Fields = map<string, Value>

  /** `m.k`: a missing key reads as `undefined`. */
  function Get(m: Fields, k: string): Value {
    if k in m then m[k] else Undefined
  }

  /** `v?.k` (and `v.k` on a primitive): only objects have the application's keys. */
  function Prop(v: Value, k: string): Value {
    if v.Obj? then Get(v.fields, k) else Undefined
  }

  /** JavaScript truthiness (NaN is not modelled). */
  predicate Truthy(v: Value) {
    match v
    case Undefined => false
    case Null => false
    case Bool(b) => b
    case Num(n) => n != 0
    case Str(s) => s != ""
    case _ => true
  }

  /** `a || b` */
  function Or(a: Value, b: Value): Value {
    if Truthy(a) then a else b
  }

  /** `a ?? b` */
  function Coalesce(a: Value, b: Value): Value {
    if a == Undefined || a == Null then b else a
  }

  /** `s || undefined` for a string */
  function TextOrUndefined(s: string): Value {
    if s != "" then Str(s) else Undefined
  }

  /** An array of strings as a value. */
  function Strs(xs: seq<string>): (r: seq<Value>)
    ensures |r| == |xs| && forall i :: 0 <= i < |xs| ==> r[i] == Str(xs[i])
    decreases |xs|
  {
    if xs == [] then [] else [Str(xs[0])] + Strs(xs[1..])
  }

  /** Values the declared TypeScript types allow for an optional string field. */
  predicate TextLike(v: Value) {
    v.Undefined? || v.Null? || v.Str?
  }

  /** Values the declared TypeScript types allow for an optional number field. */
  predicate NumLike(v: Value) {
    v.Undefined? || v.Null? || v.Num?
  }

  /** Values the declared TypeScript types allow for an optional string array. */
  predicate TextListLike(v: Value) {
    v.Undefined? || v.Null? || (v.List? && forall i :: 0 <= i < |v.items| ==> v.items[i].Str?)
  }

  /** The strings of an array of strings. */
  function Texts(items: seq<Value>): (r: seq<string>)
    requires forall i :: 0 <= i < |items| ==> items[i].Str?
    ensures |r| == |items| && forall i :: 0 <= i < |items| ==> items[i] == Str(r[i])
  {
    seq(|items|, i requires 0 <= i < |items| => items[i].s)
  }

  /** `String(v)`, which template interpolation applies to each substitution. */
  function ToText(v: Value): (r: string)
    ensures v.Str? ==> r == v.s
    ensures v.Num? ==> r == IntText(v.n)
    ensures v.Undefined? ==> r == "undefined"
    ensures v.Null? ==> r == "null"
    ensures v.Bool? ==> r == if v.b then "true" else "false"
    ensures v.List? && v.items == [] ==> r == ""
    decreases v
  {
    match v
    case Undefined => "undefined"
    case Null => "null"
    case Bool(b) => if b then "true" else "false"
    case Num(n) => IntText(n)
    case Str(s) => s
    case Stamp(ts) =>
      "Timestamp(seconds=" + IntText(ts.seconds) + ", nanoseconds=" + IntText(ts.nanoseconds) + ")"
    case List(items) =>
      // Array.prototype.toString joins with "," and writes null and undefined as ""
      Join(seq(|items|, i requires 0 <= i < |items| =>
        if items[i].Undefined? || items[i].Null? then "" else ToText(items[i])), ",")
    case Obj(_) => "[object Object]"
  }
}
