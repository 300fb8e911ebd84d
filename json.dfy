/** JSON values as the handlers see them after parsing, and the one piece of JavaScript
    arithmetic the core relies on: `x + 1` applied to a stored id. */
module Json {
  import opened Wrappers

  /** A parsed JSON value. Numbers are integers: fractional numbers are not modelled. */
  datatype Value =
    | Null
    | Bool(b: bool)
    | Num(n: int)
    | Str(s: string)
    | Arr(elems: seq<Value>)
    | Obj(fields: map<string, Value>)

  /** A JSON object, as a map from property names to values. */
  type Object = map<string, Value>

  /** Property access `obj.key`; `None` is `undefined`. */
  function Field(obj: Object, key: string): Option<Value>
  {
    if key in obj then Some(obj[key]) else None
  }

  function DigitChar(d: nat): char
    requires d < 10
  {
    "0123456789"[d]
  }

  function NatString(n: nat): string
    decreases n
  {
    if n < 10 then [DigitChar(n)] else NatString(n / 10) + [DigitChar(n % 10)]
  }

  /** `String(n)` for an integer. */
  function IntString(n: int): string
  {
    if n < 0 then "-" + NatString(-n) else NatString(n)
  }

  /** How `Array.prototype.join` renders one element: `null` becomes the empty string. */
  function ElementString(v: Value): string
    decreases v, 1, 0
  {
    match v
    case Null => ""
    case Bool(b) => if b then "true" else "false"
    case Num(n) => IntString(n)
    case Str(s) => s
    case Arr(_) => JoinFrom(v, 0)
    case Obj(_) => "[object Object]"
  }

  /** The elements of the array `v` from index `i` on, joined with commas. */
  function JoinFrom(v: Value, i: nat): string
    requires v.Arr? && i <= |v.elems|
    decreases v, 0, |v.elems| - i
  {
    if i == |v.elems| then ""
    else (if i == 0 then "" else ",") + ElementString(v.elems[i]) + JoinFrom(v, i + 1)
  }

  /** JavaScript's `x + 1` on a property that may be `undefined`, as it ends up in a JSON
      document: numbers, `null` and booleans add numerically, strings, arrays and objects
      concatenate "1" to their string form, and `undefined + 1` is `NaN`, which JSON
      serialisation writes as `null`. */
  function PlusOne(x: Option<Value>): (r: Value)
    ensures r.Num? <==> x.Some? && (x.value.Num? || x.value.Null? || x.value.Bool?)
    ensures r.Null? <==> x.None?
    ensures x.Some? && (x.value.Str? || x.value.Arr? || x.value.Obj?) ==> r.Str?
    ensures r.Str? ==> |r.s| > 0 && r.s[|r.s| - 1] == '1'
    ensures forall n :: x == Some(Num(n)) ==> r == Num(n + 1)
    ensures forall s :: x == Some(Str(s)) ==> r == Str(s + "1")
  {
    match x
    case None => Null
    case Some(Null) => Num(1)
    case Some(Bool(b)) => Num(if b then 2 else 1)
    case Some(Num(n)) => Num(n + 1)
    case Some(Str(s)) => Str(s + "1")
    case Some(Arr(_)) => Str(JoinFrom(x.value, 0) + "1")
    case Some(Obj(_)) => Str("[object Object]1")
  }
}
