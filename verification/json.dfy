/** The optional result used wherever the program answers "a value or nothing". */
module Wrappers {
  datatype Option<+T> = None | Some(value: T)
}

/**
  JavaScript values as the program sees them after `JSON.parse`, together with
  the three pieces of JavaScript semantics the program leans on: truthiness,
  property access and conversion to a string inside a template literal.
 */
module Json {
  import opened Wrappers

  /** A property of an object: one entry of `Object.keys(obj)` and its value. */
  datatype Prop = Prop(key: string, val: Value)

  /**
    A JavaScript value. Numbers are integers. An object keeps its own
    enumerable properties in `Object.keys` order; `plain` records whether its
    constructor is `Object` (always so for parsed JSON).
   */
  datatype Value =
    | Undefined
    | Null
    | Bool(b: bool)
    | Number(n: int)
    | Str(s: string)
    | Arr(elems: seq<Value>)
    | Obj(props: seq<Prop>, plain: bool)

  /** JavaScript truthiness: `undefined`, `null`, `false`, `0` and `""` are falsy. */
  predicate Truthy(v: Value) {
    match v
    case Undefined => false
    case Null => false
    case Bool(b) => b
    case Number(n) => n != 0
    case Str(s) => s != ""
    case Arr(_) => true
    case Obj(_, _) => true
  }

  /** `a || b` */
  function Or(a: Value, b: Value): (r: Value)
    ensures Truthy(a) ==> r == a
    ensures !Truthy(a) ==> r == b
  {
    if Truthy(a) then a else b
  }

  /** The value stored under `key` in a property list, `undefined` when absent. */
  function Lookup(props: seq<Prop>, key: string): Value {
    if props == [] then Undefined
    else if props[0].key == key then props[0].val
    else Lookup(props[1..], key)
  }

  /** A key no property has reads as `undefined`. */
  lemma {:induction false} LookupAbsent(props: seq<Prop>, key: string)
    requires forall i :: 0 <= i < |props| ==> props[i].key != key
    ensures Lookup(props, key) == Undefined
  {
    if props != [] {
      LookupAbsent(props[1..], key);
    }
  }

  /**
    `v[key]` (and `const { key } = v`) for a name that is not an array index and
    not inherited from a prototype: only objects have such a property.
   */
  function GetProp(v: Value, key: string): Value {
    match v
    case Obj(props, _) => Lookup(props, key)
    case _ => Undefined
  }

  /** `v[0]`: the first element of an array, the first character of a string, property "0" of an object. */
  function FirstElement(v: Value): (r: Value)
    ensures v.Arr? && v.elems != [] ==> r == v.elems[0]
    ensures v.Arr? && v.elems == [] ==> r == Undefined
  {
    match v
    case Arr(elems) => if elems == [] then Undefined else elems[0]
    case Str(s) => if s == [] then Undefined else Str([s[0]])
    case Obj(props, _) => Lookup(props, "0")
    case _ => Undefined
  }

  predicate AllDigits(s: string) {
    forall i :: 0 <= i < |s| ==> '0' <= s[i] <= '9'
  }

  /** The number a string of decimal digits denotes. */
  function DigitsValue(s: string): nat
    requires AllDigits(s)
  {
    if s == [] then 0
    else DigitsValue(s[..|s| - 1]) * 10 + (s[|s| - 1] as int - '0' as int)
  }

  /**
    Decimal digits of a natural number, as `Number.prototype.toString` writes
    them: they denote the number, and there is no leading zero.
   */
  function NatToString(n: nat): (r: string)
    ensures |r| >= 1 && AllDigits(r)
    ensures DigitsValue(r) == n
    ensures r[0] == '0' ==> n == 0
  {
    var d := ['0' + (n % 10) as char];
    if n < 10 then d
    else
      var high := NatToString(n / 10);
      assert (high + d)[..|high + d| - 1] == high;
      high + d
  }

  /** `Number.prototype.toString` on an integer: a minus sign for a negative one, then the digits of its magnitude. */
  function IntToString(n: int): (r: string)
    ensures |r| >= 1 && (r[0] == '-' <==> n < 0)
    ensures var digits := if n < 0 then r[1..] else r;
            && digits != [] && AllDigits(digits) && (digits[0] == '0' ==> n == 0)
            && DigitsValue(digits) == if n < 0 then -n else n
  {
    if n < 0 then "-" + NatToString(-n) else NatToString(n)
  }

  /** The object has an own property named `key`. */
  predicate HasKey(props: seq<Prop>, key: string) {
    exists i :: 0 <= i < |props| && props[i].key == key
  }

  /**
    Whether `${v}` throws a TypeError. For an object, ToPrimitive tries
    `toString` and then `valueOf`: an own `toString` property that came from
    JSON is not callable, and the inherited `valueOf` returns the object
    itself, so no primitive is found. An array is joined, so it throws when
    one of its elements does. Every other value converts.
   */
  predicate ToStringThrows(v: Value)
    decreases v
  {
    match v
    case Obj(props, _) => HasKey(props, "toString")
    case Arr(elems) => exists i :: 0 <= i < |elems| && ToStringThrows(elems[i])
    case _ => false
  }

  /** `${v}`: the string a template literal makes of a value, or `None` when the conversion throws. */
  function ToJsString(v: Value): (r: Option<string>)
    ensures r.None? <==> ToStringThrows(v)
    ensures v.Str? ==> r == Some(v.s)
    decreases v, 1
  {
    match v
    case Undefined => Some("undefined")
    case Null => Some("null")
    case Bool(b) => if b then Some("true") else Some("false")
    case Number(n) => Some(IntToString(n))
    case Str(s) => Some(s)
    case Arr(elems) => JoinFrom(v, 0)
    case Obj(props, _) => if HasKey(props, "toString") then None else Some("[object Object]")
  }

  /**
    `Array.prototype.join(",")` on the elements of `v` from index `i` on;
    `null` and `undefined` give "", and the first element whose conversion
    throws makes the whole join throw.
   */
  function JoinFrom(v: Value, i: nat): (r: Option<string>)
    requires v.Arr? && i <= |v.elems|
    ensures r.None? <==> exists j :: i <= j < |v.elems| && ToStringThrows(v.elems[j])
    decreases v, 0, |v.elems| - i
  {
    if i == |v.elems| then Some("")
    else
      var e := v.elems[i];
      var piece := if e.Undefined? || e.Null? then Some("") else ToJsString(e);
      if piece.None? then None
      else if i + 1 == |v.elems| then piece
      else
        match JoinFrom(v, i + 1)
        case None => None
        case Some(tail) => Some(piece.value + "," + tail)
  }
}
