/** JavaScript values as the logger sees them: primitives, and objects held by reference. */
module JsValues {

  datatype Option<T> = None | Some(value: T)

  datatype Result<T, E> = Ok(value: T) | Err(error: E)

  /** The only exception the core itself can raise once a logger exists. */
  datatype JsError = TypeError

  /** Whether a call ran to completion or threw. */
  datatype Outcome = Pass | Fail(error: JsError)

  /** A JavaScript value. Objects (plain objects, arrays, errors) are references. */
  datatype Value =
    | Undef
    | Null
    | Bool(b: bool)
    | Num(n: int)
    | Str(s: string)
    | Ref(obj: JsObject)

  /**
   * A JavaScript object whose own enumerable properties can be updated in place. An array is an
   * object whose elements are the properties "0", "1", …; `isArray` is what `Array.isArray` answers.
   */
  class JsObject {
    var fields: map<string, Value>
    const isArray: bool

    /** A plain object literal `{...}`. */
    constructor (fields: map<string, Value>)
      ensures this.fields == fields && !isArray
    {
      this.fields := fields;
      isArray := false;
    }

    /** An array: its elements are the properties keyed "0", "1", … of `fields`. */
    constructor Array(fields: map<string, Value>)
      ensures this.fields == fields && isArray
    {
      this.fields := fields;
      isArray := true;
    }
  }

  /** The objects a value lets a callee touch. */
  function Footprint(v: Value): set<object>
  {
    if v.Ref? then {v.obj} else {}
  }

  /** JavaScript truthiness: `undefined`, `null`, `false`, `0` and `""` are falsy. */
  predicate Truthy(v: Value)
  {
    match v
    case Undef => false
    case Null => false
    case Bool(b) => b
    case Num(n) => n != 0
    case Str(s) => s != ""
    case Ref(_) => true
  }

  /** lodash `_.isObject`: true for objects, false for every primitive including `null`. */
  predicate IsObject(v: Value)
  {
    v.Ref?
  }

  /** `typeof v == 'object'`: objects and also `null`. */
  predicate TypeofObject(v: Value)
  {
    v.Ref? || v.Null?
  }

  /** Property read `o[key]`: a missing key reads as `undefined`. */
  function Get(fields: map<string, Value>, key: string): Value
  {
    if key in fields then fields[key] else Undef
  }

  /** `a || b`: the first operand when it is truthy, otherwise the second. */
  function Or(a: Value, b: Value): (r: Value)
    ensures r == a || r == b
    ensures Truthy(r) <==> Truthy(a) || Truthy(b)
    ensures Truthy(a) ==> r == a
  {
    if Truthy(a) then a else b
  }

  function DigitChar(d: nat): (c: char)
    requires d < 10
    ensures '0' <= c <= '9'
  {
    "0123456789"[d]
  }

  /** Decimal digits of a natural number, most significant first, no leading zero. */
  function Digits(n: nat): (s: string)
    ensures |s| > 0
    ensures forall i :: 0 <= i < |s| ==> '0' <= s[i] <= '9'
    ensures s[0] == '0' ==> n == 0
    decreases n
  {
    if n < 10 then [DigitChar(n)] else Digits(n / 10) + [DigitChar(n % 10)]
  }

  /** `String(v)` as a template literal renders it. A plain object renders as "[object Object]". */
  function ToString(v: Value): string
  {
    match v
    case Undef => "undefined"
    case Null => "null"
    case Bool(b) => if b then "true" else "false"
    case Num(n) => if n < 0 then "-" + Digits(-n) else Digits(n)
    case Str(s) => s
    case Ref(_) => "[object Object]"
  }
}
