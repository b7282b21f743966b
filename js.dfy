// JavaScript values as the server's code sees them: a parsed JSON reply,
// widened with `undefined`, together with the exceptions the code can throw
// or receive, and the operators it applies to such values (`||`, `?.`, `.`,
// `===`, template interpolation).
module Js {
  import opened Text

  /** Numbers are modelled as integers, which the API's counts, ids and flags
      are; `NaN` is the one other number the code's arithmetic can produce. */
  datatype Json =
    | Undefined
    | Null
    | Bool(b: bool)
    | Num(n: int)
    | NaN
    | Str(s: string)
    | Arr(items: seq<Json>)
    | Obj(fields: map<string, Json>)

  /** What a handler can throw: an HTTP error carrying a reply, an HTTP error
      without one (network failure), a TypeError raised by the runtime, or a
      plain Error thrown by the code itself. */
  datatype Exception =
    | HttpError(status: int, data: Json, message: string)
    | NoResponse(message: string)
    | TypeError(message: string)
    | Error(message: string)

  datatype Option<T> = None | Some(value: T)

  /** A computation that returns a value or throws. */
  datatype Outcome<T> = Value(value: T) | Throws(error: Exception) {
    predicate IsFailure() { Throws? }
    function PropagateFailure<U>(): Outcome<U>
      requires Throws?
    {
      Throws(error)
    }
    function Extract(): T
      requires Value?
    {
      value
    }
  }

  /** JavaScript truthiness. */
  predicate Truthy(v: Json) {
    match v
    case Undefined => false
    case Null => false
    case Bool(b) => b
    case Num(n) => n != 0
    case NaN => false
    case Str(s) => s != ""
    case Arr(_) => true
    case Obj(_) => true
  }

  /** `a || b`: the first operand when it is truthy, the second otherwise. */
  function Or(a: Json, b: Json): (r: Json)
    ensures r == a || r == b
    ensures Truthy(r) <==> Truthy(a) || Truthy(b)
    ensures Truthy(a) ==> r == a
  {
    if Truthy(a) then a else b
  }

  lemma OrAssociative(a: Json, b: Json, c: Json)
    ensures Or(Or(a, b), c) == Or(a, Or(b, c))
  {
  }

  /** `v?.k`, and `v.k` on a value known not to be null or undefined: the
      field's value, or undefined when the field is missing or `v` is not an object. */
  function Get(v: Json, k: string): (r: Json)
    ensures v.Obj? && k in v.fields ==> r == v.fields[k]
    ensures !(v.Obj? && k in v.fields) ==> r == Undefined
  {
    if v.Obj? && k in v.fields then v.fields[k] else Undefined
  }

  /** The text of the TypeError `v.k` raises on null or undefined. */
  function ReadError(v: Json, k: string): string {
    "Cannot read properties of " + (if v.Null? then "null" else "undefined") + " (reading '" + k + "')"
  }

  /** `v.k` without optional chaining: throws a TypeError on null and undefined. */
  function Read(v: Json, k: string): (r: Outcome<Json>)
    ensures r.Throws? <==> v.Null? || v.Undefined?
    ensures r.Throws? ==> r.error == TypeError(ReadError(v, k))
    ensures r.Value? ==> r.value == Get(v, k)
  {
    if v.Null? || v.Undefined? then Throws(TypeError(ReadError(v, k))) else Value(Get(v, k))
  }

  /** `a === b`. Arrays and objects are compared by identity; two values
      parsed from different JSON texts are never the same object. */
  predicate StrictEquals(a: Json, b: Json) {
    match (a, b)
    case (Undefined, Undefined) => true
    case (Null, Null) => true
    case (Bool(x), Bool(y)) => x == y
    case (Num(x), Num(y)) => x == y
    case (Str(x), Str(y)) => x == y
    case _ => false
  }

  /** `===` holds exactly for equal primitive values. */
  lemma StrictEqualsMeaning(a: Json, b: Json)
    ensures StrictEquals(a, b) <==> a == b && !a.Arr? && !a.Obj? && !a.NaN?
  {
  }

  /** `String(v)`, as a template literal interpolates `v`. */
  function ToStr(v: Json): string {
    match v
    case Undefined => "undefined"
    case Null => "null"
    case Bool(b) => if b then "true" else "false"
    case Num(n) => IntToString(n)
    case NaN => "NaN"
    case Str(s) => s
    // `Array.prototype.join` renders null and undefined elements as empty text
    case Arr(items) =>
      Join(seq(|items|, i requires 0 <= i < |items| =>
                 if items[i].Undefined? || items[i].Null? then "" else ToStr(items[i])), ",")
    case Obj(_) => "[object Object]"
  }

  /** Interpolation leaves strings alone and renders integers in decimal. */
  lemma ToStrPrimitives(s: string, n: nat)
    ensures ToStr(Str(s)) == s
    ensures ToStr(Num(n)) == NatToString(n)
    ensures ToStr(Arr([Str(s)])) == s
  {
  }

  /** `v.toLowerCase()` written at `site` (the callee as the source spells
      it, such as `args.keyword.toLowerCase`): defined on strings; reading it
      off null or undefined is a TypeError, and on any other value the engine
      reports that `site` is not a function. */
  function LowerOf(v: Json, site: string): (r: Outcome<string>)
    ensures r.Value? <==> v.Str?
    ensures r.Value? ==> r.value == Lower(v.s)
    ensures (v.Null? || v.Undefined?) ==> r == Throws(TypeError(ReadError(v, "toLowerCase")))
    ensures !v.Str? && !v.Null? && !v.Undefined? ==> r == Throws(TypeError(site + " is not a function"))
  {
    match v
    case Str(s) => Value(Lower(s))
    case Undefined => Throws(TypeError(ReadError(v, "toLowerCase")))
    case Null => Throws(TypeError(ReadError(v, "toLowerCase")))
    case _ => Throws(TypeError(site + " is not a function"))
  }

  // ----- numeric coercion -----

  /** ToPrimitive: arrays and objects become their string rendering. */
  function Primitive(v: Json): (r: Json)
    ensures !r.Arr? && !r.Obj?
    ensures !v.Arr? && !v.Obj? ==> r == v
  {
    if v.Arr? || v.Obj? then Str(ToStr(v)) else v
  }

  predicate IsDigit(c: char) { '0' <= c <= '9' }

  predicate AllDigits(s: string) { forall i :: 0 <= i < |s| ==> IsDigit(s[i]) }

  /** The number a string denotes: surrounding whitespace is ignored, empty
      text is 0, an optionally signed run of decimal digits is its value, and
      anything else is NaN (`None`). */
  function StringToNumber(s: string): (r: Option<int>)
    ensures Trim(s) == "" ==> r == Some(0)
  {
    var t := Trim(s);
    if t == "" then Some(0)
    else if AllDigits(t) then Some(DigitsValue(t))
    else if |t| > 1 && (t[0] == '+' || t[0] == '-') && AllDigits(t[1..]) then
      Some(if t[0] == '-' then -DigitsValue(t[1..]) else DigitsValue(t[1..]))
    else None
  }

  /** ToNumber; `None` stands for NaN. */
  function ToNumber(v: Json): (r: Option<int>)
    ensures v.Num? ==> r == Some(v.n)
    ensures v.Undefined? || v.NaN? ==> r == None
    ensures v.Null? ==> r == Some(0)
  {
    match v
    case Undefined => None
    case Null => Some(0)
    case Bool(b) => Some(if b then 1 else 0)
    case Num(n) => Some(n)
    case NaN => None
    case Str(s) => StringToNumber(s)
    case Arr(_) => StringToNumber(ToStr(v))
    case Obj(_) => StringToNumber(ToStr(v))
  }

  /** A number back as a JavaScript value. */
  function FromNumber(n: Option<int>): (r: Json)
    ensures n.Some? ==> r == Num(n.value)
    ensures n.None? ==> r == NaN
  {
    if n.Some? then Num(n.value) else NaN
  }

  /** String comparison character by character, as `<` compares two strings
      (JavaScript compares UTF-16 code units, the model Unicode scalar values). */
  predicate StrLess(x: string, y: string)
    decreases |x|
  {
    |y| > 0 && (|x| == 0 || x[0] < y[0] || (x[0] == y[0] && StrLess(x[1..], y[1..])))
  }

  /** `a < b` as a three-valued answer: `None` when a NaN makes the
      comparison undefined. */
  function Compare(a: Json, b: Json): (r: Option<bool>)
  {
    var pa, pb := Primitive(a), Primitive(b);
    if pa.Str? && pb.Str? then Some(StrLess(pa.s, pb.s))
    else
      var x, y := ToNumber(pa), ToNumber(pb);
      if x.Some? && y.Some? then Some(x.value < y.value) else None
  }

  /** `a < b` */
  predicate Less(a: Json, b: Json) { Compare(a, b) == Some(true) }

  /** `a <= b`: false when undefined, otherwise the negation of `b < a`. */
  predicate LessEq(a: Json, b: Json) { Compare(b, a) == Some(false) }

  /** On two numbers the relational operators are the integer ones. */
  lemma CompareNumbers(x: int, y: int)
    ensures Less(Num(x), Num(y)) <==> x < y
    ensures LessEq(Num(x), Num(y)) <==> x <= y
  {
  }

  /** Neither `<` nor `<=` holds of `undefined`. */
  lemma CompareUndefined(a: Json)
    ensures !Less(a, Undefined) && !LessEq(a, Undefined)
    ensures !Less(Undefined, a) && !LessEq(Undefined, a)
  {
  }

  /** `a + b`: concatenation when either side is a string after ToPrimitive,
      numeric addition otherwise. */
  function Plus(a: Json, b: Json): (r: Json)
    ensures r.Num? || r.NaN? || r.Str?
    ensures a.Num? && b.Num? ==> r == Num(a.n + b.n)
    ensures a.Str? ==> r == Str(a.s + ToStr(Primitive(b)))
  {
    var pa, pb := Primitive(a), Primitive(b);
    if pa.Str? || pb.Str? then Str(ToStr(pa) + ToStr(pb))
    else FromNumber(if ToNumber(pa).Some? && ToNumber(pb).Some? then Some(ToNumber(pa).value + ToNumber(pb).value) else None)
  }

  /** `a - b` */
  function Minus(a: Json, b: Json): (r: Json)
    ensures r.Num? <==> ToNumber(a).Some? && ToNumber(b).Some?
    ensures r.Num? ==> r.n == ToNumber(a).value - ToNumber(b).value
    ensures !r.Num? ==> r == NaN
  {
    FromNumber(if ToNumber(a).Some? && ToNumber(b).Some? then Some(ToNumber(a).value - ToNumber(b).value) else None)
  }
}
