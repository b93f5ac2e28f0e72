/** The JavaScript values that occur in node and edge attribute objects, and
    the parts of the language and of lodash that the render pipeline relies
    on: `Number(...)` coercion, arithmetic and `Math.min`/`Math.max` with NaN,
    property presence (`_.has`) and `_.defaults`. */
module JsValues {

  /** A JavaScript number: a finite value or NaN. Infinities and the sign of
      zero are not represented (see ## Left out in README.md). */
  datatype JsNum = Finite(r: real) | NaN

  /** An `{x, y}` point of an edge route written by the layout engine. */
  datatype Point = Point(x: JsNum, y: JsNum)

  /** A property value of an attribute object. `Curve` is a d3 curve factory
      (a function value), `Points` an array of points. */
  datatype Value =
    | Undefined
    | Null
    | Bool(b: bool)
    | Num(n: JsNum)
    | Str(s: string)
    | Curve(name: string)
    | Points(ps: seq<Point>)

  /** An attribute object: own property name to value. A name that is present
      may still hold `undefined`, which `_.has` and `_.defaults` tell apart. */
  type Attrs = map<string, Value>

  /** A property lookup that distinguishes "absent" from "present". */
  datatype Slot = Absent | Present(v: Value)

  function Lookup(m: Attrs, k: string): Slot {
    if k in m then Present(m[k]) else Absent
  }

  /** `m[k]` in JavaScript: `undefined` when the property is absent. */
  function Get(m: Attrs, k: string): Value {
    if k in m then m[k] else Undefined
  }

  /** `m[k] !== undefined`. */
  predicate Defined(m: Attrs, k: string) {
    Get(m, k) != Undefined
  }

  /** Two attribute objects agree on every property outside `ks`. */
  predicate SameOutside(a: Attrs, b: Attrs, ks: set<string>) {
    a - ks == b - ks
  }

  /** lodash 4 `_.defaults(object, source)`: every property of `source` is
      copied onto `object` when the object's own value is `undefined`, that is
      when the property is missing or explicitly holds `undefined`. */
  function Defaults(m: Attrs, src: Attrs): (r: Attrs)
    ensures r.Keys == m.Keys + src.Keys
  {
    map k | k in m.Keys + src.Keys :: if k in src && !Defined(m, k) then src[k] else m[k]
  }

  /** One property after filling defaults. */
  lemma DefaultsSlot(m: Attrs, src: Attrs, k: string)
    ensures Lookup(Defaults(m, src), k) ==
      if k in src && !Defined(m, k) then Present(src[k]) else Lookup(m, k)
  {
  }

  /** Filling defaults a second time with the same source changes nothing. */
  lemma DefaultsIdempotent(m: Attrs, src: Attrs)
    ensures Defaults(Defaults(m, src), src) == Defaults(m, src)
  {
    var r := Defaults(m, src);
    var rr := Defaults(r, src);
    forall k | k in rr.Keys
      ensures rr[k] == r[k]
    {
      if k in src && !Defined(m, k) {
        assert r[k] == src[k];
      }
    }
  }

  // ---------------------------------------------------------------------
  // Number(...) coercion (ECMAScript ToNumber)

  /** `Number(v)`. */
  function ToNumber(v: Value): JsNum {
    match v
    case Undefined => NaN
    case Null => Finite(0.0)
    case Bool(b) => Finite(if b then 1.0 else 0.0)
    case Num(n) => n
    case Str(s) => StringToNumber(s)
    case Curve(_) => NaN
    // An array converts through its string form: "" for [], and
    // "[object Object]" (not numeric) as soon as it holds a point.
    case Points(ps) => if ps == [] then Finite(0.0) else NaN
  }

  /** Coercing a value twice gives what coercing it once gives. */
  lemma ToNumberIdempotent(v: Value)
    ensures ToNumber(Num(ToNumber(v))) == ToNumber(v)
  {
  }

  /** The white space and line terminators that string-to-number conversion
      strips from both ends. */
  predicate IsJsSpace(c: char) {
    var n := c as int;
    (9 <= n <= 13) || n == 32 || n == 160 || n == 5760 || (8192 <= n <= 8202) ||
    n == 8232 || n == 8233 || n == 8239 || n == 8287 || n == 12288 || n == 65279
  }

  function TrimStart(s: string): (r: string)
    ensures |r| <= |s|
    ensures r == [] || !IsJsSpace(r[0])
    decreases |s|
  {
    if s != [] && IsJsSpace(s[0]) then TrimStart(s[1..]) else s
  }

  function TrimEnd(s: string): (r: string)
    ensures |r| <= |s|
    ensures r == [] || !IsJsSpace(r[|r| - 1])
    decreases |s|
  {
    if s != [] && IsJsSpace(s[|s| - 1]) then TrimEnd(s[..|s| - 1]) else s
  }

  predicate IsDigit(c: char) {
    '0' <= c <= '9'
  }

  predicate AllDigits(s: string) {
    forall i :: 0 <= i < |s| ==> IsDigit(s[i])
  }

  /** The value of a string of decimal digits. */
  function DigitsValue(s: string): nat
    requires AllDigits(s)
  {
    if s == [] then 0 else DigitsValue(s[..|s| - 1]) * 10 + (s[|s| - 1] as int - '0' as int)
  }

  function Pow10(k: nat): (p: nat)
    ensures p >= 1
  {
    if k == 0 then 1 else 10 * Pow10(k - 1)
  }

  /** The index of the first '.', or |s| when there is none. */
  function IndexOfDot(s: string): (i: nat)
    ensures i <= |s|
    ensures i < |s| ==> s[i] == '.'
    ensures forall j :: 0 <= j < i ==> s[j] != '.'
  {
    if s == [] then 0 else if s[0] == '.' then 0 else 1 + IndexOfDot(s[1..])
  }

  /** An unsigned decimal literal: digits, an optional '.', digits, with at
      least one digit in all ("12", "1.", ".5", "3.25"). */
  function UnsignedDecimal(t: string): JsNum {
    var i := IndexOfDot(t);
    var whole := t[..i];
    var frac := if i < |t| then t[i + 1..] else "";
    if AllDigits(whole) && AllDigits(frac) && |whole| + |frac| > 0 then
      Finite(DigitsValue(whole) as real + DigitsValue(frac) as real / Pow10(|frac|) as real)
    else
      NaN
  }

  function Negate(n: JsNum): JsNum {
    match n
    case Finite(r) => Finite(-r)
    case NaN => NaN
  }

  /** `Number(s)` for a string: surrounding white space is ignored, the empty
      string is 0, and a decimal literal with an optional sign is its value. */
  function StringToNumber(s: string): JsNum {
    var t := TrimEnd(TrimStart(s));
    if t == [] then Finite(0.0)
    else if t[0] == '-' then Negate(UnsignedDecimal(t[1..]))
    else if t[0] == '+' then UnsignedDecimal(t[1..])
    else UnsignedDecimal(t)
  }

  // ---------------------------------------------------------------------
  // Arithmetic on numbers; any NaN operand makes the result NaN.

  function Add(a: JsNum, b: JsNum): JsNum {
    if a.Finite? && b.Finite? then Finite(a.r + b.r) else NaN
  }

  function Sub(a: JsNum, b: JsNum): JsNum {
    if a.Finite? && b.Finite? then Finite(a.r - b.r) else NaN
  }

  function Half(a: JsNum): JsNum {
    if a.Finite? then Finite(a.r / 2.0) else NaN
  }

  /** `Math.min(a, b)`: NaN when either argument is NaN. */
  function Min(a: JsNum, b: JsNum): JsNum {
    if a.NaN? || b.NaN? then NaN else if a.r <= b.r then a else b
  }

  /** `Math.max(a, b)`: NaN when either argument is NaN. */
  function Max(a: JsNum, b: JsNum): JsNum {
    if a.NaN? || b.NaN? then NaN else if a.r >= b.r then a else b
  }
}
