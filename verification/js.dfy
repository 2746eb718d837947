/**
 * The slice of JavaScript's value model the handlers touch: IEEE numbers
 * (as exact reals plus the three special values), JSON-shaped values, the
 * nullish-coalescing and truthiness rules, and the `Number(..)` / `String(..)`
 * conversions. The engine routines whose code is not visible (`Math.tanh`,
 * the string-to-number grammars, number printing, `JSON.stringify`) are the
 * fields of a `Host`, constrained by `Lawful`.
 */
module Js {
  import opened Results
  import opened Numerals
  import opened Text

  /** A JavaScript number; finite values are exact reals, so -0 and 0 coincide. */
  datatype Number = Finite(value: real) | PosInf | NegInf | NaN

  /** `n * -1`. */
  function Negate(n: Number): Number {
    match n
    case Finite(x) => Finite(-x)
    case PosInf => NegInf
    case NegInf => PosInf
    case NaN => NaN
  }

  /** `n / d` for a positive constant `d`. */
  function Divide(n: Number, d: real): Number
    requires 0.0 < d
  {
    match n
    case Finite(x) => Finite(x / d)
    case _ => n
  }

  /** `n * k` for a positive constant `k`. */
  function Multiply(n: Number, k: real): Number
    requires 0.0 < k
  {
    match n
    case Finite(x) => Finite(x * k)
    case _ => n
  }

  /** `n - c` for a constant `c`. */
  function Subtract(n: Number, c: real): Number {
    match n
    case Finite(x) => Finite(x - c)
    case _ => n
  }

  lemma MultiplyUndoesDivide(n: Number, d: real)
    requires 0.0 < d
    ensures Multiply(Divide(n, d), d) == n
    ensures Divide(Multiply(n, d), d) == n
  {
  }

  /** A JSON value as a handler sees it after `request.json()`, or a JavaScript object it builds.
      `text` is what `String(obj)` yields for an object ("[object Object]", or the joined
      elements of an array), and it is also what `Number(obj)` parses; it is `None` when
      the conversion throws instead, as for a parsed object whose own `toString` property
      is not a function. */
  datatype Value =
    | Undefined
    | Null
    | Bool(b: bool)
    | Num(n: Number)
    | Str(s: string)
    | Object(fields: map<string, Value>, text: Option<string>)

  const PlainObjectText := "[object Object]"

  /** A fresh object literal with the given own properties. */
  function Record(fields: map<string, Value>): Value {
    Object(fields, Some(PlainObjectText))
  }

  /** An object as `JSON.parse` builds it: it inherits `toString` and `valueOf` from
      `Object.prototype` unless it has an own `toString`, which, being data, cannot be
      called; `valueOf` then gives back the object itself, so converting it throws. */
  function Parsed(fields: map<string, Value>): (v: Value)
    ensures v.Object? && v.fields == fields
    ensures Converts(v) <==> "toString" !in fields
  {
    Object(fields, if "toString" in fields then None else Some(PlainObjectText))
  }

  /** Whether `String(v)`, `Number(v)` and a template literal can convert `v`; when not,
      they throw a TypeError. */
  predicate Converts(v: Value) {
    !v.Object? || v.text.Some?
  }

  /** `v.key` for a `v` that is not null or undefined; only own properties are modelled. */
  function Field(v: Value, key: string): Value {
    if v.Object? && key in v.fields then v.fields[key] else Undefined
  }

  predicate IsNullish(v: Value) {
    v.Undefined? || v.Null?
  }

  /** `a ?? b`. */
  function Coalesce(a: Value, b: Value): (r: Value)
    ensures !IsNullish(a) ==> r == a
    ensures IsNullish(a) ==> r == b
  {
    if IsNullish(a) then b else a
  }

  /** JavaScript truthiness: `!v` is `!Truthy(v)`. */
  predicate Truthy(v: Value) {
    match v
    case Undefined => false
    case Null => false
    case Bool(b) => b
    case Num(n) => !n.NaN? && n != Finite(0.0)
    case Str(s) => s != ""
    case Object(_, _) => true
  }

  /** The host routines the handlers call but whose code is outside this model. */
  datatype Host = Host(
    tanh: real -> real,                 // Math.tanh on finite arguments
    stringToNumber: string -> Number,   // Number(s)
    parseFloat: string -> Number,       // parseFloat(s)
    numberToString: real -> string,     // String(x) for a finite x
    jsonStringify: Value -> string,     // JSON.stringify(v)
    typeError: string -> string,        // message of the TypeError raised reading `key` of null
    conversionError: string)            // message of the TypeError raised converting an object that has no primitive

  /** `Number(v)`. */
  function ToNumber(h: Host, v: Value): Number
    requires Converts(v)
  {
    match v
    case Undefined => NaN
    case Null => Finite(0.0)
    case Bool(b) => Finite(if b then 1.0 else 0.0)
    case Num(n) => n
    case Str(s) => h.stringToNumber(s)
    case Object(_, text) => h.stringToNumber(text.value)
  }

  function NumberText(h: Host, n: Number): string {
    match n
    case Finite(x) => h.numberToString(x)
    case PosInf => "Infinity"
    case NegInf => "-Infinity"
    case NaN => "NaN"
  }

  /** `String(v)`. */
  function ToString(h: Host, v: Value): string
    requires Converts(v)
  {
    match v
    case Undefined => "undefined"
    case Null => "null"
    case Bool(b) => if b then "true" else "false"
    case Num(n) => NumberText(h, n)
    case Str(s) => s
    case Object(_, text) => text.value
  }

  /** The message of `new Error(v)`: the text of `v`, or the conversion TypeError's
      message when `v` does not convert, since that is what is thrown instead. */
  function ErrorMessage(h: Host, v: Value): (s: string)
    ensures Converts(v) ==> s == ToString(h, v)
    ensures !Converts(v) ==> s == h.conversionError
  {
    if Converts(v) then ToString(h, v) else h.conversionError
  }

  /** `Math.tanh` on a number: it tends to ±1 at the infinities. */
  function Tanh(h: Host, n: Number): Number {
    match n
    case Finite(x) => Finite(h.tanh(x))
    case PosInf => Finite(1.0)
    case NegInf => Finite(-1.0)
    case NaN => NaN
  }

  /** The properties of the mathematical hyperbolic tangent the model relies on. A binary
      `Math.tanh` rounds to exactly 1 from about 20 on, so it meets only the weak forms of
      the bound and the monotonicity there; the model works with the exact function. */
  ghost predicate TanhLaws(t: real -> real) {
    && t(0.0) == 0.0
    && (forall x :: -1.0 < t(x) < 1.0)
    && (forall x :: t(-x) == -t(x))
    && (forall x, y :: x < y ==> t(x) < t(y))
  }

  predicate AllSpace(s: string) {
    forall i :: 0 <= i < |s| ==> IsJsSpace(s[i])
  }

  predicate IsAsciiLetter(c: char) {
    ('a' <= c <= 'z') || ('A' <= c <= 'Z')
  }

  /** A string no numeric grammar accepts: it opens with a letter, and not the 'I' of "Infinity". */
  predicate StartsWithWord(s: string) {
    0 < |s| && IsAsciiLetter(s[0]) && s[0] != 'I'
  }

  /** The laws the model assumes of the host routines: the ECMAScript number grammars on plain
      decimals, blanks and words, read over exact reals, and the exact hyperbolic tangent.
      Binary rounding and overflow are idealised away: a literal too long for a double still
      denotes its exact value here, and `Math.tanh` never reaches 1. */
  ghost predicate Lawful(h: Host) {
    && TanhLaws(h.tanh)
    && (forall s :: IsDecimal(s) ==> h.stringToNumber(s) == Finite(DecimalValue(s)))
    && (forall s :: IsDecimal(s) ==> h.parseFloat(s) == Finite(DecimalValue(s)))
    && (forall s :: AllSpace(s) ==> h.stringToNumber(s) == Finite(0.0))
    && h.parseFloat("") == NaN
    && (forall s :: StartsWithWord(s) ==> h.stringToNumber(s) == NaN && h.parseFloat(s) == NaN)
    && (forall x :: 0 < |h.numberToString(x)| && (IsDigit(h.numberToString(x)[0]) || h.numberToString(x)[0] == '-'))
  }

  function Abs(x: real): real {
    if x < 0.0 then -x else x
  }

  /** x / (1 + |x|): a function with every property `TanhLaws` asks of tanh. */
  function Squash(x: real): real {
    x / (1.0 + Abs(x))
  }

  lemma SquashIncreasingOnNonNegatives(x: real, y: real)
    requires 0.0 <= x < y
    ensures Squash(x) < Squash(y)
  {
    assert x * (1.0 + y) < y * (1.0 + x) by {
      assert x * (1.0 + y) == x + x * y;
      assert y * (1.0 + x) == y + x * y;
    }
    var a, b := 1.0 + x, 1.0 + y;
    assert x / a < y / b by {
      assert x / a == (x * b) / (a * b);
      assert y / b == (y * a) / (a * b);
      assert 0.0 < a * b;
    }
  }

  lemma SquashIsTanhLike()
    ensures TanhLaws(Squash)
  {
    forall x
      ensures -1.0 < Squash(x) < 1.0
    {
      var d := 1.0 + Abs(x);
      assert Abs(x) < d;
      assert -d < x < d;
      assert x / d < 1.0 by { assert x / d * d == x; }
      assert -1.0 < x / d by { assert x / d * d == x; }
    }
    forall x
      ensures Squash(-x) == -Squash(x)
    {
      assert Abs(-x) == Abs(x);
    }
    forall x, y | x < y
      ensures Squash(x) < Squash(y)
    {
      if 0.0 <= x {
        SquashIncreasingOnNonNegatives(x, y);
      } else if 0.0 <= y {
        assert Squash(x) < 0.0 by { assert x / (1.0 + Abs(x)) * (1.0 + Abs(x)) == x; }
        assert 0.0 <= Squash(y);
      } else {
        SquashIncreasingOnNonNegatives(-y, -x);
        assert Abs(-x) == Abs(x) && Abs(-y) == Abs(y);
      }
    }
  }

  /** The string-to-number behaviour of a host that knows only decimal literals. */
  function DecimalsOnly(s: string, blank: Number): Number {
    if IsDecimal(s) then Finite(DecimalValue(s))
    else if AllSpace(s) then blank
    else NaN
  }

  /** The laws are consistent: some host satisfies all of them. */
  lemma LawfulHostExists()
    ensures Lawful(Host(Squash, s => DecimalsOnly(s, Finite(0.0)), s => DecimalsOnly(s, NaN),
                        x => "0", v => "null", k => "TypeError", "TypeError"))
  {
    SquashIsTanhLike();
    var h := Host(Squash, s => DecimalsOnly(s, Finite(0.0)), s => DecimalsOnly(s, NaN),
                  x => "0", v => "null", k => "TypeError", "TypeError");
    assert !IsDecimal("") by { assert DotIndex("") == 0; }
    forall s | StartsWithWord(s)
      ensures !IsDecimal(s) && !AllSpace(s)
    {
      assert !IsJsSpace(s[0]);
      if s[0] != '-' && 0 < DotIndex(s) {
        assert s[..DotIndex(s)][0] == s[0];
        assert !IsDigit(s[0]);
      }
    }
  }
}
