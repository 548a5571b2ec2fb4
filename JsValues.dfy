/** The slice of JavaScript's value semantics that the scatter-plot script relies on:
    the values a CSV row's properties can hold, unary plus, template-literal printing
    and the relational operators `>` and `>=`. */
module JsValues {

  /** A JavaScript number. Infinities and signed zero play no part in the chart. */
  datatype Number = NaN | Finite(r: real)

  /** A property value of a data row: absent, a string as read from the CSV file,
      or a number written back by the conversion loop. */
  datatype Value = Undefined | Text(s: string) | Num(n: Number)

  /** A data row: a plain object from property name to value. */
  type Row = map<string, Value>

  /** Property access `d[key]`; a missing property reads as `undefined`. */
  function Get(row: Row, key: string): Value
  {
    if key in row then row[key] else Undefined
  }

  /** Unary plus `+v`. `parse` is the engine's string-to-number conversion. */
  function ToNumber(v: Value, parse: string -> Number): Number
  {
    match v
    case Undefined => NaN
    case Text(s) => parse(s)
    case Num(n) => n
  }

  /** Interpolation of `v` into a template literal, `${v}`. `show` is the engine's
      number-to-string conversion for finite numbers. */
  function Show(v: Value, show: real -> string): string
  {
    match v
    case Undefined => "undefined"
    case Text(s) => s
    case Num(NaN) => "NaN"
    case Num(Finite(r)) => show(r)
  }

  /** String comparison `a < b`: lexicographic by code unit, a proper prefix first. */
  predicate StrLess(a: string, b: string)
  {
    if a == [] then b != []
    else if b == [] then false
    else if a[0] != b[0] then a[0] < b[0]
    else StrLess(a[1..], b[1..])
  }

  lemma {:induction false} StrLessIrreflexive(a: string)
    ensures !StrLess(a, a)
  {
    if a != [] {
      StrLessIrreflexive(a[1..]);
    }
  }

  lemma {:induction false} StrLessTransitive(a: string, b: string, c: string)
    requires StrLess(a, b) && StrLess(b, c)
    ensures StrLess(a, c)
  {
    if a != [] && b != [] && c != [] && a[0] == b[0] && b[0] == c[0] {
      StrLessTransitive(a[1..], b[1..], c[1..]);
    }
  }

  lemma {:induction false} StrLessTotal(a: string, b: string)
    ensures a == b || StrLess(a, b) || StrLess(b, a)
  {
    if a != [] && b != [] && a[0] == b[0] {
      StrLessTotal(a[1..], b[1..]);
      if a[1..] == b[1..] {
        assert a == [a[0]] + a[1..] && b == [b[0]] + b[1..];
      }
    }
  }

  /** The relational operator `a > b`: two strings compare as strings, anything else
      as numbers, and a comparison involving NaN is false. */
  predicate Greater(a: Value, b: Value, parse: string -> Number)
  {
    if a.Text? && b.Text? then StrLess(b.s, a.s)
    else
      var x, y := ToNumber(a, parse), ToNumber(b, parse);
      x.Finite? && y.Finite? && x.r > y.r
  }

  /** The relational operator `a >= b`, with the same coercions as `Greater`. */
  predicate GreaterOrEqual(a: Value, b: Value, parse: string -> Number)
  {
    if a.Text? && b.Text? then !StrLess(a.s, b.s)
    else
      var x, y := ToNumber(a, parse), ToNumber(b, parse);
      x.Finite? && y.Finite? && x.r >= y.r
  }
}
