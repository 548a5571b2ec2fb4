/** `xScale` and `yScale`: a linear scale whose domain runs from the smallest to the
    largest value of the chosen column and whose range spans the plot area, left to
    right for X and bottom to top for Y. The domain is computed with d3.min and
    d3.max, which compare in JavaScript's natural order and skip `undefined` and NaN;
    `scaleLinear().domain` then coerces both ends with unary plus. */
module Scales {
  import opened JsValues
  import Layout

  /** A linear scale, as its two domain ends and its two range ends. */
  datatype Scale = Linear(domain: (Number, Number), range: (int, int))

  /** The values `d => d[key]` of a column, in row order. */
  function Column(rows: seq<Row>, key: string): (c: seq<Value>)
    ensures |c| == |rows|
    ensures forall i :: 0 <= i < |rows| ==> c[i] == Get(rows[i], key)
  {
    seq(|rows|, i requires 0 <= i < |rows| => Get(rows[i], key))
  }

  /** Whether `v` displaces the running extremum `acc` in d3.min (`acc > v`) or
      d3.max (`acc < v`); while there is no extremum yet, any value that is not NaN
      (`v >= v`) is taken. `undefined` is always skipped. */
  predicate Displaces(v: Value, acc: Value, isMax: bool, parse: string -> Number)
  {
    v != Undefined &&
    ((if isMax then Greater(v, acc, parse) else Greater(acc, v, parse)) ||
     (acc == Undefined && GreaterOrEqual(v, v, parse)))
  }

  /** The left-to-right scan of d3.min (`isMax` false) or d3.max (`isMax` true),
      continued from the running extremum `acc`. */
  function ExtremumFrom(vals: seq<Value>, acc: Value, isMax: bool, parse: string -> Number): Value
    decreases |vals|
  {
    if vals == [] then acc
    else
      var next := if Displaces(vals[0], acc, isMax, parse) then vals[0] else acc;
      ExtremumFrom(vals[1..], next, isMax, parse)
  }

  /** d3.min / d3.max of a column; `undefined` when it holds no comparable value. */
  function Extremum(vals: seq<Value>, isMax: bool, parse: string -> Number): Value
  {
    ExtremumFrom(vals, Undefined, isMax, parse)
  }

  /** `x` lies at or beyond `y` in the direction of the scan: at least `y` for a
      maximum, at most `y` for a minimum. */
  predicate AtLeast(x: real, y: real, isMax: bool)
  {
    if isMax then y <= x else x <= y
  }

  /** `s` lies at or beyond `t` in string order, in the direction of the scan. */
  predicate AtLeastStr(s: string, t: string, isMax: bool)
  {
    s == t || (if isMax then StrLess(t, s) else StrLess(s, t))
  }

  /** The domain `[d3.min, d3.max]` of a column, coerced to numbers. */
  function Domain(rows: seq<Row>, key: string, parse: string -> Number): (Number, Number)
  {
    var c := Column(rows, key);
    (ToNumber(Extremum(c, false, parse), parse), ToNumber(Extremum(c, true, parse), parse))
  }

  /** `xScale(povertyData, chosenXAxis)`: range `[0, width]`. */
  function XScale(rows: seq<Row>, key: string, parse: string -> Number): Scale
  {
    Linear(Domain(rows, key, parse), (0, Layout.Width))
  }

  /** `yScale(povertyData, chosenYAxis)`: the inverted range `[height, 0]`, so that
      larger values are drawn higher up. */
  function YScale(rows: seq<Row>, key: string, parse: string -> Number): Scale
  {
    Linear(Domain(rows, key, parse), (Layout.Height, 0))
  }

  /** On a column of numbers, the scan ends on the most extreme finite one, or on
      its starting point when that is further out; NaN never wins, and the scan
      ends on `undefined` only when it started there and met nothing but NaN. */
  lemma {:induction false} NumericExtremumFrom(vals: seq<Value>, acc: Value, isMax: bool, parse: string -> Number)
    requires forall i :: 0 <= i < |vals| ==> vals[i].Num?
    requires acc == Undefined || (acc.Num? && acc.n.Finite?)
    ensures var r := ExtremumFrom(vals, acc, isMax, parse);
      && (r == Undefined <==> acc == Undefined && forall i :: 0 <= i < |vals| ==> vals[i].n.NaN?)
      && (r != Undefined ==> r.Num? && r.n.Finite? && (r == acc || r in vals))
      && (r != Undefined && acc != Undefined ==> AtLeast(r.n.r, acc.n.r, isMax))
      && (forall i :: 0 <= i < |vals| && vals[i].n.Finite? ==>
            r != Undefined && AtLeast(r.n.r, vals[i].n.r, isMax))
  {
    if vals != [] {
      var next := if Displaces(vals[0], acc, isMax, parse) then vals[0] else acc;
      assert next == Undefined || (next.Num? && next.n.Finite?);
      assert next != Undefined && acc != Undefined ==> AtLeast(next.n.r, acc.n.r, isMax);
      assert vals[0].n.Finite? ==> next != Undefined && AtLeast(next.n.r, vals[0].n.r, isMax);
      NumericExtremumFrom(vals[1..], next, isMax, parse);
      assert vals == [vals[0]] + vals[1..];
      forall i | 1 <= i < |vals|
        ensures vals[i] == vals[1..][i - 1]
      {
      }
    }
  }

  /** On a column of strings, the scan ends on the string that comes first (d3.min)
      or last (d3.max) in string order, or on its starting point when that is further
      out. Nothing is skipped: every string compares with itself. */
  lemma {:induction false} TextExtremumFrom(vals: seq<Value>, acc: Value, isMax: bool, parse: string -> Number)
    requires forall i :: 0 <= i < |vals| ==> vals[i].Text?
    requires acc == Undefined || acc.Text?
    ensures var r := ExtremumFrom(vals, acc, isMax, parse);
      && (r == Undefined <==> acc == Undefined && vals == [])
      && (r != Undefined ==> r.Text? && (r == acc || r in vals))
      && (r != Undefined && acc != Undefined ==> AtLeastStr(r.s, acc.s, isMax))
      && (forall i :: 0 <= i < |vals| ==> r != Undefined && AtLeastStr(r.s, vals[i].s, isMax))
  {
    if vals != [] {
      var v := vals[0];
      var next := if Displaces(v, acc, isMax, parse) then v else acc;
      StrLessIrreflexive(v.s);
      assert next.Text?;
      if acc != Undefined {
        StrLessTotal(v.s, acc.s);
        assert AtLeastStr(next.s, acc.s, isMax);
        assert AtLeastStr(next.s, v.s, isMax);
      }
      TextExtremumFrom(vals[1..], next, isMax, parse);
      var r := ExtremumFrom(vals, acc, isMax, parse);
      assert AtLeastStr(r.s, next.s, isMax);
      if acc != Undefined {
        AtLeastStrTransitive(r.s, next.s, acc.s, isMax);
      }
      AtLeastStrTransitive(r.s, next.s, v.s, isMax);
      forall i | 1 <= i < |vals|
        ensures vals[i] == vals[1..][i - 1]
      {
      }
      assert vals == [v] + vals[1..];
    }
  }

  lemma AtLeastStrTransitive(s: string, t: string, u: string, isMax: bool)
    requires AtLeastStr(s, t, isMax) && AtLeastStr(t, u, isMax)
    ensures AtLeastStr(s, u, isMax)
  {
    if s != t && t != u {
      if isMax {
        StrLessTransitive(u, t, s);
      } else {
        StrLessTransitive(s, t, u);
      }
    }
  }

  /** On a column holding only numbers, at least one of them finite, the domain is
      `[min, max]` of its finite values: both ends occur in the column, the start
      is at most the end, and every finite value lies between them. */
  lemma NumericDomain(rows: seq<Row>, key: string, parse: string -> Number)
    requires forall i :: 0 <= i < |rows| ==> Get(rows[i], key).Num?
    requires exists i :: 0 <= i < |rows| && Get(rows[i], key).n.Finite?
    ensures var d := Domain(rows, key, parse);
      && d.0.Finite? && d.1.Finite? && d.0.r <= d.1.r
      && Num(d.0) in Column(rows, key) && Num(d.1) in Column(rows, key)
      && forall i :: 0 <= i < |rows| && Get(rows[i], key).n.Finite? ==>
           d.0.r <= Get(rows[i], key).n.r <= d.1.r
  {
    var c := Column(rows, key);
    NumericExtremumFrom(c, Undefined, false, parse);
    NumericExtremumFrom(c, Undefined, true, parse);
  }

  /** On a non-empty column holding only strings, the domain is the unary plus of
      the first and of the last string in string order, not of the numerically
      smallest and largest. */
  lemma TextDomain(rows: seq<Row>, key: string, parse: string -> Number)
    requires forall i :: 0 <= i < |rows| ==> Get(rows[i], key).Text?
    requires |rows| > 0
    ensures var c := Column(rows, key);
      var lo, hi := Extremum(c, false, parse), Extremum(c, true, parse);
      && lo.Text? && hi.Text? && lo in c && hi in c
      && Domain(rows, key, parse) == (parse(lo.s), parse(hi.s))
      && forall i :: 0 <= i < |rows| ==>
           AtLeastStr(lo.s, Get(rows[i], key).s, false) && AtLeastStr(hi.s, Get(rows[i], key).s, true)
  {
    var c := Column(rows, key);
    TextExtremumFrom(c, Undefined, false, parse);
    TextExtremumFrom(c, Undefined, true, parse);
  }

  /** With no rows at all, both ends of the domain are NaN. */
  lemma EmptyDomain(key: string, parse: string -> Number)
    ensures Domain([], key, parse) == (NaN, NaN)
  {
  }
}
