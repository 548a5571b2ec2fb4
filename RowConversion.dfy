/** Step 1 of the data continuation: every row read from the CSV file gets its
    numeric columns coerced with unary plus, in place. The obesity column is the
    exception: its coerced value goes to a new property `obsesity`, and `obesity`
    itself keeps the string it was read as. */
module RowConversion {
  import opened JsValues

  /** The five properties the loop converts under their own name. */
  const Converted: set<string> := {"poverty", "age", "income", "healthcare", "smokes"}

  /** The property the loop writes the coerced obesity value to. */
  const Misspelt := "obsesity"

  /** One call of the `forEach` callback on a row, its six assignments in order. */
  function ConvertRow(row: Row, parse: string -> Number): (r: Row)
    ensures r.Keys == row.Keys + Converted + {Misspelt}
    ensures forall k :: k in Converted ==> r[k] == Num(ToNumber(Get(row, k), parse))
    ensures r[Misspelt] == Num(ToNumber(Get(row, "obesity"), parse))
    ensures forall k :: k in row && k !in Converted && k != Misspelt ==> r[k] == row[k]
  {
    var r1 := row["poverty" := Num(ToNumber(Get(row, "poverty"), parse))];
    var r2 := r1["age" := Num(ToNumber(Get(r1, "age"), parse))];
    var r3 := r2["income" := Num(ToNumber(Get(r2, "income"), parse))];
    var r4 := r3["healthcare" := Num(ToNumber(Get(r3, "healthcare"), parse))];
    var r5 := r4["smokes" := Num(ToNumber(Get(r4, "smokes"), parse))];
    r5[Misspelt := Num(ToNumber(Get(r5, "obesity"), parse))]
  }

  /** The obesity property comes out of the conversion exactly as it went in: a row
      read from CSV keeps its obesity value as a string. */
  lemma ObesityUnconverted(row: Row, parse: string -> Number)
    ensures Get(ConvertRow(row, parse), "obesity") == Get(row, "obesity")
  {
  }

  /** Every property the conversion writes holds a number afterwards. */
  lemma ConvertedAreNumbers(row: Row, parse: string -> Number, k: string)
    requires k in Converted || k == Misspelt
    ensures Get(ConvertRow(row, parse), k).Num?
  {
  }

  /** Converting a row a second time changes nothing: unary plus leaves a number as
      it is, and the misspelt property is recomputed from the untouched obesity string. */
  lemma ConvertRowIdempotent(row: Row, parse: string -> Number)
    ensures ConvertRow(ConvertRow(row, parse), parse) == ConvertRow(row, parse)
  {
  }

  /** Every row converted, in order. */
  function ConvertAll(raw: seq<Row>, parse: string -> Number): (rows: seq<Row>)
    ensures |rows| == |raw|
    ensures forall i :: 0 <= i < |raw| ==> rows[i] == ConvertRow(raw[i], parse)
  {
    seq(|raw|, i requires 0 <= i < |raw| => ConvertRow(raw[i], parse))
  }

  /** The `forEach` loop: each row in turn is replaced by its converted form. */
  method ConvertRows(rows: array<Row>, parse: string -> Number)
    modifies rows
    ensures rows[..] == ConvertAll(old(rows[..]), parse)
  {
    var i := 0;
    while i < rows.Length
      invariant 0 <= i <= rows.Length
      invariant forall j :: 0 <= j < i ==> rows[j] == ConvertRow(old(rows[j]), parse)
      invariant forall j :: i <= j < rows.Length ==> rows[j] == old(rows[j])
    {
      rows[i] := ConvertRow(rows[i], parse);
      i := i + 1;
    }
  }
}
