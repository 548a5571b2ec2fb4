/** The axis-selection state machine of the scatter plot. Each axis has one chosen
    attribute and three clickable labels; clicking a label that is not the chosen one
    makes it the chosen one, rebuilds that axis's scale, redraws the marks, rebinds
    the tooltip and moves the `active` class to the clicked label. */
module Chart {
  import opened JsValues
  import opened Scales
  import opened Tooltip
  import RowConversion

  /** The attributes the X axis can show, by the `value` attribute of their label. */
  datatype XAttr = Poverty | Age | Income
  {
    function Name(): string
    {
      match this
      case Poverty => "poverty"
      case Age => "age"
      case Income => "income"
    }
  }

  /** The attributes the Y axis can show, by the `value` attribute of their label. */
  datatype YAttr = Healthcare | Smokes | Obesity
  {
    function Name(): string
    {
      match this
      case Healthcare => "healthcare"
      case Smokes => "smokes"
      case Obesity => "obesity"
    }
  }

  /** The two CSS classes a label toggles. */
  datatype LabelClass = LabelClass(active: bool, inactive: bool)

  /** A label styled for `selected`: active exactly when selected, inactive otherwise. */
  predicate Styled(l: LabelClass, selected: bool)
  {
    l.active == selected && l.inactive == !selected
  }

  /** A call into the drawing library: the chart records what it asked to draw.
      `CirclesPlaced` and `TextPlaced` stand both for the first placement of the marks
      and for their later transitions to new scales. */
  datatype Redraw =
    | XAxisDrawn(scale: Scale)
    | YAxisDrawn(scale: Scale)
    | CirclesPlaced(x: XAttr, xScale: Scale, y: YAttr, yScale: Scale)
    | TextPlaced(x: XAttr, xScale: Scale, y: YAttr, yScale: Scale)
    | TooltipBound(x: XAttr, y: YAttr)

  /** What the chart asks to draw after a selection change or on first render: the
      marks and their texts at the current scales, then the tooltip for the pair. */
  function Marks(x: XAttr, xs: Scale, y: YAttr, ys: Scale): seq<Redraw>
  {
    [CirclesPlaced(x, xs, y, ys), TextPlaced(x, xs, y, ys), TooltipBound(x, y)]
  }

  class Chart {
    /** The converted rows, read by every scale. */
    const rows: seq<Row>
    /** The engine's string-to-number conversion. */
    const parse: string -> Number

    var chosenX: XAttr
    var chosenY: YAttr
    var xScale: Scale
    var yScale: Scale

    var povertyLabel: LabelClass
    var ageLabel: LabelClass
    var incomeLabel: LabelClass
    var healthcareLabel: LabelClass
    var smokesLabel: LabelClass
    var obesityLabel: LabelClass

    /** The selection pair the marks' tooltip html was built with. */
    var tooltip: (XAttr, YAttr)
    /** Everything asked of the drawing library so far, in order. */
    var redraws: seq<Redraw>

    function XLabel(a: XAttr): LabelClass
      reads this
    {
      match a
      case Poverty => povertyLabel
      case Age => ageLabel
      case Income => incomeLabel
    }

    function YLabel(a: YAttr): LabelClass
      reads this
    {
      match a
      case Healthcare => healthcareLabel
      case Smokes => smokesLabel
      case Obesity => obesityLabel
    }

    /** The chart's invariant: each scale is the one for its axis's selection, on
        each axis exactly the chosen label is active and the others are inactive,
        and the tooltip shows the current pair. */
    ghost predicate Valid()
      reads this
    {
      && xScale == XScale(rows, chosenX.Name(), parse)
      && yScale == YScale(rows, chosenY.Name(), parse)
      && XLabelsShow(chosenX)
      && YLabelsShow(chosenY)
      && tooltip == (chosenX, chosenY)
    }

    /** The three X labels are styled for the selection `x`. */
    predicate XLabelsShow(x: XAttr)
      reads this
    {
      Styled(povertyLabel, x == Poverty) && Styled(ageLabel, x == Age) && Styled(incomeLabel, x == Income)
    }

    /** The three Y labels are styled for the selection `y`. */
    predicate YLabelsShow(y: YAttr)
      reads this
    {
      Styled(healthcareLabel, y == Healthcare) && Styled(smokesLabel, y == Smokes) && Styled(obesityLabel, y == Obesity)
    }

    /** In a valid chart, on each axis the one active label is the one whose value is
        the selection, every other label is inactive, and no label is both. */
    lemma ExactlyOneActive()
      requires Valid()
      ensures forall a :: (XLabel(a).active <==> a == chosenX) && XLabel(a).inactive != XLabel(a).active
      ensures forall a :: (YLabel(a).active <==> a == chosenY) && YLabel(a).inactive != YLabel(a).active
    {
    }

    /** The first render: poverty against healthcare, the poverty and healthcare
        labels active and the other four inactive. */
    constructor (rows: seq<Row>, parse: string -> Number)
      ensures Valid()
      ensures this.rows == rows && this.parse == parse
      ensures chosenX == Poverty && chosenY == Healthcare
      ensures povertyLabel.active && healthcareLabel.active
      ensures ageLabel.inactive && incomeLabel.inactive && smokesLabel.inactive && obesityLabel.inactive
      ensures redraws == [XAxisDrawn(xScale), YAxisDrawn(yScale)] + Marks(Poverty, xScale, Healthcare, yScale)
    {
      this.rows := rows;
      this.parse := parse;
      chosenX := Poverty;
      chosenY := Healthcare;
      var xs := XScale(rows, Poverty.Name(), parse);
      var ys := YScale(rows, Healthcare.Name(), parse);
      xScale := xs;
      yScale := ys;
      tooltip := (Poverty, Healthcare);
      redraws := [XAxisDrawn(xs), YAxisDrawn(ys)] + Marks(Poverty, xs, Healthcare, ys);
      var none := LabelClass(false, false);
      povertyLabel := none.(active := true);
      ageLabel := none.(inactive := true);
      incomeLabel := none.(inactive := true);
      healthcareLabel := none.(active := true);
      smokesLabel := none.(inactive := true);
      obesityLabel := none.(inactive := true);
    }

    /** A click on the X label whose `value` is `value`. */
    method ClickX(value: XAttr)
      requires Valid()
      modifies this
      ensures Valid()
      ensures chosenX == value
      ensures value == old(chosenX) ==> unchanged(this)
      ensures value != old(chosenX) ==>
        && xScale == XScale(rows, value.Name(), parse)
        && redraws == old(redraws) + [XAxisDrawn(xScale)] + Marks(value, xScale, chosenY, yScale)
      ensures chosenY == old(chosenY) && yScale == old(yScale)
      ensures healthcareLabel == old(healthcareLabel) && smokesLabel == old(smokesLabel)
      ensures obesityLabel == old(obesityLabel)
    {
      if value != chosenX {
        chosenX := value;
        xScale := XScale(rows, chosenX.Name(), parse);
        // re-render the axis, the circles and their texts, then rebind the tooltip
        redraws := redraws + [XAxisDrawn(xScale)] + Marks(chosenX, xScale, chosenY, yScale);
        tooltip := (chosenX, chosenY);
        if chosenX == Age {
          ageLabel := ageLabel.(active := true).(inactive := false);
          povertyLabel := povertyLabel.(active := false).(inactive := true);
          incomeLabel := incomeLabel.(active := false).(inactive := true);
        } else if chosenX == Income {
          ageLabel := ageLabel.(active := false).(inactive := true);
          povertyLabel := povertyLabel.(active := false).(inactive := true);
          incomeLabel := incomeLabel.(active := true).(inactive := false);
        } else {
          ageLabel := ageLabel.(active := false).(inactive := true);
          povertyLabel := povertyLabel.(active := true).(inactive := false);
          incomeLabel := incomeLabel.(active := false).(inactive := true);
        }
      }
    }

    /** A click on the Y label whose `value` is `value`. */
    method ClickY(value: YAttr)
      requires Valid()
      modifies this
      ensures Valid()
      ensures chosenY == value
      ensures value == old(chosenY) ==> unchanged(this)
      ensures value != old(chosenY) ==>
        && yScale == YScale(rows, value.Name(), parse)
        && redraws == old(redraws) + [YAxisDrawn(yScale)] + Marks(chosenX, xScale, value, yScale)
      ensures chosenX == old(chosenX) && xScale == old(xScale)
      ensures povertyLabel == old(povertyLabel) && ageLabel == old(ageLabel)
      ensures incomeLabel == old(incomeLabel)
    {
      if value != chosenY {
        chosenY := value;
        yScale := YScale(rows, chosenY.Name(), parse);
        // re-render the axis, the circles and their texts, then rebind the tooltip
        redraws := redraws + [YAxisDrawn(yScale)] + Marks(chosenX, xScale, chosenY, yScale);
        tooltip := (chosenX, chosenY);
        if chosenY == Smokes {
          smokesLabel := smokesLabel.(active := true).(inactive := false);
          healthcareLabel := healthcareLabel.(active := false).(inactive := true);
          obesityLabel := obesityLabel.(active := false).(inactive := true);
        } else if chosenY == Obesity {
          smokesLabel := smokesLabel.(active := false).(inactive := true);
          healthcareLabel := healthcareLabel.(active := false).(inactive := true);
          obesityLabel := obesityLabel.(active := true).(inactive := false);
        } else {
          smokesLabel := smokesLabel.(active := false).(inactive := true);
          healthcareLabel := healthcareLabel.(active := true).(inactive := false);
          obesityLabel := obesityLabel.(active := false).(inactive := true);
        }
      }
    }

    /** The html the tooltip shows for a row on mouseover: it is built from the
        pair the tooltip was bound with, which is always the current selection. */
    method TooltipFor(row: Row, show: real -> string) returns (html: string)
      requires Valid()
      ensures html == TooltipHtml(row, chosenX.Name(), chosenY.Name(), show)
    {
      html := TooltipHtml(row, tooltip.0.Name(), tooltip.1.Name(), show);
    }
  }

  /** The data continuation: convert the rows read from the file in place, then
      draw the first frame from them. */
  method Start(data: array<Row>, parse: string -> Number) returns (chart: Chart)
    modifies data
    ensures data[..] == RowConversion.ConvertAll(old(data[..]), parse)
    ensures fresh(chart)
    ensures chart.rows == data[..] && chart.Valid()
    ensures chart.chosenX == Poverty && chart.chosenY == Healthcare
    ensures chart.redraws == [XAxisDrawn(chart.xScale), YAxisDrawn(chart.yScale)]
                             + Marks(Poverty, chart.xScale, Healthcare, chart.yScale)
  {
    RowConversion.ConvertRows(data, parse);
    chart := new Chart(data[..], parse);
  }

  /** `d` is `[min, max]` of the coerced values `+raw[i][key]`: both ends are finite,
      the start is at most the end, each end is the coerced value of some row, and
      every finite coerced value lies between them. */
  ghost predicate SpansCoerced(d: (Number, Number), raw: seq<Row>, key: string, parse: string -> Number)
  {
    && d.0.Finite? && d.1.Finite? && d.0.r <= d.1.r
    && (exists i :: 0 <= i < |raw| && ToNumber(Get(raw[i], key), parse) == d.0)
    && (exists i :: 0 <= i < |raw| && ToNumber(Get(raw[i], key), parse) == d.1)
    && forall i :: 0 <= i < |raw| && ToNumber(Get(raw[i], key), parse).Finite? ==>
         d.0.r <= ToNumber(Get(raw[i], key), parse).r <= d.1.r
  }

  /** After the conversion, each of the five properties it coerces under their own
      name (the three X attributes, healthcare and smokes) holds numbers. So when
      one row's value coerces to a finite number, the domain of that column
      is `[min, max]` of the coerced values. */
  lemma ConvertedDomain(raw: seq<Row>, key: string, parse: string -> Number)
    requires key in RowConversion.Converted
    requires exists i :: 0 <= i < |raw| && ToNumber(Get(raw[i], key), parse).Finite?
    ensures SpansCoerced(Domain(RowConversion.ConvertAll(raw, parse), key, parse), raw, key, parse)
  {
    var rows := RowConversion.ConvertAll(raw, parse);
    var c := Column(rows, key);
    forall i | 0 <= i < |rows|
      ensures c[i] == Num(ToNumber(Get(raw[i], key), parse))
    {
    }
    NumericDomain(rows, key, parse);
    var d := Domain(rows, key, parse);
    assert Num(d.0) in c && Num(d.1) in c;
    var lo :| 0 <= lo < |c| && c[lo] == Num(d.0);
    var hi :| 0 <= hi < |c| && c[hi] == Num(d.1);
    assert ToNumber(Get(raw[lo], key), parse) == d.0;
    assert ToNumber(Get(raw[hi], key), parse) == d.1;
    forall i | 0 <= i < |raw| && ToNumber(Get(raw[i], key), parse).Finite?
      ensures d.0.r <= ToNumber(Get(raw[i], key), parse).r <= d.1.r
    {
      assert Get(rows[i], key) == c[i];
    }
  }

  /** The X scale over the converted rows, for any X attribute with a finite value:
      range `[0, width]` = `[0, 555]`, domain `[min, max]` of the attribute's values. */
  lemma XScaleOfConverted(raw: seq<Row>, a: XAttr, parse: string -> Number)
    requires exists i :: 0 <= i < |raw| && ToNumber(Get(raw[i], a.Name()), parse).Finite?
    ensures var s := XScale(RowConversion.ConvertAll(raw, parse), a.Name(), parse);
      s.range == (0, 555) && SpansCoerced(s.domain, raw, a.Name(), parse)
  {
    Layout.PlotArea();
    ConvertedDomain(raw, a.Name(), parse);
  }

  /** The Y scale over the converted rows, for healthcare or smokes with a finite
      value: the inverted range `[height, 0]` = `[380, 0]`, domain `[min, max]` of the
      attribute's values. Obesity is not converted; see `ObesityDomain`. */
  lemma YScaleOfConverted(raw: seq<Row>, a: YAttr, parse: string -> Number)
    requires a == Healthcare || a == Smokes
    requires exists i :: 0 <= i < |raw| && ToNumber(Get(raw[i], a.Name()), parse).Finite?
    ensures var s := YScale(RowConversion.ConvertAll(raw, parse), a.Name(), parse);
      s.range == (380, 0) && SpansCoerced(s.domain, raw, a.Name(), parse)
  {
    Layout.PlotArea();
    ConvertedDomain(raw, a.Name(), parse);
  }

  /** The obesity column is not converted: when the file gives every row an obesity
      string, the Y domain for obesity is the coercion of the first and the last of
      those strings in string order. */
  lemma ObesityDomain(raw: seq<Row>, parse: string -> Number)
    requires |raw| > 0
    requires forall i :: 0 <= i < |raw| ==> Get(raw[i], "obesity").Text?
    ensures var rows := RowConversion.ConvertAll(raw, parse);
      var c := Column(rows, Obesity.Name());
      var lo, hi := Extremum(c, false, parse), Extremum(c, true, parse);
      && lo.Text? && hi.Text? && lo in c && hi in c
      && YScale(rows, Obesity.Name(), parse).domain == (parse(lo.s), parse(hi.s))
      && forall i :: 0 <= i < |raw| ==>
           AtLeastStr(lo.s, Get(raw[i], "obesity").s, false) && AtLeastStr(hi.s, Get(raw[i], "obesity").s, true)
  {
    var rows := RowConversion.ConvertAll(raw, parse);
    forall i | 0 <= i < |rows|
      ensures Get(rows[i], "obesity") == Get(raw[i], "obesity")
    {
      RowConversion.ObesityUnconverted(raw[i], parse);
    }
    TextDomain(rows, Obesity.Name(), parse);
  }

  /** Because obesity is compared as strings, its Y domain can run backwards: with
      obesity values "9.5" and "10.2", d3.min picks "10.2" and d3.max picks "9.5". */
  lemma ObesityDomainInverted(parse: string -> Number)
    requires parse("9.5") == Finite(9.5) && parse("10.2") == Finite(10.2)
    ensures var rows := RowConversion.ConvertAll([map["obesity" := Text("9.5")], map["obesity" := Text("10.2")]], parse);
      var d := YScale(rows, Obesity.Name(), parse).domain;
      d == (Finite(10.2), Finite(9.5)) && d.0.r > d.1.r
  {
    var raw: seq<Row> := [map["obesity" := Text("9.5")], map["obesity" := Text("10.2")]];
    var rows := RowConversion.ConvertAll(raw, parse);
    RowConversion.ObesityUnconverted(raw[0], parse);
    RowConversion.ObesityUnconverted(raw[1], parse);
    var c := Column(rows, "obesity");
    assert c == [Text("9.5"), Text("10.2")];
    StrLessIrreflexive("9.5");
    assert StrLess("10.2", "9.5");
    assert c[1..] == [Text("10.2")] && c[1..][1..] == [];
    // d3.min takes "9.5" first, then "10.2" because "9.5" > "10.2" as strings
    assert Displaces(c[0], Undefined, false, parse);
    assert Displaces(c[1], c[0], false, parse);
    assert Extremum(c, false, parse) == ExtremumFrom([Text("10.2")], Text("9.5"), false, parse) == Text("10.2");
    // d3.max takes "9.5" first and keeps it, because "10.2" < "9.5" as strings
    assert Displaces(c[0], Undefined, true, parse);
    assert !Displaces(c[1], c[0], true, parse);
    assert Extremum(c, true, parse) == ExtremumFrom([Text("10.2")], Text("9.5"), true, parse) == Text("9.5");
  }
}
