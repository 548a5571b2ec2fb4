/** The html of a mark's tooltip: the state's name, then the current X attribute and
    its value, then the current Y attribute and its value, one per line. */
module Tooltip {
  import opened JsValues

  /** The line break the template puts between the three lines. */
  const Br := "<br>"

  /** One attribute line, `${attr}: ${d[attr]}`. */
  function AttrLine(row: Row, attr: string, show: real -> string): string
  {
    attr + ": " + Show(Get(row, attr), show)
  }

  /** The template literal `${d.state}<br>${x}: ${d[x]}<br>${y}: ${d[y]}`. */
  function TooltipHtml(row: Row, x: string, y: string, show: real -> string): string
  {
    Show(Get(row, "state"), show) + Br + AttrLine(row, x, show) + Br + AttrLine(row, y, show)
  }

  /** `s` does not contain the line break. */
  predicate NoBr(s: string)
  {
    |s| < |Br| || (s[..|Br|] != Br && NoBr(s[1..]))
  }

  /** The lines of an html text: the pieces between its line breaks, found left to right. */
  function Lines(s: string): (r: seq<string>)
    ensures |r| >= 1
    decreases |s|
  {
    if |s| >= |Br| && s[..|Br|] == Br then [""] + Lines(s[|Br|..])
    else if s == [] then [""]
    else
      var rest := Lines(s[1..]);
      [[s[0]] + rest[0]] + rest[1..]
  }

  lemma {:induction false} LinesOfLine(a: string)
    requires NoBr(a)
    ensures Lines(a) == [a]
  {
    if a != [] {
      assert NoBr(a[1..]) by {
        if |a| < |Br| {
          assert |a[1..]| < |Br|;
        }
      }
      LinesOfLine(a[1..]);
      assert a == [a[0]] + a[1..];
    }
  }

  lemma {:induction false} LinesAfterLine(a: string, b: string)
    requires NoBr(a)
    ensures Lines(a + Br + b) == [a] + Lines(b)
  {
    var s := a + Br + b;
    if a == [] {
      assert s == Br + b;
      assert s[..|Br|] == Br;
      assert s[|Br|..] == b;
    } else {
      assert s[..|Br|] != Br by {
        if |a| >= |Br| {
          assert s[..|Br|] == a[..|Br|];
        } else {
          assert s[|a|] == '<';
          assert Br[|a|] != '<';
        }
      }
      assert NoBr(a[1..]) by {
        if |a| < |Br| {
          assert |a[1..]| < |Br|;
        }
      }
      LinesAfterLine(a[1..], b);
      assert s[1..] == a[1..] + Br + b;
      assert a == [a[0]] + a[1..];
    }
  }

  /** Splitting the tooltip at its line breaks gives back the state's name and the
      two attribute lines, provided none of them contains a line break itself. */
  lemma TooltipLines(row: Row, x: string, y: string, show: real -> string)
    requires NoBr(Show(Get(row, "state"), show))
    requires NoBr(AttrLine(row, x, show)) && NoBr(AttrLine(row, y, show))
    ensures Lines(TooltipHtml(row, x, y, show))
      == [Show(Get(row, "state"), show), AttrLine(row, x, show), AttrLine(row, y, show)]
  {
    var st, lx, ly := Show(Get(row, "state"), show), AttrLine(row, x, show), AttrLine(row, y, show);
    assert TooltipHtml(row, x, y, show) == st + Br + (lx + Br + ly);
    LinesAfterLine(st, lx + Br + ly);
    LinesAfterLine(lx, ly);
    LinesOfLine(ly);
  }
}
