/**
 * box.go's main as the source runs it, step by step: check the style number,
 * scan the input lines while tracking the widest, size the box, then emit the
 * top border, one row per line and the bottom border. Each method is proved
 * to compute what module Layout specifies.
 *
 * Flag parsing, reading standard input and printing are not modelled: the
 * style number, title and centre flag are parameters, the input is a
 * sequence of lines, and the printed rows are returned.
 */
module Box {
  import opened Wrappers
  import opened Width
  import opened Styles
  import opened Layout

  /** The input scan: append every line, in order, and raise the running
      maximum whenever a line is wider than all before it. */
  method ScanLines(runeWidth: RuneWidthFn, input: seq<string>) returns (lines: seq<string>, maxContentWidth: nat)
    ensures lines == input
    ensures maxContentWidth == MaxContentWidth(runeWidth, input)
  {
    lines := [];
    maxContentWidth := 0;
    for i := 0 to |input|
      invariant lines == input[..i]
      invariant maxContentWidth == MaxContentWidth(runeWidth, input[..i])
    {
      var line := input[i];
      lines := lines + [line];
      var l := ComputeVisualLength(runeWidth, line);
      if l > maxContentWidth {
        maxContentWidth := l;
      }
      assert input[..i + 1][..i] == input[..i];
    }
    assert input[..|input|] == input;
  }

  /** The top border as the source prints it: with a title, the spare width
      is split with the truncated half on the left. This is the statement
      sequence of main, which measures the decoration with the rune loop; its
      specification is Layout.TopBorder, about which the properties are
      proved. */
  method EmitTopBorder(runeWidth: RuneWidthFn, style: BoxStyle, title: string, innerWidth: nat) returns (top: string)
    requires title != "" ==> VisualLength(runeWidth, TitleDecor(style, title)) <= innerWidth
    ensures top == TopBorder(runeWidth, style, title, innerWidth)
  {
    if title != "" {
      var titleDecor := style.titleLeft + " *" + title + "* " + style.titleRight;
      var decorWidth := ComputeVisualLength(runeWidth, titleDecor);
      var remaining := innerWidth - decorWidth;
      var leftFill := Half(remaining);
      var rightFill := remaining - leftFill;
      top := style.topLeft + Repeat(style.horizontal, leftFill) + titleDecor
             + Repeat(style.horizontal, rightFill) + style.topRight;
    } else {
      top := style.topLeft + Repeat(style.horizontal, innerWidth) + style.topRight;
    }
  }

  /** One content row as the source prints it: centred, or left-aligned with
      the right pad clamped at 0. This is the statement sequence of main's
      output loop, which measures the line with the rune loop; its
      specification is Layout.ContentRow, about which the properties are
      proved. */
  method EmitContentRow(runeWidth: RuneWidthFn, style: BoxStyle, line: string, innerWidth: nat, center: bool)
    returns (row: string)
    requires center ==> VisualLength(runeWidth, line) <= innerWidth
    ensures row == ContentRow(runeWidth, style, line, innerWidth, center)
  {
    var width := ComputeVisualLength(runeWidth, line);
    var pad := innerWidth - width;
    var leftPad, rightPad;
    if center {
      leftPad := Half(pad);
      rightPad := pad - leftPad;
    } else {
      leftPad := 1;
      rightPad := pad - leftPad;
      if rightPad < 0 {
        rightPad := 0;
      }
    }
    row := style.vertical + Repeat(" ", leftPad) + line + Repeat(" ", rightPad) + style.vertical;
  }

  /** The output loop: the top border, one row per line in input order, and
      the bottom border. */
  method EmitRows(runeWidth: RuneWidthFn, style: BoxStyle, lines: seq<string>, title: string,
                  innerWidth: nat, center: bool) returns (rows: seq<string>)
    requires title != "" ==> VisualLength(runeWidth, TitleDecor(style, title)) <= innerWidth
    requires center ==> forall i :: 0 <= i < |lines| ==> VisualLength(runeWidth, lines[i]) <= innerWidth
    ensures rows == Frame(runeWidth, style, lines, title, innerWidth, center)
  {
    var top := EmitTopBorder(runeWidth, style, title, innerWidth);
    rows := [top];
    for i := 0 to |lines|
      invariant rows == [top] + ContentRows(runeWidth, style, lines[..i], innerWidth, center)
    {
      var row := EmitContentRow(runeWidth, style, lines[i], innerWidth, center);
      assert lines[..i + 1][..i] == lines[..i];
      rows := rows + [row];
    }
    assert lines[..|lines|] == lines;
    rows := rows + [style.bottomLeft + Repeat(style.horizontal, innerWidth) + style.bottomRight];
  }

  /** A whole run. An unknown style number is rejected before anything is
      emitted; otherwise the rows are those of the rendered box. */
  method Run(runeWidth: RuneWidthFn, styleNum: int, title: string, center: bool, input: seq<string>)
    returns (out: Result<seq<string>, BoxError>)
    ensures out == Box(runeWidth, styleNum, title, center, input)
  {
    var found := LookupStyle(styleNum);
    if found.None? {
      return Failure(InvalidStyle(styleNum));
    }
    var style := found.value;

    var lines, maxContentWidth := ScanLines(runeWidth, input);

    var innerWidth := maxContentWidth + MinPadding;
    if title != "" {
      var titleDecor := TitleDecor(style, title);
      var decorWidth := ComputeVisualLength(runeWidth, titleDecor);
      if decorWidth > innerWidth {
        innerWidth := decorWidth;
      }
    }
    assert innerWidth == InnerWidth(runeWidth, lines, style, title);

    var rows := EmitRows(runeWidth, style, lines, title, innerWidth, center);
    return Success(rows);
  }
}
