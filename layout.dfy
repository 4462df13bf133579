/**
 * The box geometry of box.go's main, lifted into pure functions: the widest
 * line, the inner width, the title decoration, the fill and padding splits,
 * and the rows of a rendered box. The step-by-step computation that the
 * source performs is in module Box; this module is its specification.
 */
module Layout {
  import opened Wrappers
  import opened Width
  import opened Styles

  /** One column of padding on each side of the widest line. */
  const MinPadding: nat := 2

  /** box.go's max: the larger of two integers. */
  function Max(a: int, b: int): (m: int)
    ensures m >= a && m >= b
    ensures m == a || m == b
  {
    if a > b then a else b
  }

  /** Go's integer `n / 2`: the quotient truncated toward zero. */
  function Half(n: int): (h: int)
    ensures n >= 0 ==> 0 <= h && 0 <= n - 2 * h <= 1
    ensures n < 0 ==> h <= 0 && -1 <= n - 2 * h <= 0
  {
    if n >= 0 then n / 2 else -((-n) / 2)
  }

  /** strings.Repeat: `n` copies of `s`. Go panics on a negative count; the
      type of `n` makes every caller prove its count is not negative. */
  function Repeat(s: string, n: nat): (r: string)
    ensures r == [] <==> n == 0 || s == []
  {
    if n == 0 then [] else s + Repeat(s, n - 1)
  }

  /** `n` copies of `s` are `n` times as long as `s`. */
  lemma {:induction false} RepeatLength(s: string, n: nat)
    ensures |Repeat(s, n)| == n * |s|
  {
    if n > 0 {
      RepeatLength(s, n - 1);
    }
  }

  /** `n` copies of `s` are `n` times as wide as `s`. */
  lemma {:induction false} RepeatWidth(runeWidth: RuneWidthFn, s: string, n: nat)
    ensures VisualLength(runeWidth, Repeat(s, n)) == n * VisualLength(runeWidth, s)
  {
    if n > 0 {
      var w := VisualLength(runeWidth, s);
      var rest := Repeat(s, n - 1);
      assert Repeat(s, n) == s + rest;
      RepeatWidth(runeWidth, s, n - 1);
      VisualLengthAppend(runeWidth, s, rest);
      assert n * w == w + (n - 1) * w;
    }
  }

  /** The widest line's visual length, 0 when there are no lines: the value
      maxContentWidth holds after the input scan. */
  function MaxContentWidth(runeWidth: RuneWidthFn, lines: seq<string>): (m: nat)
    ensures forall i :: 0 <= i < |lines| ==> VisualLength(runeWidth, lines[i]) <= m
    ensures lines == [] ==> m == 0
    ensures lines != [] ==> exists i :: 0 <= i < |lines| && VisualLength(runeWidth, lines[i]) == m
    decreases |lines|
  {
    if lines == [] then 0
    else
      var front := lines[..|lines| - 1];
      var m := Max(MaxContentWidth(runeWidth, front), VisualLength(runeWidth, lines[|lines| - 1]));
      assert forall i :: 0 <= i < |front| ==> front[i] == lines[i];
      m
  }

  /** The title as it is embedded in the top border: the title brackets, with
      " *" and "* " between them and the title text. */
  function TitleDecor(style: BoxStyle, title: string): (decor: string)
    ensures |decor| == |style.titleLeft| + |title| + |style.titleRight| + 4
    ensures decor[..|style.titleLeft|] == style.titleLeft
    ensures decor[|style.titleLeft| + 2 .. |style.titleLeft| + 2 + |title|] == title
    ensures decor[|decor| - |style.titleRight|..] == style.titleRight
  {
    style.titleLeft + " *" + title + "* " + style.titleRight
  }

  /** The interior width of the box, between its two vertical glyphs: the
      widest line plus the padding, raised to the decorated title's width when
      there is a title and it is wider. It is the least width that fits both. */
  function InnerWidth(runeWidth: RuneWidthFn, lines: seq<string>, style: BoxStyle, title: string): (w: nat)
    ensures w >= MinPadding
    ensures forall i :: 0 <= i < |lines| ==> VisualLength(runeWidth, lines[i]) + MinPadding <= w
    ensures title != "" ==> VisualLength(runeWidth, TitleDecor(style, title)) <= w
    ensures lines == [] && title == "" ==> w == MinPadding
    ensures || (lines != [] && exists i :: 0 <= i < |lines| && w == VisualLength(runeWidth, lines[i]) + MinPadding)
            || (lines == [] && w == MinPadding)
            || (title != "" && w == VisualLength(runeWidth, TitleDecor(style, title)))
  {
    var base := MaxContentWidth(runeWidth, lines) + MinPadding;
    if title != "" && VisualLength(runeWidth, TitleDecor(style, title)) > base
    then VisualLength(runeWidth, TitleDecor(style, title))
    else base
  }

  /** Spare columns divided between the left and the right of something. */
  datatype Split = Split(left: int, right: int)

  /** The split of the top border's spare width around the title: the left
      fill is the truncated half, the right fill takes the rest. */
  function TitleFills(remaining: int): (fills: Split)
    ensures fills.left + fills.right == remaining
    ensures remaining >= 0 ==> 0 <= fills.left <= fills.right <= fills.left + 1
  {
    var leftFill := Half(remaining);
    Split(leftFill, remaining - leftFill)
  }

  /** The spaces before and after a line whose row has `pad` spare columns.
      Centred: the truncated half on the left, the rest on the right.
      Left-aligned: one space on the left, the rest on the right, clamped at 0. */
  function RowPads(pad: int, center: bool): (pads: Split)
    ensures center ==> pads.left + pads.right == pad
    ensures center && pad >= 0 ==> 0 <= pads.left <= pads.right <= pads.left + 1
    ensures center && pad < 0 ==> pads.right < 0
    ensures !center ==> pads.left == 1 && pads.right >= 0
    ensures !center && pad >= 1 ==> pads.left + pads.right == pad
    ensures !center && pad < 1 ==> pads.right == 0
  {
    if center then
      var leftPad := Half(pad);
      Split(leftPad, pad - leftPad)
    else
      var rightPad := pad - 1;
      Split(1, if rightPad < 0 then 0 else rightPad)
  }

  /** The top border: the corners around a full-width horizontal fill, or,
      with a title, around the decorated title flanked by the two fills. */
  function TopBorder(runeWidth: RuneWidthFn, style: BoxStyle, title: string, innerWidth: nat): (top: string)
    requires title != "" ==> VisualLength(runeWidth, TitleDecor(style, title)) <= innerWidth
    ensures |style.topLeft| + |style.topRight| <= |top|
    ensures top[..|style.topLeft|] == style.topLeft
    ensures top[|top| - |style.topRight|..] == style.topRight
  {
    if title == "" then
      style.topLeft + Repeat(style.horizontal, innerWidth) + style.topRight
    else
      var decor := TitleDecor(style, title);
      var fills := TitleFills(innerWidth - VisualLength(runeWidth, decor));
      style.topLeft + Repeat(style.horizontal, fills.left) + decor
        + Repeat(style.horizontal, fills.right) + style.topRight
  }

  /** One content row: the line between its pads and two vertical glyphs. A
      centred line wider than the box would make Go's strings.Repeat panic. */
  function ContentRow(runeWidth: RuneWidthFn, style: BoxStyle, line: string, innerWidth: nat, center: bool): (row: string)
    requires center ==> VisualLength(runeWidth, line) <= innerWidth
    ensures 2 * |style.vertical| + |line| <= |row|
    ensures row[..|style.vertical|] == style.vertical
    ensures row[|row| - |style.vertical|..] == style.vertical
    ensures
      var left := RowPads(innerWidth - VisualLength(runeWidth, line), center).left;
      && 0 <= left
      && |style.vertical| + left + |line| <= |row|
      && row[|style.vertical| + left .. |style.vertical| + left + |line|] == line
  {
    var pads := RowPads(innerWidth - VisualLength(runeWidth, line), center);
    RepeatLength(" ", pads.left);
    RepeatLength(" ", pads.right);
    style.vertical + Repeat(" ", pads.left) + line + Repeat(" ", pads.right) + style.vertical
  }

  /** The bottom border: the corners around a full-width horizontal fill. */
  function BottomBorder(style: BoxStyle, innerWidth: nat): (bottom: string)
    ensures |bottom| == |style.bottomLeft| + innerWidth * |style.horizontal| + |style.bottomRight|
    ensures bottom[..|style.bottomLeft|] == style.bottomLeft
    ensures bottom[|bottom| - |style.bottomRight|..] == style.bottomRight
  {
    RepeatLength(style.horizontal, innerWidth);
    style.bottomLeft + Repeat(style.horizontal, innerWidth) + style.bottomRight
  }

  /** The content rows, one per line, in input order. */
  function ContentRows(runeWidth: RuneWidthFn, style: BoxStyle, lines: seq<string>, innerWidth: nat, center: bool): (rows: seq<string>)
    requires center ==> forall i :: 0 <= i < |lines| ==> VisualLength(runeWidth, lines[i]) <= innerWidth
    ensures |rows| == |lines|
    ensures forall i :: 0 <= i < |lines| ==> rows[i] == ContentRow(runeWidth, style, lines[i], innerWidth, center)
    decreases |lines|
  {
    if lines == [] then []
    else
      var front := lines[..|lines| - 1];
      assert forall i :: 0 <= i < |front| ==> front[i] == lines[i];
      ContentRows(runeWidth, style, front, innerWidth, center)
        + [ContentRow(runeWidth, style, lines[|lines| - 1], innerWidth, center)]
  }

  /** The rows of a box of the given inner width: the top border, one row per
      line in input order, and the bottom border. */
  function Frame(runeWidth: RuneWidthFn, style: BoxStyle, lines: seq<string>, title: string,
                 innerWidth: nat, center: bool): (rows: seq<string>)
    requires title != "" ==> VisualLength(runeWidth, TitleDecor(style, title)) <= innerWidth
    requires center ==> forall i :: 0 <= i < |lines| ==> VisualLength(runeWidth, lines[i]) <= innerWidth
    ensures |rows| == |lines| + 2
    ensures rows[0] == TopBorder(runeWidth, style, title, innerWidth)
    ensures rows[1 .. |lines| + 1] == ContentRows(runeWidth, style, lines, innerWidth, center)
    ensures rows[|lines| + 1] == BottomBorder(style, innerWidth)
  {
    [TopBorder(runeWidth, style, title, innerWidth)]
      + ContentRows(runeWidth, style, lines, innerWidth, center)
      + [BottomBorder(style, innerWidth)]
  }

  /** The box for `lines`, sized by InnerWidth. */
  function Render(runeWidth: RuneWidthFn, lines: seq<string>, style: BoxStyle, title: string, center: bool): (rows: seq<string>)
    ensures |rows| == |lines| + 2
  {
    Frame(runeWidth, style, lines, title, InnerWidth(runeWidth, lines, style, title), center)
  }

  /** Why a run produces no box. */
  datatype BoxError = InvalidStyle(styleNum: int) {
    /** The text written to standard error. */
    function Message(): (m: string)
      ensures |m| >= 3 && m[|m| - 3..] == "1-3"
    {
      "Invalid style number. Please use 1-3"
    }
    /** The process exit status. */
    function ExitStatus(): (status: int)
      ensures status != 0
    {
      1
    }
  }

  /** A whole run: the style number is checked first, and an unknown one
      yields an error and no rows at all. */
  function Box(runeWidth: RuneWidthFn, styleNum: int, title: string, center: bool, lines: seq<string>): (out: Result<seq<string>, BoxError>)
    ensures out.Failure? <==> !(1 <= styleNum <= 3)
    ensures out.Failure? ==> out.error == InvalidStyle(styleNum)
    ensures out.Success? ==> |out.value| == |lines| + 2
    ensures out.Success? ==> out.value == Render(runeWidth, lines, StyleTable()[styleNum], title, center)
  {
    match LookupStyle(styleNum)
    case None => Failure(InvalidStyle(styleNum))
    case Some(style) => Success(Render(runeWidth, lines, style, title, center))
  }
}
