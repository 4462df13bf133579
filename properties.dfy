/**
 * What a rendered box looks like: the titled top border, the padding of each
 * content row, the box with nothing in it, and the equal width of all rows.
 */
module Properties {
  import opened Width
  import opened Styles
  import opened Layout

  /** A titled top border spelled out: its two fills share the spare width,
      the right one taking the odd column, around the title bracketed by
      " *" and "* " and the two title glyphs. */
  lemma TitledTopBorder(runeWidth: RuneWidthFn, style: BoxStyle, title: string, innerWidth: nat)
    requires title != ""
    requires VisualLength(runeWidth, TitleDecor(style, title)) <= innerWidth
    ensures
      var remaining := innerWidth - VisualLength(runeWidth, TitleDecor(style, title));
      var fills := TitleFills(remaining);
      && 0 <= fills.left <= fills.right <= fills.left + 1
      && fills.left + fills.right == remaining
      && TopBorder(runeWidth, style, title, innerWidth)
           == style.topLeft + Repeat(style.horizontal, fills.left)
              + style.titleLeft + " *" + title + "* " + style.titleRight
              + Repeat(style.horizontal, fills.right) + style.topRight
  {
  }

  /** Every content row of a box has at least two spare columns, so the clamp
      of the left-aligned right pad is never taken: left-aligned rows get one
      space on the left and the rest on the right; centred rows get the
      truncated half on the left and the same or one more on the right. */
  lemma ContentRowPadding(runeWidth: RuneWidthFn, lines: seq<string>, style: BoxStyle, title: string, center: bool, i: nat)
    requires i < |lines|
    ensures
      var pad := InnerWidth(runeWidth, lines, style, title) - VisualLength(runeWidth, lines[i]);
      var pads := RowPads(pad, center);
      && pad >= MinPadding
      && 1 <= pads.left && 1 <= pads.right
      && pads.left + pads.right == pad
      && (!center ==> pads.left == 1 && pads.right == pad - 1)
      && (center ==> pads.left <= pads.right <= pads.left + 1)
  {
  }

  /** A content row with at least two spare columns is the vertical glyph, the
      left pad of spaces, the line, the right pad and the vertical glyph. */
  lemma RowLayout(runeWidth: RuneWidthFn, style: BoxStyle, line: string, innerWidth: nat, center: bool)
    requires VisualLength(runeWidth, line) + MinPadding <= innerWidth
    ensures
      var pads := RowPads(innerWidth - VisualLength(runeWidth, line), center);
      && 1 <= pads.left && 1 <= pads.right
      && ContentRow(runeWidth, style, line, innerWidth, center)
           == style.vertical + Repeat(" ", pads.left) + line + Repeat(" ", pads.right) + style.vertical
  {
  }

  /** With no lines and no title the box is two rows, each two horizontal
      glyphs between its corners. */
  lemma EmptyBox(runeWidth: RuneWidthFn, style: BoxStyle, center: bool)
    ensures Render(runeWidth, [], style, "", center)
      == [style.topLeft + style.horizontal + style.horizontal + style.topRight,
          style.bottomLeft + style.horizontal + style.horizontal + style.bottomRight]
  {
    var rows := Render(runeWidth, [], style, "", center);
    assert Repeat(style.horizontal, 1) == style.horizontal + [];
    assert Repeat(style.horizontal, 2) == style.horizontal + style.horizontal;
    assert InnerWidth(runeWidth, [], style, "") == 2;
    assert |rows| == 2;
    assert rows[0] == style.topLeft + style.horizontal + style.horizontal + style.topRight;
    assert rows[1] == style.bottomLeft + style.horizontal + style.horizontal + style.bottomRight;
  }

  /** The corner, horizontal and vertical glyphs are each one column wide. */
  predicate NarrowFrame(runeWidth: RuneWidthFn, style: BoxStyle) {
    && VisualLength(runeWidth, style.topLeft) == 1
    && VisualLength(runeWidth, style.topRight) == 1
    && VisualLength(runeWidth, style.bottomLeft) == 1
    && VisualLength(runeWidth, style.bottomRight) == 1
    && VisualLength(runeWidth, style.horizontal) == 1
    && VisualLength(runeWidth, style.vertical) == 1
  }

  /** `n` copies of a one-column glyph are `n` columns wide. */
  lemma RepeatNarrowWidth(runeWidth: RuneWidthFn, glyph: string, n: nat)
    requires VisualLength(runeWidth, glyph) == 1
    ensures VisualLength(runeWidth, Repeat(glyph, n)) == n
  {
    RepeatWidth(runeWidth, glyph, n);
  }

  /** A border of `fill` one-column glyphs between two one-column corners is
      fill + 2 wide. */
  lemma FilledBorderWidth(runeWidth: RuneWidthFn, left: string, horizontal: string, fill: nat, right: string)
    requires VisualLength(runeWidth, left) == 1 && VisualLength(runeWidth, right) == 1
    requires VisualLength(runeWidth, horizontal) == 1
    ensures VisualLength(runeWidth, left + Repeat(horizontal, fill) + right) == fill + 2
  {
    RepeatNarrowWidth(runeWidth, horizontal, fill);
    VisualLengthAppend(runeWidth, left, Repeat(horizontal, fill));
    VisualLengthAppend(runeWidth, left + Repeat(horizontal, fill), right);
  }

  /** The top border, with or without a title, is innerWidth + 2 wide. */
  lemma TopBorderWidth(runeWidth: RuneWidthFn, style: BoxStyle, title: string, innerWidth: nat)
    requires title != "" ==> VisualLength(runeWidth, TitleDecor(style, title)) <= innerWidth
    requires NarrowFrame(runeWidth, style)
    ensures VisualLength(runeWidth, TopBorder(runeWidth, style, title, innerWidth)) == innerWidth + 2
  {
    if title == "" {
      FilledBorderWidth(runeWidth, style.topLeft, style.horizontal, innerWidth, style.topRight);
    } else {
      var decor := TitleDecor(style, title);
      var fills := TitleFills(innerWidth - VisualLength(runeWidth, decor));
      TitledTopBorder(runeWidth, style, title, innerWidth);
      var leftFill := Repeat(style.horizontal, fills.left);
      var rightFill := Repeat(style.horizontal, fills.right);
      RepeatNarrowWidth(runeWidth, style.horizontal, fills.left);
      RepeatNarrowWidth(runeWidth, style.horizontal, fills.right);
      VisualLengthOfFive(runeWidth, style.topLeft, leftFill, decor, rightFill, style.topRight);
    }
  }

  /** A content row with at least two spare columns is innerWidth + 2 wide. */
  lemma ContentRowWidth(runeWidth: RuneWidthFn, style: BoxStyle, line: string, innerWidth: nat, center: bool)
    requires VisualLength(runeWidth, line) + MinPadding <= innerWidth
    requires VisualLength(runeWidth, style.vertical) == 1
    requires VisualLength(runeWidth, " ") == 1
    ensures VisualLength(runeWidth, ContentRow(runeWidth, style, line, innerWidth, center)) == innerWidth + 2
  {
    var pads := RowPads(innerWidth - VisualLength(runeWidth, line), center);
    RowLayout(runeWidth, style, line, innerWidth, center);
    var before := Repeat(" ", pads.left);
    var after := Repeat(" ", pads.right);
    RepeatNarrowWidth(runeWidth, " ", pads.left);
    RepeatNarrowWidth(runeWidth, " ", pads.right);
    VisualLengthOfFive(runeWidth, style.vertical, before, line, after, style.vertical);
  }

  /** When the frame glyphs and the space are each one column wide, row `k`
      of a frame whose lines leave two spare columns is innerWidth + 2 wide. */
  lemma FrameRowWidth(runeWidth: RuneWidthFn, style: BoxStyle, lines: seq<string>, title: string,
                      innerWidth: nat, center: bool, k: nat)
    requires title != "" ==> VisualLength(runeWidth, TitleDecor(style, title)) <= innerWidth
    requires forall i :: 0 <= i < |lines| ==> VisualLength(runeWidth, lines[i]) + MinPadding <= innerWidth
    requires NarrowFrame(runeWidth, style)
    requires VisualLength(runeWidth, " ") == 1
    requires k < |lines| + 2
    ensures VisualLength(runeWidth, Frame(runeWidth, style, lines, title, innerWidth, center)[k]) == innerWidth + 2
  {
    var rows := Frame(runeWidth, style, lines, title, innerWidth, center);
    if k == 0 {
      TopBorderWidth(runeWidth, style, title, innerWidth);
    } else if k == |lines| + 1 {
      FilledBorderWidth(runeWidth, style.bottomLeft, style.horizontal, innerWidth, style.bottomRight);
    } else {
      assert rows[k] == rows[1 .. |lines| + 1][k - 1];
      ContentRowWidth(runeWidth, style, lines[k - 1], innerWidth, center);
    }
  }

  /** When the frame glyphs and the space are each one column wide, every row
      of the box, borders and content alike, is innerWidth + 2 wide. */
  lemma RowsHaveEqualWidth(runeWidth: RuneWidthFn, lines: seq<string>, style: BoxStyle, title: string, center: bool)
    requires NarrowFrame(runeWidth, style)
    requires VisualLength(runeWidth, " ") == 1
    ensures
      var rows := Render(runeWidth, lines, style, title, center);
      forall k :: 0 <= k < |rows| ==>
        VisualLength(runeWidth, rows[k]) == InnerWidth(runeWidth, lines, style, title) + 2
  {
    var innerWidth := InnerWidth(runeWidth, lines, style, title);
    var rows := Render(runeWidth, lines, style, title, center);
    forall k | 0 <= k < |rows|
      ensures VisualLength(runeWidth, rows[k]) == innerWidth + 2
    {
      FrameRowWidth(runeWidth, style, lines, title, innerWidth, center, k);
    }
  }
}

