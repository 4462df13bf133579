/** The border styles of box.go: a record of glyphs and the fixed table of
    the three predefined styles, selected by number. */
module Styles {
  import opened Wrappers

  /** The glyphs of one frame: corners, the horizontal and vertical fills, and
      the two brackets that flank a title in the top border. */
  datatype BoxStyle = BoxStyle(
    topLeft: string,
    topRight: string,
    bottomLeft: string,
    bottomRight: string,
    horizontal: string,
    vertical: string,
    titleLeft: string,
    titleRight: string)

  /** Every glyph of the style is one rune. */
  predicate SingleRuneGlyphs(style: BoxStyle) {
    && |style.topLeft| == 1 && |style.topRight| == 1
    && |style.bottomLeft| == 1 && |style.bottomRight| == 1
    && |style.horizontal| == 1 && |style.vertical| == 1
    && |style.titleLeft| == 1 && |style.titleRight| == 1
  }

  /** The style table: 1 is light square, 2 light rounded, 3 double-line.
      The title brackets reuse the bottom corners, swapped, so that each
      points toward the title. */
  function StyleTable(): (table: map<int, BoxStyle>)
    ensures table.Keys == {1, 2, 3}
    ensures forall n :: n in table ==> SingleRuneGlyphs(table[n])
    ensures forall n :: n in table ==>
      table[n].titleLeft == table[n].bottomRight && table[n].titleRight == table[n].bottomLeft
    ensures table[1] != table[2] && table[1] != table[3] && table[2] != table[3]
  {
    map[
      1 := BoxStyle("┌", "┐", "└", "┘", "─", "│", "┘", "└"),
      2 := BoxStyle("╭", "╮", "╰", "╯", "─", "│", "╯", "╰"),
      3 := BoxStyle("╔", "╗", "╚", "╝", "═", "║", "╝", "╚")
    ]
  }

  /** The style a style number selects; None for any number outside 1 to 3. */
  function LookupStyle(styleNum: int): (found: Option<BoxStyle>)
    ensures found.Some? <==> 1 <= styleNum <= 3
    ensures found.Some? ==> found.value == StyleTable()[styleNum]
    ensures found.Some? ==> SingleRuneGlyphs(found.value)
  {
    var table := StyleTable();
    if styleNum in table then Some(table[styleNum]) else None
  }
}
