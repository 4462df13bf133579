# textbox: box layout, modelled in Dafny

textbox reads lines of text and draws them inside a frame of box-drawing
glyphs. It can centre the lines and can embed a title in the top border. All
of its logic is in `box.go`. This project models that logic and proves what
it promises:

- **Width measurement** (`visualLength`). A string is a sequence of runes.
  Each rune counts its library width when that is greater than 1, and 1
  otherwise.
- **The style table**. Styles 1 to 3 are light square, light rounded and
  double-line. Every other style number is rejected before anything is drawn.
- **Box layout** (the body of `main`):
  - the inner width is the widest line plus 2, raised to the width of the
    decorated title `titleLeft + " *" + title + "* " + titleRight`;
  - the top border puts the truncated half of the spare width left of the
    title and the rest on its right;
  - each content row is left-aligned with one leading space, or centred;
  - the bottom border comes last.

Files and modules:

- `wrappers.dfy`: `Option` and `Result`.
- `width.dfy` (`Width`): the rune-width table is a parameter. `VisualLength`
  is the specification. `ComputeVisualLength` is the source's accumulating
  loop, proved equal to it.
- `styles.dfy` (`Styles`): `BoxStyle`, `StyleTable`, `LookupStyle`.
- `layout.dfy` (`Layout`): the geometry as pure functions. `Render` is the
  box for given lines. `Box` is a whole run, including the style check.
- `box.dfy` (`Box`): `main` as the source runs it, as methods each proved
  to compute what `Layout` specifies. The input scan (`ScanLines`) and the
  output loop (`EmitRows`) carry loop invariants. `EmitTopBorder` and
  `EmitContentRow` are the straight-line statements that print one border
  or one row.
- `properties.dfy` (`Properties`): lemmas about rendered boxes. They cover
  the titled top border, the padding of content rows, the empty box and the
  equal width of all rows.
- `worked_example.dfy` (`WorkedExample`): the box for the line "hi" in style 1.

Go's `/` truncates toward zero. It is modelled as `Half`. `strings.Repeat`
panics on a negative count, so `Repeat` takes a `nat`. Every call site
therefore proves that its fill or pad is not negative.

Facts about `box.go` that shape the model:

- Only styles 1 to 3 exist. Any other number is an error.
- The title decoration is `titleLeft + " *" + title + "* " + titleRight`.
- The border fills repeat the horizontal glyph exactly `n` times.
- Only the left-aligned branch clamps `rightPad` at 0. Centred rows compute
  `rightPad = pad - leftPad` as it comes.

## Model

| member | source | states |
|---|---|---|
| Width.Columns | box.go:45-52 | a rune contributes at least 1 and at least its library width, and exactly one of the two |
| Width.VisualLength | box.go:42-55 | the visual length is 0 for the empty string and at least the rune count |
| Width.ComputeVisualLength | box.go:42-55 | the accumulating loop over runes returns exactly `VisualLength` |
| Width.VisualLengthAppend | box.go:42-55 | visual length is additive over concatenation |
| Width.VisualLengthIsRuneCount | box.go:44-53 | visual length equals the rune count if and only if no rune is wider than one column |
| Width.VisualLengthOfFive | box.go:114-119 | the width of a row printed as five pieces is the sum of the pieces' widths |
| Styles.StyleTable | box.go:26-39 | the table holds exactly styles 1, 2 and 3, all different; every glyph is one rune; each title bracket is the opposite bottom corner |
| Styles.LookupStyle | box.go:74-78 | a style is found exactly for numbers 1 to 3, the one found is the table's entry for that number, and every glyph it holds is one rune |
| Layout.Max | box.go:58-63 | the result is at least each argument and equals one of them |
| Layout.Half | box.go:110 | Go's `/ 2`: for non-negative n the quotient leaves remainder 0 or 1; for negative n it rounds toward zero |
| Layout.Repeat | box.go:112-113 | `strings.Repeat`, `n` copies of `s`, also called at box.go:123, 136, 138, 149, 151 and 159: the result is empty exactly when `n` is 0 or `s` is empty; its length and width are stated by `RepeatLength` and `RepeatWidth` |
| Layout.RepeatLength | box.go:112-113 | `n` copies of a glyph are `n` times its length |
| Layout.RepeatWidth | box.go:112-113 | `n` copies of a glyph are `n` times its visual width |
| Layout.MaxContentWidth | box.go:82-89 | at least the visual length of every line, attained by some line, and 0 for no lines |
| Layout.TitleDecor | box.go:100 | the decoration starts with `titleLeft`, ends with `titleRight`, holds the title verbatim two runes after `titleLeft`, and is 4 runes longer than title and brackets together |
| Layout.InnerWidth | box.go:91-105 | at least every line's width plus 2 and at least the decorated title's width; exactly 2 with no lines and no title; equal to one of these lower bounds, so the least width that fits |
| Layout.TitleFills | box.go:109-111 | the fills add up to the spare width; for a non-negative spare width both are non-negative and the right one is the left one or one more |
| Layout.RowPads | box.go:129-146 | centred: the pads add up to pad, split evenly with the odd column on the right; left-aligned: left pad 1, right pad pad - 1, clamped at 0 when pad < 1; a negative centred pad gives a negative right pad, the case where Go would panic |
| Layout.TopBorder | box.go:107-125 | the top border starts with `topLeft` and ends with `topRight`; `Properties.TitledTopBorder` and `Properties.TopBorderWidth` state what lies between |
| Layout.ContentRow | box.go:128-153 | a row starts and ends with the vertical glyph, and the line appears verbatim right after the vertical glyph and the left pad of `RowPads` |
| Layout.BottomBorder | box.go:156-160 | the bottom border starts with `bottomLeft`, ends with `bottomRight`, and is `innerWidth` copies of the horizontal glyph longer than the two corners |
| Layout.ContentRows | box.go:127-154 | one content row per line, in input order |
| Layout.Frame | box.go:107-160 | `|lines| + 2` rows: top border first, then the content rows in order, then the bottom border `bottomLeft + horizontal^innerWidth + bottomRight` |
| Layout.Render | box.go:91-160 | a box sized by `InnerWidth` has `|lines| + 2` rows |
| Layout.BoxError.Message | box.go:76 | the message written to standard error ends with the accepted range "1-3" |
| Layout.BoxError.ExitStatus | box.go:77 | the exit status of a rejected style is non-zero, so the caller sees a failure |
| Layout.Box | box.go:74-78 | a run fails with `InvalidStyle` and no rows exactly when the style number is outside 1 to 3; otherwise it yields `|lines| + 2` rows, and they are the box rendered in the table's style for that number |
| Properties.TitledTopBorder | box.go:100-119 | with a title the top border is `topLeft + horizontal^leftFill + titleLeft + " *" + title + "* " + titleRight + horizontal^rightFill + topRight`, with `leftFill + rightFill = innerWidth - visualLength(titleDecor)`, both non-negative and `rightFill - leftFill` 0 or 1 |
| Properties.ContentRowPadding | box.go:129-153 | in every rendered box each row has pad >= 2, so the clamp is never taken; left-aligned pads are 1 and pad - 1; centred pads differ by 0 or 1 with the extra on the right; both add up to pad |
| Properties.RowLayout | box.go:134-152 | a content row is vertical, left spaces, the line, right spaces, vertical, with at least one space on each side |
| Properties.EmptyBox | box.go:91-160 | no lines and no title give exactly two rows, each two horizontal glyphs between its corners |
| Properties.RepeatNarrowWidth | box.go:112-113 | `n` copies of a one-column glyph are `n` columns wide |
| Properties.FilledBorderWidth | box.go:121-124 | a border of `n` fill glyphs between one-column corners is `n + 2` wide |
| Properties.TopBorderWidth | box.go:107-125 | with one-column frame glyphs the top border, titled or not, is `innerWidth + 2` wide |
| Properties.ContentRowWidth | box.go:129-153 | with a one-column vertical glyph and space, a content row is `innerWidth + 2` wide |
| Properties.FrameRowWidth | box.go:107-160 | with one-column frame glyphs and a one-column space, every row of a frame whose lines fit is `innerWidth + 2` wide |
| Properties.RowsHaveEqualWidth | box.go:107-160 | with one-column corner, horizontal, vertical and space glyphs, every row of a rendered box is `innerWidth + 2` wide |
| Box.ScanLines | box.go:80-89 | the scan keeps every line in order, and its running maximum ends at `MaxContentWidth` |
| Box.EmitTopBorder | box.go:107-125 | the printed top border is `TopBorder` |
| Box.EmitContentRow | box.go:128-153 | the printed content row is `ContentRow` |
| Box.EmitRows | box.go:107-160 | the output loop prints exactly the rows of `Frame` |
| Box.Run | box.go:74-160 | a run returns exactly `Box`: an error for an unknown style, otherwise the rendered rows |
| WorkedExample.HiInStyleOne | box.go:26-30 | style 1 with the line "hi", no title and left alignment gives `┌────┐`, `│ hi │`, `└────┘` |

## Left out

- Flag parsing (`-n`, `-t`, `-c`). The style number, title and centre flag are parameters of `Run` and `Box`.
- Reading standard input with `bufio.Scanner`. The lines are an input sequence. The scanner's line-length limit, and its error, which the source never checks, are not modelled.
- Printing and `os.Exit`. Rows are returned as a sequence. The error carries the message and exit status 1.
- The width library's East-Asian-width tables. `RuneWidth` is the parameter `runeWidth`, about which nothing is assumed. The library's answer can depend on the locale, and box-drawing glyphs are ambiguous-width. Which glyphs are one column wide is therefore a premise of the width lemmas, not a fact about the table.
- Properties.RowsHaveEqualWidth: it is stated only when the frame glyphs and the space are one column wide. With wider glyphs the borders and rows differ in width, and the source does nothing about that.
- UTF-8 decoding of Go strings. A string is a sequence of code points, so invalid bytes decoded as U+FFFD are not modelled.
- Go's `int`. Widths are unbounded integers. Overflow would need inputs wider than the platform's `int` can count.
