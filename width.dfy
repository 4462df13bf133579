/**
 * Display-width measurement (box.go, visualLength).
 *
 * A string is a sequence of runes (Unicode code points). The per-rune width
 * comes from a terminal-width library whose East-Asian-width tables are not
 * part of this model: every operation takes that table as a parameter
 * `runeWidth`, so nothing here depends on what it returns.
 */
module Width {

  /** One Unicode code point. */
  type Rune = char

  /** The width library's RuneWidth: columns a rune occupies on a terminal. */
  type RuneWidthFn = Rune -> nat

  /** Columns one rune contributes to a visual length: its library width when
      that exceeds 1, and 1 otherwise (so zero-width runes still count 1). */
  function Columns(runeWidth: RuneWidthFn, r: Rune): (w: nat)
    ensures w >= 1 && w >= runeWidth(r)
    ensures w == 1 || w == runeWidth(r)
  {
    if runeWidth(r) > 1 then runeWidth(r) else 1
  }

  /** The visual length of `s`: the sum of Columns over its runes, in order. */
  function VisualLength(runeWidth: RuneWidthFn, s: seq<Rune>): (n: nat)
    ensures n >= |s|
    ensures s == [] ==> n == 0
    decreases |s|
  {
    if s == [] then 0
    else VisualLength(runeWidth, s[..|s| - 1]) + Columns(runeWidth, s[|s| - 1])
  }

  /** visualLength as the source runs it: one pass over the runes, adding each
      rune's width to an accumulator. */
  method ComputeVisualLength(runeWidth: RuneWidthFn, s: seq<Rune>) returns (length: nat)
    ensures length == VisualLength(runeWidth, s)
  {
    length := 0;
    for i := 0 to |s|
      invariant length == VisualLength(runeWidth, s[..i])
    {
      var rw := runeWidth(s[i]);
      if rw > 1 {
        length := length + rw;
      } else {
        length := length + 1;
      }
      assert s[..i + 1][..i] == s[..i];
    }
    assert s[..|s|] == s;
  }

  /** Visual length is additive over concatenation. */
  lemma {:induction false} VisualLengthAppend(runeWidth: RuneWidthFn, a: seq<Rune>, b: seq<Rune>)
    ensures VisualLength(runeWidth, a + b) == VisualLength(runeWidth, a) + VisualLength(runeWidth, b)
    decreases |b|
  {
    if b == [] {
      assert a + b == a;
    } else {
      var b' := b[..|b| - 1];
      assert (a + b)[..|a + b| - 1] == a + b';
      assert (a + b)[|a + b| - 1] == b[|b| - 1];
      VisualLengthAppend(runeWidth, a, b');
    }
  }

  /** The width of five pieces laid side by side is the sum of their widths. */
  lemma VisualLengthOfFive(runeWidth: RuneWidthFn, a: seq<Rune>, b: seq<Rune>, c: seq<Rune>, d: seq<Rune>, e: seq<Rune>)
    ensures VisualLength(runeWidth, a + b + c + d + e)
      == VisualLength(runeWidth, a) + VisualLength(runeWidth, b) + VisualLength(runeWidth, c)
         + VisualLength(runeWidth, d) + VisualLength(runeWidth, e)
  {
    var ab := a + b;
    var abc := ab + c;
    var abcd := abc + d;
    VisualLengthAppend(runeWidth, a, b);
    VisualLengthAppend(runeWidth, ab, c);
    VisualLengthAppend(runeWidth, abc, d);
    VisualLengthAppend(runeWidth, abcd, e);
  }

  /** A string's visual length equals its rune count exactly when no rune in it
      is wider than one column. */
  lemma {:induction false} VisualLengthIsRuneCount(runeWidth: RuneWidthFn, s: seq<Rune>)
    ensures VisualLength(runeWidth, s) == |s| <==> forall i :: 0 <= i < |s| ==> runeWidth(s[i]) <= 1
    decreases |s|
  {
    if s != [] {
      var s' := s[..|s| - 1];
      VisualLengthIsRuneCount(runeWidth, s');
      assert forall i :: 0 <= i < |s'| ==> s'[i] == s[i];
    }
  }
}
