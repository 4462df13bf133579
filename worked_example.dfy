/** A worked example: style 1, the line "hi" and no title. */
module WorkedExample {
  import opened Wrappers
  import opened Width
  import opened Styles
  import opened Layout

  /** When 'h' and 'i' are each one column wide, style 1 draws "hi" with one
      space on each side inside a light square frame. */
  lemma HiInStyleOne(runeWidth: RuneWidthFn)
    requires runeWidth('h') <= 1 && runeWidth('i') <= 1
    ensures Box(runeWidth, 1, "", false, ["hi"]) == Success(["┌────┐", "│ hi │", "└────┘"])
  {
    var style := StyleTable()[1];
    assert VisualLength(runeWidth, "hi") == 2 by {
      assert "hi"[..1] == "h";
      assert "h"[..0] == [];
    }
    assert InnerWidth(runeWidth, ["hi"], style, "") == 4;
    assert Repeat("─", 4) == "────" by {
      assert Repeat("─", 1) == "─";
      assert Repeat("─", 2) == "──";
      assert Repeat("─", 3) == "───";
    }
    assert Repeat(" ", 1) == " ";
    var row := ContentRow(runeWidth, style, "hi", 4, false);
    assert RowPads(2, false) == Split(1, 1);
    assert row == "│ hi │";
    var rows := Render(runeWidth, ["hi"], style, "", false);
    assert |rows| == 3;
    assert rows[0] == "┌────┐";
    assert rows[1] == ContentRows(runeWidth, style, ["hi"], 4, false)[0] == row;
    assert rows[2] == "└────┘";
    assert rows == ["┌────┐", "│ hi │", "└────┘"];
    assert LookupStyle(1) == Some(style);
  }
}
