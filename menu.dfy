/**
 * The ROM menu: start-up width detection, the selection cursor over the ROM
 * banks, the redraw guard, and the bank label shown after Enter.
 *
 * Keys come from a finite sequence; when it runs out the program is still
 * waiting in `cgetc`, and no bank has been chosen. How many banks the menu
 * offers is a build setting, so it is a parameter between 1 and the seven
 * names the menu knows.
 */
module RomMenu {
  import opened C128

  /** The number of ROM names in `romNames`. */
  const RomNameCount := 7

  predicate ValidRomCount(n: int)
  {
    1 <= n <= RomNameCount
  }

  /** The screen width from the byte at $EE, which the KERNAL sets to 79 on the 80-column screen. */
  function ScreenWidth(ee: byte): (w: byte)
    ensures w == 80 <==> ee == 79
    ensures w == 40 <==> ee != 79
  {
    if ee == 79 then 80 else 40
  }

  /** The cursor after one key: Up and Down move one line and stop at the ends; every other key leaves it. */
  function MoveCursor(n: int, selected: int, key: Key): (s: int)
    requires ValidRomCount(n) && 0 <= selected < n
    ensures 0 <= s < n
    ensures key == CursorUp ==> s == selected - 1 || (selected == 0 && s == 0)
    ensures key == CursorDown ==> s == selected + 1 || (selected == n - 1 && s == n - 1)
    ensures key != CursorUp && key != CursorDown ==> s == selected
  {
    match key
    case CursorUp => if selected > 0 then selected - 1 else selected
    case CursorDown => if selected < n - 1 then selected + 1 else selected
    case _ => selected
  }

  /** One line of the bank list: screen row, the 1-based number printed, highlight, and the columns cleared first. */
  datatype MenuLine = MenuLine(row: int, number: int, highlighted: bool, clearWidth: byte)

  /** The lines one redraw writes: every bank, the selected one highlighted. */
  function MenuLines(n: int, width: byte, selected: int): (lines: seq<MenuLine>)
    requires ValidRomCount(n)
  {
    seq(n, i requires 0 <= i < n => MenuLine(i + 3, i + 1, i == selected, (width - 4) % 256))
  }

  /** A redraw highlights exactly one line, the selected one. */
  lemma ExactlyOneHighlighted(n: int, width: byte, selected: int)
    requires ValidRomCount(n) && 0 <= selected < n
    ensures var lines := MenuLines(n, width, selected);
            (set i | 0 <= i < n && lines[i].highlighted) == {selected}
            && |set i | 0 <= i < n && lines[i].highlighted| == 1
  {
    var lines := MenuLines(n, width, selected);
    var hs := set i | 0 <= i < n && lines[i].highlighted;
    assert selected in hs;
    assert hs == {selected};
  }

  /** Line i sits on row i + 3 and shows the number i + 1; on the 40- and 80-column screens it clears all but four columns. */
  lemma MenuLinesLayout(n: int, width: byte, selected: int)
    requires ValidRomCount(n)
    ensures var lines := MenuLines(n, width, selected);
            |lines| == n
            && (forall i :: 0 <= i < n ==> lines[i].row == i + 3 && lines[i].number == i + 1)
            && (width == 40 || width == 80 ==> forall i :: 0 <= i < n ==> lines[i].clearWidth + 4 == width)
  {
  }

  /** The bank Enter picks, starting from cursor `selected`; `None` while no Enter has been read. */
  function Choice(n: int, selected: int, keys: seq<Key>): (c: Option<int>)
    requires ValidRomCount(n) && 0 <= selected < n
    ensures c.Some? ==> 0 <= c.value < n
    ensures c.None? <==> Return !in keys
    decreases |keys|
  {
    if keys == [] then None
    else if keys[0] == Return then Some(selected)
    else Choice(n, MoveCursor(n, selected, keys[0]), keys[1..])
  }

  /**
   * The cursor positions the menu redraws for, from state (`previous`,
   * `selected`) with `keys` still to come: a redraw happens at the top of the
   * loop exactly when the cursor differs from what was last drawn.
   */
  function Redraws(n: int, previous: int, selected: int, keys: seq<Key>): seq<int>
    requires ValidRomCount(n) && 0 <= selected < n
    decreases |keys|
  {
    var now := if selected != previous then [selected] else [];
    if keys == [] || keys[0] == Return then now
    else now + Redraws(n, selected, MoveCursor(n, selected, keys[0]), keys[1..])
  }

  /**
   * Every redraw is of a cursor inside the list; the first pass draws
   * whenever the cursor differs from what was drawn before, and no two
   * redraws in a row are of the same cursor.
   */
  lemma {:induction false} RedrawsShape(n: int, previous: int, selected: int, keys: seq<Key>)
    requires ValidRomCount(n) && 0 <= selected < n
    ensures var d := Redraws(n, previous, selected, keys);
            && (forall j :: 0 <= j < |d| ==> 0 <= d[j] < n)
            && (|d| > 0 ==> d[0] != previous)
            && (previous != selected ==> |d| > 0 && d[0] == selected)
            && (forall j :: 0 < j < |d| ==> d[j] != d[j - 1])
    decreases |keys|
  {
    if keys != [] && keys[0] != Return {
      RedrawsShape(n, selected, MoveCursor(n, selected, keys[0]), keys[1..]);
    }
  }

  /** The first pass always draws, since nothing has been drawn before: the first redraw is of bank 0. */
  lemma FirstPassDraws(n: int, keys: seq<Key>)
    requires ValidRomCount(n)
    ensures var d := Redraws(n, -1, 0, keys);
            |d| > 0 && d[0] == 0
  {
    RedrawsShape(n, -1, 0, keys);
  }

  /** When Enter is read, the bank it returns is the one highlighted on the screen. */
  lemma {:induction false} ChoiceIsOnScreen(n: int, previous: int, selected: int, keys: seq<Key>)
    requires ValidRomCount(n) && 0 <= selected < n
    requires Choice(n, selected, keys).Some?
    ensures var d := Redraws(n, previous, selected, keys);
            if d == [] then Choice(n, selected, keys).value == previous
            else Choice(n, selected, keys).value == d[|d| - 1]
    decreases |keys|
  {
    if keys[0] != Return {
      var next := MoveCursor(n, selected, keys[0]);
      ChoiceIsOnScreen(n, selected, next, keys[1..]);
    }
  }

  /** A key that is not a cursor key or Enter changes nothing: no redraw and the same outcome. */
  lemma IgnoredKey(n: int, selected: int, key: Key, rest: seq<Key>)
    requires ValidRomCount(n) && 0 <= selected < n
    requires key != CursorUp && key != CursorDown && key != Return
    ensures Redraws(n, selected, selected, [key] + rest) == Redraws(n, selected, selected, rest)
    ensures Choice(n, selected, [key] + rest) == Choice(n, selected, rest)
  {
    assert ([key] + rest)[1..] == rest;
  }

  /** The screens the redraws write. */
  function Frames(n: int, width: byte, drawn: seq<int>): seq<seq<MenuLine>>
    requires ValidRomCount(n)
  {
    seq(|drawn|, j requires 0 <= j < |drawn| => MenuLines(n, width, drawn[j]))
  }

  /** The bank number `main` prints for a chosen bank: 1-based. */
  function BankLabel(n: int, selected: int): (bank: int)
    requires 0 <= selected < n
    ensures 1 <= bank <= n && bank - 1 == selected
  {
    selected + 1
  }

  /** The bank list of one redraw: the `for` loop over all banks. */
  method DrawMenuLines(n: int, width: byte, selected: int) returns (lines: seq<MenuLine>)
    requires ValidRomCount(n)
    ensures lines == MenuLines(n, width, selected)
  {
    lines := [];
    var i := 0;
    while i < n
      invariant 0 <= i <= n
      invariant lines == MenuLines(n, width, selected)[..i]
    {
      lines := lines + [MenuLine(i + 3, i + 1, i == selected, (width - 4) % 256)];
      i := i + 1;
    }
  }

  /** The `switch` on a key: move the cursor, or report Enter. */
  method ApplyKey(n: int, selected: int, key: Key) returns (next: int, enter: bool)
    requires ValidRomCount(n) && 0 <= selected < n
    ensures enter <==> key == Return
    ensures next == MoveCursor(n, selected, key)
  {
    next, enter := selected, false;
    match key {
      case CursorUp =>
        if selected > 0 {
          next := selected - 1;
        }
      case CursorDown =>
        if selected < n - 1 {
          next := selected + 1;
        }
      case Return =>
        enter := true;
      case _ =>
    }
  }

  /**
   * `mainmenu()`: the title column, every redraw made, and the chosen bank
   * (`None` when the keys run out before an Enter).
   */
  method MainMenu(n: int, width: byte, keys: seq<Key>) returns (titleColumn: int, frames: seq<seq<MenuLine>>, choice: Option<int>)
    requires ValidRomCount(n)
    ensures titleColumn == TitleColumn(width)
    ensures choice == Choice(n, 0, keys)
    ensures frames == Frames(n, width, Redraws(n, -1, 0, keys))
  {
    titleColumn := TitleColumn(width);
    var selected, previous := 0, -1;
    var k := 0;
    ghost var drawn: seq<int> := [];
    assert keys[k..] == keys;
    frames := [];
    while true
      invariant 0 <= k <= |keys| && 0 <= selected < n
      invariant Choice(n, selected, keys[k..]) == Choice(n, 0, keys)
      invariant drawn + Redraws(n, previous, selected, keys[k..]) == Redraws(n, -1, 0, keys)
      invariant frames == Frames(n, width, drawn)
      decreases |keys| - k
    {
      if selected != previous {
        var lines := DrawMenuLines(n, width, selected);
        FramesSnoc(n, width, drawn, selected);
        RedrawGuard(n, previous, selected, keys[k..]);
        AppendAssoc(drawn, [selected], Redraws(n, selected, selected, keys[k..]));
        frames := frames + [lines];
        drawn := drawn + [selected];
        previous := selected;
      }
      if k == |keys| {
        choice := None;
        return;
      }
      var key := keys[k];
      MenuStep(n, previous, selected, keys[k..]);
      assert keys[k..][0] == key && keys[k..][1..] == keys[k + 1..];
      k := k + 1;
      var enter;
      selected, enter := ApplyKey(n, selected, key);
      if enter {
        choice := Some(selected);
        return;
      }
    }
  }

  lemma FramesSnoc(n: int, width: byte, drawn: seq<int>, s: int)
    requires ValidRomCount(n)
    ensures Frames(n, width, drawn + [s]) == Frames(n, width, drawn) + [MenuLines(n, width, s)]
  {
  }

  /** A cursor that differs from what was last drawn is drawn once, after which the two agree. */
  lemma RedrawGuard(n: int, previous: int, selected: int, keys: seq<Key>)
    requires ValidRomCount(n) && 0 <= selected < n && previous != selected
    ensures Redraws(n, previous, selected, keys) == [selected] + Redraws(n, selected, selected, keys)
  {
    if keys != [] && keys[0] != Return {
      var r := Redraws(n, selected, MoveCursor(n, selected, keys[0]), keys[1..]);
      assert Redraws(n, selected, selected, keys) == [] + r;
    }
  }

  /** One pass of the menu loop with the cursor already drawn: a key that is not Enter moves on to the next state. */
  lemma MenuStep(n: int, previous: int, selected: int, keys: seq<Key>)
    requires ValidRomCount(n) && 0 <= selected < n && keys != [] && previous == selected
    ensures keys[0] == Return ==> Redraws(n, previous, selected, keys) == [] && Choice(n, selected, keys) == Some(selected)
    ensures keys[0] != Return ==>
              Redraws(n, previous, selected, keys) == Redraws(n, selected, MoveCursor(n, selected, keys[0]), keys[1..])
              && Choice(n, selected, keys) == Choice(n, MoveCursor(n, selected, keys[0]), keys[1..])
  {
    if keys[0] != Return {
      assert [] + Redraws(n, selected, MoveCursor(n, selected, keys[0]), keys[1..])
             == Redraws(n, selected, MoveCursor(n, selected, keys[0]), keys[1..]);
    }
  }

  /** `main()`: the screen width from $EE and the bank number printed after the menu. */
  method RunMenuProgram(ee: byte, n: int, keys: seq<Key>) returns (width: byte, bank: Option<int>)
    requires ValidRomCount(n)
    ensures width == ScreenWidth(ee)
    ensures bank.Some? <==> Return in keys
    ensures bank.Some? ==> 1 <= bank.value <= n && bank == Some(Choice(n, 0, keys).value + 1)
  {
    if ee == 79 {
      width := 80;
    } else {
      width := 40;
    }
    var titleColumn, frames, choice := MainMenu(n, width, keys);
    if choice.Some? {
      bank := Some(BankLabel(n, choice.value));
    } else {
      bank := None;
    }
  }
}
