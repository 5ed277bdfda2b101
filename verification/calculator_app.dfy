/**
 * The keypad of CalculatorApp.swift: the grid of button labels and the
 * colour each label is drawn in.
 */
module CalculatorApp {

  datatype ButtonColor = Orange | Gray | DarkGray

  const Buttons: seq<seq<string>> := [
    ["AC", "+/-", "%", "÷"],
    ["7", "8", "9", "×"],
    ["4", "5", "6", "-"],
    ["1", "2", "3", "+"],
    ["0", ".", "="]
  ]

  /**
   * The colour a button is drawn in: orange exactly for the last key of each
   * row, gray only for keys of the top row, and dark gray for the digits and
   * the decimal point.
   */
  function ColorOf(button: string): (c: ButtonColor)
    ensures c == Orange <==> exists r :: 0 <= r < |Buttons| && button == Buttons[r][|Buttons[r]| - 1]
    ensures c == Gray ==> button in Buttons[0]
    ensures IsDigitOrPoint(button) ==> c == DarkGray
  {
    assert Buttons[0][3] == "÷" && Buttons[1][3] == "×" && Buttons[2][3] == "-";
    assert Buttons[3][3] == "+" && Buttons[4][2] == "=";
    if button == "÷" || button == "×" || button == "-" || button == "+" || button == "=" then Orange
    else if button == "AC" || button == "+/-" || button == "%" then Gray
    else DarkGray
  }

  /** The colours of one row of buttons. */
  function RowColors(row: seq<string>): seq<ButtonColor>
  {
    seq(|row|, c requires 0 <= c < |row| => ColorOf(row[c]))
  }

  /** The colour each button of a grid is drawn in, row by row. */
  function ColorGrid(rows: seq<seq<string>>): seq<seq<ButtonColor>>
  {
    seq(|rows|, r requires 0 <= r < |rows| => RowColors(rows[r]))
  }

  /** The cells of a grid, row by row. */
  function Flatten<T>(rows: seq<seq<T>>): seq<T>
  {
    if rows == [] then [] else rows[0] + Flatten(rows[1..])
  }

  /** How many of the colours are c. */
  function CountColor(colors: seq<ButtonColor>, c: ButtonColor): nat
  {
    if colors == [] then 0 else (if colors[0] == c then 1 else 0) + CountColor(colors[1..], c)
  }

  /** A single digit or the decimal point. */
  predicate IsDigitOrPoint(key: string)
  {
    key == "." || (|key| == 1 && '0' <= key[0] <= '9')
  }

  /** The three colour classes: the operators, the top-row functions, and everything else. */
  lemma ColorClasses(button: string)
    ensures ColorOf(button) == Orange <==> button in {"÷", "×", "-", "+", "="}
    ensures ColorOf(button) == Gray <==> button in {"AC", "+/-", "%"}
    ensures ColorOf(button) == DarkGray <==> button !in {"÷", "×", "-", "+", "=", "AC", "+/-", "%"}
  {
  }

  /** Five rows, four buttons each and three in the last: nineteen buttons. */
  lemma GridShape()
    ensures |Buttons| == 5
    ensures forall r :: 0 <= r < 4 ==> |Buttons[r]| == 4
    ensures |Buttons[4]| == 3
    ensures |Flatten(Buttons)| == 19
  {
  }

  /** The keys left to the fall-through case, the dark gray ones, are exactly the digits and the point. */
  lemma DarkGrayKeysAreDigits()
    ensures forall r, c :: 0 <= r < |Buttons| && 0 <= c < |Buttons[r]| ==>
      (ColorOf(Buttons[r][c]) == DarkGray <==> IsDigitOrPoint(Buttons[r][c]))
  {
    forall r, c | 0 <= r < |Buttons| && 0 <= c < |Buttons[r]|
      ensures ColorOf(Buttons[r][c]) == DarkGray <==> IsDigitOrPoint(Buttons[r][c])
    {
      if r == 0 {
        assert c == 0 || c == 1 || c == 2 || c == 3;
      } else if r == 4 {
        assert c == 0 || c == 1 || c == 2;
      } else {
        assert c == 0 || c == 1 || c == 2 || c == 3;
      }
    }
  }

  lemma RowColorsOf(row: seq<string>, colors: seq<ButtonColor>)
    requires |row| == |colors| && forall c :: 0 <= c < |row| ==> ColorOf(row[c]) == colors[c]
    ensures RowColors(row) == colors
  {
  }

  /** "AC", "+/-" and "%" are gray; "÷" is orange. */
  lemma TopRowColors()
    ensures RowColors(Buttons[0]) == [Gray, Gray, Gray, Orange]
  {
    RowColorsOf(Buttons[0], [Gray, Gray, Gray, Orange]);
  }

  /** The three digit rows: three dark gray digits and an orange operator. */
  lemma DigitRowColors(r: nat)
    requires 1 <= r <= 3
    ensures RowColors(Buttons[r]) == [DarkGray, DarkGray, DarkGray, Orange]
  {
    RowColorsOf(Buttons[r], [DarkGray, DarkGray, DarkGray, Orange]);
  }

  /** "0" and "." are dark gray; "=" is orange. */
  lemma BottomRowColors()
    ensures RowColors(Buttons[4]) == [DarkGray, DarkGray, Orange]
  {
    RowColorsOf(Buttons[4], [DarkGray, DarkGray, Orange]);
  }

  /** The keypad as drawn: the right-hand column orange, the top row's other keys gray, the rest dark gray. */
  lemma KeypadColorGrid()
    ensures ColorGrid(Buttons) == [
      [Gray, Gray, Gray, Orange],
      [DarkGray, DarkGray, DarkGray, Orange],
      [DarkGray, DarkGray, DarkGray, Orange],
      [DarkGray, DarkGray, DarkGray, Orange],
      [DarkGray, DarkGray, Orange]
    ]
  {
    TopRowColors();
    DigitRowColors(1);
    DigitRowColors(2);
    DigitRowColors(3);
    BottomRowColors();
  }

  /** Counting distributes over concatenation. */
  lemma {:induction false} CountColorAppend(a: seq<ButtonColor>, b: seq<ButtonColor>, c: ButtonColor)
    ensures CountColor(a + b, c) == CountColor(a, c) + CountColor(b, c)
  {
    if a == [] {
      assert a + b == b;
    } else {
      assert (a + b)[0] == a[0] && (a + b)[1..] == a[1..] + b;
      CountColorAppend(a[1..], b, c);
    }
  }

  /** Flattening five rows concatenates them. */
  lemma FlattenFive<T>(a: seq<T>, b: seq<T>, c: seq<T>, d: seq<T>, e: seq<T>)
    ensures Flatten([a, b, c, d, e]) == a + (b + (c + (d + e)))
  {
    assert Flatten([e]) == e by { assert [e][1..] == []; assert e + [] == e; }
    assert Flatten([d, e]) == d + e by { assert [d, e][1..] == [e]; }
    assert Flatten([c, d, e]) == c + (d + e) by { assert [c, d, e][1..] == [d, e]; }
    assert Flatten([b, c, d, e]) == b + (c + (d + e)) by { assert [b, c, d, e][1..] == [c, d, e]; }
    assert [a, b, c, d, e][1..] == [b, c, d, e];
  }

  /** Counting over five concatenated rows adds up the rows' counts. */
  lemma CountFive(a: seq<ButtonColor>, b: seq<ButtonColor>, c: seq<ButtonColor>, d: seq<ButtonColor>, e: seq<ButtonColor>, color: ButtonColor)
    ensures CountColor(a + (b + (c + (d + e))), color) ==
      CountColor(a, color) + CountColor(b, color) + CountColor(c, color) + CountColor(d, color) + CountColor(e, color)
  {
    CountColorAppend(d, e, color);
    CountColorAppend(c, d + e, color);
    CountColorAppend(b, c + (d + e), color);
    CountColorAppend(a, b + (c + (d + e)), color);
  }

  /** Over the keypad: nineteen buttons, five orange, three gray and eleven dark gray. */
  lemma ColorTally()
    ensures |Flatten(ColorGrid(Buttons))| == 19
    ensures CountColor(Flatten(ColorGrid(Buttons)), Orange) == 5
    ensures CountColor(Flatten(ColorGrid(Buttons)), Gray) == 3
    ensures CountColor(Flatten(ColorGrid(Buttons)), DarkGray) == 11
  {
    KeypadColorGrid();
    var top, mid, bottom := [Gray, Gray, Gray, Orange], [DarkGray, DarkGray, DarkGray, Orange], [DarkGray, DarkGray, Orange];
    FlattenFive(top, mid, mid, mid, bottom);
    CountFive(top, mid, mid, mid, bottom, Orange);
    CountFive(top, mid, mid, mid, bottom, Gray);
    CountFive(top, mid, mid, mid, bottom, DarkGray);
  }
}
