/**
 * `drawCoordinateSystem`: the optional overlay of coordinate labels, the row
 * numbers down the left column and the column letters along the bottom row.
 */
module LabelLayer {
  import opened Svg
  import opened SvgBoard
  import opened JsString

  /** The label of drawing row `r`: its number counted from the bottom, `height - r`. */
  function RowText(height: int, r: int): Element
    requires 0 <= r < height
  {
    DrawText(0, r, DecimalString(height - r), RowLabel)
  }

  /** The label of column `c`: its letter, in the bottom drawing row. */
  function ColumnText(height: int, c: int): Element
    requires 0 <= c < MaxColumns
  {
    DrawText(c, height - 1, NumToLetter(c), ColumnLabel)
  }

  /** What the turn `(r, c)` of the loop appends. */
  function CellLabels(width: nat, height: nat, r: nat, c: nat): seq<Element>
    requires r < height && c < width <= MaxColumns
  {
    (if c == 0 then [RowText(height, r)] else [])
      + (if r == height - 1 then [ColumnText(height, c)] else [])
  }

  /** What the turns `(r, 0) .. (r, c-1)` append. */
  function RowLabels(width: nat, height: nat, r: nat, c: nat): seq<Element>
    requires r < height && c <= width <= MaxColumns
  {
    if c == 0 then [] else RowLabels(width, height, r, c - 1) + CellLabels(width, height, r, c - 1)
  }

  /** What the rows `0 .. r-1` of the loop append. */
  function Labels(width: nat, height: nat, r: nat): seq<Element>
    requires r <= height && width <= MaxColumns
  {
    if r == 0 then [] else Labels(width, height, r - 1) + RowLabels(width, height, r - 1, width)
  }

  /** `drawCoordinateSystem`: a group of labels, built by the source's nested loops. */
  method DrawCoordinateSystem(b: SVGBoard) returns (g: Element)
    requires b.json.board.width <= MaxColumns
    ensures g == Group(Labels(b.json.board.width, b.json.board.height, b.json.board.height))
  {
    var width, height := b.json.board.width, b.json.board.height;
    var children: seq<Element> := [];
    for r := 0 to height
      invariant children == Labels(width, height, r)
    {
      assert Labels(width, height, r + 1) == Labels(width, height, r) + RowLabels(width, height, r, width);
      for c := 0 to width
        invariant children == Labels(width, height, r) + RowLabels(width, height, r, c)
      {
        RowLabelsStep(width, height, r, c);
        if c == 0 {
          children := children + [DrawText(c, r, DecimalString(height - r), RowLabel)];
        }
        if r == height - 1 {
          children := children + [DrawText(c, r, NumToLetter(c), ColumnLabel)];
        }
      }
    }
    g := Group(children);
  }

  /** One turn of the inner loop appends the row label at column 0, then the column label in the bottom row. */
  lemma RowLabelsStep(width: nat, height: nat, r: nat, c: nat)
    requires r < height && c < width <= MaxColumns
    ensures RowLabels(width, height, r, c + 1) ==
      RowLabels(width, height, r, c)
        + (if c == 0 then [DrawText(c, r, DecimalString(height - r), RowLabel)] else [])
        + (if r == height - 1 then [DrawText(c, r, NumToLetter(c), ColumnLabel)] else [])
  {
  }

  /** Reference: the row labels of the first `n` drawing rows, top to bottom. */
  function RowNumbers(height: nat, n: nat): (ls: seq<Element>)
    requires n <= height
    ensures |ls| == n
  {
    if n == 0 then [] else RowNumbers(height, n - 1) + [RowText(height, n - 1)]
  }

  /** Reference: the labels of the first `n` columns, left to right. */
  function ColumnLetters(height: nat, n: nat): (ls: seq<Element>)
    requires n <= MaxColumns
    ensures |ls| == n
  {
    if n == 0 then [] else ColumnLetters(height, n - 1) + [ColumnText(height, n - 1)]
  }

  lemma {:induction false} RowNumbersAt(height: nat, n: nat, i: nat)
    requires i < n <= height
    ensures RowNumbers(height, n)[i] == RowText(height, i)
  {
    if i < n - 1 {
      RowNumbersAt(height, n - 1, i);
    }
  }

  lemma {:induction false} ColumnLettersAt(height: nat, n: nat, i: nat)
    requires i < n <= MaxColumns
    ensures ColumnLetters(height, n)[i] == ColumnText(height, i)
  {
    if i < n - 1 {
      ColumnLettersAt(height, n - 1, i);
    }
  }

  /** Reference: all row labels, then all column labels; none on an empty board. */
  function LabelsReference(width: nat, height: nat): seq<Element>
    requires width <= MaxColumns
  {
    if width == 0 || height == 0 then [] else RowNumbers(height, height) + ColumnLetters(height, width)
  }

  lemma {:induction false} RowLabelsShape(width: nat, height: nat, r: nat, c: nat)
    requires r < height && c <= width <= MaxColumns
    ensures RowLabels(width, height, r, c) ==
      (if c == 0 then [] else [RowText(height, r)])
        + (if r == height - 1 then ColumnLetters(height, c) else [])
  {
    if c > 0 {
      RowLabelsShape(width, height, r, c - 1);
    }
  }

  /** The rows above the bottom one contribute only their numbers. */
  lemma {:induction false} LabelsAbove(width: nat, height: nat, r: nat)
    requires r < height && 0 < width <= MaxColumns
    ensures Labels(width, height, r) == RowNumbers(height, r)
  {
    if r > 0 {
      var prev, row := Labels(width, height, r - 1), RowLabels(width, height, r - 1, width);
      LabelsAbove(width, height, r - 1);
      RowLabelsShape(width, height, r - 1, width);
      assert row == [RowText(height, r - 1)];
      assert Labels(width, height, r) == prev + row;
    }
  }

  /** A board with no columns has no labels. */
  lemma {:induction false} NoColumnsNoLabels(height: nat, r: nat)
    requires r <= height
    ensures Labels(0, height, r) == []
  {
    if r > 0 {
      NoColumnsNoLabels(height, r - 1);
    }
  }

  /**
   * The loop emits one row label per row, top to bottom, then one column
   * label per column, left to right; nothing on a board with no cells.
   */
  lemma LabelsMatchReference(width: nat, height: nat)
    requires width <= MaxColumns
    ensures Labels(width, height, height) == LabelsReference(width, height)
  {
    if width == 0 {
      NoColumnsNoLabels(height, height);
    } else if height > 0 {
      CellLabelsMatchReference(width, height);
    }
  }

  /** On a board with cells, the bottom row adds its number and then every column letter. */
  lemma CellLabelsMatchReference(width: nat, height: nat)
    requires 0 < width <= MaxColumns && 0 < height
    ensures Labels(width, height, height) == RowNumbers(height, height) + ColumnLetters(height, width)
  {
    LabelsAbove(width, height, height - 1);
    RowLabelsShape(width, height, height - 1, width);
    var top, bottom, cols := RowNumbers(height, height - 1), RowText(height, height - 1), ColumnLetters(height, width);
    assert top + ([bottom] + cols) == (top + [bottom]) + cols;
  }

  /** Exactly `height` row labels and `width` column labels, when the board has cells. */
  lemma LabelCount(width: nat, height: nat)
    requires width <= MaxColumns
    ensures |Labels(width, height, height)| == if width == 0 || height == 0 then 0 else width + height
  {
    LabelsMatchReference(width, height);
  }

  /**
   * The `r`-th label reads `height - r` and sits in the left column of drawing
   * row `r`; the `(height + c)`-th reads the `c`-th letter and sits in the
   * bottom row of column `c`.
   */
  lemma LabelAt(width: nat, height: nat, i: nat)
    requires 0 < width <= MaxColumns && 0 < height && i < width + height
    ensures i < |Labels(width, height, height)|
    ensures var e := Labels(width, height, height)[i];
      && e.Text?
      && (i < height ==> e.content == DecimalString(height - i)
                         && NearTopLeft(Extent(e), CellBox(0, i))
                         && e.x == 1 && e.y == i * SquareSize + 10)
      && (height <= i ==> e.content == NumToLetter(i - height)
                          && NearBottomRight(Extent(e), CellBox(i - height, height - 1))
                          && e.x == (i - height) * SquareSize + SquareSize - 7
                          && e.y == height * SquareSize - 2)
  {
    LabelsMatchReference(width, height);
    var ls := Labels(width, height, height);
    if i < height {
      RowNumbersAt(height, height, i);
      assert ls[i] == RowNumbers(height, height)[i];
    } else {
      ColumnLettersAt(height, width, i - height);
      assert ls[i] == ColumnLetters(height, width)[i - height];
    }
  }

  /** Every label anchor lies inside the board's drawing area. */
  lemma LabelsWithinBoard(width: nat, height: nat)
    requires width <= MaxColumns
    ensures AllWithin(Labels(width, height, height), BoardBox(width, height))
  {
    LabelsMatchReference(width, height);
    var ls := Labels(width, height, height);
    if 0 < width && 0 < height {
      forall i | 0 <= i < |ls|
        ensures !ls[i].Group? && Within(Extent(ls[i]), BoardBox(width, height))
      {
        LabelWithinBoard(width, height, i);
      }
    }
  }

  lemma LabelWithinBoard(width: nat, height: nat, i: nat)
    requires 0 < width <= MaxColumns && 0 < height && i < width + height
    ensures i < |LabelsReference(width, height)|
    ensures var e := LabelsReference(width, height)[i];
      !e.Group? && Within(Extent(e), BoardBox(width, height))
  {
    if i < height {
      RowNumbersAt(height, height, i);
      CellInBoard(width, height, 0, i);
    } else {
      ColumnLettersAt(height, width, i - height);
      CellInBoard(width, height, i - height, height - 1);
    }
  }

  /** Two columns, two rows: "2" and "1" down the left, then "a" and "b" along the bottom. */
  lemma TwoByTwoLabels()
    ensures var ls := Labels(2, 2, 2);
      |ls| == 4 && ls[0].content == "2" && ls[1].content == "1" && ls[2].content == "a" && ls[3].content == "b"
  {
    LabelsMatchReference(2, 2);
  }
}
