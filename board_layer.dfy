/** `drawBoard`: the grid layer, one square per cell in row-major order. */
module BoardLayer {
  import opened Svg
  import opened SvgBoard

  /** The squares of drawing row `r` for columns `0 .. c-1`, in the order they are appended. */
  function RowSquares(o: Options, r: int, c: nat): (es: seq<Element>)
    ensures |es| == c
  {
    if c == 0 then [] else RowSquares(o, r, c - 1) + [DrawSquare(o, c - 1, r)]
  }

  /** The squares of rows `0 .. r-1` of a board `width` cells wide. */
  function Grid(o: Options, width: nat, r: nat): (es: seq<Element>)
    ensures |es| == r * width
  {
    if r == 0 then [] else Grid(o, width, r - 1) + RowSquares(o, r - 1, width)
  }

  /** `drawBoard`: a group holding the squares of every row, each row left to right. */
  method DrawBoard(b: SVGBoard) returns (g: Element)
    ensures g == Group(Grid(b.options, b.json.board.width, b.json.board.height))
  {
    var width, height := b.json.board.width, b.json.board.height;
    var children: seq<Element> := [];
    for r := 0 to height
      invariant children == Grid(b.options, width, r)
    {
      for c := 0 to width
        invariant children == Grid(b.options, width, r) + RowSquares(b.options, r, c)
      {
        children := children + [DrawSquare(b.options, c, r)];
      }
    }
    g := Group(children);
  }

  lemma {:induction false} RowSquaresAt(o: Options, r: int, c: nat, k: nat)
    requires k < c
    ensures RowSquares(o, r, c)[k] == DrawSquare(o, k, r)
  {
    if k < c - 1 {
      RowSquaresAt(o, r, c - 1, k);
    }
  }

  /** Row-major order: the square of cell `(c, r)` is the `(r * width + c)`-th one. */
  lemma {:induction false} GridAt(o: Options, width: nat, height: nat, r: nat, c: nat)
    requires r < height && c < width
    ensures r * width + c < |Grid(o, width, height)|
    ensures Grid(o, width, height)[r * width + c] == DrawSquare(o, c, r)
  {
    assert (height - 1) * width + width == height * width;
    if r < height - 1 {
      GridAt(o, width, height - 1, r, c);
    } else {
      RowSquaresAt(o, r, width, c);
    }
  }

  lemma {:induction false} RowSquaresShape(o: Options, r: int, c: nat)
    ensures forall e :: e in RowSquares(o, r, c) ==>
      e.Rect? && e.width == SquareSize && e.height == SquareSize &&
      e.y == r * SquareSize && 0 <= e.x && e.x + SquareSize <= c * SquareSize
    ensures Distinct(RowSquares(o, r, c))
  {
    if c > 0 {
      RowSquaresShape(o, r, c - 1);
      DistinctAppend(RowSquares(o, r, c - 1), [DrawSquare(o, c - 1, r)]);
    }
  }

  /** Every square lies on the board, and no two squares are the same. */
  lemma {:induction false} GridShape(o: Options, width: nat, height: nat)
    ensures forall e :: e in Grid(o, width, height) ==>
      e.Rect? && e.width == SquareSize && e.height == SquareSize &&
      0 <= e.x && e.x + SquareSize <= width * SquareSize &&
      0 <= e.y && e.y + SquareSize <= height * SquareSize
    ensures Distinct(Grid(o, width, height))
  {
    if height > 0 {
      GridShape(o, width, height - 1);
      RowSquaresShape(o, height - 1, width);
      DistinctAppend(Grid(o, width, height - 1), RowSquares(o, height - 1, width));
    }
  }

  /** The squares stay inside the board's drawing area. */
  lemma GridWithinBoard(o: Options, width: nat, height: nat)
    ensures AllWithin(Grid(o, width, height), BoardBox(width, height))
  {
    GridShape(o, width, height);
  }

  /** Every point of the board's drawing area is covered by the square of its cell. */
  lemma GridCoversBoard(o: Options, width: nat, height: nat, px: int, py: int)
    requires Contains(BoardBox(width, height), px, py)
    ensures DrawSquare(o, px / SquareSize, py / SquareSize) in Grid(o, width, height)
    ensures Contains(Extent(DrawSquare(o, px / SquareSize, py / SquareSize)), px, py)
  {
    var c, r := px / SquareSize, py / SquareSize;
    GridAt(o, width, height, r, c);
  }
}
