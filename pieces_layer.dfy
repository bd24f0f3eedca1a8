/**
 * `drawPieces`: the snakes other than `you` in list order, then `you`, then
 * the food, then the hazards; each snake's body segments before its head.
 */
module PiecesLayer {
  import opened Wrappers
  import opened Game
  import opened Svg
  import opened SvgBoard

  /** What to draw on a cell of the pieces layer. */
  datatype Piece = SnakeBody(color: Option<string>) | Food | Hazard

  function DrawPiece(o: Options, piece: Piece, c: int, r: int): (e: Element)
    ensures !e.Group? && Within(Extent(e), CellBox(c, r))
  {
    match piece
    case SnakeBody(color) => DrawSnakeBody(c, r, color)
    case Food => DrawFood(o, c, r)
    case Hazard => DrawHazard(o, c, r)
  }

  /** One `piece` per point, in the points' order, each at its flipped drawing cell. */
  function Pieces(o: Options, piece: Piece, height: int, points: seq<Point>): (es: seq<Element>)
    ensures |es| == |points|
  {
    if points == [] then []
    else
      var p := points[|points| - 1];
      Pieces(o, piece, height, points[..|points| - 1]) + [DrawPiece(o, piece, p.x, FlipRow(height, p.y))]
  }

  /** The `k`-th element drawn is the `k`-th point's. */
  lemma {:induction false} PiecesAt(o: Options, piece: Piece, height: int, points: seq<Point>, k: nat)
    requires k < |points|
    ensures Pieces(o, piece, height, points)[k] == DrawPiece(o, piece, points[k].x, FlipRow(height, points[k].y))
  {
    if k < |points| - 1 {
      PiecesAt(o, piece, height, points[..|points| - 1], k);
    }
  }

  /** Appending one more point appends its element. */
  lemma PiecesSnoc(o: Options, piece: Piece, height: int, points: seq<Point>, j: nat)
    requires j < |points|
    ensures Pieces(o, piece, height, points[..j + 1]) ==
      Pieces(o, piece, height, points[..j]) + [DrawPiece(o, piece, points[j].x, FlipRow(height, points[j].y))]
  {
    assert points[..j + 1][..j] == points[..j];
  }

  /** The elements of one snake: its body segments in `color`, then its head on top. */
  function SnakeShapes(o: Options, height: int, s: Snake, color: Option<string>): (es: seq<Element>)
    ensures |es| == |s.body| + 1
  {
    Pieces(o, SnakeBody(color), height, s.body) + [DrawSnakeHead(o, s.head.x, FlipRow(height, s.head.y))]
  }

  /** The `j`-th element of a snake is its `j`-th body segment, or its head after the last one. */
  lemma SnakeShapesAt(o: Options, height: int, s: Snake, color: Option<string>, j: nat)
    requires j <= |s.body|
    ensures SnakeShapes(o, height, s, color)[j] ==
      if j < |s.body| then DrawSnakeBody(s.body[j].x, FlipRow(height, s.body[j].y), color)
      else DrawSnakeHead(o, s.head.x, FlipRow(height, s.head.y))
  {
    if j < |s.body| {
      PiecesAt(o, SnakeBody(color), height, s.body, j);
    }
  }

  /** The snakes the first loop draws: those whose id differs from `you`'s, in list order. */
  function NonPrimary(snakes: seq<Snake>, youId: string): (ns: seq<Snake>)
    ensures |ns| <= |snakes|
  {
    if snakes == [] then []
    else
      var s := snakes[|snakes| - 1];
      NonPrimary(snakes[..|snakes| - 1], youId) + (if s.id == youId then [] else [s])
  }

  /**
   * The state after the first loop of `drawPieces` has run over `snakes`: the
   * elements appended so far and the counter `num`, which starts at 1, picks
   * the colour of each snake drawn, and then goes up by one.
   */
  function OthersLoop(o: Options, height: int, snakes: seq<Snake>, youId: string): (state: (seq<Element>, nat))
    ensures 1 <= state.1 <= 1 + |snakes|
  {
    if snakes == [] then ([], 1)
    else
      var s := snakes[|snakes| - 1];
      var (shapes, num) := OthersLoop(o, height, snakes[..|snakes| - 1], youId);
      if s.id == youId then (shapes, num)
      else (shapes + SnakeShapes(o, height, s, SnakeColor(o, num)), num + 1)
  }

  /** How many elements the snakes of `list` make: a body segment each, plus a head. */
  function ShapeCount(list: seq<Snake>): nat {
    if list == [] then 0 else ShapeCount(list[..|list| - 1]) + |list[|list| - 1].body| + 1
  }

  /** Reference colouring: the `k`-th snake of `list` gets `snakeColors[num + k]`. */
  function ColouredSnakes(o: Options, height: int, list: seq<Snake>, num: nat): (es: seq<Element>)
    ensures |es| == ShapeCount(list)
  {
    if list == [] then []
    else
      var init := list[..|list| - 1];
      ColouredSnakes(o, height, init, num) + SnakeShapes(o, height, list[|list| - 1], SnakeColor(o, num + |init|))
  }

  /** The whole pieces layer. */
  function PiecesOf(b: SVGBoard): seq<Element> {
    var o, board, you := b.options, b.json.board, b.json.you;
    OthersLoop(o, board.height, board.snakes, you.id).0
      + SnakeShapes(o, board.height, you, SnakeColor(o, 0))
      + Pieces(o, Food, board.height, board.food)
      + Pieces(o, Hazard, board.height, board.hazards)
  }

  /** `drawPieces`: a group of the pieces layer, built by the source's loops and counter. */
  method DrawPieces(b: SVGBoard) returns (g: Element)
    ensures g == Group(PiecesOf(b))
  {
    var o, board, you := b.options, b.json.board, b.json.you;
    var height := board.height;
    var children: seq<Element> := [];

    var num := 1;
    for i := 0 to |board.snakes|
      invariant (children, num) == OthersLoop(o, height, board.snakes[..i], you.id)
    {
      var snake := board.snakes[i];
      assert board.snakes[..i + 1][..i] == board.snakes[..i];
      if snake.id == you.id {
        continue;
      }
      var shapes := DrawSnake(o, height, snake, SnakeColor(o, num));
      children := children + shapes;
      num := num + 1;
    }
    assert board.snakes[..|board.snakes|] == board.snakes;

    var primary := DrawSnake(o, height, you, SnakeColor(o, 0));
    var food := DrawPoints(o, Food, height, board.food);
    var hazards := DrawPoints(o, Hazard, height, board.hazards);
    children := children + primary + food + hazards;
    g := Group(children);
  }

  /** The body of `drawPieces` for one snake: every body segment in `color`, then the head. */
  method DrawSnake(o: Options, height: int, snake: Snake, color: Option<string>) returns (shapes: seq<Element>)
    ensures shapes == SnakeShapes(o, height, snake, color)
  {
    shapes := DrawPoints(o, SnakeBody(color), height, snake.body);
    shapes := shapes + [DrawSnakeHead(o, snake.head.x, height - 1 - snake.head.y)];
  }

  /** A loop of `drawPieces` over a list of points: one `piece` for each, at its flipped cell. */
  method DrawPoints(o: Options, piece: Piece, height: int, points: seq<Point>) returns (shapes: seq<Element>)
    ensures shapes == Pieces(o, piece, height, points)
  {
    shapes := [];
    for j := 0 to |points|
      invariant shapes == Pieces(o, piece, height, points[..j])
    {
      var p := points[j];
      PiecesSnoc(o, piece, height, points, j);
      shapes := shapes + [DrawPiece(o, piece, p.x, height - 1 - p.y)];
    }
    assert points[..|points|] == points;
  }

  /** The snakes drawn in the first loop are exactly those whose id is not `you`'s. */
  lemma {:induction false} NonPrimaryMembers(snakes: seq<Snake>, youId: string)
    ensures forall s :: s in NonPrimary(snakes, youId) <==> s in snakes && s.id != youId
  {
    if snakes != [] {
      var init := snakes[..|snakes| - 1];
      NonPrimaryMembers(init, youId);
      assert snakes == init + [snakes[|snakes| - 1]];
    }
  }

  /** After the first loop, `num` is one more than the number of snakes drawn. */
  lemma {:induction false} OthersLoopCounter(o: Options, height: int, snakes: seq<Snake>, youId: string)
    ensures OthersLoop(o, height, snakes, youId).1 == 1 + |NonPrimary(snakes, youId)|
  {
    if snakes != [] {
      OthersLoopCounter(o, height, snakes[..|snakes| - 1], youId);
    }
  }

  /**
   * The counter of the first loop colours the snakes by position: the `k`-th
   * snake whose id is not `you`'s gets `snakeColors[k + 1]`.
   */
  lemma {:induction false} OthersByPosition(o: Options, height: int, snakes: seq<Snake>, youId: string)
    ensures OthersLoop(o, height, snakes, youId).0 == ColouredSnakes(o, height, NonPrimary(snakes, youId), 1)
  {
    if snakes != [] {
      var init, s := snakes[..|snakes| - 1], snakes[|snakes| - 1];
      OthersByPosition(o, height, init, youId);
      OthersLoopCounter(o, height, init, youId);
      var before := NonPrimary(init, youId);
      if s.id == youId {
        assert NonPrimary(snakes, youId) == before + [] == before;
      } else {
        assert NonPrimary(snakes, youId) == before + [s];
        assert (before + [s])[..|before|] == before;
      }
    }
  }

  /**
   * Within the reference colouring, the elements of the `k`-th snake start at
   * `ShapeCount(list[..k])`: its `j`-th body segment in `snakeColors[num + k]`,
   * then its head.
   */
  lemma {:induction false} ColouredSnakesAt(o: Options, height: int, list: seq<Snake>, num: nat, k: nat, j: nat)
    requires k < |list| && j <= |list[k].body|
    ensures ShapeCount(list[..k]) + j < ShapeCount(list)
    ensures var s, es := list[k], ColouredSnakes(o, height, list, num);
      es[ShapeCount(list[..k]) + j] == SnakeShapes(o, height, s, SnakeColor(o, num + k))[j]
  {
    var init := list[..|list| - 1];
    if k < |init| {
      assert list[..k] == init[..k];
      ColouredSnakesAt(o, height, init, num, k, j);
    } else {
      assert list[..k] == init;
    }
  }

  /**
   * Count and first part: the pieces layer has a body segment and a head for
   * every snake, a circle per food and a rect per hazard; it starts with the
   * snakes whose id is not `you`'s, coloured by position.
   */
  lemma PiecesCount(b: SVGBoard)
    ensures var o, board, you := b.options, b.json.board, b.json.you;
      var others := NonPrimary(board.snakes, you.id);
      && |PiecesOf(b)| == ShapeCount(others) + |you.body| + 1 + |board.food| + |board.hazards|
      && PiecesOf(b)[..ShapeCount(others)] == ColouredSnakes(o, board.height, others, 1)
  {
    PiecesOfSlices(b);
    OthersLength(b);
    OthersByPosition(b.options, b.json.board.height, b.json.board.snakes, b.json.you.id);
  }

  /**
   * After the other snakes comes `you`, drawn from `json.you`: its body
   * segments, each filled with `snakeColors[0]`, then its head.
   */
  lemma PrimaryDrawnAfterOthers(b: SVGBoard)
    ensures var o, board, you := b.options, b.json.board, b.json.you;
      var n0 := ShapeCount(NonPrimary(board.snakes, you.id));
      var es := PiecesOf(b);
      && n0 + |you.body| < |es|
      && (forall j :: 0 <= j < |you.body| ==>
            es[n0 + j] == DrawSnakeBody(you.body[j].x, FlipRow(board.height, you.body[j].y), SnakeColor(o, 0)))
      && es[n0 + |you.body|] == DrawSnakeHead(o, you.head.x, FlipRow(board.height, you.head.y))
  {
    var o, board, you := b.options, b.json.board, b.json.you;
    var n0 := ShapeCount(NonPrimary(board.snakes, you.id));
    forall j | 0 <= j < |you.body|
      ensures n0 + j < |PiecesOf(b)|
      ensures PiecesOf(b)[n0 + j] == DrawSnakeBody(you.body[j].x, FlipRow(board.height, you.body[j].y), SnakeColor(o, 0))
    {
      PrimaryAt(b, j);
      SnakeShapesAt(o, board.height, you, SnakeColor(o, 0), j);
    }
    PrimaryAt(b, |you.body|);
    SnakeShapesAt(o, board.height, you, SnakeColor(o, 0), |you.body|);
  }

  /** Every food, then every hazard, comes after all snakes, in list order. */
  lemma ItemsDrawnLast(b: SVGBoard)
    ensures var o, board, you := b.options, b.json.board, b.json.you;
      var n1 := ShapeCount(NonPrimary(board.snakes, you.id)) + |you.body| + 1;
      var n2 := n1 + |board.food|;
      var es := PiecesOf(b);
      && |es| == n2 + |board.hazards|
      && (forall k :: 0 <= k < |board.food| ==>
            es[n1 + k] == DrawFood(o, board.food[k].x, FlipRow(board.height, board.food[k].y)))
      && (forall k :: 0 <= k < |board.hazards| ==>
            es[n2 + k] == DrawHazard(o, board.hazards[k].x, FlipRow(board.height, board.hazards[k].y)))
  {
    var o, board, you := b.options, b.json.board, b.json.you;
    PiecesCount(b);
    var n1 := ShapeCount(NonPrimary(board.snakes, you.id)) + |you.body| + 1;
    forall k | 0 <= k < |board.food|
      ensures PiecesOf(b)[n1 + k] == DrawFood(o, board.food[k].x, FlipRow(board.height, board.food[k].y))
    {
      FoodAt(b, k);
    }
    forall k | 0 <= k < |board.hazards|
      ensures PiecesOf(b)[n1 + |board.food| + k]
        == DrawHazard(o, board.hazards[k].x, FlipRow(board.height, board.hazards[k].y))
    {
      HazardAt(b, k);
    }
  }

  /** The loop over the other snakes makes as many elements as they have segments and heads. */
  lemma OthersLength(b: SVGBoard)
    ensures |OthersLoop(b.options, b.json.board.height, b.json.board.snakes, b.json.you.id).0|
      == ShapeCount(NonPrimary(b.json.board.snakes, b.json.you.id))
  {
    OthersByPosition(b.options, b.json.board.height, b.json.board.snakes, b.json.you.id);
  }

  lemma PrimaryAt(b: SVGBoard, j: nat)
    requires j <= |b.json.you.body|
    ensures var o, board, you := b.options, b.json.board, b.json.you;
      var n0 := ShapeCount(NonPrimary(board.snakes, you.id));
      && n0 + j < |PiecesOf(b)|
      && PiecesOf(b)[n0 + j] == SnakeShapes(o, board.height, you, SnakeColor(o, 0))[j]
  {
    var o, board, you := b.options, b.json.board, b.json.you;
    var others, primary := OthersLoop(o, board.height, board.snakes, you.id).0, SnakeShapes(o, board.height, you, SnakeColor(o, 0));
    var items := Pieces(o, Food, board.height, board.food) + Pieces(o, Hazard, board.height, board.hazards);
    OthersLength(b);
    assert PiecesOf(b) == others + primary + items;
    assert (others + primary + items)[|others| + j] == primary[j];
  }

  lemma FoodAt(b: SVGBoard, k: nat)
    requires k < |b.json.board.food|
    ensures var o, board, you := b.options, b.json.board, b.json.you;
      var n1 := ShapeCount(NonPrimary(board.snakes, you.id)) + |you.body| + 1;
      && n1 + k < |PiecesOf(b)|
      && PiecesOf(b)[n1 + k] == DrawFood(o, board.food[k].x, FlipRow(board.height, board.food[k].y))
  {
    var o, board, you := b.options, b.json.board, b.json.you;
    var snakes := OthersLoop(o, board.height, board.snakes, you.id).0 + SnakeShapes(o, board.height, you, SnakeColor(o, 0));
    var food, hazards := Pieces(o, Food, board.height, board.food), Pieces(o, Hazard, board.height, board.hazards);
    OthersLength(b);
    assert PiecesOf(b) == snakes + food + hazards;
    assert (snakes + food + hazards)[|snakes| + k] == food[k];
    PiecesAt(o, Food, board.height, board.food, k);
  }

  lemma HazardAt(b: SVGBoard, k: nat)
    requires k < |b.json.board.hazards|
    ensures var o, board, you := b.options, b.json.board, b.json.you;
      var n2 := ShapeCount(NonPrimary(board.snakes, you.id)) + |you.body| + 1 + |board.food|;
      && n2 + k < |PiecesOf(b)|
      && PiecesOf(b)[n2 + k] == DrawHazard(o, board.hazards[k].x, FlipRow(board.height, board.hazards[k].y))
  {
    var o, board, you := b.options, b.json.board, b.json.you;
    var rest := OthersLoop(o, board.height, board.snakes, you.id).0 + SnakeShapes(o, board.height, you, SnakeColor(o, 0))
      + Pieces(o, Food, board.height, board.food);
    var hazards := Pieces(o, Hazard, board.height, board.hazards);
    OthersLength(b);
    assert PiecesOf(b) == rest + hazards;
    assert (rest + hazards)[|rest| + k] == hazards[k];
    PiecesAt(o, Hazard, board.height, board.hazards, k);
  }

  /** The pieces layer cut at the boundaries of its four loops. */
  lemma PiecesOfSlices(b: SVGBoard)
    ensures var o, board, you := b.options, b.json.board, b.json.you;
      var others := OthersLoop(o, board.height, board.snakes, you.id).0;
      var n0 := |others|;
      var n1 := n0 + |you.body| + 1;
      var n2 := n1 + |board.food|;
      var es := PiecesOf(b);
      && |es| == n2 + |board.hazards|
      && es[..n0] == others
      && es[n0..n1] == SnakeShapes(o, board.height, you, SnakeColor(o, 0))
      && es[n1..n2] == Pieces(o, Food, board.height, board.food)
      && es[n2..] == Pieces(o, Hazard, board.height, board.hazards)
  {
  }

  /**
   * The `k`-th snake whose id is not `you`'s, counted in list order from 0,
   * has each body segment filled with `snakeColors[k + 1]` (undefined past the
   * end of the palette).
   */
  lemma NonPrimaryColours(b: SVGBoard, k: nat, j: nat)
    requires k < |NonPrimary(b.json.board.snakes, b.json.you.id)|
    requires j < |NonPrimary(b.json.board.snakes, b.json.you.id)[k].body|
    ensures var o, height := b.options, b.json.board.height;
      var others := NonPrimary(b.json.board.snakes, b.json.you.id);
      var s, at := others[k], ShapeCount(others[..k]);
      && at + j < |PiecesOf(b)|
      && PiecesOf(b)[at + j] == DrawSnakeBody(s.body[j].x, FlipRow(height, s.body[j].y), SnakeColor(o, k + 1))
  {
    OthersAt(b, k, j);
    var others := NonPrimary(b.json.board.snakes, b.json.you.id);
    SnakeShapesAt(b.options, b.json.board.height, others[k], SnakeColor(b.options, k + 1), j);
  }

  /** The head of the `k`-th snake whose id is not `you`'s follows its last body segment. */
  lemma NonPrimaryHead(b: SVGBoard, k: nat)
    requires k < |NonPrimary(b.json.board.snakes, b.json.you.id)|
    ensures var o, height := b.options, b.json.board.height;
      var others := NonPrimary(b.json.board.snakes, b.json.you.id);
      var s, at := others[k], ShapeCount(others[..k]);
      && at + |s.body| < |PiecesOf(b)|
      && PiecesOf(b)[at + |s.body|] == DrawSnakeHead(o, s.head.x, FlipRow(height, s.head.y))
  {
    var others := NonPrimary(b.json.board.snakes, b.json.you.id);
    OthersAt(b, k, |others[k].body|);
    SnakeShapesAt(b.options, b.json.board.height, others[k], SnakeColor(b.options, k + 1), |others[k].body|);
  }

  /** The elements of the `k`-th snake whose id is not `you`'s, coloured `snakeColors[k + 1]`. */
  lemma OthersAt(b: SVGBoard, k: nat, j: nat)
    requires k < |NonPrimary(b.json.board.snakes, b.json.you.id)|
    requires j <= |NonPrimary(b.json.board.snakes, b.json.you.id)[k].body|
    ensures var o, height := b.options, b.json.board.height;
      var others := NonPrimary(b.json.board.snakes, b.json.you.id);
      var s, at := others[k], ShapeCount(others[..k]);
      && at + j < |PiecesOf(b)|
      && PiecesOf(b)[at + j] == SnakeShapes(o, height, s, SnakeColor(o, k + 1))[j]
  {
    var o, height := b.options, b.json.board.height;
    var others := NonPrimary(b.json.board.snakes, b.json.you.id);
    var at := ShapeCount(others[..k]);
    ColouredSnakesAt(o, height, others, 1, k, j);
    OthersPrefix(b, at + j);
    OthersLength(b);
  }

  /** The first elements of the pieces layer are those of the reference colouring. */
  lemma OthersPrefix(b: SVGBoard, i: nat)
    requires i < ShapeCount(NonPrimary(b.json.board.snakes, b.json.you.id))
    ensures var others := NonPrimary(b.json.board.snakes, b.json.you.id);
      && i < |PiecesOf(b)|
      && PiecesOf(b)[i] == ColouredSnakes(b.options, b.json.board.height, others, 1)[i]
  {
    PiecesCount(b);
    var n0 := ShapeCount(NonPrimary(b.json.board.snakes, b.json.you.id));
    assert PiecesOf(b)[i] == PiecesOf(b)[..n0][i];
  }

  lemma {:induction false} PiecesWithinBoard(o: Options, piece: Piece, board: Board, points: seq<Point>)
    requires forall p :: p in points ==> OnBoard(board, p)
    ensures AllWithin(Pieces(o, piece, board.height, points), BoardBox(board.width, board.height))
  {
    if points != [] {
      var init, p := points[..|points| - 1], points[|points| - 1];
      assert forall q :: q in init ==> q in points;
      PiecesWithinBoard(o, piece, board, init);
      assert p in points;
      CellInBoard(board.width, board.height, p.x, FlipRow(board.height, p.y));
    }
  }

  lemma SnakeWithinBoard(o: Options, board: Board, s: Snake, color: Option<string>)
    requires SnakeOnBoard(board, s)
    ensures AllWithin(SnakeShapes(o, board.height, s, color), BoardBox(board.width, board.height))
  {
    PiecesWithinBoard(o, SnakeBody(color), board, s.body);
    CellInBoard(board.width, board.height, s.head.x, FlipRow(board.height, s.head.y));
  }

  lemma {:induction false} ColouredSnakesWithinBoard(o: Options, board: Board, list: seq<Snake>, num: nat)
    requires forall s :: s in list ==> SnakeOnBoard(board, s)
    ensures AllWithin(ColouredSnakes(o, board.height, list, num), BoardBox(board.width, board.height))
  {
    if list != [] {
      var init := list[..|list| - 1];
      SnakeWithinBoard(o, board, list[|list| - 1], SnakeColor(o, num + |init|));
      assert forall s :: s in init ==> s in list;
      ColouredSnakesWithinBoard(o, board, init, num);
    }
  }

  /** When every cell of the state is on the board, every piece is drawn inside the board. */
  lemma PiecesOfWithinBoard(b: SVGBoard)
    requires WellFormed(b.json)
    ensures AllWithin(PiecesOf(b), BoardBox(b.json.board.width, b.json.board.height))
  {
    var o, board, you := b.options, b.json.board, b.json.you;
    OthersByPosition(o, board.height, board.snakes, you.id);
    NonPrimaryMembers(board.snakes, you.id);
    ColouredSnakesWithinBoard(o, board, NonPrimary(board.snakes, you.id), 1);
    SnakeWithinBoard(o, board, you, SnakeColor(o, 0));
    PiecesWithinBoard(o, Food, board, board.food);
    PiecesWithinBoard(o, Hazard, board, board.hazards);
  }

  /**
   * No wrap-around: with the default palette of four colours, the fourth
   * snake other than `you` indexes past its end and gets an undefined fill.
   */
  lemma DefaultPaletteRunsOut(b: SVGBoard, j: nat)
    requires b.options.snakeColors == DefaultOptions.snakeColors
    requires 4 <= |NonPrimary(b.json.board.snakes, b.json.you.id)|
    requires j < |NonPrimary(b.json.board.snakes, b.json.you.id)[3].body|
    ensures var others := NonPrimary(b.json.board.snakes, b.json.you.id);
      && ShapeCount(others[..3]) + j < |PiecesOf(b)|
      && PiecesOf(b)[ShapeCount(others[..3]) + j].Rect?
      && PiecesOf(b)[ShapeCount(others[..3]) + j].fill == None
  {
    NonPrimaryColours(b, 3, j);
  }
}
