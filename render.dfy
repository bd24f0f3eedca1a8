/** `draw`: the grid layer, the pieces layer and, when enabled, the label overlay. */
module Render {
  import opened Wrappers
  import opened Game
  import opened Svg
  import opened SvgBoard
  import opened BoardLayer
  import opened PiecesLayer
  import opened LabelLayer

  /** Column letters are characters for every column whenever labels are drawn. */
  predicate LabelsDrawable(b: SVGBoard) {
    b.options.drawCoordinates ==> b.json.board.width <= MaxColumns
  }

  /** The scene `draw` returns: one group per layer, bottom layer first. */
  function Scene(b: SVGBoard): Element
    requires LabelsDrawable(b)
  {
    var board := b.json.board;
    Group([Group(Grid(b.options, board.width, board.height)), Group(PiecesOf(b))]
      + if b.options.drawCoordinates then [Group(Labels(board.width, board.height, board.height))] else [])
  }

  /** `draw`: append the board, then the pieces, then the labels only when they are enabled. */
  method Draw(b: SVGBoard) returns (g: Element)
    requires LabelsDrawable(b)
    ensures g == Scene(b)
  {
    var children: seq<Element> := [];
    var grid := DrawBoard(b);
    children := children + [grid];
    var pieces := DrawPieces(b);
    children := children + [pieces];
    if b.options.drawCoordinates {
      var labels := DrawCoordinateSystem(b);
      children := children + [labels];
    }
    g := Group(children);
  }

  /**
   * The scene has the grid layer, holding `width * height` distinct squares,
   * then the pieces layer; a third, label layer exists exactly when
   * coordinates are drawn, and then holds `width + height` labels.
   */
  lemma SceneLayers(b: SVGBoard)
    requires LabelsDrawable(b)
    ensures var layers, board := Scene(b).children, b.json.board;
      && |layers| == (if b.options.drawCoordinates then 3 else 2)
      && |layers[0].children| == board.width * board.height
      && Distinct(layers[0].children)
      && layers[1].children == PiecesOf(b)
      && (b.options.drawCoordinates && board.width > 0 && board.height > 0 ==>
            |layers[2].children| == board.width + board.height)
  {
    var board := b.json.board;
    GridShape(b.options, board.width, board.height);
    if b.options.drawCoordinates {
      LabelCount(board.width, board.height);
    }
  }

  /**
   * When every cell of the game state lies on the board, everything the scene
   * paints lies in the `width * squareSize` by `height * squareSize` area the
   * host gives the drawing.
   */
  lemma SceneWithinBoard(b: SVGBoard)
    requires LabelsDrawable(b) && WellFormed(b.json)
    ensures forall layer :: layer in Scene(b).children ==>
      layer.Group? && AllWithin(layer.children, BoardBox(b.json.board.width, b.json.board.height))
  {
    var board := b.json.board;
    GridWithinBoard(b.options, board.width, board.height);
    PiecesOfWithinBoard(b);
    if b.options.drawCoordinates {
      LabelsWithinBoard(board.width, board.height);
    }
  }

  /**
   * A 3 by 3 board whose only snake is `you`, with body (1, 1), (1, 0) and
   * one food at (0, 2): nine squares; then two green body rects, the head and
   * the food circle, centred at (20, 20) because row 2 is drawn topmost.
   */
  lemma ThreeByThreeScene()
    ensures var you := Snake("you", Point(1, 1), [Point(1, 1), Point(1, 0)]);
      var b := SVGBoard(GameState(Board(3, 3, [you], [Point(0, 2)], []), you), DefaultOptions);
      var es := PiecesOf(b);
      && |Grid(b.options, 3, 3)| == 9
      && |es| == 4
      && es[0].Rect? && es[0].fill == Some("green") && es[0].x == 40 && es[0].y == 40
      && es[1].Rect? && es[1].fill == Some("green") && es[1].x == 40 && es[1].y == 80
      && es[2] == DrawSnakeHead(DefaultOptions, 1, 1)
      && es[3].Circle? && es[3].cx == 20 && es[3].cy == 20
  {
    var you := Snake("you", Point(1, 1), [Point(1, 1), Point(1, 0)]);
    var b := SVGBoard(GameState(Board(3, 3, [you], [Point(0, 2)], []), you), DefaultOptions);
    assert [you][..0] == [];
    assert NonPrimary([you], "you") == [];
    PiecesCount(b);
    PrimaryAt(b, 0);
    PrimaryAt(b, 1);
    PrimaryAt(b, 2);
    SnakeShapesAt(DefaultOptions, 3, you, Some("green"), 0);
    SnakeShapesAt(DefaultOptions, 3, you, Some("green"), 1);
    SnakeShapesAt(DefaultOptions, 3, you, Some("green"), 2);
    FoodAt(b, 0);
  }
}
