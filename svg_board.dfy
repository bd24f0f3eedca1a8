/**
 * The `SVGBoard` renderer: its options and their defaults, the transform from
 * board cells to drawing coordinates, and one generator per kind of element.
 */
module SvgBoard {
  import opened Wrappers
  import opened Game
  import opened Svg
  import opened JsString

  /** Side of one cell in drawing units; the constructor never uses another value. */
  const DefaultSquareSize: int := 40
  const SquareSize: int := DefaultSquareSize

  // Geometry derived from the square size; each division is exact for 40.
  const StrokeWidth: int := SquareSize / 20        // squareSize / 20
  const HeadSize: int := SquareSize * 2 / 5        // squareSize / 2.5
  const HeadOffset: int := (SquareSize - HeadSize) / 2
  const HeadRadius: int := SquareSize / 8
  const RoundRadius: int := SquareSize / 4         // body and hazard corners, food radius

  const SquareStroke: string := "#FFFFFF"
  const HeadOpacity: string := "0.8"
  const LabelFont: string := "sans-serif"
  const LabelFontSize: int := 10
  const LabelFill: string := "#ffffff"

  datatype Options = Options(
    drawCoordinates: bool,
    squareColor: string,
    foodColor: string,
    hazardColor: string,
    hazardOpacity: string,
    snakeColors: seq<string>,
    snakeHeadColor: string)

  /** The options a caller passes; `None` marks one left out. */
  datatype PartialOptions = PartialOptions(
    drawCoordinates: Option<bool>,
    squareColor: Option<string>,
    foodColor: Option<string>,
    hazardColor: Option<string>,
    hazardOpacity: Option<string>,
    snakeColors: Option<seq<string>>,
    snakeHeadColor: Option<string>)

  const DefaultOptions: Options := Options(
    true, "#a1a1a1", "red", "616161", "0.35",
    ["green", "#E4601B", "#C51BE4", "#1B9FE4"], "#5c5c5c")

  const NoOptions: PartialOptions := PartialOptions(None, None, None, None, None, None, None)

  /** The same options, every one of them given. */
  function Supplied(o: Options): PartialOptions {
    PartialOptions(
      Some(o.drawCoordinates), Some(o.squareColor), Some(o.foodColor), Some(o.hazardColor),
      Some(o.hazardOpacity), Some(o.snakeColors), Some(o.snakeHeadColor))
  }

  /** A renderer: the game state it draws and its options. */
  datatype SVGBoard = SVGBoard(json: GameState, options: Options)

  /**
   * `SVGBoard.fromJSON` and the constructor: an option the caller gives is
   * kept as given, and each one left out (`undefined`) takes its default.
   */
  function FromJSON(json: GameState, p: PartialOptions): (b: SVGBoard)
    ensures b.json == json
    ensures p.drawCoordinates.Some? ==> b.options.drawCoordinates == p.drawCoordinates.value
    ensures p.drawCoordinates.None? ==> b.options.drawCoordinates == DefaultOptions.drawCoordinates
    ensures p.squareColor.Some? ==> b.options.squareColor == p.squareColor.value
    ensures p.squareColor.None? ==> b.options.squareColor == DefaultOptions.squareColor
    ensures p.foodColor.Some? ==> b.options.foodColor == p.foodColor.value
    ensures p.foodColor.None? ==> b.options.foodColor == DefaultOptions.foodColor
    ensures p.hazardColor.Some? ==> b.options.hazardColor == p.hazardColor.value
    ensures p.hazardColor.None? ==> b.options.hazardColor == DefaultOptions.hazardColor
    ensures p.hazardOpacity.Some? ==> b.options.hazardOpacity == p.hazardOpacity.value
    ensures p.hazardOpacity.None? ==> b.options.hazardOpacity == DefaultOptions.hazardOpacity
    ensures p.snakeColors.Some? ==> b.options.snakeColors == p.snakeColors.value
    ensures p.snakeColors.None? ==> b.options.snakeColors == DefaultOptions.snakeColors
    ensures p.snakeHeadColor.Some? ==> b.options.snakeHeadColor == p.snakeHeadColor.value
    ensures p.snakeHeadColor.None? ==> b.options.snakeHeadColor == DefaultOptions.snakeHeadColor
  {
    SVGBoard(json, Options(
      p.drawCoordinates.GetOr(DefaultOptions.drawCoordinates),
      p.squareColor.GetOr(DefaultOptions.squareColor),
      p.foodColor.GetOr(DefaultOptions.foodColor),
      p.hazardColor.GetOr(DefaultOptions.hazardColor),
      p.hazardOpacity.GetOr(DefaultOptions.hazardOpacity),
      p.snakeColors.GetOr(DefaultOptions.snakeColors),
      p.snakeHeadColor.GetOr(DefaultOptions.snakeHeadColor)))
  }

  /** With no options, coordinates are drawn and the hazard colour is "616161", without '#'. */
  lemma ConstructorDefaults(json: GameState)
    ensures FromJSON(json, NoOptions) == SVGBoard(json, DefaultOptions)
    ensures FromJSON(json, NoOptions).options.drawCoordinates
    ensures FromJSON(json, NoOptions).options.hazardColor == "616161"
    ensures FromJSON(json, NoOptions).options.snakeColors[0] == "green"
  {
  }

  /** When the caller gives every option, the renderer holds exactly those options. */
  lemma ConstructorKeepsSuppliedOptions(json: GameState, o: Options)
    ensures FromJSON(json, Supplied(o)) == SVGBoard(json, o)
  {
  }

  /** Giving only the default square colour changes nothing: every option is its default. */
  lemma DefaultSquareColorOnly(json: GameState)
    ensures FromJSON(json, NoOptions.(squareColor := Some("#a1a1a1"))) == SVGBoard(json, DefaultOptions)
  {
  }

  /** `height - 1 - y`: board rows count from the bottom, drawing rows from the top. */
  function FlipRow(height: int, y: int): (r: int)
    ensures r + y == height - 1
    ensures 0 <= y < height <==> 0 <= r < height
  {
    height - 1 - y
  }

  /** Flipping twice gives back the row. */
  lemma FlipRowInvolution(height: int, y: int)
    ensures FlipRow(height, FlipRow(height, y)) == y
  {
  }

  /** `getBoardSVGCord`: the top-left corner of drawing cell `(c, r)`, on the square grid. */
  function GetBoardSVGCord(c: int, r: int): (p: (int, int))
    ensures p.0 % SquareSize == 0 && p.0 / SquareSize == c
    ensures p.1 % SquareSize == 0 && p.1 / SquareSize == r
  {
    (c * SquareSize, r * SquareSize)
  }

  /** The square of drawing cell `(c, r)`. */
  function CellBox(c: int, r: int): Box {
    var (x, y) := GetBoardSVGCord(c, r);
    Box(x, y, SquareSize, SquareSize)
  }

  /** The drawing area of a `width` by `height` board. */
  function BoardBox(width: int, height: int): Box {
    Box(0, 0, width * SquareSize, height * SquareSize)
  }

  /** Where a board point is drawn: flip its row, then scale. */
  function PointOrigin(height: int, p: Point): (o: (int, int))
    ensures o.0 == p.x * SquareSize && o.1 + p.y * SquareSize == (height - 1) * SquareSize
  {
    GetBoardSVGCord(p.x, FlipRow(height, p.y))
  }

  /** Distinct cells are drawn at distinct places. */
  lemma PointOriginInjective(height: int, p: Point, q: Point)
    ensures PointOrigin(height, p) == PointOrigin(height, q) <==> p == q
  {
  }

  /** Board cell (0, 0), bottom left, is drawn at the bottom left of the drawing. */
  lemma BottomLeftOrigin(height: int)
    ensures PointOrigin(height, Point(0, 0)) == (0, (height - 1) * SquareSize)
  {
  }

  /** The cells of the board tile its drawing area. */
  lemma CellInBoard(width: int, height: int, c: int, r: int)
    requires 0 <= c < width && 0 <= r < height
    ensures Within(CellBox(c, r), BoardBox(width, height))
  {
  }

  /** `drawSquare`: a grid square covering exactly its cell, with a thin white border. */
  function DrawSquare(o: Options, c: int, r: int): (e: Element)
    ensures e.Rect? && Extent(e) == CellBox(c, r)
    ensures e.fill == Some(o.squareColor) && e.opacity == None
    ensures e.stroke == Some(SquareStroke) && e.strokeWidth == Some(SquareSize / 20)
    ensures e.rx == None && e.ry == None
  {
    var (x, y) := GetBoardSVGCord(c, r);
    Rect(x, y, SquareSize, SquareSize, None, None,
         Some(o.squareColor), None, Some(SquareStroke), Some(StrokeWidth))
  }

  /**
   * `drawSnakeHead`: a small rounded square centred in its cell and clear of
   * the cell's border, in the head colour every snake shares.
   */
  function DrawSnakeHead(o: Options, c: int, r: int): (e: Element)
    ensures e.Rect? && StrictlyWithin(Extent(e), CellBox(c, r))
    ensures DoubledCentre(Extent(e)) == DoubledCentre(CellBox(c, r))
    ensures 5 * e.width == 2 * SquareSize && e.height == e.width
    ensures e.rx == Some(SquareSize / 8) && e.ry == e.rx
    ensures e.fill == Some(o.snakeHeadColor) && e.opacity == Some(HeadOpacity)
    ensures e.stroke == None && e.strokeWidth == None
  {
    var (x, y) := GetBoardSVGCord(c, r);
    Rect(x + HeadOffset, y + HeadOffset, HeadSize, HeadSize,
         Some(HeadRadius), Some(HeadRadius),
         Some(o.snakeHeadColor), Some(HeadOpacity), None, None)
  }

  /** `drawSnakeBody`: a rounded square covering its cell, opaque, in `color`. */
  function DrawSnakeBody(c: int, r: int, color: Option<string>): (e: Element)
    ensures e.Rect? && Extent(e) == CellBox(c, r)
    ensures e.fill == color && e.opacity == None
    ensures e.rx == Some(SquareSize / 4) && e.ry == e.rx
    ensures e.stroke == None && e.strokeWidth == None
  {
    var (x, y) := GetBoardSVGCord(c, r);
    Rect(x, y, SquareSize, SquareSize, Some(RoundRadius), Some(RoundRadius),
         color, None, None, None)
  }

  /** `drawFood`: a circle centred in its cell, half a cell across. */
  function DrawFood(o: Options, c: int, r: int): (e: Element)
    ensures e.Circle? && StrictlyWithin(Extent(e), CellBox(c, r))
    ensures DoubledCentre(Extent(e)) == DoubledCentre(CellBox(c, r))
    ensures 4 * e.r == SquareSize && e.fill == Some(o.foodColor)
  {
    var (x, y) := GetBoardSVGCord(c, r);
    Circle(SquareSize / 2 + x, SquareSize / 2 + y, RoundRadius, Some(o.foodColor))
  }

  /** `drawHazard`: a rounded square covering its cell, translucent. */
  function DrawHazard(o: Options, c: int, r: int): (e: Element)
    ensures e.Rect? && Extent(e) == CellBox(c, r)
    ensures e.fill == Some(o.hazardColor) && e.opacity == Some(o.hazardOpacity)
    ensures e.rx == Some(SquareSize / 4) && e.ry == e.rx
    ensures e.stroke == None && e.strokeWidth == None
  {
    var (x, y) := GetBoardSVGCord(c, r);
    Rect(x, y, SquareSize, SquareSize, Some(RoundRadius), Some(RoundRadius),
         Some(o.hazardColor), Some(o.hazardOpacity), None, None)
  }

  /** `snakeColors[num]`: JavaScript indexing, `undefined` past the end, never wrapped. */
  function SnakeColor(o: Options, num: nat): (color: Option<string>)
    ensures color.Some? <==> num < |o.snakeColors|
    ensures color.Some? ==> color.value == o.snakeColors[num]
  {
    if num < |o.snakeColors| then Some(o.snakeColors[num]) else None
  }

  datatype TextPosition = RowLabel | ColumnLabel

  /** The anchor lies in the top-left quarter of the cell. */
  predicate NearTopLeft(anchor: Box, cell: Box) {
    2 * (anchor.x - cell.x) < cell.width && 2 * (anchor.y - cell.y) < cell.height
  }

  /** The anchor lies in the bottom-right quarter of the cell. */
  predicate NearBottomRight(anchor: Box, cell: Box) {
    2 * (anchor.x - cell.x) > cell.width && 2 * (anchor.y - cell.y) > cell.height
  }

  /**
   * `drawText`: a white label inside drawing cell `(c, r)`, anchored 1 right of
   * and 10 below its top-left corner for a row label, and 7 left of and 2 above
   * its bottom-right corner for a column label.
   */
  function DrawText(c: int, r: int, text: string, position: TextPosition): (e: Element)
    ensures e.Text? && e.content == text
    ensures StrictlyWithin(Extent(e), CellBox(c, r))
    ensures position == RowLabel ==> NearTopLeft(Extent(e), CellBox(c, r))
    ensures position == ColumnLabel ==> NearBottomRight(Extent(e), CellBox(c, r))
    ensures position == RowLabel ==> e.x == CellBox(c, r).x + 1 && e.y == CellBox(c, r).y + 10
    ensures position == ColumnLabel ==>
      e.x == CellBox(c, r).x + SquareSize - 7 && e.y == CellBox(c, r).y + SquareSize - 2
    ensures e.fontFamily == LabelFont && e.fontSize == LabelFontSize && e.fill == Some(LabelFill)
  {
    var (x, y) := GetBoardSVGCord(c, r);
    if position == RowLabel then
      Text(x + 1, y + 10, LabelFont, LabelFontSize, Some(LabelFill), text)
    else
      Text(x + SquareSize - 7, y + SquareSize - 2, LabelFont, LabelFontSize, Some(LabelFill), text)
  }

  /** Columns whose letter `'a' + column` stays below the UTF-16 surrogate block. */
  const MaxColumns: int := SurrogateStart - 'a' as int

  /** Which column a label letter names. */
  function LetterIndex(ch: char): int {
    ch as int - 'a' as int
  }

  /** `numToLetter`: `String.fromCharCode(97 + num)`, the letters a..z for the first 26 columns. */
  function NumToLetter(num: int): (s: string)
    requires 0 <= num < MaxColumns
    ensures |s| == 1 && LetterIndex(s[0]) == num
    ensures 'a' <= s[0] <= 'z' <==> num < 26
  {
    [(97 + num) as char]
  }
}
