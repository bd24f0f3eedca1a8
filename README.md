# Battlesnake board renderer, modelled in Dafny

This project models `SVGBoard`, the renderer at the heart of the Battlesnake
viewer. It takes a Battlesnake game state (the API's `board` and `you`
objects) and builds an SVG scene as a group of three layers:

- **Grid layer.** One grey square per cell, with a thin white border.
- **Pieces layer.** The snakes other than `you`, in list order, each as its
  body segments and then its head. Then `you`, then every food, then every
  hazard.
- **Label overlay.** Optional row numbers and column letters.

The game state uses a bottom-left origin. The drawing uses a top-left origin.
Every point is flipped (`height - 1 - y`) and then scaled by the 40-unit
square size.

Files and modules:

- `wrappers.dfy` (`Wrappers`): `Option`. `None` stands for JavaScript's
  `undefined`.
- `game.dfy` (`Game`): the typed game state. Its `WellFormed` predicate says
  that every cell lies on the board.
- `svg.dfy` (`Svg`): SVG elements as a datatype, with attributes as typed
  fields. It also defines boxes and the `Extent` an element paints.
- `js_string.dfy` (`JsString`): `String(n)` for the row numbers, together with
  its inverse.
- `svg_board.dfy` (`SvgBoard`): the options and their defaults, the coordinate
  transform, and one generator per kind of element.
- `board_layer.dfy` (`BoardLayer`), `pieces_layer.dfy` (`PiecesLayer`) and
  `label_layer.dfy` (`LabelLayer`): the three layers. Each source loop becomes
  a method with loop invariants, proved against a function. Lemmas then relate
  that function to an independent reference definition (row-major indexing,
  colour by position, rows then columns).
- `render.dfy` (`Render`): `draw` and the properties of the whole scene.

Behaviour kept as the code has it:

- **Snake colours never wrap.** The code looks up `snakeColors[num]` without a
  bounds check. Past the end of the palette the fill is `undefined`
  (`SnakeColor` returns `None`). With the default four colours, this happens
  to the fourth snake other than `you` (`DefaultPaletteRunsOut`).
- **`you` is drawn from `json.you`.** It is not looked up among the board's
  snakes. A board snake that has `you`'s id is skipped.
- **No empty label group.** When coordinates are off, the label group is left
  out entirely.
- **Hazard colour default.** The default hazard colour is `616161`, without a
  `#`.

## Model

| member | source | states |
|---|---|---|
| `SvgBoard.ConstructorDefaults` | src/battlesnakesvg/index.ts:29-58 | with no options: coordinates on, hazard colour "616161" (no '#'), palette starting with "green", and the other defaults |
| `SvgBoard.FromJSON` | src/battlesnakesvg/index.ts:29-58 | keeps the game state; for each of the seven options, a value the caller gives is kept as given and one left out (`undefined`) takes its default |
| `SvgBoard.ConstructorKeepsSuppliedOptions` | src/battlesnakesvg/index.ts:29-58 | when every option is given, the renderer holds exactly those options |
| `SvgBoard.DefaultSquareColorOnly` | src/main.ts:17-19 | the plugin's fallback settings, only `squareColor: "#a1a1a1"`, give exactly the default options |
| `SvgBoard.FlipRow` | src/battlesnakesvg/index.ts:91 | the board row and the drawing row add up to `height - 1`, so the rows of the board map onto the rows of the drawing and nothing else maps onto them |
| `SvgBoard.FlipRowInvolution` | src/battlesnakesvg/index.ts:91 | flipping a row twice gives it back |
| `SvgBoard.GetBoardSVGCord` | src/battlesnakesvg/index.ts:225-227 | the result lies on the 40-unit grid, and dividing by the square size recovers `(c, r)` |
| `SvgBoard.PointOrigin` | src/battlesnakesvg/index.ts:91-107 | a board point is drawn `x * 40` from the left and `y * 40` above the top of the bottom drawing row, `(height - 1) * 40` |
| `SvgBoard.PointOriginInjective` | src/battlesnakesvg/index.ts:225-227 | flip-then-scale sends two board points to the same place exactly when they are equal |
| `SvgBoard.BottomLeftOrigin` | src/battlesnakesvg/index.ts:225-227 | board cell (0, 0) is drawn at `(0, (height-1)*squareSize)` |
| `SvgBoard.CellInBoard` | src/battlesnakesvg/index.ts:225-227 | the square of every on-board cell lies inside the `width*40` by `height*40` drawing area |
| `SvgBoard.DrawSquare` | src/battlesnakesvg/index.ts:113-124 | covers exactly its cell; fill `squareColor`, stroke `#FFFFFF` of width `squareSize/20`, no corner radius or opacity |
| `SvgBoard.DrawSnakeHead` | src/battlesnakesvg/index.ts:126-140 | strictly inside its cell and centred in it; side `squareSize/2.5`, corner radius `squareSize/8`, fill `snakeHeadColor`, opacity 0.8 |
| `SvgBoard.DrawSnakeBody` | src/battlesnakesvg/index.ts:142-153 | covers exactly its cell; corner radius `squareSize/4`, fill the given colour, opaque |
| `SvgBoard.DrawFood` | src/battlesnakesvg/index.ts:155-163 | a circle strictly inside its cell, centred on the cell centre, radius `squareSize/4`, fill `foodColor` |
| `SvgBoard.DrawHazard` | src/battlesnakesvg/index.ts:165-177 | covers exactly its cell; corner radius `squareSize/4`, fill `hazardColor`, opacity `hazardOpacity` |
| `SvgBoard.SnakeColor` | src/battlesnakesvg/index.ts:91 | `snakeColors[num]` is defined exactly when `num` is below the palette length, and is then that entry; no wrap-around |
| `SvgBoard.DrawText` | src/battlesnakesvg/index.ts:196-219 | white 10-point sans-serif text with the given content, anchored strictly inside its cell: at `(x+1, y+10)`, in the top-left quarter, for a row label, and at `(x+squareSize-7, y+squareSize-2)`, in the bottom-right quarter, for a column label |
| `SvgBoard.NumToLetter` | src/battlesnakesvg/index.ts:221-223 | one character whose offset from 'a' is the column, and a letter a..z exactly for the first 26 columns |
| `JsString.DecimalString` | src/battlesnakesvg/index.ts:184 | `String(n)` is a non-empty string of digits that starts with '0' only for zero |
| `JsString.DecimalRoundTrip` | src/battlesnakesvg/index.ts:184 | reading the numeral back gives `n` |
| `JsString.DecimalStringInjective` | src/battlesnakesvg/index.ts:184 | distinct row numbers give distinct label texts |
| `BoardLayer.RowSquares` | src/battlesnakesvg/index.ts:77-79 | one square per column of the row visited so far |
| `BoardLayer.Grid` | src/battlesnakesvg/index.ts:76-80 | `r` rows of a `width`-wide board give `r * width` squares |
| `BoardLayer.DrawBoard` | src/battlesnakesvg/index.ts:74-82 | the nested loops build the group of `Grid(width, height)` |
| `BoardLayer.RowSquaresAt` | src/battlesnakesvg/index.ts:77-79 | the `k`-th square of a row is that of column `k` |
| `BoardLayer.GridAt` | src/battlesnakesvg/index.ts:76-80 | row-major order: the square of cell `(c, r)` is at index `r*width + c` |
| `BoardLayer.RowSquaresShape` | src/battlesnakesvg/index.ts:77-79 | a row's squares sit in that row, left to right within the columns visited, all distinct |
| `BoardLayer.GridShape` | src/battlesnakesvg/index.ts:76-80 | every square is a full cell on the board, and no two squares are equal |
| `BoardLayer.GridWithinBoard` | src/battlesnakesvg/index.ts:74-82 | the grid paints only inside the board's drawing area |
| `BoardLayer.GridCoversBoard` | src/battlesnakesvg/index.ts:74-82 | every point of the drawing area lies in the square of its cell, and that square is in the grid |
| `PiecesLayer.DrawPiece` | src/battlesnakesvg/index.ts:142-177 | a body, food or hazard element paints only inside its cell |
| `PiecesLayer.Pieces` | src/battlesnakesvg/index.ts:102-108 | one element per point of the list |
| `PiecesLayer.PiecesSnoc` | src/battlesnakesvg/index.ts:102-108 | one more point appends exactly its element |
| `PiecesLayer.PiecesAt` | src/battlesnakesvg/index.ts:102-108 | the `k`-th element is that of the `k`-th point, drawn at its flipped cell |
| `PiecesLayer.SnakeShapes` | src/battlesnakesvg/index.ts:90-93 | a snake gives one element per body segment plus one for its head |
| `PiecesLayer.SnakeShapesAt` | src/battlesnakesvg/index.ts:90-93 | element `j` of a snake is its `j`-th body segment at its flipped cell in the given colour, and the element after the last segment is the head |
| `PiecesLayer.NonPrimary` | src/battlesnakesvg/index.ts:88-89 | the snakes drawn by the first loop are at most the board's snakes |
| `PiecesLayer.ColouredSnakes` | src/battlesnakesvg/index.ts:87-95 | the reference colouring by position gives `ShapeCount(list)` elements |
| `PiecesLayer.DrawPieces` | src/battlesnakesvg/index.ts:84-111 | the loops and the counter `num` build the group of the pieces layer |
| `PiecesLayer.DrawSnake` | src/battlesnakesvg/index.ts:90-93 | the body segments in the given colour, then the head |
| `PiecesLayer.DrawPoints` | src/battlesnakesvg/index.ts:102-108 | a loop over a list of points gives one element per point, in order |
| `PiecesLayer.NonPrimaryMembers` | src/battlesnakesvg/index.ts:88-89 | the first loop draws a snake exactly when it is among the board's snakes and its id differs from `you.id` |
| `PiecesLayer.OthersLoop` | src/battlesnakesvg/index.ts:87-95 | the state of the first loop: the counter `num` starts at 1 and goes up at most once per snake |
| `PiecesLayer.OthersLoopCounter` | src/battlesnakesvg/index.ts:87-95 | after the first loop, `num` is one more than the number of snakes drawn |
| `PiecesLayer.OthersByPosition` | src/battlesnakesvg/index.ts:87-95 | the counter colours the `k`-th snake other than `you` (from 0, list order) with `snakeColors[k+1]` |
| `PiecesLayer.ColouredSnakesAt` | src/battlesnakesvg/index.ts:87-95 | the elements of the `k`-th snake start at `ShapeCount(list[..k])`: body segments in colour `num+k`, then the head |
| `PiecesLayer.PiecesCount` | src/battlesnakesvg/index.ts:84-111 | the total is the sum over the other snakes of `body+1`, plus `you.body+1`, plus the food, plus the hazards; the other snakes come first |
| `PiecesLayer.PrimaryDrawnAfterOthers` | src/battlesnakesvg/index.ts:97-100 | after all other snakes: every body segment of `you` filled with `snakeColors[0]`, then its head |
| `PiecesLayer.ItemsDrawnLast` | src/battlesnakesvg/index.ts:102-108 | after all snakes: every food in list order, then every hazard in list order |
| `PiecesLayer.PiecesOfSlices` | src/battlesnakesvg/index.ts:84-111 | the layer splits into the four loops' outputs in source order |
| `PiecesLayer.OthersLength` | src/battlesnakesvg/index.ts:87-95 | the first loop appends one element per body segment and one head per snake it draws |
| `PiecesLayer.OthersPrefix` | src/battlesnakesvg/index.ts:87-95 | the layer starts with the colouring by position of the snakes other than `you` |
| `PiecesLayer.OthersAt` | src/battlesnakesvg/index.ts:87-95 | in the layer, the elements of the `k`-th snake other than `you` start at `ShapeCount(others[..k])` and are that snake's shapes in `snakeColors[k+1]` |
| `PiecesLayer.NonPrimaryColours` | src/battlesnakesvg/index.ts:87-93 | in the layer, the `k`-th snake other than `you` has every body segment filled with `snakeColors[k+1]`, at its flipped cell |
| `PiecesLayer.NonPrimaryHead` | src/battlesnakesvg/index.ts:93 | that snake's head follows its last body segment |
| `PiecesLayer.PrimaryAt` | src/battlesnakesvg/index.ts:97-100 | the shapes of `you`, in `snakeColors[0]`, follow those of all other snakes |
| `PiecesLayer.FoodAt` | src/battlesnakesvg/index.ts:102-104 | the `k`-th food is drawn right after all snakes plus the `k` food before it |
| `PiecesLayer.HazardAt` | src/battlesnakesvg/index.ts:106-108 | the `k`-th hazard is drawn after all snakes and food plus the `k` hazards before it |
| `PiecesLayer.PiecesWithinBoard` | src/battlesnakesvg/index.ts:102-108 | on-board points give elements inside the drawing area |
| `PiecesLayer.SnakeWithinBoard` | src/battlesnakesvg/index.ts:90-93 | an on-board snake is drawn inside the drawing area |
| `PiecesLayer.ColouredSnakesWithinBoard` | src/battlesnakesvg/index.ts:87-95 | on-board snakes are drawn inside the drawing area |
| `PiecesLayer.PiecesOfWithinBoard` | src/battlesnakesvg/index.ts:84-111 | for a well-formed state the whole pieces layer is inside the drawing area |
| `PiecesLayer.DefaultPaletteRunsOut` | src/battlesnakesvg/index.ts:91 | with the default palette, the fourth snake other than `you` has undefined body fills |
| `LabelLayer.DrawCoordinateSystem` | src/battlesnakesvg/index.ts:179-194 | the nested loops with their two conditional appends build the label group |
| `LabelLayer.RowLabelsStep` | src/battlesnakesvg/index.ts:182-191 | one turn `(r, c)` of the inner loop appends the row number when `c == 0`, then the column letter when `r` is the bottom row |
| `LabelLayer.RowNumbers` | src/battlesnakesvg/index.ts:183-186 | the reference list of the first `n` row labels has `n` entries |
| `LabelLayer.RowNumbersAt` | src/battlesnakesvg/index.ts:183-186 | its `i`-th entry is the label of drawing row `i` |
| `LabelLayer.ColumnLetters` | src/battlesnakesvg/index.ts:187-189 | the reference list of the first `n` column labels has `n` entries |
| `LabelLayer.ColumnLettersAt` | src/battlesnakesvg/index.ts:187-189 | its `i`-th entry is the label of column `i` |
| `LabelLayer.RowLabelsShape` | src/battlesnakesvg/index.ts:182-191 | a row contributes its number (at column 0), plus, in the bottom row, the letters of the columns visited |
| `LabelLayer.LabelsAbove` | src/battlesnakesvg/index.ts:181-192 | the rows above the bottom one contribute only their numbers, top to bottom |
| `LabelLayer.NoColumnsNoLabels` | src/battlesnakesvg/index.ts:181-192 | on a board with no columns the inner loop never runs, so there are no labels |
| `LabelLayer.CellLabelsMatchReference` | src/battlesnakesvg/index.ts:181-192 | on a board with cells, the labels are all row numbers, then all column letters |
| `LabelLayer.LabelsMatchReference` | src/battlesnakesvg/index.ts:181-192 | the loop output is all row labels top to bottom, then all column letters left to right, and nothing on a board with no cells |
| `LabelLayer.LabelCount` | src/battlesnakesvg/index.ts:179-194 | exactly `width + height` labels when the board has cells, none otherwise |
| `LabelLayer.LabelAt` | src/battlesnakesvg/index.ts:181-208 | label `r < height` reads `height - r` and is anchored at `(1, r*40 + 10)`, near the top left of cell (0, r); label `height + c` reads letter `c` and is anchored at `(c*40 + 33, height*40 - 2)`, near the bottom right of cell (c, height-1) |
| `LabelLayer.LabelsWithinBoard` | src/battlesnakesvg/index.ts:179-194 | every label anchor lies inside the drawing area |
| `LabelLayer.LabelWithinBoard` | src/battlesnakesvg/index.ts:179-194 | each entry of the reference label list is a text element anchored inside the drawing area |
| `LabelLayer.TwoByTwoLabels` | src/battlesnakesvg/index.ts:179-194 | on a 2 by 2 board the labels read "2", "1", "a", "b" |
| `Render.Draw` | src/battlesnakesvg/index.ts:61-72 | the board group, then the pieces group, then the label group only when coordinates are on |
| `Render.SceneLayers` | src/battlesnakesvg/index.ts:61-72 | 3 layers exactly when coordinates are on, otherwise 2; the grid holds `width*height` distinct squares; the label layer holds `width + height` labels |
| `Render.SceneWithinBoard` | src/battlesnakesvg/index.ts:61-72 | for a well-formed state, every square, body, head, food and hazard shape, and every label's anchor point, lies inside the `width*40` by `height*40` drawing area |
| `Render.ThreeByThreeScene` | src/battlesnakesvg/index.ts:84-111 | 3 by 3 board, `you` at (1,1),(1,0), food at (0,2): 9 squares; two green bodies, the head, and a food circle centred at (20, 20) |

## Left out

- src/main.ts (the Obsidian plugin) is not part of this model, apart from the fallback settings it passes to `fromJSON` (`DefaultSquareColorOnly`). It covers loading and saving settings, the settings tab, registering the code-block processor, `JSON.parse`, and mounting the `<svg>` with its viewBox. All of this is host-framework I/O.
- DOM calls are replaced by `Svg.Element` values: `document.createElementNS`, `setAttributeNS`, `textContent`, `appendChild`, the `xmlns` constant and the string form of numeric attributes.
- JavaScript number semantics are not modelled. The square size is fixed at 40, as the constructor sets it, so every derived length is an exact integer. `squareSize` is a public field that a caller could reassign after construction; that is not modelled.
- The options are stored twice in the source, in private fields and in `this.options`. The model keeps one `Options` record.
- Malformed JSON is out of scope: missing fields, non-integer or negative sizes, and the like. The model takes a typed state with natural-number width and height. The renderer itself never checks that a cell is on the board, and neither does the model. Only the bounds lemmas (`SceneWithinBoard` and the lemmas it uses) require `WellFormed`.
- Render.SceneWithinBoard: a label is bounded by its anchor point only. The glyphs drawn from that point are not modelled, and in a 10-point font the descender of a bottom-row letter such as `g` or `y` can reach below the drawing area.
- SvgBoard.NumToLetter: requires `97 + num` to stay below the UTF-16 surrogate block (boards up to 55199 columns). `String.fromCharCode` wraps modulo 2^16 and can yield lone surrogates for wider boards; that is not modelled.
- LabelLayer.DrawCoordinateSystem: requires `width <= MaxColumns` because of `NumToLetter`. `Render.Draw` requires the same only when coordinates are on.
- PiecesLayer.DrawPieces: the source writes the loops over body segments, food and hazards inline. The model writes them once, as `DrawSnake` and `DrawPoints`, and calls those from the same places in the same order.
