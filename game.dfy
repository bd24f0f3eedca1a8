/** The typed game state the renderer reads (the Battlesnake API's `board` and `you`). */
module Game {

  /** A cell of the board; `y` counts from the bottom row. */
  datatype Point = Point(x: int, y: int)

  datatype Snake = Snake(id: string, head: Point, body: seq<Point>)

  datatype Board = Board(
    width: nat,
    height: nat,
    snakes: seq<Snake>,
    food: seq<Point>,
    hazards: seq<Point>)

  /** The JSON a renderer is built from: the board and the snake it is drawn for. */
  datatype GameState = GameState(board: Board, you: Snake)

  predicate OnBoard(board: Board, p: Point) {
    0 <= p.x < board.width && 0 <= p.y < board.height
  }

  predicate SnakeOnBoard(board: Board, s: Snake) {
    OnBoard(board, s.head) && forall p :: p in s.body ==> OnBoard(board, p)
  }

  /** Every cell the state mentions lies on the board. */
  predicate WellFormed(state: GameState) {
    var board := state.board;
    SnakeOnBoard(board, state.you)
    && (forall s :: s in board.snakes ==> SnakeOnBoard(board, s))
    && (forall p :: p in board.food ==> OnBoard(board, p))
    && (forall p :: p in board.hazards ==> OnBoard(board, p))
  }
}
