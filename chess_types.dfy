/** The value types of the rules engine: team colours, piece types, pieces,
    board positions and moves. In the Java code these are immutable classes
    and enums compared by value; here they are datatypes, so Dafny's `==`
    is their `equals`. */
module ChessTypes {
  import opened Wrappers

  datatype TeamColor = White | Black

  datatype PieceType = King | Queen | Bishop | Knight | Rook | Pawn

  /** A piece: its team and its type (the two final fields of ChessPiece). */
  datatype Piece = Piece(color: TeamColor, kind: PieceType)

  /** A square of the board, or `None` where the Java board holds null. */
  type Square = Option<Piece>

  /** A (row, column) pair. Row 1 is the bottom rank (White's side) and
      column 1 the left file. The constructor does no range check, so
      off-board coordinates are representable; OnBoard is the guard. */
  datatype Position = Position(row: int, col: int)

  /** A move from `start` to `end`; `promotion` is None for a move that does
      not promote (null in the Java code). */
  datatype Move = Move(start: Position, end: Position, promotion: Option<PieceType>)

  /** The other team: how the turn flips after a move. */
  function Other(c: TeamColor): (o: TeamColor)
    ensures o != c
  {
    if c == White then Black else White
  }

  /** True when both coordinates lie in 1..8. */
  predicate OnBoard(p: Position) {
    1 <= p.row <= 8 && 1 <= p.col <= 8
  }

  /** ChessPosition.equals: compares row and column. */
  function PositionEquals(a: Position, b: Position): (r: bool)
    ensures r <==> a == b
  {
    a.row == b.row && a.col == b.col
  }

  /** ChessMove.equals: compares start, end and promotion type. */
  function MoveEquals(a: Move, b: Move): (r: bool)
    ensures r <==> a == b
  {
    PositionEquals(a.start, b.start) && PositionEquals(a.end, b.end) && a.promotion == b.promotion
  }

  /** ChessPiece.equals: compares team and type. */
  function PieceEquals(a: Piece, b: Piece): (r: bool)
    ensures r <==> a == b
  {
    a.color == b.color && a.kind == b.kind
  }

  /** The equality of positions and of moves is reflexive, as the
      `this == o` shortcut of both equals methods promises. */
  lemma EqualsReflexive(p: Position, m: Move)
    ensures PositionEquals(p, p) && MoveEquals(m, m)
  {
  }
}
