/** ChessPiece.pieceMoves and its helpers as the Java code runs them: loops
    that append to a move list while reading the board. Each method is
    proved to produce exactly the list MoveRules specifies. */
module ChessPiece {
  import opened Wrappers
  import opened ChessTypes
  import opened Board
  import opened MoveRules

  /** Appends the four promotion moves (queen, rook, bishop, knight). */
  method AddPromotionMoves(moveList: seq<Move>, start: Position, end: Position) returns (r: seq<Move>)
    ensures r == moveList + PromotionMoves(start, end)
  {
    r := moveList;
    for i := 0 to |PromotionTypes|
      invariant r == moveList + PromotionMoves(start, end)[..i]
    {
      r := r + [Move(start, end, Some(PromotionTypes[i]))];
    }
  }

  /** Appends, for each direction in turn, the squares a sliding piece
      reaches (calculateLinearMoves). */
  method CalculateLinearMoves(moveList: seq<Move>, myPosition: Position, board: ChessBoard,
                              team: TeamColor, directions: seq<Dir>) returns (r: seq<Move>)
    requires board.Valid() && OnBoard(myPosition) && AllUnit(directions)
    ensures r == moveList + LinearMoves(board.grid, myPosition, team, directions)
  {
    r := moveList;
    for i := 0 to |directions|
      invariant r == moveList + LinearUpTo(board.grid, myPosition, team, directions, i)
    {
      AppendAssoc(moveList, LinearUpTo(board.grid, myPosition, team, directions, i),
                  RayFrom(board.grid, myPosition, team, directions[i], myPosition));
      r := Slide(r, myPosition, board, team, directions[i]);
    }
  }

  /** The `while (true)` loop of calculateLinearMoves for one direction:
      steps until the board's edge, or until a piece, which is captured if
      it is an enemy. */
  method Slide(moveList: seq<Move>, myPosition: Position, board: ChessBoard,
               team: TeamColor, dir: Dir) returns (r: seq<Move>)
    requires board.Valid() && OnBoard(myPosition) && UnitDir(dir)
    ensures r == moveList + RayFrom(board.grid, myPosition, team, dir, myPosition)
  {
    r := moveList;
    var dRow, dCol := dir.0, dir.1;
    var row, col := myPosition.row, myPosition.col;
    while true
      invariant OnBoard(Position(row, col))
      invariant r + RayFrom(board.grid, myPosition, team, dir, Position(row, col))
                == moveList + RayFrom(board.grid, myPosition, team, dir, myPosition)
      decreases Reach(Position(row, col), dir)
    {
      row := row + dRow;
      col := col + dCol;
      var next := Position(row, col);
      if !OnBoard(next) {
        break;
      }
      if board.GetPiece(next).Some? {
        if board.GetPiece(next).value.color != team {
          r := r + [Move(myPosition, next, None)];
        }
        break;
      }
      AppendAssoc(r, [Move(myPosition, next, None)], RayFrom(board.grid, myPosition, team, dir, next));
      r := r + [Move(myPosition, next, None)];
    }
  }

  /** Appends, for each offset in turn, the single square it leads to when
      that square is on the board and not held by the mover's team. */
  method CalculateJumpMoves(moveList: seq<Move>, myPosition: Position, board: ChessBoard,
                            team: TeamColor, directions: seq<Dir>) returns (r: seq<Move>)
    requires board.Valid()
    ensures r == moveList + JumpMoves(board.grid, myPosition, team, directions)
  {
    r := moveList;
    for i := 0 to |directions|
      invariant r == moveList + JumpUpTo(board.grid, myPosition, team, directions, i)
    {
      AppendAssoc(moveList, JumpUpTo(board.grid, myPosition, team, directions, i),
                  JumpTarget(board.grid, myPosition, team, directions[i]));
      var dRow, dCol := directions[i].0, directions[i].1;
      var row, col := myPosition.row, myPosition.col;
      row := row + dRow;
      col := col + dCol;
      var next := Position(row, col);
      if !OnBoard(next) {
        continue;
      }
      if board.GetPiece(next).Some? {
        if board.GetPiece(next).value.color != team {
          r := r + [Move(myPosition, next, None)];
        }
        continue;
      }
      r := r + [Move(myPosition, next, None)];
    }
  }

  /** A pawn moving onto `end`: the four promotion moves on the last rank,
      one plain move elsewhere (the branch pieceMoves repeats for the push
      and for each capture). */
  method AddPawnStep(moveList: seq<Move>, start: Position, end: Position, team: TeamColor)
    returns (r: seq<Move>)
    ensures r == moveList + PawnStep(start, end, team)
  {
    if IsPromotionRank(end, team) {
      r := AddPromotionMoves(moveList, start, end);
    } else {
      r := moveList + [Move(start, end, None)];
    }
  }

  /** The PAWN case of pieceMoves: the push, the double push from the start
      row, then the diagonal captures for column offsets -1 and +1. */
  method CalculatePawnMoves(moveList: seq<Move>, myPosition: Position, board: ChessBoard,
                            team: TeamColor, direction: int) returns (r: seq<Move>)
    requires board.Valid() && OnBoard(myPosition) && direction == Forward(team)
    ensures r == moveList + PawnMoves(board.grid, myPosition, team)
  {
    r := moveList;
    var forwardOne := Position(myPosition.row + direction, myPosition.col);
    if OnBoard(forwardOne) && board.GetPiece(forwardOne).None? {
      r := AddPawnStep(r, myPosition, forwardOne, team);
    }
    ghost var push := r;
    assert push == moveList + PawnPush(board.grid, myPosition, team);
    if (team == White && myPosition.row == 2) || (team == Black && myPosition.row == 7) {
      var forwardTwo := Position(myPosition.row + 2 * direction, myPosition.col);
      if OnBoard(forwardTwo) && board.GetPiece(forwardOne).None? && board.GetPiece(forwardTwo).None? {
        r := r + [Move(myPosition, forwardTwo, None)];
      }
    }
    ghost var pushes := r;
    assert pushes == push + PawnDoublePush(board.grid, myPosition, team);
    var offsets := [-1, 1];
    for k := 0 to |offsets|
      invariant k == 0 ==> r == pushes
      invariant k == 1 ==> r == pushes + PawnCapture(board.grid, myPosition, team, -1)
      invariant k == 2 ==> r == pushes + PawnCapture(board.grid, myPosition, team, -1)
                                       + PawnCapture(board.grid, myPosition, team, 1)
    {
      r := AddPawnCapture(r, myPosition, board, team, direction, offsets[k]);
    }
    AppendFour(moveList, PawnPush(board.grid, myPosition, team), PawnDoublePush(board.grid, myPosition, team),
               PawnCapture(board.grid, myPosition, team, -1), PawnCapture(board.grid, myPosition, team, 1));
  }

  /** Regrouping `moveList + prefix + rest`, used to carry the loop
      invariants from one pass to the next. */
  lemma AppendAssoc(a: seq<Move>, b: seq<Move>, c: seq<Move>)
    ensures a + b + c == a + (b + c)
  {
  }

  /** Regrouping the four pawn parts appended after `moveList`, used to
      close pieceMoves' pawn branch against PawnMoves. */
  lemma AppendFour(m: seq<Move>, a: seq<Move>, b: seq<Move>, c: seq<Move>, d: seq<Move>)
    ensures m + a + b + c + d == m + (a + b + c + d)
  {
  }

  /** One pass of the capture loop of pieceMoves: the diagonal square
      `offset` columns aside, taken only when an enemy piece stands there. */
  method AddPawnCapture(moveList: seq<Move>, myPosition: Position, board: ChessBoard,
                        team: TeamColor, direction: int, offset: int) returns (r: seq<Move>)
    requires board.Valid() && OnBoard(myPosition) && direction == Forward(team)
    ensures r == moveList + PawnCapture(board.grid, myPosition, team, offset)
  {
    r := moveList;
    var diag := Position(myPosition.row + direction, myPosition.col + offset);
    if OnBoard(diag) && board.GetPiece(diag).Some? && board.GetPiece(diag).value.color != team {
      r := AddPawnStep(r, myPosition, diag, team);
    }
  }

  /** ChessPiece.pieceMoves: the pseudo-legal moves of the piece standing on
      `myPosition`. The type and team are read from the board, not from the
      receiver, so a piece must stand there. */
  method PieceMoves(board: ChessBoard, myPosition: Position) returns (moveList: seq<Move>)
    requires board.Valid() && OnBoard(myPosition) && board.GetPiece(myPosition).Some?
    ensures moveList == Moves(board.grid, myPosition)
  {
    var kind := board.GetPiece(myPosition).value.kind;
    var team := board.GetPiece(myPosition).value.color;
    moveList := [];
    var direction := 1;
    if team == Black {
      direction := -1;
    }
    match kind
    case Pawn =>
      moveList := CalculatePawnMoves(moveList, myPosition, board, team, direction);
    case Rook =>
      moveList := CalculateLinearMoves(moveList, myPosition, board, team, RookDirs);
    case Knight =>
      moveList := CalculateJumpMoves(moveList, myPosition, board, team, KnightDirs);
    case Bishop =>
      moveList := CalculateLinearMoves(moveList, myPosition, board, team, BishopDirs);
    case Queen =>
      moveList := CalculateLinearMoves(moveList, myPosition, board, team, QueenDirs);
    case King =>
      moveList := CalculateJumpMoves(moveList, myPosition, board, team, KingDirs);
  }
}
