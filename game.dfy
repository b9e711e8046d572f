/** ChessGame as the Java class runs it: a board changed in place, the
    team to move, and the game-over flag the server reads and sets. Every
    method is proved to compute what module Rules defines, and the methods
    that try moves on the board are proved to put it back as they found it. */
module Game {
  import opened Wrappers
  import opened ChessTypes
  import opened Board
  import opened MoveRules
  import opened ChessPiece
  import opened Rules

  /** ArrayList.contains over moves: some element is ChessMove.equals to `m`. */
  method Contains(ms: seq<Move>, m: Move) returns (found: bool)
    ensures found <==> m in ms
  {
    for i := 0 to |ms|
      invariant m !in ms[..i]
    {
      if MoveEquals(ms[i], m) {
        return true;
      }
    }
    assert ms[..|ms|] == ms;
    return false;
  }

  /** checkEnemyMoves: whether some move of `enemyMoves` ends on `kingPos`
      (a missing king, null in Java, is never reached). */
  method CheckEnemyMoves(enemyMoves: seq<Move>, kingPos: Option<Position>) returns (hit: bool)
    ensures hit <==> ReachesKing(enemyMoves, kingPos)
  {
    for i := 0 to |enemyMoves|
      invariant forall k :: 0 <= k < i ==> !(kingPos.Some? && enemyMoves[k].end == kingPos.value)
    {
      if kingPos.Some? && PositionEquals(enemyMoves[i].end, kingPos.value) {
        assert enemyMoves[i] in enemyMoves;
        return true;
      }
    }
    return false;
  }

  class ChessGame {
    var teamTurn: TeamColor
    var gameOver: bool
    const board: ChessBoard

    ghost predicate Valid()
      reads this, board, board.layout
    {
      board.Valid()
    }

    /** The game as a value: board contents, team to move, game-over flag. */
    ghost function State(): GameState
      reads this, board
    {
      GameState(board.grid, teamTurn, gameOver)
    }

    /** A new game: the starting position, White to move, not over. */
    constructor ()
      ensures Valid() && fresh(board) && fresh(board.layout)
      ensures State() == InitialState()
    {
      var b := new ChessBoard();
      b.ResetBoard();
      board := b;
      teamTurn := White;
      gameOver := false;
    }

    /** setTeamTurn: only the team to move changes. */
    method SetTeamTurn(team: TeamColor)
      modifies this
      ensures teamTurn == team && gameOver == old(gameOver)
    {
      teamTurn := team;
    }

    /** setGameOver: only the game-over flag changes. */
    method SetGameOver(over: bool)
      modifies this
      ensures gameOver == over && teamTurn == old(teamTurn)
    {
      gameOver := over;
    }

    /** findKing: rows in the outer loop, columns in the inner one; the
        first king of `team`, or None. */
    method FindKing(team: TeamColor) returns (kingPos: Option<Position>)
      requires Valid()
      ensures kingPos == Rules.FindKing(board.grid, team)
    {
      ghost var t := KingSquares(board.grid, team);
      for i := 0 to 8
        invariant Rules.FindKing(board.grid, team) == FirstFrom(t, i, 0)
      {
        for j := 0 to 8
          invariant Rules.FindKing(board.grid, team) == FirstFrom(t, i, j)
        {
          var curPos := Position(i + 1, j + 1);
          var curPiece := board.GetPiece(curPos);
          if curPiece.Some? && curPiece.value.kind == King && curPiece.value.color == team {
            return Some(curPos);
          }
        }
      }
      return None;
    }

    /** isInCheck: some piece of the other team, found by scanning the 64
        squares, has a pseudo-legal move onto the king of `teamColor`. */
    method IsInCheck(teamColor: TeamColor) returns (check: bool)
      requires Valid()
      ensures check == InCheck(board.grid, teamColor)
    {
      ghost var g := board.grid;
      var kingPos := FindKing(teamColor);
      ghost var t := ThreatSquares(g, teamColor, kingPos);
      for i := 0 to 8
        invariant InCheck(g, teamColor) == AnyFrom(t, i, 0)
      {
        for j := 0 to 8
          invariant InCheck(g, teamColor) == AnyFrom(t, i, j)
        {
          var curPos := Position(i + 1, j + 1);
          var curPiece := board.GetPiece(curPos);
          if curPiece.Some? && curPiece.value.color != teamColor {
            var enemyMoves := PieceMoves(board, curPos);
            PseudoMovesIs(g, curPos);
            var hit := CheckEnemyMoves(enemyMoves, kingPos);
            if hit {
              return true;
            }
          }
        }
      }
      return false;
    }

    /** validMoves: None on an empty square; otherwise each pseudo-legal
        move is tried on the board (start emptied, piece put on the end),
        kept when its team is then not in check, and undone. The board ends
        as it began. */
    method ValidMoves(startPosition: Position) returns (valid: Option<seq<Move>>)
      requires Valid() && OnBoard(startPosition)
      modifies board, board.layout
      ensures Valid() && board.grid == old(board.grid)
      ensures valid == LegalMoves(board.grid, startPosition)
    {
      var square := board.GetPiece(startPosition);
      if square.None? {
        return None;
      }
      var piece := square.value;
      ghost var g := board.grid;
      var moveList := PieceMoves(board, startPosition);
      PseudoMovesIs(g, startPosition);
      MovesEndsOnBoard(g, startPosition);
      ghost var keep := SafeFlags(g, startPosition, piece, moveList);
      var validMoves := [];
      for i := 0 to |moveList|
        invariant Valid() && board.grid == g
        invariant validMoves == KeepUpTo(moveList, keep, i)
      {
        var move := moveList[i];
        var tempPiece := board.GetPiece(move.end);
        board.AddPiece(startPosition, None);
        board.AddPiece(move.end, Some(piece));
        assert board.grid == AfterTrial(g, startPosition, move.end, piece);
        var check := IsInCheck(piece.color);
        assert keep[i] == !check;
        if !check {
          validMoves := validMoves + [move];
        }
        board.AddPiece(move.end, tempPiece);
        board.AddPiece(startPosition, Some(piece));
        TrialRestores(g, startPosition, move.end, piece);
      }
      assert LegalMoves(g, startPosition) == Some(KeepUpTo(moveList, keep, |moveList|));
      return Some(validMoves);
    }

    /** makeMove: rejects a move from an empty square (NoPiece), and a move
        that validMoves does not list or whose piece is not of the team to
        move (IllegalMove), changing nothing; otherwise puts the piece
        (promoted if asked) on the end square, empties the start and passes
        the turn. */
    method MakeMove(move: Move) returns (r: Result<(), MoveError>)
      requires Valid() && OnBoard(move.start)
      modifies this, board, board.layout
      ensures Valid()
      ensures r.Err? <==> MakeMoveOutcome(old(State()), move).Err?
      ensures r.Err? ==> r.error == MakeMoveOutcome(old(State()), move).error && State() == old(State())
      ensures r.Ok? ==> State() == MakeMoveOutcome(old(State()), move).value
    {
      var square := board.GetPiece(move.start);
      if square.None? {
        return Err(NoPiece);
      }
      var piece := square.value;
      var possibleMoves := ValidMoves(move.start);
      var canMove := teamTurn == piece.color;
      var canAdd := Contains(possibleMoves.value, move);
      if !canAdd || !canMove {
        return Err(IllegalMove);
      }
      LegalMovesSound(board.grid, move.start, move);
      ghost var g := board.grid;
      if move.promotion.Some? {
        piece := Piece(piece.color, move.promotion.value);
      }
      board.AddPiece(move.end, Some(piece));
      board.AddPiece(move.start, None);
      assert board.grid == ApplyMove(g, move);
      SetTeamTurn(if teamTurn == White then Black else White);
      return Ok(());
    }

    /** canEscapeCheck: tries each pseudo-legal move of `piece` (end square
        first, then the start emptied), undoes it, and answers true at the
        first one after which `color` is not in check. */
    method CanEscapeCheck(piece: Piece, start: Position, color: TeamColor) returns (escapes: bool)
      requires Valid() && OnBoard(start) && board.GetPiece(start) == Some(piece) && color == piece.color
      modifies board, board.layout
      ensures Valid() && board.grid == old(board.grid)
      ensures escapes == CanEscape(board.grid, start)
    {
      ghost var g := board.grid;
      var moveList := PieceMoves(board, start);
      PseudoMovesIs(g, start);
      MovesEndsOnBoard(g, start);
      ghost var flags := EscapeFlags(g, start, piece, moveList);
      for i := 0 to |moveList|
        invariant Valid() && board.grid == g
        invariant !AnyUpTo(flags, i)
      {
        var move := moveList[i];
        var captured := board.GetPiece(move.end);
        board.AddPiece(move.end, Some(piece));
        board.AddPiece(start, None);
        assert board.grid == EscapeTrial(g, start, move.end, piece);
        var stillInCheck := IsInCheck(color);
        board.AddPiece(start, Some(piece));
        board.AddPiece(move.end, captured);
        TrialRestores(g, start, move.end, piece);
        if !stillInCheck {
          AnyUpToHolds(flags, |moveList|, i);
          return true;
        }
      }
      return false;
    }

    /** The body of isInCheckmate's scan at one square: whether it holds
        a piece of `color` that canEscapeCheck finds a way out for. */
    method HasEscape(start: Position, color: TeamColor) returns (escapes: bool)
      requires Valid() && OnBoard(start)
      modifies board, board.layout
      ensures Valid() && board.grid == old(board.grid)
      ensures escapes == EscapeSquares(board.grid, color)(start)
    {
      var piece := board.GetPiece(start);
      if piece.Some? && piece.value.color == color {
        escapes := CanEscapeCheck(piece.value, start, color);
        return;
      }
      return false;
    }

    /** isInCheckmate: false when not in check; otherwise false as soon as
        some piece of `color`, scanning rows then columns, can escape check;
        true when none can. The board ends as it began. */
    method IsInCheckmate(color: TeamColor) returns (mate: bool)
      requires Valid()
      modifies board, board.layout
      ensures Valid() && board.grid == old(board.grid)
      ensures mate == Checkmate(board.grid, color)
    {
      ghost var g := board.grid;
      var check := IsInCheck(color);
      if !check {
        return false;
      }
      ghost var t := EscapeSquares(g, color);
      for row := 1 to 9
        invariant Valid() && board.grid == g
        invariant AnyFrom(t, 0, 0) == AnyFrom(t, row - 1, 0)
      {
        for col := 1 to 9
          invariant Valid() && board.grid == g
          invariant AnyFrom(t, 0, 0) == AnyFrom(t, row - 1, col - 1)
        {
          var escapes := HasEscape(Position(row, col), color);
          if escapes {
            return false;
          }
        }
      }
      return true;
    }

    /** The body of isInStalemate's scan at one square: whether it holds
        a piece of `teamColor` for which validMoves is not empty. */
    method HasValidMove(position: Position, teamColor: TeamColor) returns (movable: bool)
      requires Valid() && OnBoard(position)
      modifies board, board.layout
      ensures Valid() && board.grid == old(board.grid)
      ensures movable == MovableSquares(board.grid, teamColor)(position)
    {
      var piece := board.GetPiece(position);
      if piece.Some? && teamColor == piece.value.color {
        var moveList := ValidMoves(position);
        return moveList.Some? && moveList.value != [];
      }
      return false;
    }

    /** isInStalemate: false when in check; otherwise false as soon as some
        piece of `teamColor`, scanning rows then columns, has a legal move;
        true when none has. The board ends as it began. */
    method IsInStalemate(teamColor: TeamColor) returns (stale: bool)
      requires Valid()
      modifies board, board.layout
      ensures Valid() && board.grid == old(board.grid)
      ensures stale == Stalemate(board.grid, teamColor)
    {
      ghost var g := board.grid;
      var check := IsInCheck(teamColor);
      if check {
        return false;
      }
      ghost var t := MovableSquares(g, teamColor);
      for y := 1 to 9
        invariant Valid() && board.grid == g
        invariant AnyFrom(t, 0, 0) == AnyFrom(t, y - 1, 0)
      {
        for x := 1 to 9
          invariant Valid() && board.grid == g
          invariant AnyFrom(t, 0, 0) == AnyFrom(t, y - 1, x - 1)
        {
          var movable := HasValidMove(Position(y, x), teamColor);
          if movable {
            return false;
          }
        }
      }
      return true;
    }
  }
}
