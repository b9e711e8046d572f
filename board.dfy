/** The 8x8 chess board. `Grid` is the board's contents as a value, indexed
    [column - 1][row - 1] like the Java array `boardLayout`; the class
    ChessBoard keeps that array and updates it in place. */
module Board {
  import opened Wrappers
  import opened ChessTypes

  /** Eight columns of eight squares each. */
  type Grid = g: seq<seq<Square>> | |g| == 8 && forall c :: 0 <= c < 8 ==> |g[c]| == 8
    witness seq(8, _ => seq(8, _ => None))

  /** The square at `p` (ChessBoard.getPiece). */
  function At(g: Grid, p: Position): Square
    requires OnBoard(p)
  {
    g[p.col - 1][p.row - 1]
  }

  /** The grid with square `p` replaced by `s` (ChessBoard.addPiece). */
  function Put(g: Grid, p: Position, s: Square): (g': Grid)
    requires OnBoard(p)
    ensures At(g', p) == s
    ensures forall q :: OnBoard(q) && q != p ==> At(g', q) == At(g, q)
  {
    g[p.col - 1 := g[p.col - 1][p.row - 1 := s]]
  }

  /** Two grids that agree on every square are the same grid. */
  lemma GridExt(g1: Grid, g2: Grid)
    requires forall p :: OnBoard(p) ==> At(g1, p) == At(g2, p)
    ensures g1 == g2
  {
    forall c | 0 <= c < 8
      ensures g1[c] == g2[c]
    {
      forall r | 0 <= r < 8
        ensures g1[c][r] == g2[c][r]
      {
        assert At(g1, Position(r + 1, c + 1)) == At(g2, Position(r + 1, c + 1));
      }
    }
  }

  /** The board with no pieces on it. */
  function EmptyGrid(): (g: Grid)
    ensures forall p :: OnBoard(p) ==> At(g, p) == None
  {
    seq(8, _ => seq(8, _ => None))
  }

  /** The back rank, by column 1..8: R, N, B, Q, K, B, N, R. */
  const BackRank: seq<PieceType> := [Rook, Knight, Bishop, Queen, King, Bishop, Knight, Rook]

  /** What the standard starting position has on square `p`. */
  function StartSquare(p: Position): Square
    requires OnBoard(p)
  {
    if p.row == 1 then Some(Piece(White, BackRank[p.col - 1]))
    else if p.row == 2 then Some(Piece(White, Pawn))
    else if p.row == 7 then Some(Piece(Black, Pawn))
    else if p.row == 8 then Some(Piece(Black, BackRank[p.col - 1]))
    else None
  }

  /** The standard starting position (ChessBoard.resetBoard). */
  function StartingGrid(): (g: Grid)
    ensures forall p :: OnBoard(p) ==> At(g, p) == StartSquare(p)
  {
    var cols := seq(8, c requires 0 <= c < 8 => seq(8, r requires 0 <= r < 8 => StartSquare(Position(r + 1, c + 1))));
    assert forall c :: 0 <= c < 8 ==> |cols[c]| == 8;
    cols
  }

  /** The starting position holds exactly one king per team, White's on
      (1, 5) and Black's on (8, 5). */
  lemma {:induction false} StartingKings(p: Position)
    requires OnBoard(p)
    ensures At(StartingGrid(), p) == Some(Piece(White, King)) <==> p == Position(1, 5)
    ensures At(StartingGrid(), p) == Some(Piece(Black, King)) <==> p == Position(8, 5)
  {
    assert forall i :: 0 <= i < 8 ==> (BackRank[i] == King <==> i == 4);
  }

  /** The Java board: an 8x8 array written in place. `grid` is its
      contents as a value. */
  class ChessBoard {
    const layout: array2<Square>
    ghost var grid: Grid

    ghost predicate Valid()
      reads this, layout
    {
      layout.Length0 == 8 && layout.Length1 == 8 &&
      forall c, r :: 0 <= c < 8 && 0 <= r < 8 ==> layout[c, r] == grid[c][r]
    }

    /** A new board is empty. */
    constructor ()
      ensures Valid() && fresh(layout)
      ensures grid == EmptyGrid()
    {
      layout := new Square[8, 8]((c, r) => None);
      grid := EmptyGrid();
    }

    /** The piece on `p`, or None. The array access fails outside 1..8,
        hence the requires. */
    function GetPiece(p: Position): (s: Square)
      reads this, layout
      requires Valid() && OnBoard(p)
      ensures s == At(grid, p)
    {
      layout[p.col - 1, p.row - 1]
    }

    /** Puts `piece` (None: empties) on `p`; every other square is unchanged. */
    method AddPiece(p: Position, piece: Square)
      requires Valid() && OnBoard(p)
      modifies this, layout
      ensures Valid()
      ensures grid == Put(old(grid), p, piece)
    {
      layout[p.col - 1, p.row - 1] := piece;
      grid := Put(grid, p, piece);
    }

    /** Empties all 64 squares. */
    method ClearBoard()
      requires Valid()
      modifies this, layout
      ensures Valid()
      ensures grid == EmptyGrid()
    {
      var c := 0;
      while c < 8
        invariant 0 <= c <= 8
        invariant forall i, j :: 0 <= i < c && 0 <= j < 8 ==> layout[i, j] == None
      {
        var r := 0;
        while r < 8
          invariant 0 <= r <= 8
          invariant forall i, j :: 0 <= i < c && 0 <= j < 8 ==> layout[i, j] == None
          invariant forall j :: 0 <= j < r ==> layout[c, j] == None
        {
          layout[c, r] := None;
          r := r + 1;
        }
        c := c + 1;
      }
      grid := EmptyGrid();
    }

    /** Sets up the standard starting position: White's back rank on row 1
        and pawns on row 2, Black's pawns on row 7 and back rank on row 8,
        rows 3 to 6 empty. */
    method ResetBoard()
      requires Valid()
      modifies this, layout
      ensures Valid()
      ensures grid == StartingGrid()
    {
      ClearBoard();
      var col := 1;
      while col <= 8
        invariant 1 <= col <= 9 && Valid()
        invariant forall p :: OnBoard(p) ==>
          At(grid, p) == if p.row <= 2 && p.col < col then StartSquare(p) else None
      {
        AddPiece(Position(1, col), Some(Piece(White, BackRank[col - 1])));
        AddPiece(Position(2, col), Some(Piece(White, Pawn)));
        col := col + 1;
      }
      col := 1;
      while col <= 8
        invariant 1 <= col <= 9 && Valid()
        invariant forall p :: OnBoard(p) ==>
          At(grid, p) == if p.row <= 2 || (p.row >= 7 && p.col < col) then StartSquare(p) else None
      {
        AddPiece(Position(7, col), Some(Piece(Black, Pawn)));
        AddPiece(Position(8, col), Some(Piece(Black, BackRank[col - 1])));
        col := col + 1;
      }
      GridExt(grid, StartingGrid());
    }

    /** ChessBoard.equals: square-by-square comparison of the two arrays. */
    predicate Equals(other: ChessBoard)
      reads this, layout, other, other.layout
      requires Valid() && other.Valid()
      ensures Equals(other) <==> grid == other.grid
    {
      var same := forall c, r :: 0 <= c < 8 && 0 <= r < 8 ==> layout[c, r] == other.layout[c, r];
      if same then GridExt(grid, other.grid); same else same
    }
  }
}
