/** What ChessGame decides, as functions of the board's contents: where a
    team's king stands, whether a team is in check, which pseudo-legal moves
    are legal, checkmate, stalemate and the effect of a move. The class
    ChessGame (module Game) is proved to compute exactly these. */
module Rules {
  import opened Wrappers
  import opened ChessTypes
  import opened Board
  import opened MoveRules

  /** The Java scans visit rows 1..8 in the outer loop and columns 1..8 in
      the inner one. A cursor (i, j) stands just before square
      (i + 1, j + 1); j == 8 means row i + 1 is done. `p` is still to be
      visited from cursor (i, j). */
  predicate Pending(p: Position, i: nat, j: nat) {
    p.row > i + 1 || (p.row == i + 1 && p.col > j)
  }

  /** `q` comes before `p` in that scan. */
  predicate ScanBefore(q: Position, p: Position) {
    q.row < p.row || (q.row == p.row && q.col < p.col)
  }

  /** What a scan asks of each square. */
  type SquareTest = Position -> bool

  /** The first square the scan from cursor (i, j) meets that passes `t`. */
  function FirstFrom(t: SquareTest, i: nat, j: nat): Option<Position>
    requires i <= 8 && j <= 8
    decreases 8 - i, 8 - j
  {
    if i == 8 then None
    else if j == 8 then FirstFrom(t, i + 1, 0)
    else if t(Position(i + 1, j + 1)) then Some(Position(i + 1, j + 1))
    else FirstFrom(t, i, j + 1)
  }

  /** The scan returns a square still to be visited that passes `t`, with
      no passing square between the cursor and it; it returns None iff no
      square still to be visited passes. */
  lemma {:induction false} FirstFromSpec(t: SquareTest, i: nat, j: nat)
    requires i <= 8 && j <= 8
    ensures FirstFrom(t, i, j).Some? ==>
      var p := FirstFrom(t, i, j).value;
      OnBoard(p) && t(p) && Pending(p, i, j)
      && forall q :: OnBoard(q) && Pending(q, i, j) && ScanBefore(q, p) ==> !t(q)
    ensures FirstFrom(t, i, j).None? ==> forall q :: OnBoard(q) && Pending(q, i, j) ==> !t(q)
    decreases 8 - i, 8 - j
  {
    if i < 8 {
      if j == 8 {
        FirstFromSpec(t, i + 1, 0);
      } else if !t(Position(i + 1, j + 1)) {
        FirstFromSpec(t, i, j + 1);
      }
    }
  }

  /** Tests that agree on the board give the same first square. */
  lemma {:induction false} FirstFromCongruent(t1: SquareTest, t2: SquareTest, i: nat, j: nat)
    requires i <= 8 && j <= 8
    requires forall p :: OnBoard(p) ==> t1(p) == t2(p)
    ensures FirstFrom(t1, i, j) == FirstFrom(t2, i, j)
    decreases 8 - i, 8 - j
  {
    if i < 8 {
      if j == 8 {
        FirstFromCongruent(t1, t2, i + 1, 0);
      } else {
        FirstFromCongruent(t1, t2, i, j + 1);
        assert t1(Position(i + 1, j + 1)) == t2(Position(i + 1, j + 1));
      }
    }
  }

  /** The scan from cursor (i, j) meets a square that passes `t`. */
  predicate AnyFrom(t: SquareTest, i: nat, j: nat)
    requires i <= 8 && j <= 8
    decreases 8 - i, 8 - j
  {
    if i == 8 then false
    else if j == 8 then AnyFrom(t, i + 1, 0)
    else t(Position(i + 1, j + 1)) || AnyFrom(t, i, j + 1)
  }

  /** The scan meets a passing square iff some square still to be visited
      passes. */
  lemma {:induction false} AnyFromSpec(t: SquareTest, i: nat, j: nat)
    requires i <= 8 && j <= 8
    ensures AnyFrom(t, i, j) <==> exists q :: OnBoard(q) && Pending(q, i, j) && t(q)
    decreases 8 - i, 8 - j
  {
    if i < 8 {
      if j == 8 {
        AnyFromSpec(t, i + 1, 0);
        if AnyFrom(t, i, j) {
          var q :| OnBoard(q) && Pending(q, i + 1, 0) && t(q);
          assert Pending(q, i, j);
        }
        if exists q :: OnBoard(q) && Pending(q, i, j) && t(q) {
          var q :| OnBoard(q) && Pending(q, i, j) && t(q);
          assert Pending(q, i + 1, 0);
        }
      } else {
        AnyFromSpec(t, i, j + 1);
        var p := Position(i + 1, j + 1);
        if AnyFrom(t, i, j) {
          if t(p) {
            assert Pending(p, i, j);
          } else {
            var q :| OnBoard(q) && Pending(q, i, j + 1) && t(q);
            assert Pending(q, i, j);
          }
        }
        if exists q :: OnBoard(q) && Pending(q, i, j) && t(q) {
          var q :| OnBoard(q) && Pending(q, i, j) && t(q);
          if q != p {
            assert Pending(q, i, j + 1);
          }
        }
      }
    }
  }

  /** Tests that agree on the board give the same answer. */
  lemma {:induction false} AnyFromCongruent(t1: SquareTest, t2: SquareTest, i: nat, j: nat)
    requires i <= 8 && j <= 8
    requires forall p :: OnBoard(p) ==> t1(p) == t2(p)
    ensures AnyFrom(t1, i, j) == AnyFrom(t2, i, j)
    decreases 8 - i, 8 - j
  {
    if i < 8 {
      if j == 8 {
        AnyFromCongruent(t1, t2, i + 1, 0);
      } else {
        AnyFromCongruent(t1, t2, i, j + 1);
        assert t1(Position(i + 1, j + 1)) == t2(Position(i + 1, j + 1));
      }
    }
  }

  /** Moves(g, pos) reached through a recursion of fixed depth. The
      verifier unfolds a recursive function only a bounded number of times,
      so proofs that mention the moves of many squares at once do not
      expand move generation unless they call PseudoMovesIs. */
  function PseudoMovesAt(g: Grid, pos: Position, depth: nat): seq<Move>
    requires OnBoard(pos) && At(g, pos).Some?
    decreases depth
  {
    if depth == 0 then Moves(g, pos) else PseudoMovesAt(g, pos, depth - 1)
  }

  /** The pseudo-legal moves of the piece on `pos` (ChessPiece.pieceMoves). */
  function PseudoMoves(g: Grid, pos: Position): seq<Move>
    requires OnBoard(pos) && At(g, pos).Some?
  {
    PseudoMovesAt(g, pos, 3)
  }

  lemma PseudoMovesIs(g: Grid, pos: Position)
    requires OnBoard(pos) && At(g, pos).Some?
    ensures PseudoMoves(g, pos) == Moves(g, pos)
  {
    assert PseudoMovesAt(g, pos, 3) == PseudoMovesAt(g, pos, 2);
    assert PseudoMovesAt(g, pos, 1) == PseudoMovesAt(g, pos, 0);
  }

  /** `p` holds the king of team `c`. */
  predicate IsKingOf(g: Grid, p: Position, c: TeamColor)
    requires OnBoard(p)
  {
    At(g, p) == Some(Piece(c, King))
  }

  /** What findKing asks of each square. */
  function KingSquares(g: Grid, c: TeamColor): SquareTest {
    p => OnBoard(p) && IsKingOf(g, p, c)
  }

  /** ChessGame.findKing: the first square of the scan holding the king of
      team `c`, or None (null) when there is none. */
  function FindKing(g: Grid, c: TeamColor): Option<Position> {
    FirstFrom(KingSquares(g, c), 0, 0)
  }

  /** findKing returns a square holding the king of `c`, and no king of `c`
      stands earlier in the scan; it returns None iff `c` has no king. */
  lemma FindKingSpec(g: Grid, c: TeamColor)
    ensures FindKing(g, c).Some? ==>
      var p := FindKing(g, c).value;
      OnBoard(p) && IsKingOf(g, p, c)
      && forall q :: OnBoard(q) && IsKingOf(g, q, c) ==> !ScanBefore(q, p)
    ensures FindKing(g, c).None? <==> forall q :: OnBoard(q) ==> !IsKingOf(g, q, c)
  {
    FirstFromSpec(KingSquares(g, c), 0, 0);
    forall q | OnBoard(q)
      ensures KingSquares(g, c)(q) == IsKingOf(g, q, c) && Pending(q, 0, 0)
    {
    }
  }

  /** Boards on which the kings of `c` stand on the same squares have the
      same findKing result. */
  lemma FindKingCongruent(g1: Grid, g2: Grid, c: TeamColor)
    requires forall p :: OnBoard(p) ==> (IsKingOf(g1, p, c) <==> IsKingOf(g2, p, c))
    ensures FindKing(g1, c) == FindKing(g2, c)
  {
    FirstFromCongruent(KingSquares(g1, c), KingSquares(g2, c), 0, 0);
  }

  /** checkEnemyMoves: some move of `ms` ends on the king's square. A missing
      king (null) is reached by no move. */
  predicate ReachesKing(ms: seq<Move>, king: Option<Position>) {
    king.Some? && exists m :: m in ms && m.end == king.value
  }

  /** Square `s` holds a piece of the team opposing `c` with a pseudo-legal
      move onto `king`. */
  predicate Threatens(g: Grid, s: Position, c: TeamColor, king: Option<Position>)
    requires OnBoard(s)
  {
    At(g, s).Some? && At(g, s).value.color != c && ReachesKing(PseudoMoves(g, s), king)
  }

  /** What isInCheck asks of each square. */
  function ThreatSquares(g: Grid, c: TeamColor, king: Option<Position>): SquareTest {
    s => OnBoard(s) && Threatens(g, s, c, king)
  }

  /** ChessGame.isInCheck: scanning the 64 squares, some enemy piece has a
      pseudo-legal move ending on the square findKing returns for `c`. */
  predicate InCheck(g: Grid, c: TeamColor) {
    AnyFrom(ThreatSquares(g, c, FindKing(g, c)), 0, 0)
  }

  /** isInCheck is true iff `c` has a king and an enemy piece can move onto
      its square; without a king of `c` it is false. */
  lemma InCheckSpec(g: Grid, c: TeamColor)
    ensures InCheck(g, c) <==>
      FindKing(g, c).Some? &&
      exists s :: OnBoard(s) && At(g, s).Some? && At(g, s).value.color != c &&
        exists m :: m in PseudoMoves(g, s) && m.end == FindKing(g, c).value
    ensures (forall q :: OnBoard(q) ==> !IsKingOf(g, q, c)) ==> !InCheck(g, c)
  {
    FindKingSpec(g, c);
    var king := FindKing(g, c);
    var t := ThreatSquares(g, c, king);
    AnyFromSpec(t, 0, 0);
    if InCheck(g, c) {
      var s :| OnBoard(s) && Pending(s, 0, 0) && t(s);
      assert Threatens(g, s, c, king);
    }
    if king.Some? &&
      exists s :: OnBoard(s) && At(g, s).Some? && At(g, s).value.color != c &&
        exists m :: m in PseudoMoves(g, s) && m.end == king.value
    {
      var s :| OnBoard(s) && At(g, s).Some? && At(g, s).value.color != c &&
        exists m :: m in PseudoMoves(g, s) && m.end == king.value;
      assert Pending(s, 0, 0) && t(s);
    }
  }

  /** The board validMoves tests a move on: the start emptied, then the
      moving piece (not yet promoted) put on the end square. */
  function AfterTrial(g: Grid, start: Position, end: Position, piece: Piece): Grid
    requires OnBoard(start) && OnBoard(end)
  {
    Put(Put(g, start, None), end, Some(piece))
  }

  /** The board canEscapeCheck tests a move on: the piece put on the end
      square first, then the start emptied. */
  function EscapeTrial(g: Grid, start: Position, end: Position, piece: Piece): Grid
    requires OnBoard(start) && OnBoard(end)
  {
    Put(Put(g, end, Some(piece)), start, None)
  }

  /** Putting back what the end and start squares held, in the order
      validMoves and canEscapeCheck do, restores the board. */
  lemma TrialRestores(g: Grid, start: Position, end: Position, piece: Piece)
    requires OnBoard(start) && OnBoard(end) && At(g, start) == Some(piece) && start != end
    ensures Put(Put(AfterTrial(g, start, end, piece), end, At(g, end)), start, Some(piece)) == g
    ensures Put(Put(EscapeTrial(g, start, end, piece), start, Some(piece)), end, At(g, end)) == g
  {
    GridExt(Put(Put(AfterTrial(g, start, end, piece), end, At(g, end)), start, Some(piece)), g);
    GridExt(Put(Put(EscapeTrial(g, start, end, piece), start, Some(piece)), end, At(g, end)), g);
  }

  /** For a move that leaves its start, both orders of trying it give the
      same board. */
  lemma TrialsAgree(g: Grid, start: Position, end: Position, piece: Piece)
    requires OnBoard(start) && OnBoard(end) && start != end
    ensures AfterTrial(g, start, end, piece) == EscapeTrial(g, start, end, piece)
  {
    GridExt(AfterTrial(g, start, end, piece), EscapeTrial(g, start, end, piece));
  }

  /** Every move of `ms` ends on the board. */
  predicate EndsOnBoard(ms: seq<Move>) {
    forall i :: 0 <= i < |ms| ==> OnBoard(ms[i].end)
  }

  /** The moves `ms[i]`, i < n, whose flag `keep[i]` is set, in order. */
  function KeepUpTo(ms: seq<Move>, keep: seq<bool>, n: nat): (r: seq<Move>)
    requires |keep| == |ms| && n <= |ms|
    ensures |r| <= n
    decreases n
  {
    if n == 0 then []
    else KeepUpTo(ms, keep, n - 1) + (if keep[n - 1] then [ms[n - 1]] else [])
  }

  /** A move is kept iff it occurs among the first `n` with its flag set. */
  lemma {:induction false} KeepUpToMember(ms: seq<Move>, keep: seq<bool>, n: nat, m: Move)
    requires |keep| == |ms| && n <= |ms|
    ensures m in KeepUpTo(ms, keep, n) <==> exists i :: 0 <= i < n && ms[i] == m && keep[i]
    decreases n
  {
    if n > 0 {
      KeepUpToMember(ms, keep, n - 1, m);
      var tail := if keep[n - 1] then [ms[n - 1]] else [];
      assert KeepUpTo(ms, keep, n) == KeepUpTo(ms, keep, n - 1) + tail;
      if m in KeepUpTo(ms, keep, n) {
        if m in KeepUpTo(ms, keep, n - 1) {
          var i :| 0 <= i < n - 1 && ms[i] == m && keep[i];
          assert 0 <= i < n && ms[i] == m && keep[i];
        } else {
          assert m in tail;
          assert ms[n - 1] == m && keep[n - 1];
        }
      }
      if exists i :: 0 <= i < n && ms[i] == m && keep[i] {
        var i :| 0 <= i < n && ms[i] == m && keep[i];
        if i < n - 1 {
          assert m in KeepUpTo(ms, keep, n - 1);
        } else {
          assert m in tail;
        }
      }
    }
  }

  /** Some flag among the first `n` is set. */
  predicate AnyUpTo(keep: seq<bool>, n: nat)
    requires n <= |keep|
    decreases n
  {
    n > 0 && (AnyUpTo(keep, n - 1) || keep[n - 1])
  }

  /** A set flag among the first `n` makes AnyUpTo hold. */
  lemma {:induction false} AnyUpToHolds(keep: seq<bool>, n: nat, i: nat)
    requires i < n <= |keep| && keep[i]
    ensures AnyUpTo(keep, n)
    decreases n
  {
    if i < n - 1 {
      AnyUpToHolds(keep, n - 1, i);
    }
  }

  /** Filtering keeps something iff some flag is set. */
  lemma {:induction false} AnyKeep(ms: seq<Move>, keep: seq<bool>, n: nat)
    requires |keep| == |ms| && n <= |ms|
    ensures AnyUpTo(keep, n) <==> KeepUpTo(ms, keep, n) != []
    decreases n
  {
    if n > 0 {
      AnyKeep(ms, keep, n - 1);
    }
  }

  /** For each move of `ms`, tried from `start` as validMoves does, whether
      the team of `piece` is then out of check. */
  function SafeFlags(g: Grid, start: Position, piece: Piece, ms: seq<Move>): (keep: seq<bool>)
    requires OnBoard(start) && EndsOnBoard(ms)
    ensures |keep| == |ms|
  {
    seq(|ms|, i requires 0 <= i < |ms| => !InCheck(AfterTrial(g, start, ms[i].end, piece), piece.color))
  }

  /** The same, with each move tried as canEscapeCheck does. */
  function EscapeFlags(g: Grid, start: Position, piece: Piece, ms: seq<Move>): (keep: seq<bool>)
    requires OnBoard(start) && EndsOnBoard(ms)
    ensures |keep| == |ms|
  {
    seq(|ms|, i requires 0 <= i < |ms| => !InCheck(EscapeTrial(g, start, ms[i].end, piece), piece.color))
  }

  /** The pseudo-legal moves of the piece on `pos` end on the board and
      away from `pos`, index by index. */
  lemma MovesEndsOnBoard(g: Grid, pos: Position)
    requires OnBoard(pos) && At(g, pos).Some?
    ensures EndsOnBoard(PseudoMoves(g, pos))
    ensures forall i :: 0 <= i < |PseudoMoves(g, pos)| ==> PseudoMoves(g, pos)[i].end != pos
  {
    var ms := PseudoMoves(g, pos);
    PseudoMovesIs(g, pos);
    MovesSound(g, pos);
    forall i | 0 <= i < |ms|
      ensures OnBoard(ms[i].end) && ms[i].end != pos
    {
      assert ms[i] in ms;
    }
  }

  /** ChessGame.validMoves: None (null) on an empty square, otherwise the
      pseudo-legal moves of the piece that do not leave its own team in
      check, in the order pieceMoves lists them. */
  function LegalMoves(g: Grid, pos: Position): Option<seq<Move>>
    requires OnBoard(pos)
  {
    if At(g, pos).None? then None
    else
      var ms := PseudoMoves(g, pos);
      MovesEndsOnBoard(g, pos);
      Some(KeepUpTo(ms, SafeFlags(g, pos, At(g, pos).value, ms), |ms|))
  }

  /** validMoves returns None iff the square is empty; otherwise a move is
      returned iff it is a pseudo-legal move of the piece after which its
      team is not in check. */
  lemma LegalMovesSpec(g: Grid, pos: Position, m: Move)
    requires OnBoard(pos)
    ensures LegalMoves(g, pos).None? <==> At(g, pos).None?
    ensures LegalMoves(g, pos).Some? ==>
      (m in LegalMoves(g, pos).value <==>
        m in PseudoMoves(g, pos) && OnBoard(m.end)
        && !InCheck(AfterTrial(g, pos, m.end, At(g, pos).value), At(g, pos).value.color))
  {
    if At(g, pos).Some? {
      var piece := At(g, pos).value;
      var ms := PseudoMoves(g, pos);
      MovesEndsOnBoard(g, pos);
      var keep := SafeFlags(g, pos, piece, ms);
      KeepUpToMember(ms, keep, |ms|, m);
      if m in ms {
        var i :| 0 <= i < |ms| && ms[i] == m;
        assert keep[i] == !InCheck(AfterTrial(g, pos, m.end, piece), piece.color);
      }
    }
  }

  /** Every legal move is pseudo-legal, ends on the board away from its
      start, and leaves the mover's team out of check. */
  lemma LegalMovesSound(g: Grid, pos: Position, m: Move)
    requires OnBoard(pos) && LegalMoves(g, pos).Some? && m in LegalMoves(g, pos).value
    ensures m in PseudoMoves(g, pos) && SoundMove(g, pos, m)
    ensures !InCheck(AfterTrial(g, pos, m.end, At(g, pos).value), At(g, pos).value.color)
  {
    LegalMovesSpec(g, pos, m);
    PseudoMovesIs(g, pos);
    MoveSound(g, pos, m);
  }

  /** canEscapeCheck, over the pseudo-legal moves of the piece on `start`
      (the inner loop of isInCheckmate): some move takes its team out of
      check. */
  predicate CanEscape(g: Grid, start: Position)
    requires OnBoard(start) && At(g, start).Some?
  {
    var ms := PseudoMoves(g, start);
    MovesEndsOnBoard(g, start);
    AnyUpTo(EscapeFlags(g, start, At(g, start).value, ms), |ms|)
  }

  /** Trying a move that leaves its start in the order of canEscapeCheck or
      of validMoves gives the same board, so both flag the same moves. */
  lemma EscapeFlagsAreSafeFlags(g: Grid, start: Position, piece: Piece, ms: seq<Move>)
    requires OnBoard(start) && EndsOnBoard(ms)
    requires forall i :: 0 <= i < |ms| ==> ms[i].end != start
    ensures EscapeFlags(g, start, piece, ms) == SafeFlags(g, start, piece, ms)
  {
    forall i | 0 <= i < |ms|
      ensures EscapeFlags(g, start, piece, ms)[i] == SafeFlags(g, start, piece, ms)[i]
    {
      TrialsAgree(g, start, ms[i].end, piece);
    }
  }

  /** canEscapeCheck agrees with validMoves: a piece can escape iff it has a
      legal move. */
  lemma CanEscapeIffLegal(g: Grid, start: Position)
    requires OnBoard(start) && At(g, start).Some?
    ensures CanEscape(g, start) <==> LegalMoves(g, start).value != []
  {
    var piece := At(g, start).value;
    var ms := PseudoMoves(g, start);
    MovesEndsOnBoard(g, start);
    EscapeFlagsAreSafeFlags(g, start, piece, ms);
    AnyKeep(ms, SafeFlags(g, start, piece, ms), |ms|);
  }

  /** Square `p` holds a piece of team `c`. */
  predicate OwnPiece(g: Grid, p: Position, c: TeamColor)
    requires OnBoard(p)
  {
    At(g, p).Some? && At(g, p).value.color == c
  }

  /** What isInCheckmate asks of each square: a piece of `c` that can
      escape check. */
  function EscapeSquares(g: Grid, c: TeamColor): SquareTest {
    p => OnBoard(p) && OwnPiece(g, p, c) && CanEscape(g, p)
  }

  /** What isInStalemate asks of each square: a piece of `c` with a legal
      move. */
  function MovableSquares(g: Grid, c: TeamColor): SquareTest {
    p => OnBoard(p) && OwnPiece(g, p, c) && LegalMoves(g, p) != Some([])
  }

  /** ChessGame.isInCheckmate: in check, and no piece of the team, in scan
      order, can escape. */
  predicate Checkmate(g: Grid, c: TeamColor) {
    InCheck(g, c) && !AnyFrom(EscapeSquares(g, c), 0, 0)
  }

  /** ChessGame.isInStalemate: not in check, and no piece of the team, in
      scan order, has a legal move. */
  predicate Stalemate(g: Grid, c: TeamColor) {
    !InCheck(g, c) && !AnyFrom(MovableSquares(g, c), 0, 0)
  }

  /** Team `c` has no legal move at all. */
  ghost predicate NoLegalMoves(g: Grid, c: TeamColor) {
    forall p :: OnBoard(p) && OwnPiece(g, p, c) ==> LegalMoves(g, p) == Some([])
  }

  /** The checkmate scan and the stalemate scan ask the same of every
      square: a piece can escape check iff it has a legal move. */
  lemma EscapeIffMovable(g: Grid, c: TeamColor, p: Position)
    requires OnBoard(p)
    ensures EscapeSquares(g, c)(p) == MovableSquares(g, c)(p)
  {
    if OwnPiece(g, p, c) {
      CanEscapeIffLegal(g, p);
    }
  }

  /** The stalemate scan finds no piece iff the team has no legal move. */
  lemma NoMovableIffNoLegal(g: Grid, c: TeamColor)
    ensures !AnyFrom(MovableSquares(g, c), 0, 0) <==> NoLegalMoves(g, c)
  {
    var t := MovableSquares(g, c);
    AnyFromSpec(t, 0, 0);
    if !NoLegalMoves(g, c) {
      var p :| OnBoard(p) && OwnPiece(g, p, c) && LegalMoves(g, p) != Some([]);
      assert Pending(p, 0, 0) && t(p);
    }
  }

  /** Checkmate is check with no legal move; stalemate is no legal move
      without check. So the two exclude each other, and together they are
      exactly the positions without a legal move. */
  lemma MateAndStalemate(g: Grid, c: TeamColor)
    ensures Checkmate(g, c) <==> InCheck(g, c) && NoLegalMoves(g, c)
    ensures Stalemate(g, c) <==> !InCheck(g, c) && NoLegalMoves(g, c)
    ensures !(Checkmate(g, c) && Stalemate(g, c))
    ensures Checkmate(g, c) || Stalemate(g, c) <==> NoLegalMoves(g, c)
  {
    forall p | OnBoard(p)
      ensures EscapeSquares(g, c)(p) == MovableSquares(g, c)(p)
    {
      EscapeIffMovable(g, c, p);
    }
    AnyFromCongruent(EscapeSquares(g, c), MovableSquares(g, c), 0, 0);
    NoMovableIffNoLegal(g, c);
  }

  /** The state of a ChessGame: the board, whose turn it is, and the
      game-over flag the server sets. */
  datatype GameState = GameState(board: Grid, turn: TeamColor, gameOver: bool)

  /** A new ChessGame: the starting position, White to move, not over. */
  function InitialState(): (st: GameState)
    ensures st.turn == White && !st.gameOver
    ensures forall p :: OnBoard(p) ==> At(st.board, p) == StartSquare(p)
  {
    GameState(StartingGrid(), White, false)
  }

  /** Why makeMove throws InvalidMoveException. */
  datatype MoveError = NoPiece | IllegalMove

  /** The piece that arrives on the end square: the mover, or a piece of
      the promotion type of the mover's team. */
  function Arriving(piece: Piece, m: Move): (r: Piece)
    ensures r.color == piece.color
    ensures r.kind == (if m.promotion.Some? then m.promotion.value else piece.kind)
  {
    if m.promotion.Some? then Piece(piece.color, m.promotion.value) else piece
  }

  /** The board after makeMove carries out `m`: the (possibly promoted)
      piece put on the end square, then the start emptied. */
  function ApplyMove(g: Grid, m: Move): (g': Grid)
    requires OnBoard(m.start) && OnBoard(m.end) && At(g, m.start).Some? && m.start != m.end
    ensures At(g', m.start) == None
    ensures At(g', m.end) == Some(Arriving(At(g, m.start).value, m))
    ensures forall q :: OnBoard(q) && q != m.start && q != m.end ==> At(g', q) == At(g, q)
  {
    Put(Put(g, m.end, Some(Arriving(At(g, m.start).value, m))), m.start, None)
  }

  /** ChessGame.makeMove: fails when the start is empty, or when the move
      is not among validMoves of the start or the piece is not of the team
      to move; otherwise carries it out and passes the turn. The game-over
      flag is left as it is. The start must be on the board: the Java
      array access fails otherwise. */
  function MakeMoveOutcome(st: GameState, m: Move): (r: Result<GameState, MoveError>)
    requires OnBoard(m.start)
    ensures r == Err(NoPiece) <==> At(st.board, m.start).None?
    ensures r == Err(IllegalMove) <==>
      At(st.board, m.start).Some? &&
      (m !in LegalMoves(st.board, m.start).value || At(st.board, m.start).value.color != st.turn)
    ensures r.Ok? ==>
      && r.value.turn == Other(st.turn) && r.value.gameOver == st.gameOver
      && OnBoard(m.end) && m.start != m.end
      && r.value.board == ApplyMove(st.board, m)
  {
    if At(st.board, m.start).None? then Err(NoPiece)
    else if m !in LegalMoves(st.board, m.start).value || At(st.board, m.start).value.color != st.turn then
      Err(IllegalMove)
    else
      LegalMovesSound(st.board, m.start, m);
      Ok(GameState(ApplyMove(st.board, m), Other(st.turn), st.gameOver))
  }

  /** Boards that agree on which team stands where and on every piece of
      the team opposing `c` agree on which squares threaten `king`. */
  lemma ThreatensCongruent(g1: Grid, g2: Grid, s: Position, c: TeamColor, king: Option<Position>)
    requires SameColours(g1, g2) && OnBoard(s)
    requires forall p :: OnBoard(p) && OwnPiece(g1, p, Other(c)) ==> At(g1, p) == At(g2, p)
    ensures Threatens(g1, s, c, king) == Threatens(g2, s, c, king)
  {
    assert ColourAt(g1, s) == ColourAt(g2, s);
    if At(g1, s).Some? && At(g1, s).value.color != c {
      assert OwnPiece(g1, s, Other(c));
      MovesCongruent(g1, g2, s);
      PseudoMovesIs(g1, s);
      PseudoMovesIs(g2, s);
    }
  }

  /** Boards that agree on which team stands where, on where the kings of
      `c` stand, and on every enemy piece, agree on whether `c` is in
      check. */
  lemma InCheckCongruent(g1: Grid, g2: Grid, c: TeamColor)
    requires SameColours(g1, g2)
    requires forall p :: OnBoard(p) ==> (IsKingOf(g1, p, c) <==> IsKingOf(g2, p, c))
    requires forall p :: OnBoard(p) && OwnPiece(g1, p, Other(c)) ==> At(g1, p) == At(g2, p)
    ensures InCheck(g1, c) <==> InCheck(g2, c)
  {
    FindKingCongruent(g1, g2, c);
    var king := FindKing(g1, c);
    forall p | OnBoard(p)
      ensures ThreatSquares(g1, c, king)(p) == ThreatSquares(g2, c, king)(p)
    {
      ThreatensCongruent(g1, g2, p, c, king);
    }
    AnyFromCongruent(ThreatSquares(g1, c, king), ThreatSquares(g2, c, king), 0, 0);
  }

  /** Carrying out a move (with its promotion, which is never to a king)
      puts the mover's team in check iff trying the unpromoted move does:
      the two boards differ only in the type of the arriving piece. */
  lemma ApplyMatchesTrial(g: Grid, m: Move, piece: Piece)
    requires OnBoard(m.start) && At(g, m.start) == Some(piece) && SoundMove(g, m.start, m)
    ensures InCheck(ApplyMove(g, m), piece.color) <==> InCheck(AfterTrial(g, m.start, m.end, piece), piece.color)
  {
    var tried := AfterTrial(g, m.start, m.end, piece);
    var done := ApplyMove(g, m);
    var arriving := Arriving(piece, m);
    assert arriving.kind == King <==> piece.kind == King by {
      if m.promotion.Some? {
        assert PromotionTypes == [Queen, Rook, Bishop, Knight];
      }
    }
    forall p | OnBoard(p)
      ensures ColourAt(tried, p) == ColourAt(done, p)
      ensures IsKingOf(tried, p, piece.color) <==> IsKingOf(done, p, piece.color)
      ensures OwnPiece(tried, p, Other(piece.color)) ==> At(tried, p) == At(done, p)
    {
      if p == m.end {
      } else if p == m.start {
      } else {
      }
    }
    InCheckCongruent(tried, done, piece.color);
  }

  /** A move makeMove accepts never leaves the mover's own team in check. */
  lemma MakeMoveKeepsKingSafe(st: GameState, m: Move)
    requires OnBoard(m.start) && MakeMoveOutcome(st, m).Ok?
    ensures !InCheck(MakeMoveOutcome(st, m).value.board, st.turn)
  {
    var piece := At(st.board, m.start).value;
    LegalMovesSound(st.board, m.start, m);
    ApplyMatchesTrial(st.board, m, piece);
  }
}
