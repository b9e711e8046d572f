/** What ChessPiece.pieceMoves computes, as functions of the board's
    contents: the pseudo-legal moves of the piece on a square (moves that
    follow the piece's pattern and the occupancy of the board, whether or
    not they leave the mover's own king in check). Castling and en passant
    are not part of the rules implemented. */
module MoveRules {
  import opened Wrappers
  import opened ChessTypes
  import opened Board

  /** A (row, column) step. */
  type Dir = (int, int)

  const RookDirs: seq<Dir> := [(1, 0), (-1, 0), (0, 1), (0, -1)]
  const BishopDirs: seq<Dir> := [(1, 1), (-1, 1), (1, -1), (-1, -1)]
  const QueenDirs: seq<Dir> := [(1, 0), (-1, 0), (0, 1), (0, -1), (1, 1), (-1, 1), (1, -1), (-1, -1)]
  const KnightDirs: seq<Dir> := [(2, 1), (-2, 1), (2, -1), (-2, -1), (1, 2), (-1, 2), (1, -2), (-1, -2)]
  const KingDirs: seq<Dir> := [(1, 0), (-1, 0), (0, 1), (0, -1), (1, 1), (1, -1), (-1, -1), (-1, 1)]

  /** The promotion choices, in the order the moves are generated. */
  const PromotionTypes: seq<PieceType> := [Queen, Rook, Bishop, Knight]

  function Step(p: Position, d: Dir): Position {
    Position(p.row + d.0, p.col + d.1)
  }

  /** +1 (up the board) for White, -1 for Black. */
  function Forward(team: TeamColor): int {
    if team == Black then -1 else 1
  }

  /** Row 8 for White and row 1 for Black. */
  predicate IsPromotionRank(p: Position, team: TeamColor) {
    (team == White && p.row == 8) || (team == Black && p.row == 1)
  }

  /** Row 2 for White and row 7 for Black: where a pawn may step twice. */
  predicate IsPawnStartRow(p: Position, team: TeamColor) {
    (team == White && p.row == 2) || (team == Black && p.row == 7)
  }

  /** The square `p` can be moved onto by a piece of `team`: it is empty or
      holds an enemy piece. */
  predicate Enterable(g: Grid, p: Position, team: TeamColor)
    requires OnBoard(p)
  {
    At(g, p).None? || At(g, p).value.color != team
  }

  /** The four promotion moves from `start` to `end`. */
  function PromotionMoves(start: Position, end: Position): seq<Move> {
    seq(4, i requires 0 <= i < 4 => Move(start, end, Some(PromotionTypes[i])))
  }

  /** A pawn move onto `end`: four promotion moves on the last rank, a
      single plain move elsewhere. */
  function PawnStep(start: Position, end: Position, team: TeamColor): seq<Move> {
    if IsPromotionRank(end, team) then PromotionMoves(start, end) else [Move(start, end, None)]
  }

  /** The one-square push onto an empty square. */
  function PawnPush(g: Grid, pos: Position, team: TeamColor): seq<Move>
    requires OnBoard(pos)
  {
    var one := Position(pos.row + Forward(team), pos.col);
    if OnBoard(one) && At(g, one).None? then PawnStep(pos, one, team) else []
  }

  /** The two-square push from the start row, over two empty squares. */
  function PawnDoublePush(g: Grid, pos: Position, team: TeamColor): seq<Move>
    requires OnBoard(pos)
  {
    var one := Position(pos.row + Forward(team), pos.col);
    var two := Position(pos.row + 2 * Forward(team), pos.col);
    if IsPawnStartRow(pos, team) && OnBoard(two) && At(g, one).None? && At(g, two).None?
    then [Move(pos, two, None)]
    else []
  }

  /** The diagonal capture towards column offset `offset`, onto an enemy piece only. */
  function PawnCapture(g: Grid, pos: Position, team: TeamColor, offset: int): seq<Move>
    requires OnBoard(pos)
  {
    var diag := Position(pos.row + Forward(team), pos.col + offset);
    if OnBoard(diag) && At(g, diag).Some? && At(g, diag).value.color != team
    then PawnStep(pos, diag, team)
    else []
  }

  function PawnMoves(g: Grid, pos: Position, team: TeamColor): seq<Move>
    requires OnBoard(pos)
  {
    PawnPush(g, pos, team) + PawnDoublePush(g, pos, team)
    + PawnCapture(g, pos, team, -1) + PawnCapture(g, pos, team, 1)
  }

  /** A step of a sliding piece: each coordinate changes by -1, 0 or 1. */
  predicate UnitDir(d: Dir) {
    -1 <= d.0 <= 1 && -1 <= d.1 <= 1 && d != (0, 0)
  }

  predicate AllUnit(dirs: seq<Dir>) {
    forall i :: 0 <= i < |dirs| ==> UnitDir(dirs[i])
  }

  /** How far `p` is from the edges the direction `d` heads for. */
  function Reach(p: Position, d: Dir): nat
    requires OnBoard(p)
  {
    (if d.0 == 1 then 8 - p.row else if d.0 == -1 then p.row - 1 else 8)
    + (if d.1 == 1 then 8 - p.col else if d.1 == -1 then p.col - 1 else 8)
  }

  /** The square `k` steps from `p` in direction `d`. */
  function Ahead(p: Position, d: Dir, k: nat): Position
    decreases k
  {
    if k == 0 then p else Ahead(Step(p, d), d, k - 1)
  }

  /** The moves from `start` along direction `d` beyond square `cur`: one per
      empty square, then the first occupied square if it holds an enemy. */
  function RayFrom(g: Grid, start: Position, team: TeamColor, d: Dir, cur: Position): seq<Move>
    requires OnBoard(cur) && UnitDir(d)
    decreases Reach(cur, d)
  {
    var next := Step(cur, d);
    if !OnBoard(next) then []
    else if At(g, next).Some? then
      (if At(g, next).value.color != team then [Move(start, next, None)] else [])
    else [Move(start, next, None)] + RayFrom(g, start, team, d, next)
  }

  /** The rays along the first `n` directions of `dirs`, in order. */
  function LinearUpTo(g: Grid, pos: Position, team: TeamColor, dirs: seq<Dir>, n: nat): seq<Move>
    requires OnBoard(pos) && AllUnit(dirs) && n <= |dirs|
    decreases n
  {
    if n == 0 then [] else LinearUpTo(g, pos, team, dirs, n - 1) + RayFrom(g, pos, team, dirs[n - 1], pos)
  }

  /** The rays along `dirs`, in order (calculateLinearMoves). */
  function LinearMoves(g: Grid, pos: Position, team: TeamColor, dirs: seq<Dir>): seq<Move>
    requires OnBoard(pos) && AllUnit(dirs)
  {
    LinearUpTo(g, pos, team, dirs, |dirs|)
  }

  /** The single move one offset away, if that square is on the board and not
      held by the mover's team. */
  function JumpTarget(g: Grid, pos: Position, team: TeamColor, d: Dir): seq<Move> {
    var next := Step(pos, d);
    if OnBoard(next) && Enterable(g, next, team) then [Move(pos, next, None)] else []
  }

  /** One jump per offset among the first `n` of `dirs`, in order. */
  function JumpUpTo(g: Grid, pos: Position, team: TeamColor, dirs: seq<Dir>, n: nat): (ms: seq<Move>)
    requires n <= |dirs|
    ensures |ms| <= n
    decreases n
  {
    if n == 0 then [] else JumpUpTo(g, pos, team, dirs, n - 1) + JumpTarget(g, pos, team, dirs[n - 1])
  }

  /** One jump per offset in `dirs`, in order (calculateJumpMoves). */
  function JumpMoves(g: Grid, pos: Position, team: TeamColor, dirs: seq<Dir>): seq<Move>
  {
    JumpUpTo(g, pos, team, dirs, |dirs|)
  }

  /** ChessPiece.pieceMoves: the pseudo-legal moves of the piece on `pos`.
      The type and team come from the board, so a piece must stand there. */
  function Moves(g: Grid, pos: Position): seq<Move>
    requires OnBoard(pos) && At(g, pos).Some?
  {
    var piece := At(g, pos).value;
    match piece.kind
    case Pawn => PawnMoves(g, pos, piece.color)
    case Rook => LinearMoves(g, pos, piece.color, RookDirs)
    case Knight => JumpMoves(g, pos, piece.color, KnightDirs)
    case Bishop => LinearMoves(g, pos, piece.color, BishopDirs)
    case Queen => LinearMoves(g, pos, piece.color, QueenDirs)
    case King => JumpMoves(g, pos, piece.color, KingDirs)
  }

  /** `k` steps of `d` from `p` land on p + k·d. */
  lemma {:induction false} AheadOffset(p: Position, d: Dir, k: nat)
    ensures Ahead(p, d, k) == Position(p.row + k * d.0, p.col + k * d.1)
    decreases k
  {
    if k > 0 {
      AheadOffset(Step(p, d), d, k - 1);
    }
  }

  /** The square `k` steps from `cur` along `d` can end a slide: it is on the
      board and empty or enemy-held, and every square strictly between is on
      the board and empty. */
  predicate RayReaches(g: Grid, team: TeamColor, d: Dir, cur: Position, k: nat) {
    && OnBoard(Ahead(cur, d, k)) && Enterable(g, Ahead(cur, d, k), team)
    && forall j :: 1 <= j < k ==> OnBoard(Ahead(cur, d, j)) && At(g, Ahead(cur, d, j)).None?
  }

  /** Every move of a ray ends on a square the ray reaches. */
  lemma {:induction false} RaySound(g: Grid, start: Position, team: TeamColor, d: Dir, cur: Position, m: Move)
    requires OnBoard(cur) && UnitDir(d) && m in RayFrom(g, start, team, d, cur)
    ensures exists k: nat :: 1 <= k && RayReaches(g, team, d, cur, k) && m == Move(start, Ahead(cur, d, k), None)
    decreases Reach(cur, d)
  {
    var next := Step(cur, d);
    assert Ahead(cur, d, 1) == next;
    if m == Move(start, next, None) {
      assert RayReaches(g, team, d, cur, 1);
    } else {
      assert OnBoard(next) && At(g, next).None?;
      RaySound(g, start, team, d, next, m);
      var k: nat :| 1 <= k && RayReaches(g, team, d, next, k) && m == Move(start, Ahead(next, d, k), None);
      assert Ahead(cur, d, k + 1) == Ahead(next, d, k);
      forall j | 1 <= j < k + 1
        ensures OnBoard(Ahead(cur, d, j)) && At(g, Ahead(cur, d, j)).None?
      {
        if j > 1 {
          assert Ahead(cur, d, j) == Ahead(next, d, j - 1);
        }
      }
      assert RayReaches(g, team, d, cur, k + 1);
    }
  }

  /** Every square the ray reaches is the end of one of its moves. */
  lemma {:induction false} RayComplete(g: Grid, start: Position, team: TeamColor, d: Dir, cur: Position, k: nat)
    requires OnBoard(cur) && UnitDir(d) && 1 <= k && RayReaches(g, team, d, cur, k)
    ensures Move(start, Ahead(cur, d, k), None) in RayFrom(g, start, team, d, cur)
    decreases k
  {
    var next := Step(cur, d);
    assert Ahead(cur, d, 1) == next;
    if k > 1 {
      assert OnBoard(next) && At(g, next).None?;
      assert Ahead(cur, d, k) == Ahead(next, d, k - 1);
      forall j | 1 <= j < k - 1
        ensures OnBoard(Ahead(next, d, j)) && At(g, Ahead(next, d, j)).None?
      {
        assert Ahead(cur, d, j + 1) == Ahead(next, d, j);
      }
      assert RayReaches(g, team, d, next, k - 1);
      RayComplete(g, start, team, d, next, k - 1);
    }
  }

  /** `m` is a move of the ray from `pos` along `d`. */
  predicate InRay(g: Grid, pos: Position, team: TeamColor, d: Dir, m: Move)
    requires OnBoard(pos) && UnitDir(d)
  {
    m in RayFrom(g, pos, team, d, pos)
  }

  /** The moves along the first `n` directions are the union of their rays. */
  lemma {:induction false} LinearMember(g: Grid, pos: Position, team: TeamColor, dirs: seq<Dir>, n: nat, m: Move)
    requires OnBoard(pos) && AllUnit(dirs) && n <= |dirs|
    ensures m in LinearUpTo(g, pos, team, dirs, n) <==>
      exists i :: 0 <= i < n && InRay(g, pos, team, dirs[i], m)
    decreases n
  {
    if n > 0 {
      LinearMember(g, pos, team, dirs, n - 1, m);
    }
  }

  /** A sliding piece (rook, bishop, queen) moves to exactly the squares
      some ray of its direction table reaches: every square strictly between
      is empty, the slide stops at the first occupied square, and that
      square is included iff it holds an enemy piece. */
  lemma SlidingMoves(g: Grid, pos: Position, team: TeamColor, dirs: seq<Dir>, m: Move)
    requires OnBoard(pos) && AllUnit(dirs)
    ensures m in LinearMoves(g, pos, team, dirs) <==>
      exists i, k: nat :: 0 <= i < |dirs| && 1 <= k && RayReaches(g, team, dirs[i], pos, k)
                          && m == Move(pos, Ahead(pos, dirs[i], k), None)
  {
    LinearMember(g, pos, team, dirs, |dirs|, m);
    if m in LinearMoves(g, pos, team, dirs) {
      var i :| 0 <= i < |dirs| && InRay(g, pos, team, dirs[i], m);
      RaySound(g, pos, team, dirs[i], pos, m);
    }
    if exists i, k: nat :: 0 <= i < |dirs| && 1 <= k && RayReaches(g, team, dirs[i], pos, k)
                          && m == Move(pos, Ahead(pos, dirs[i], k), None) {
      var i, k: nat :| 0 <= i < |dirs| && 1 <= k && RayReaches(g, team, dirs[i], pos, k)
                       && m == Move(pos, Ahead(pos, dirs[i], k), None);
      RayComplete(g, pos, team, dirs[i], pos, k);
    }
  }

  /** `m` is the jump from `pos` by offset `d`: it lands on the board, on a
      square not held by the mover's team. */
  predicate JumpsTo(g: Grid, pos: Position, team: TeamColor, d: Dir, m: Move) {
    OnBoard(Step(pos, d)) && Enterable(g, Step(pos, d), team) && m == Move(pos, Step(pos, d), None)
  }

  /** The jumps over the first `n` offsets are exactly the legal landings. */
  lemma {:induction false} JumpMember(g: Grid, pos: Position, team: TeamColor, dirs: seq<Dir>, n: nat, m: Move)
    requires n <= |dirs|
    ensures m in JumpUpTo(g, pos, team, dirs, n) <==> exists i :: 0 <= i < n && JumpsTo(g, pos, team, dirs[i], m)
    decreases n
  {
    if n > 0 {
      JumpMember(g, pos, team, dirs, n - 1, m);
      if m in JumpTarget(g, pos, team, dirs[n - 1]) {
        assert JumpsTo(g, pos, team, dirs[n - 1], m);
      }
      if JumpsTo(g, pos, team, dirs[n - 1], m) {
        assert m in JumpTarget(g, pos, team, dirs[n - 1]);
      }
    }
  }

  /** Knights and kings generate at most eight moves, each the landing of one
      offset of their table. */
  lemma JumpBounds(g: Grid, pos: Position)
    requires OnBoard(pos) && At(g, pos).Some? && At(g, pos).value.kind in {Knight, King}
    ensures |Moves(g, pos)| <= 8
    ensures var piece := At(g, pos).value;
      var dirs := if piece.kind == Knight then KnightDirs else KingDirs;
      forall m :: m in Moves(g, pos) <==> exists i :: 0 <= i < 8 && JumpsTo(g, pos, piece.color, dirs[i], m)
  {
    var piece := At(g, pos).value;
    var dirs := if piece.kind == Knight then KnightDirs else KingDirs;
    assert Moves(g, pos) == JumpUpTo(g, pos, piece.color, dirs, |dirs|);
    forall m
      ensures m in Moves(g, pos) <==> exists i :: 0 <= i < 8 && JumpsTo(g, pos, piece.color, dirs[i], m)
    {
      JumpMember(g, pos, piece.color, dirs, |dirs|, m);
    }
  }

  /** The pawn rules: a push of one row forward onto an empty square, a push
      of two rows from the start row over two empty squares, or a diagonal
      step forward onto an enemy piece. */
  lemma PawnMoveShape(g: Grid, pos: Position, team: TeamColor, m: Move)
    requires OnBoard(pos) && m in PawnMoves(g, pos, team)
    ensures var f := Forward(team);
      || (m.end == Position(pos.row + f, pos.col) && At(g, m.end).None?)
      || (&& m.end == Position(pos.row + 2 * f, pos.col) && IsPawnStartRow(pos, team)
          && At(g, Position(pos.row + f, pos.col)).None? && At(g, m.end).None? && m.promotion == None)
      || (&& m.end.row == pos.row + f && (m.end.col == pos.col - 1 || m.end.col == pos.col + 1)
          && At(g, m.end).Some? && At(g, m.end).value.color != team)
  {
    var f := Forward(team);
    if m in PawnPush(g, pos, team) {
      PawnStepEnds(pos, Position(pos.row + f, pos.col), team, m);
    } else if m in PawnDoublePush(g, pos, team) {
    } else if m in PawnCapture(g, pos, team, -1) {
      PawnStepEnds(pos, Position(pos.row + f, pos.col - 1), team, m);
    } else {
      assert m in PawnCapture(g, pos, team, 1);
      PawnStepEnds(pos, Position(pos.row + f, pos.col + 1), team, m);
    }
  }

  /** The converse of PawnMoveShape: a push onto an empty square, a double
      push from the start row over two empty squares, and a diagonal step
      onto an enemy piece are all generated, plainly off the last rank and
      with every promotion choice on it. */
  lemma PawnMovesComplete(g: Grid, pos: Position, team: TeamColor, offset: int)
    requires OnBoard(pos) && (offset == -1 || offset == 1)
    ensures var one := Position(pos.row + Forward(team), pos.col);
      OnBoard(one) && At(g, one).None? && !IsPromotionRank(one, team) ==>
        Move(pos, one, None) in PawnMoves(g, pos, team)
    ensures var one := Position(pos.row + Forward(team), pos.col);
      var two := Position(pos.row + 2 * Forward(team), pos.col);
      IsPawnStartRow(pos, team) && OnBoard(two) && At(g, one).None? && At(g, two).None? ==>
        Move(pos, two, None) in PawnMoves(g, pos, team)
    ensures var diag := Position(pos.row + Forward(team), pos.col + offset);
      OnBoard(diag) && At(g, diag).Some? && At(g, diag).value.color != team ==>
        if IsPromotionRank(diag, team)
        then forall t :: t in PromotionTypes ==> Move(pos, diag, Some(t)) in PawnMoves(g, pos, team)
        else Move(pos, diag, None) in PawnMoves(g, pos, team)
  {
    var diag := Position(pos.row + Forward(team), pos.col + offset);
    if OnBoard(diag) && At(g, diag).Some? && At(g, diag).value.color != team {
      var m := PawnStep(pos, diag, team)[0];
      assert m in PawnCapture(g, pos, team, offset);
      assert m in PawnMoves(g, pos, team);
      PawnStepEnds(pos, diag, team, m);
      PawnPromotesOnLastRank(g, pos, team, m);
    }
  }

  /** Every move of a pawn step goes from `start` to `end`. */
  lemma PawnStepEnds(start: Position, end: Position, team: TeamColor, m: Move)
    requires m in PawnStep(start, end, team)
    ensures m.start == start && m.end == end
  {
    if IsPromotionRank(end, team) {
      var i :| 0 <= i < 4 && PromotionMoves(start, end)[i] == m;
    }
  }

  /** A pawn step promotes exactly on the last rank, and there it offers
      every promotion choice. */
  lemma PawnStepPromotes(start: Position, end: Position, team: TeamColor, m: Move)
    requires m in PawnStep(start, end, team)
    ensures m.promotion.Some? <==> IsPromotionRank(end, team)
    ensures IsPromotionRank(end, team) ==>
      forall t :: t in PromotionTypes ==> Move(start, end, Some(t)) in PawnStep(start, end, team)
  {
    if IsPromotionRank(end, team) {
      var i :| 0 <= i < 4 && PromotionMoves(start, end)[i] == m;
      forall t | t in PromotionTypes
        ensures Move(start, end, Some(t)) in PawnStep(start, end, team)
      {
        var k :| 0 <= k < 4 && PromotionTypes[k] == t;
        assert PromotionMoves(start, end)[k] == Move(start, end, Some(t));
      }
    }
  }

  /** A pawn move carries a promotion exactly when it lands on the last
      rank, whether it is a push or a capture; and a pawn landing there
      may promote to each of the four choices. */
  lemma PawnPromotesOnLastRank(g: Grid, pos: Position, team: TeamColor, m: Move)
    requires OnBoard(pos) && m in PawnMoves(g, pos, team)
    ensures m.promotion.Some? <==> IsPromotionRank(m.end, team)
    ensures IsPromotionRank(m.end, team) ==>
      forall t :: t in PromotionTypes ==> Move(pos, m.end, Some(t)) in PawnMoves(g, pos, team)
  {
    var f := Forward(team);
    if m in PawnPush(g, pos, team) {
      var e := Position(pos.row + f, pos.col);
      PawnStepEnds(pos, e, team, m);
      PawnStepPromotes(pos, e, team, m);
    } else if m in PawnDoublePush(g, pos, team) {
    } else if m in PawnCapture(g, pos, team, -1) {
      var e := Position(pos.row + f, pos.col - 1);
      PawnStepEnds(pos, e, team, m);
      PawnStepPromotes(pos, e, team, m);
    } else {
      assert m in PawnCapture(g, pos, team, 1);
      var e := Position(pos.row + f, pos.col + 1);
      PawnStepEnds(pos, e, team, m);
      PawnStepPromotes(pos, e, team, m);
    }
  }

  /** A pawn reaching the last rank gets exactly the four promotion choices. */
  lemma PawnPromotionChoices(g: Grid, pos: Position, team: TeamColor, t: PieceType)
    requires OnBoard(pos)
    requires var one := Position(pos.row + Forward(team), pos.col);
      OnBoard(one) && At(g, one).None? && IsPromotionRank(one, team)
    ensures var one := Position(pos.row + Forward(team), pos.col);
      Move(pos, one, Some(t)) in PawnMoves(g, pos, team) <==> t in PromotionTypes
  {
    var one := Position(pos.row + Forward(team), pos.col);
    if t in PromotionTypes {
      var i :| 0 <= i < 4 && PromotionTypes[i] == t;
      assert PromotionMoves(pos, one)[i] == Move(pos, one, Some(t));
    }
  }

  /** The team on square `p`, or None when it is empty. */
  function ColourAt(g: Grid, p: Position): Option<TeamColor>
    requires OnBoard(p)
  {
    if At(g, p).None? then None else Some(At(g, p).value.color)
  }

  /** Both grids hold pieces of the same teams on the same squares (their
      types may differ). */
  ghost predicate SameColours(g1: Grid, g2: Grid) {
    forall p :: OnBoard(p) ==> ColourAt(g1, p) == ColourAt(g2, p)
  }

  lemma {:induction false} RayCongruent(g1: Grid, g2: Grid, start: Position, team: TeamColor, d: Dir, cur: Position)
    requires SameColours(g1, g2) && OnBoard(cur) && UnitDir(d)
    ensures RayFrom(g1, start, team, d, cur) == RayFrom(g2, start, team, d, cur)
    decreases Reach(cur, d)
  {
    var next := Step(cur, d);
    if OnBoard(next) {
      assert ColourAt(g1, next) == ColourAt(g2, next);
      if At(g1, next).None? {
        RayCongruent(g1, g2, start, team, d, next);
      }
    }
  }

  lemma {:induction false} LinearCongruent(g1: Grid, g2: Grid, pos: Position, team: TeamColor, dirs: seq<Dir>, n: nat)
    requires SameColours(g1, g2) && OnBoard(pos) && AllUnit(dirs) && n <= |dirs|
    ensures LinearUpTo(g1, pos, team, dirs, n) == LinearUpTo(g2, pos, team, dirs, n)
    decreases n
  {
    if n > 0 {
      LinearCongruent(g1, g2, pos, team, dirs, n - 1);
      RayCongruent(g1, g2, pos, team, dirs[n - 1], pos);
    }
  }

  lemma {:induction false} JumpCongruent(g1: Grid, g2: Grid, pos: Position, team: TeamColor, dirs: seq<Dir>, n: nat)
    requires SameColours(g1, g2) && n <= |dirs|
    ensures JumpUpTo(g1, pos, team, dirs, n) == JumpUpTo(g2, pos, team, dirs, n)
    decreases n
  {
    if n > 0 {
      JumpCongruent(g1, g2, pos, team, dirs, n - 1);
      JumpTargetCongruent(g1, g2, pos, team, dirs[n - 1]);
    }
  }

  lemma JumpTargetCongruent(g1: Grid, g2: Grid, pos: Position, team: TeamColor, d: Dir)
    requires SameColours(g1, g2)
    ensures JumpTarget(g1, pos, team, d) == JumpTarget(g2, pos, team, d)
  {
    var next := Step(pos, d);
    if OnBoard(next) {
      EnterableCongruent(g1, g2, next, team);
    }
  }

  lemma EnterableCongruent(g1: Grid, g2: Grid, p: Position, team: TeamColor)
    requires SameColours(g1, g2) && OnBoard(p)
    ensures Enterable(g1, p, team) == Enterable(g2, p, team)
  {
    assert ColourAt(g1, p) == ColourAt(g2, p);
  }

  lemma PawnCongruent(g1: Grid, g2: Grid, pos: Position, team: TeamColor)
    requires SameColours(g1, g2) && OnBoard(pos)
    ensures PawnMoves(g1, pos, team) == PawnMoves(g2, pos, team)
  {
    var f := Forward(team);
    var one := Position(pos.row + f, pos.col);
    var two := Position(pos.row + 2 * f, pos.col);
    if OnBoard(one) { assert ColourAt(g1, one) == ColourAt(g2, one); }
    if OnBoard(two) { assert ColourAt(g1, two) == ColourAt(g2, two); }
    assert PawnPush(g1, pos, team) == PawnPush(g2, pos, team);
    assert PawnDoublePush(g1, pos, team) == PawnDoublePush(g2, pos, team);
    CaptureCongruent(g1, g2, pos, team, -1);
    CaptureCongruent(g1, g2, pos, team, 1);
  }

  lemma CaptureCongruent(g1: Grid, g2: Grid, pos: Position, team: TeamColor, offset: int)
    requires SameColours(g1, g2) && OnBoard(pos)
    ensures PawnCapture(g1, pos, team, offset) == PawnCapture(g2, pos, team, offset)
  {
    var diag := Position(pos.row + Forward(team), pos.col + offset);
    if OnBoard(diag) { assert ColourAt(g1, diag) == ColourAt(g2, diag); }
  }

  /** The moves of a piece depend only on which squares hold which team, not
      on the types of the other pieces. */
  lemma MovesCongruent(g1: Grid, g2: Grid, pos: Position)
    requires SameColours(g1, g2) && OnBoard(pos) && At(g1, pos).Some? && At(g1, pos) == At(g2, pos)
    ensures Moves(g1, pos) == Moves(g2, pos)
  {
    var piece := At(g1, pos).value;
    match piece.kind
    case Pawn => PawnCongruent(g1, g2, pos, piece.color);
    case Rook => LinearCongruent(g1, g2, pos, piece.color, RookDirs, 4);
    case Bishop => LinearCongruent(g1, g2, pos, piece.color, BishopDirs, 4);
    case Queen => LinearCongruent(g1, g2, pos, piece.color, QueenDirs, 8);
    case Knight => JumpCongruent(g1, g2, pos, piece.color, KnightDirs, 8);
    case King => JumpCongruent(g1, g2, pos, piece.color, KingDirs, 8);
  }

  /** A move the piece on `pos` may be offered: it starts on `pos`, ends on
      another on-board square that is empty or enemy-held, and only a pawn
      move carries a promotion, always to one of the four promotion types. */
  predicate SoundMove(g: Grid, pos: Position, m: Move)
    requires OnBoard(pos) && At(g, pos).Some?
  {
    && m.start == pos && OnBoard(m.end) && m.end != pos
    && Enterable(g, m.end, At(g, pos).value.color)
    && (m.promotion.Some? ==> At(g, pos).value.kind == Pawn && m.promotion.value in PromotionTypes)
  }

  lemma PawnStepSound(g: Grid, pos: Position, end: Position, m: Move)
    requires OnBoard(pos) && At(g, pos).Some? && At(g, pos).value.kind == Pawn
    requires OnBoard(end) && end != pos && Enterable(g, end, At(g, pos).value.color)
    requires m in PawnStep(pos, end, At(g, pos).value.color)
    ensures SoundMove(g, pos, m)
  {
    if IsPromotionRank(end, At(g, pos).value.color) {
      var i :| 0 <= i < 4 && PromotionMoves(pos, end)[i] == m;
    }
  }

  lemma PawnSound(g: Grid, pos: Position, m: Move)
    requires OnBoard(pos) && At(g, pos).Some? && At(g, pos).value.kind == Pawn
    requires m in PawnMoves(g, pos, At(g, pos).value.color)
    ensures SoundMove(g, pos, m)
  {
    var team := At(g, pos).value.color;
    var f := Forward(team);
    var one := Position(pos.row + f, pos.col);
    if m in PawnPush(g, pos, team) {
      PawnStepSound(g, pos, one, m);
    } else if m in PawnDoublePush(g, pos, team) {
    } else if m in PawnCapture(g, pos, team, -1) {
      PawnStepSound(g, pos, Position(pos.row + f, pos.col - 1), m);
    } else {
      assert m in PawnCapture(g, pos, team, 1);
      PawnStepSound(g, pos, Position(pos.row + f, pos.col + 1), m);
    }
  }

  lemma SlideSound(g: Grid, pos: Position, dirs: seq<Dir>, m: Move)
    requires OnBoard(pos) && At(g, pos).Some? && AllUnit(dirs)
    requires m in LinearMoves(g, pos, At(g, pos).value.color, dirs)
    ensures SoundMove(g, pos, m)
  {
    var team := At(g, pos).value.color;
    LinearMember(g, pos, team, dirs, |dirs|, m);
    var i :| 0 <= i < |dirs| && InRay(g, pos, team, dirs[i], m);
    var d := dirs[i];
    RaySound(g, pos, team, d, pos, m);
    var k: nat :| 1 <= k && RayReaches(g, team, d, pos, k) && m == Move(pos, Ahead(pos, d, k), None);
    AheadLeaves(pos, d, k);
  }

  /** A slide of at least one step never returns to its start. */
  lemma AheadLeaves(p: Position, d: Dir, k: nat)
    requires UnitDir(d) && 1 <= k
    ensures Ahead(p, d, k) != p
  {
    AheadOffset(p, d, k);
    if d.0 == 1 {
      assert k * d.0 == k;
    } else if d.0 == -1 {
      assert k * d.0 < 0;
    } else if d.1 == 1 {
      assert k * d.1 == k;
    } else {
      assert k * d.1 < 0;
    }
  }

  lemma JumpSound(g: Grid, pos: Position, dirs: seq<Dir>, m: Move)
    requires OnBoard(pos) && At(g, pos).Some?
    requires dirs == KnightDirs || dirs == KingDirs
    requires m in JumpMoves(g, pos, At(g, pos).value.color, dirs)
    ensures SoundMove(g, pos, m)
  {
    JumpMember(g, pos, At(g, pos).value.color, dirs, |dirs|, m);
  }

  /** The sliding pieces' tables hold unit steps only. */
  lemma SlidingTables()
    ensures AllUnit(RookDirs) && AllUnit(BishopDirs) && AllUnit(QueenDirs)
  {
  }

  /** One move of pieceMoves is a SoundMove. */
  lemma MoveSound(g: Grid, pos: Position, m: Move)
    requires OnBoard(pos) && At(g, pos).Some? && m in Moves(g, pos)
    ensures SoundMove(g, pos, m)
  {
    SlidingTables();
    var piece := At(g, pos).value;
    if piece.kind == Pawn {
      assert Moves(g, pos) == PawnMoves(g, pos, piece.color);
      PawnSound(g, pos, m);
    } else if piece.kind == Rook {
      assert Moves(g, pos) == LinearMoves(g, pos, piece.color, RookDirs);
      SlideSound(g, pos, RookDirs, m);
    } else if piece.kind == Bishop {
      assert Moves(g, pos) == LinearMoves(g, pos, piece.color, BishopDirs);
      SlideSound(g, pos, BishopDirs, m);
    } else if piece.kind == Queen {
      assert Moves(g, pos) == LinearMoves(g, pos, piece.color, QueenDirs);
      SlideSound(g, pos, QueenDirs, m);
    } else if piece.kind == Knight {
      assert Moves(g, pos) == JumpMoves(g, pos, piece.color, KnightDirs);
      JumpSound(g, pos, KnightDirs, m);
    } else {
      assert Moves(g, pos) == JumpMoves(g, pos, piece.color, KingDirs);
      JumpSound(g, pos, KingDirs, m);
    }
  }

  /** Every move pieceMoves offers is a SoundMove. */
  lemma MovesSound(g: Grid, pos: Position)
    requires OnBoard(pos) && At(g, pos).Some?
    ensures forall m :: m in Moves(g, pos) ==> SoundMove(g, pos, m)
  {
    forall m | m in Moves(g, pos)
      ensures SoundMove(g, pos, m)
    {
      MoveSound(g, pos, m);
    }
  }
}
