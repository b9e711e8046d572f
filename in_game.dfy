/** The in-game client's pure parts: reading a square such as "e2", a
    promotion letter and a whole "move <from> <to> [promotion]" command,
    and the set of squares `highlight` marks for a piece. */
module InGame {
  import opened Wrappers
  import opened ChessTypes
  import opened Board
  import opened MoveRules
  import opened Rules
  import opened Text
  import opened Game

  /** The IllegalArgumentException messages of the parser. */
  datatype ParseError =
    | Usage                     // "Usage: move <from> <to> [promotion]"
    | InvalidSquare(s: string)  // "Invalid square: " + s
    | InvalidPromotion(s: string)  // "Invalid promotion piece: " + s

  /** A file letter 'a'..'h' followed by a rank digit '1'..'8'. */
  predicate IsSquareName(s: string) {
    |s| == 2 && 'a' <= s[0] <= 'h' && '1' <= s[1] <= '8'
  }

  /** parsePosition: the file gives the column (a = 1), the rank the row. */
  function ParsePosition(pos: string): (r: Result<Position, ParseError>)
    ensures r.Ok? <==> IsSquareName(pos)
    ensures r.Ok? ==> OnBoard(r.value)
    ensures r.Err? ==> r.error == InvalidSquare(pos)
  {
    if |pos| != 2 then Err(InvalidSquare(pos))
    else
      var file := pos[0];
      var rank := pos[1];
      if file < 'a' || file > 'h' || rank < '1' || rank > '8' then Err(InvalidSquare(pos))
      else Ok(Position(rank as int - '0' as int, file as int - 'a' as int + 1))
  }

  /** The name of an on-board square, as a player types it. */
  function SquareName(p: Position): (s: string)
    requires OnBoard(p)
    ensures IsSquareName(s)
  {
    [('a' as int + p.col - 1) as char, ('0' as int + p.row) as char]
  }

  /** Every square parses back from its name, and every name that parses
      is the name of the square it gives: the two are inverse. */
  lemma SquareNameRoundTrip(p: Position, s: string)
    requires OnBoard(p)
    ensures ParsePosition(SquareName(p)) == Ok(p)
    ensures ParsePosition(s) == Ok(p) ==> SquareName(p) == s
  {
  }

  /** Squares with different names are different positions. */
  lemma ParsePositionInjective(s1: string, s2: string)
    requires ParsePosition(s1).Ok? && ParsePosition(s2).Ok?
    requires ParsePosition(s1) == ParsePosition(s2)
    ensures s1 == s2
  {
    SquareNameRoundTrip(ParsePosition(s1).value, s1);
    SquareNameRoundTrip(ParsePosition(s2).value, s2);
  }

  /** The piece types a pawn may promote to. */
  predicate Promotable(t: PieceType) {
    t == Queen || t == Rook || t == Bishop || t == Knight
  }

  /** parsePromotion. */
  function ParsePromotion(p: string): (r: Result<PieceType, ParseError>)
    ensures r.Ok? ==> Promotable(r.value) && r.value in PromotionTypes
    ensures r.Ok? <==> p == "q" || p == "r" || p == "b" || p == "n"
    ensures r.Err? ==> r.error == InvalidPromotion(p)
  {
    if p == "q" then Ok(Queen)
    else if p == "r" then Ok(Rook)
    else if p == "b" then Ok(Bishop)
    else if p == "n" then Ok(Knight)
    else Err(InvalidPromotion(p))
  }

  /** The letter a player types for a promotion piece. */
  function PromotionLetter(t: PieceType): (s: string)
    requires Promotable(t)
    ensures |s| == 1 && 'a' <= s[0] <= 'z'
  {
    match t
    case Queen => "q"
    case Rook => "r"
    case Bishop => "b"
    case Knight => "n"
  }

  /** Letters and promotion pieces are inverse. */
  lemma PromotionLetterRoundTrip(t: PieceType, s: string)
    requires Promotable(t)
    ensures ParsePromotion(PromotionLetter(t)) == Ok(t)
    ensures ParsePromotion(s) == Ok(t) ==> PromotionLetter(t) == s
  {
  }

  /** The tokens of a command line: trimmed, lower-cased, split on runs of
      whitespace. */
  function Tokens(input: string): (ws: seq<string>)
    ensures forall k :: 0 <= k < |ws| ==> IsWord(ws[k])
  {
    Words(ToLower(Trim(input)))
  }

  /** parseMove on the tokens of the command: three or four tokens; the
      second and third are the squares and the fourth, when there is one,
      the promotion. The first token is not looked at. */
  function ParseParts(parts: seq<string>): (r: Result<Move, ParseError>)
    ensures |parts| < 3 || |parts| > 4 ==> r == Err(Usage)
    ensures r.Ok? ==> OnBoard(r.value.start) && OnBoard(r.value.end)
    ensures r.Ok? ==> (r.value.promotion.None? <==> |parts| == 3)
    ensures r.Ok? && r.value.promotion.Some? ==> Promotable(r.value.promotion.value)
    ensures r.Ok? ==>
      && SquareName(r.value.start) == parts[1]
      && SquareName(r.value.end) == parts[2]
      && (r.value.promotion.Some? ==> PromotionLetter(r.value.promotion.value) == parts[3])
    ensures 3 <= |parts| <= 4 && !IsSquareName(parts[1]) ==> r == Err(InvalidSquare(parts[1]))
    ensures 3 <= |parts| <= 4 && IsSquareName(parts[1]) && !IsSquareName(parts[2]) ==>
      r == Err(InvalidSquare(parts[2]))
    ensures 3 <= |parts| <= 4 && IsSquareName(parts[1]) && IsSquareName(parts[2]) ==>
      (r.Ok? <==> |parts| == 3 || ParsePromotion(parts[3]).Ok?)
      && (r.Err? ==> r == Err(InvalidPromotion(parts[3])))
  {
    if |parts| < 3 || |parts| > 4 then Err(Usage)
    else
      match ParsePosition(parts[1])
      case Err(e) => Err(e)
      case Ok(from) =>
        SquareNameRoundTrip(from, parts[1]);
        match ParsePosition(parts[2])
        case Err(e) => Err(e)
        case Ok(to) =>
          SquareNameRoundTrip(to, parts[2]);
          if |parts| == 4 then
            match ParsePromotion(parts[3])
            case Err(e) => Err(e)
            case Ok(promo) =>
              PromotionLetterRoundTrip(promo, parts[3]);
              Ok(Move(from, to, Some(promo)))
          else Ok(Move(from, to, None))
  }

  /** parseMove: the command is trimmed, lower-cased and split, and its
      tokens are read as above. */
  function ParseMove(input: string): (r: Result<Move, ParseError>)
    ensures |Tokens(input)| < 3 || |Tokens(input)| > 4 ==> r == Err(Usage)
    ensures r.Ok? ==> OnBoard(r.value.start) && OnBoard(r.value.end)
    ensures r.Ok? ==> (r.value.promotion.None? <==> |Tokens(input)| == 3)
    ensures r.Ok? && r.value.promotion.Some? ==> Promotable(r.value.promotion.value)
    ensures r.Ok? ==>
      && SquareName(r.value.start) == Tokens(input)[1]
      && SquareName(r.value.end) == Tokens(input)[2]
      && (r.value.promotion.Some? ==> PromotionLetter(r.value.promotion.value) == Tokens(input)[3])
    ensures 3 <= |Tokens(input)| <= 4 && !IsSquareName(Tokens(input)[1]) ==>
      r == Err(InvalidSquare(Tokens(input)[1]))
    ensures 3 <= |Tokens(input)| <= 4 && IsSquareName(Tokens(input)[1]) && !IsSquareName(Tokens(input)[2]) ==>
      r == Err(InvalidSquare(Tokens(input)[2]))
    ensures 3 <= |Tokens(input)| <= 4 && IsSquareName(Tokens(input)[1]) && IsSquareName(Tokens(input)[2]) ==>
      (r.Ok? <==> |Tokens(input)| == 3 || ParsePromotion(Tokens(input)[3]).Ok?)
      && (r.Err? ==> r == Err(InvalidPromotion(Tokens(input)[3])))
  {
    ParseParts(Tokens(input))
  }

  /** A move whose squares are on the board and whose promotion, if any, is
      one a pawn may take. */
  predicate Typeable(m: Move) {
    OnBoard(m.start) && OnBoard(m.end) && (m.promotion.Some? ==> Promotable(m.promotion.value))
  }

  /** The tokens of the command that makes move `m`. */
  function MoveWords(m: Move): (ws: seq<string>)
    requires Typeable(m)
    ensures |ws| == 3 || |ws| == 4
  {
    ["move", SquareName(m.start), SquareName(m.end)]
      + (if m.promotion.Some? then [PromotionLetter(m.promotion.value)] else [])
  }

  /** The command line that makes move `m`: its tokens joined by spaces. */
  function MoveCommand(m: Move): string
    requires Typeable(m)
  {
    Unwords(MoveWords(m))
  }

  /** Each token of a move command is a word trim, toLowerCase and the
      split leave as it is. */
  lemma MoveWordsPlain(m: Move)
    requires Typeable(m)
    ensures forall k :: 0 <= k < |MoveWords(m)| ==>
      IsWord(MoveWords(m)[k]) && Trimmed(MoveWords(m)[k]) && ToLower(MoveWords(m)[k]) == MoveWords(m)[k]
  {
    var ws := MoveWords(m);
    forall k | 0 <= k < |ws|
      ensures IsWord(ws[k]) && Trimmed(ws[k]) && ToLower(ws[k]) == ws[k]
    {
      CaseMappingFacts(ws[k]);
    }
  }

  /** parseMove reads back every move a player can type, with or without
      a promotion. */
  lemma ParseMoveCommand(m: Move)
    requires Typeable(m)
    ensures ParseMove(MoveCommand(m)) == Ok(m)
  {
    var ws := MoveWords(m);
    var s := Unwords(ws);
    MoveWordsPlain(m);
    TrimmedUnwords(ws);
    TrimOfTrimmed(s);
    LowerOfUnwords(ws);
    WordsOfUnwords(ws);
    assert Tokens(s) == ws;
    SquareNameRoundTrip(m.start, ws[1]);
    SquareNameRoundTrip(m.end, ws[2]);
    if m.promotion.Some? {
      PromotionLetterRoundTrip(m.promotion.value, ws[3]);
    }
  }

  /** The end squares of `ms`. */
  function Ends(ms: seq<Move>): (s: set<Position>)
    ensures forall i :: 0 <= i < |ms| ==> ms[i].end in s
    ensures forall q :: q in s ==> exists i :: 0 <= i < |ms| && ms[i].end == q
    ensures |s| <= |ms|
  {
    if ms == [] then {}
    else Ends(ms[..|ms| - 1]) + {ms[|ms| - 1].end}
  }

  /** What `highlight` does: no game yet, no piece on the square, or the
      squares to mark. */
  datatype Highlighting = NoBoard | EmptySquare | Squares(squares: set<Position>)

  /** The squares highlight marks: the chosen square and the end of each of
      its legal moves. */
  function Highlights(g: Grid, pos: Position): Highlighting
    requires OnBoard(pos)
  {
    if At(g, pos).None? then EmptySquare
    else Squares({pos} + Ends(LegalMoves(g, pos).value))
  }

  /** An empty square is not highlighted; otherwise the chosen square is
      marked, and so is the end of every legal move. */
  lemma HighlightsSpec(g: Grid, pos: Position)
    requires OnBoard(pos)
    ensures Highlights(g, pos) == EmptySquare <==> At(g, pos).None?
    ensures Highlights(g, pos).Squares? ==>
      var ms := LegalMoves(g, pos).value;
      && pos in Highlights(g, pos).squares
      && forall i :: 0 <= i < |ms| ==> ms[i].end in Highlights(g, pos).squares
  {
  }

  /** Every marked square other than the chosen one is the end of a legal
      move, on the board, and empty or held by the other team. */
  lemma HighlightedSquare(g: Grid, pos: Position, q: Position)
    requires OnBoard(pos) && Highlights(g, pos).Squares?
    requires q in Highlights(g, pos).squares && q != pos
    ensures exists i :: 0 <= i < |LegalMoves(g, pos).value| && LegalMoves(g, pos).value[i].end == q
    ensures OnBoard(q) && Enterable(g, q, At(g, pos).value.color)
  {
    var ms := LegalMoves(g, pos).value;
    var i :| 0 <= i < |ms| && ms[i].end == q;
    LegalMovesSound(g, pos, ms[i]);
  }

  /** The loop of highlight: `pos` and the end square of each move. */
  method MarkEnds(pos: Position, moves: seq<Move>) returns (highlights: set<Position>)
    ensures highlights == {pos} + Ends(moves)
  {
    highlights := {pos};
    for i := 0 to |moves|
      invariant highlights == {pos} + Ends(moves[..i])
    {
      assert moves[..i + 1][..i] == moves[..i];
      highlights := highlights + {moves[i].end};
    }
    assert moves[..|moves|] == moves;
  }

  /** highlight on the client's current game, which may not exist yet. The
      legal moves are found by ChessGame.validMoves, which tries each move
      on the board and puts it back. */
  method Highlight(game: ChessGame?, pos: Position) returns (h: Highlighting)
    requires OnBoard(pos)
    requires game != null ==> game.Valid()
    modifies if game == null then {} else {game.board, game.board.layout}
    ensures game == null ==> h == NoBoard
    ensures game != null ==>
      game.Valid() && game.board.grid == old(game.board.grid)
      && h == Highlights(game.board.grid, pos)
  {
    if game == null {
      return NoBoard;
    }
    var piece := game.board.GetPiece(pos);
    if piece.None? {
      return EmptySquare;
    }
    var valid := game.ValidMoves(pos);
    var highlights := MarkEnds(pos, valid.value);
    return Squares(highlights);
  }
}
