# chess-javalin in Dafny

A verified model of the core of chess-javalin, a two-player online chess
game with three parts:

- **Engine** (`shared/.../chess`). Board squares, pieces, the moves each
  piece type generates, and the game rules. A move is legal when it does not
  leave the mover's own king in check. The engine also detects check,
  checkmate and stalemate.
- **Server services** (`server/.../service`, `server/.../dataaccess`).
  Registration, login and logout with auth tokens. Creating, listing, joining
  and resigning games, and making moves, over in-memory stores.
- **Client parser** (`client/.../ui/InGameUI.java`). Reads the
  `move <from> <to> [promotion]` command and square names such as `e2`, and
  computes the squares `highlight` marks for a piece.

The modules follow the program's structure:

| file | module | models |
|---|---|---|
| `wrappers.dfy` | `Wrappers` | `Option` and `Result` |
| `chess_types.dfy` | `ChessTypes` | `ChessPosition`, `ChessMove`, `ChessPiece` values, `TeamColor` |
| `board.dfy` | `Board` | `ChessBoard`, a class over an 8×8 array (`layout[col-1][row-1]`) |
| `move_rules.dfy` | `MoveRules` | what `pieceMoves` generates, as functions, with soundness and completeness lemmas |
| `chess_piece.dfy` | `ChessPiece` | `pieceMoves` and its helpers, as methods that append to a move list |
| `rules.dfy` | `Rules` | legality, check, checkmate and stalemate, as functions on a grid |
| `game.dfy` | `Game` | `ChessGame`, a class whose methods try moves on the board in place and undo them |
| `data_access.dfy` | `DataAccess` | `MemoryGameDAO`, `MemoryUserDAO`, `MemoryAuthDAO` |
| `text.dfy` | `Text` | `trim`, `toUpperCase`/`toLowerCase`, `equalsIgnoreCase`, `split("\\s+")` |
| `services.dfy` | `Services` | `UserService` and `GameService` |
| `in_game.dfy` | `InGame` | `parseMove`, `parsePosition`, `parsePromotion`, `highlight` |

Java code that loops or mutates is modelled by Dafny `method`s:

- `ChessBoard`, `ChessGame`, the three memory stores, `UserService` and
  `GameService` are classes with the Java fields. Their methods update
  those fields in place.
- `pieceMoves` and its helpers are module-level methods in `ChessPiece`.
  Each one takes the move list built so far and returns it with its own
  moves appended. `checkEnemyMoves` and the `contains` scan are
  module-level methods in `Game`.

A method's `ensures` ties its result, or the new state, to a specification
function:

- the engine methods to functions in `MoveRules` and `Rules`;
- the service methods to functions in `Services`, over the stores' contents;
- `highlight` to `InGame.Highlights`.

The store methods state their new maps directly. The lemmas state what the
game promises about those functions:

- Every generated move is sound.
- A legal move never leaves the mover in check.
- Checkmate and stalemate are the two ways of having no legal move.
- A seat, once taken, is refused to every other user.
- Square names, promotion letters and whole move commands parse back to what
  printed them.

## Model

| member | source | states |
|---|---|---|
| ChessTypes.Other | shared/src/main/java/chess/ChessGame.java:99 | the turn passes to the other team, never to the same one |
| ChessTypes.PositionEquals | shared/src/main/java/chess/ChessPosition.java:45-50 | two positions are equal exactly when row and column agree |
| ChessTypes.MoveEquals | shared/src/main/java/chess/ChessMove.java:55-61 | two moves are equal exactly when start, end and promotion piece agree |
| ChessTypes.PieceEquals | shared/src/main/java/chess/ChessPiece.java:250-256 | two pieces are equal exactly when colour and type agree |
| ChessTypes.EqualsReflexive | shared/src/main/java/chess/ChessPosition.java:45-50 | every position and every move equals itself |
| Board.Put | shared/src/main/java/chess/ChessBoard.java:23-25 | placing a piece changes that one square and leaves every other square as it was |
| Board.EmptyGrid | shared/src/main/java/chess/ChessBoard.java:71-75 | the cleared board holds no piece on any square |
| Board.StartingGrid | shared/src/main/java/chess/ChessBoard.java:42-66 | the reset board holds the standard opening set-up on every square: back ranks, pawn ranks, empty middle |
| Board.StartingKings | shared/src/main/java/chess/ChessBoard.java:42-66 | on the reset board the white king stands only on e1 and the black king only on e8 |
| Board.ChessBoard.constructor | shared/src/main/java/chess/ChessBoard.java:13-15 | a new board is empty |
| Board.ChessBoard.GetPiece | shared/src/main/java/chess/ChessBoard.java:34-36 | returns the piece on the square, or none |
| Board.ChessBoard.AddPiece | shared/src/main/java/chess/ChessBoard.java:23-25 | the new board is the old one with that square set and no other square changed |
| Board.ChessBoard.ClearBoard | shared/src/main/java/chess/ChessBoard.java:71-75 | afterwards every square is empty |
| Board.ChessBoard.ResetBoard | shared/src/main/java/chess/ChessBoard.java:42-66 | afterwards the board is the standard starting position |
| Board.ChessBoard.Equals | shared/src/main/java/chess/ChessBoard.java:81-86 | two boards are equal exactly when every square holds the same piece |
| MoveRules.AheadOffset | shared/src/main/java/chess/ChessPiece.java:186-211 | the k-th square along a direction is the start shifted k times by that direction |
| MoveRules.RaySound | shared/src/main/java/chess/ChessPiece.java:184-213 | every slide move crosses only empty squares and ends on an empty or enemy square on the board |
| MoveRules.RayComplete | shared/src/main/java/chess/ChessPiece.java:184-213 | every such square along a direction is reached by a slide move: the ray stops only at the edge or at the first piece |
| MoveRules.LinearMember | shared/src/main/java/chess/ChessPiece.java:184-213 | a move is produced by the linear scan exactly when it is a slide along one of the given directions |
| MoveRules.SlidingMoves | shared/src/main/java/chess/ChessPiece.java:92-135 | rook, bishop and queen moves are exactly the slides along their direction tables |
| MoveRules.JumpMember | shared/src/main/java/chess/ChessPiece.java:218-245 | a move is produced by the jump scan exactly when it lands one offset away, on the board, on an empty or enemy square |
| MoveRules.JumpBounds | shared/src/main/java/chess/ChessPiece.java:101-148 | knights and kings produce at most eight moves, each one table offset away |
| MoveRules.PawnMoveShape | shared/src/main/java/chess/ChessPiece.java:64-91 | every pawn move is a single step onto an empty square, a double step from the home rank over two empty squares, or a diagonal capture of an enemy piece |
| MoveRules.PawnMovesComplete | shared/src/main/java/chess/ChessPiece.java:58-91 | the converse of the pawn shape: a push onto an empty square, a double push from the start row over two empty squares and a diagonal step onto an enemy are all generated, plain off the last rank and with every promotion choice on it |
| MoveRules.PawnStepEnds | shared/src/main/java/chess/ChessPiece.java:65-80 | every move of a pawn step, promoting or not, goes from the given start square to the given end square |
| MoveRules.PawnPromotionChoices | shared/src/main/java/chess/ChessPiece.java:163-179 | when a pawn's single step lands on an empty last-rank square, it has a promotion move there for exactly the four promotion types |
| MoveRules.PawnStepPromotes | shared/src/main/java/chess/ChessPiece.java:163-179 | a pawn step carries a promotion exactly when it lands on the last rank, and there it offers every one of the four choices |
| MoveRules.PawnPromotesOnLastRank | shared/src/main/java/chess/ChessPiece.java:64-91 | every pawn move, push or capture, carries a promotion exactly when it lands on the last rank, and a pawn landing there may promote to each of queen, rook, bishop and knight |
| MoveRules.MovesCongruent | shared/src/main/java/chess/ChessPiece.java:54-151 | two boards with the same colours on the same squares and the same piece on the start square generate the same moves |
| MoveRules.PawnStepSound | shared/src/main/java/chess/ChessPiece.java:65-80 | pawn steps are sound moves |
| MoveRules.PawnSound | shared/src/main/java/chess/ChessPiece.java:64-91 | every pawn move is sound |
| MoveRules.SlideSound | shared/src/main/java/chess/ChessPiece.java:184-213 | every slide move is sound |
| MoveRules.JumpSound | shared/src/main/java/chess/ChessPiece.java:218-245 | every jump move is sound |
| MoveRules.MoveSound | shared/src/main/java/chess/ChessPiece.java:54-151 | each generated move starts at the piece's square and ends on another on-board square that is empty or enemy; only pawns promote, and only to queen, rook, bishop or knight |
| MoveRules.MovesSound | shared/src/main/java/chess/ChessPiece.java:54-151 | every move in the generated list is sound |
| ChessPiece.AddPromotionMoves | shared/src/main/java/chess/ChessPiece.java:171-179 | appends one promotion move per promotion type to the list |
| ChessPiece.CalculateLinearMoves | shared/src/main/java/chess/ChessPiece.java:184-213 | appends exactly the slide moves along every direction, in direction order |
| ChessPiece.Slide | shared/src/main/java/chess/ChessPiece.java:186-211 | the inner loop for one direction appends exactly that direction's ray |
| ChessPiece.CalculateJumpMoves | shared/src/main/java/chess/ChessPiece.java:218-245 | appends exactly the jump moves of the offset table, in table order |
| ChessPiece.AddPawnStep | shared/src/main/java/chess/ChessPiece.java:65-80 | appends the pawn's forward steps, with promotion on the last rank |
| ChessPiece.AddPawnCapture | shared/src/main/java/chess/ChessPiece.java:81-90 | appends the diagonal capture of an enemy piece for one side, with promotion on the last rank |
| ChessPiece.CalculatePawnMoves | shared/src/main/java/chess/ChessPiece.java:64-91 | appends exactly the pawn moves: steps first, then captures to the left and right |
| ChessPiece.PieceMoves | shared/src/main/java/chess/ChessPiece.java:54-151 | for a square holding a piece, as at every call site, returns exactly the moves the specification assigns to that piece, in generation order |
| Rules.FirstFromSpec | shared/src/main/java/chess/ChessGame.java:227-238 | the row-by-row scan finds the first square passing the test, and no earlier square passes |
| Rules.AnyFromSpec | shared/src/main/java/chess/ChessGame.java:109-124 | the whole-board scan succeeds exactly when some square passes the test |
| Rules.FindKingSpec | shared/src/main/java/chess/ChessGame.java:227-238 | the king search returns a square holding that team's king, the first in scan order; it returns none exactly when the team has no king |
| Rules.InCheckSpec | shared/src/main/java/chess/ChessGame.java:109-133 | a team is in check exactly when its king is found and some enemy piece has a generated move ending on it; with no king it is not in check |
| Rules.TrialRestores | shared/src/main/java/chess/ChessGame.java:63-72 | trying a move on the board and putting the pieces back restores the original board |
| Rules.TrialsAgree | shared/src/main/java/chess/ChessGame.java:164-170 | the two trial write orders, in validMoves and canEscapeCheck, produce the same board |
| Rules.KeepUpToMember | shared/src/main/java/chess/ChessGame.java:63-73 | a move is kept by the filter exactly when it is in the list and passes the test |
| Rules.AnyKeep | shared/src/main/java/chess/ChessGame.java:164-175 | some move passes the test exactly when the filtered list is non-empty |
| Rules.MovesEndsOnBoard | shared/src/main/java/chess/ChessPiece.java:156-158 | every generated move ends on the board |
| Rules.LegalMovesSpec | shared/src/main/java/chess/ChessGame.java:54-74 | no result for an empty square; otherwise a move is legal exactly when the piece generates it and, after trying it, its own team is not in check |
| Rules.LegalMovesSound | shared/src/main/java/chess/ChessGame.java:54-74 | every legal move is a generated move and is sound |
| Rules.EscapeFlagsAreSafeFlags | shared/src/main/java/chess/ChessGame.java:163-176 | the escape test on each move is the legality test of validMoves |
| Rules.CanEscapeIffLegal | shared/src/main/java/chess/ChessGame.java:163-176 | a piece can escape exactly when it has a legal move |
| Rules.EscapeIffMovable | shared/src/main/java/chess/ChessGame.java:142-204 | the checkmate scan, which tests escapes, and the stalemate scan, which tests legal moves, agree square by square |
| Rules.NoMovableIffNoLegal | shared/src/main/java/chess/ChessGame.java:185-204 | no piece of the team can move exactly when no square has a legal move |
| Rules.MateAndStalemate | shared/src/main/java/chess/ChessGame.java:142-204 | checkmate exactly when in check with no legal move; stalemate exactly when not in check with no legal move; never both; one of them exactly when there is no legal move |
| Rules.InitialState | shared/src/main/java/chess/ChessGame.java:17-21 | a new game has White to move, the starting board, and is not over |
| Rules.Arriving | shared/src/main/java/chess/ChessGame.java:94-96 | the piece that lands is the promotion piece when there is one, otherwise the moving piece |
| Rules.ApplyMove | shared/src/main/java/chess/ChessGame.java:97-98 | a move sets the end square to the arriving piece, empties the start square, and changes no other square |
| Rules.MakeMoveOutcome | shared/src/main/java/chess/ChessGame.java:82-100 | refused with "no piece" exactly when the start is empty; refused as illegal exactly when the move is not legal or not that piece's turn; otherwise the board is the applied move, the turn passes and the over flag is kept |
| Rules.ThreatensCongruent | shared/src/main/java/chess/ChessGame.java:126-133 | whether a square's piece attacks the king is the same on two boards with the same colour layout and the same enemy pieces |
| Rules.InCheckCongruent | shared/src/main/java/chess/ChessGame.java:109-124 | boards with the same pieces on the same squares agree on check |
| Rules.ApplyMatchesTrial | shared/src/main/java/chess/ChessGame.java:63-98 | the board makeMove produces and the board validMoves tried for that move agree on whether the mover is in check; they differ only in the type of the arriving piece when the move promotes |
| Rules.MakeMoveKeepsKingSafe | shared/src/main/java/chess/ChessGame.java:82-100 | after an accepted move the team that moved is not in check |
| Game.Contains | shared/src/main/java/chess/ChessGame.java:90 | the membership scan finds the move exactly when it is in the list |
| Game.CheckEnemyMoves | shared/src/main/java/chess/ChessGame.java:126-133 | reports a hit exactly when some enemy move ends on the king's square |
| Game.ChessGame.constructor | shared/src/main/java/chess/ChessGame.java:17-21 | a new game is the initial state: White to move, starting board |
| Game.ChessGame.SetTeamTurn | shared/src/main/java/chess/ChessGame.java:35-37 | sets the turn and keeps the over flag |
| Game.ChessGame.SetGameOver | server/src/main/java/service/GameService.java:143-147 | sets the over flag and keeps the turn |
| Game.ChessGame.FindKing | shared/src/main/java/chess/ChessGame.java:227-238 | returns the specification's king square: the first square, in scan order, holding that team's king |
| Game.ChessGame.IsInCheck | shared/src/main/java/chess/ChessGame.java:109-124 | returns the specification's check verdict; the board is unchanged |
| Game.ChessGame.ValidMoves | shared/src/main/java/chess/ChessGame.java:54-74 | returns exactly the legal moves, trying each on the board and restoring it |
| Game.ChessGame.MakeMove | shared/src/main/java/chess/ChessGame.java:82-100 | throws exactly when the specification refuses the move, leaving the state unchanged; otherwise the new state is the specification's |
| Game.ChessGame.CanEscapeCheck | shared/src/main/java/chess/ChessGame.java:163-176 | true exactly when some move of the piece leaves its team out of check; the board is restored |
| Game.ChessGame.HasEscape | shared/src/main/java/chess/ChessGame.java:147-157 | one square of the checkmate scan: the result is that square's escape test (a piece of the team that can escape check); the board is restored |
| Game.ChessGame.IsInCheckmate | shared/src/main/java/chess/ChessGame.java:142-160 | returns the specification's checkmate verdict; the board is unchanged |
| Game.ChessGame.HasValidMove | shared/src/main/java/chess/ChessGame.java:190-202 | one square of the stalemate scan: the result is that square's test (a piece of the team with a legal move); the board is restored |
| Game.ChessGame.IsInStalemate | shared/src/main/java/chess/ChessGame.java:185-204 | returns the specification's stalemate verdict; the board is unchanged |
| DataAccess.NewGameData | server/src/main/java/dataaccess/MemoryGameDAO.java:14 | a new game record has its id and name, no players, and a fresh game in the initial state |
| DataAccess.MemoryGameDAO.constructor | server/src/main/java/dataaccess/MemoryGameDAO.java:8-9 | starts with no games and next id 1 |
| DataAccess.MemoryGameDAO.CreateGame | server/src/main/java/dataaccess/MemoryGameDAO.java:12-17 | returns the next id, stores a new record under it, and advances the counter; other games are kept |
| DataAccess.MemoryGameDAO.GetGame | server/src/main/java/dataaccess/MemoryGameDAO.java:20-25 | returns the stored record, or the not-found error when the id is unknown |
| DataAccess.MemoryGameDAO.UpdateGame | server/src/main/java/dataaccess/MemoryGameDAO.java:28-33 | replaces a stored record, or fails and changes nothing when the id is unknown |
| DataAccess.MemoryGameDAO.ListGames | server/src/main/java/dataaccess/MemoryGameDAO.java:36-38 | returns the stored map |
| DataAccess.MemoryGameDAO.Clear | server/src/main/java/dataaccess/MemoryGameDAO.java:41-43 | removes every game and keeps the counter |
| DataAccess.MemoryUserDAO.constructor | server/src/main/java/dataaccess/MemoryUserDAO.java:8 | starts with no users |
| DataAccess.MemoryUserDAO.GetUser | server/src/main/java/dataaccess/MemoryUserDAO.java:11-13 | returns the user under that name, or none |
| DataAccess.MemoryUserDAO.CreateUser | server/src/main/java/dataaccess/MemoryUserDAO.java:16-21 | adds the user, or fails and changes nothing when the name exists |
| DataAccess.MemoryUserDAO.Clear | server/src/main/java/dataaccess/MemoryUserDAO.java:24-26 | removes every user |
| DataAccess.MemoryAuthDAO.constructor | server/src/main/java/dataaccess/MemoryAuthDAO.java:7 | starts with no tokens |
| DataAccess.MemoryAuthDAO.CreateAuth | server/src/main/java/dataaccess/MemoryAuthDAO.java:10-12 | stores the token's record, replacing any with the same token |
| DataAccess.MemoryAuthDAO.GetAuth | server/src/main/java/dataaccess/MemoryAuthDAO.java:15-17 | returns the token's record, or none |
| DataAccess.MemoryAuthDAO.DeleteAuth | server/src/main/java/dataaccess/MemoryAuthDAO.java:20-22 | removes the token and keeps every other one |
| DataAccess.MemoryAuthDAO.Clear | server/src/main/java/dataaccess/MemoryAuthDAO.java:25-27 | removes every token |
| Text.Trim | server/src/main/java/service/GameService.java:43 | the result is the input with only characters at or below space cut from its two ends, and it neither starts nor ends with such a character |
| Text.TrimOfTrimmed | server/src/main/java/service/GameService.java:43 | a string that neither starts nor ends with a character at or below space is left as it is |
| Text.ToUpper | server/src/main/java/service/GameService.java:41 | same length, each character upper-cased (ASCII letters) |
| Text.ToLower | client/src/main/java/ui/InGameUI.java:127 | same length, each character lower-cased (ASCII letters) |
| Text.CaseMappingFacts | server/src/main/java/service/GameService.java:41 | upper-casing is idempotent, and lower-casing a string with no capital letter changes nothing |
| Text.TrimIdempotent | server/src/main/java/service/GameService.java:43 | trimming twice is trimming once |
| Text.EqualsIgnoreCaseSpec | server/src/main/java/service/GameService.java:43 | equal ignoring case exactly when the lengths match and each pair of characters has the same upper case; reflexive and symmetric |
| Text.Words | client/src/main/java/ui/InGameUI.java:127 | every piece of the split is a non-empty run of non-space characters |
| Text.WordsSplitsAtSpace | client/src/main/java/ui/InGameUI.java:127 | splitting a string at any whitespace character gives the words before it followed by the words after it; with the single-word case this fixes the split of every string as its maximal non-space runs in order |
| Text.WordsOfUnwords | client/src/main/java/ui/InGameUI.java:127 | splitting words joined by single spaces gives the words back |
| Text.LowerOfUnwords | client/src/main/java/ui/InGameUI.java:127 | lower-casing words that are already lower case, joined by spaces, changes nothing |
| Text.TrimmedUnwords | client/src/main/java/ui/InGameUI.java:127 | words joined by single spaces need no trimming |
| Services.RegisterSpec | server/src/main/java/service/UserService.java:17-26 | refused exactly when the name exists, and then the error is AlreadyTaken; otherwise the user and a new token for them are stored and older tokens kept |
| Services.RegisterThenLogin | server/src/main/java/service/UserService.java:17-40 | a user who has registered can log in with the same password |
| Services.LoginSpec | server/src/main/java/service/UserService.java:28-40 | succeeds exactly when the user exists and the password matches, and fails with Unauthorized otherwise; on success it adds a token for that user and keeps the others |
| Services.LogoutSpec | server/src/main/java/service/UserService.java:42-48 | fails exactly for an unknown token, and then the error is Unauthorized; otherwise only that token is removed and every user and every other session is kept |
| Services.LogoutTwice | server/src/main/java/service/UserService.java:42-48 | after a logout the same token is refused as unauthorized |
| Services.UserService.constructor | server/src/main/java/service/UserService.java:12-15 | the service holds the given stores |
| Services.UserService.RegisterUser | server/src/main/java/service/UserService.java:17-26 | the result and the new store contents are those of the register rule on the old contents |
| Services.UserService.LoginUser | server/src/main/java/service/UserService.java:28-40 | the result and the new token store are those of the login rule on the old contents |
| Services.UserService.LogoutUser | server/src/main/java/service/UserService.java:42-48 | Unauthorized exactly when the token is unknown, and then the token store is unchanged; otherwise the token store loses exactly that token |
| Services.UserService.Clear | server/src/main/java/service/UserService.java:50-53 | empties both stores |
| Services.ParseJoinColor | server/src/main/java/service/GameService.java:41-57 | the colour is read case-insensitively as WHITE, BLACK or EMPTY, and anything else is refused |
| Services.Join | server/src/main/java/service/GameService.java:41-58 | a join that writes a record keeps the game's id, name and board state |
| Services.TakeSeat | server/src/main/java/service/GameService.java:42-55 | taking a seat keeps the game's id, name and board state |
| Services.JoinSpec | server/src/main/java/service/GameService.java:41-58 | for WHITE or BLACK the outcome is AlreadyTaken when the seat is held by a user whose trimmed name differs ignoring case, and otherwise success with that seat set to the joining user and the rest of the record kept; "EMPTY" writes nothing and any other colour is BadColor |
| Services.JoinAgain | server/src/main/java/service/GameService.java:43-52 | joining the same seat again succeeds and changes nothing |
| Services.JoinExcludesOthers | server/src/main/java/service/GameService.java:43-52 | once one user has taken a seat, a different user asking for it is refused |
| Services.PlayMove | server/src/main/java/service/GameService.java:90-119 | a successful move keeps the id, name and both players |
| Services.PlayMoveSpec | server/src/main/java/service/GameService.java:90-119 | observers and players out of turn are unauthorized; a finished game refuses the move; otherwise it succeeds exactly when the engine accepts it, and then the stored game is the engine's new state: the turn passes, the game is not over, and the mover is not in check |
| Services.Resign | server/src/main/java/service/GameService.java:134-158 | a successful resignation keeps the id, name and both players |
| Services.ResignSpec | server/src/main/java/service/GameService.java:134-158 | a user holding no seat is unauthorized; a seat holder in a finished game gets the already-over error; otherwise resignation succeeds, the game is over with board and turn kept, a second resignation is refused, and no move is accepted afterwards |
| Services.RecordFor | server/src/main/java/service/GameService.java:46-52 | the record written back carries the requested id and the stored players, name and game |
| Services.RequestsNeedSession | server/src/main/java/service/GameService.java:31-159 | join, move and resign without a valid token are unauthorized, and with an unknown game they fail as not found |
| Services.GameService.constructor | server/src/main/java/service/GameService.java:11-14 | the service holds the given stores |
| Services.GameService.ListGames | server/src/main/java/service/GameService.java:16-21 | an unknown token is unauthorized; otherwise returns every stored game |
| Services.GameService.CreateGame | server/src/main/java/service/GameService.java:23-29 | an unknown token is unauthorized and changes nothing; otherwise the store's create rule |
| Services.GameService.JoinGame | server/src/main/java/service/GameService.java:31-59 | the result is the join rule's; on failure the store is unchanged, on success only that game's record is replaced |
| Services.GameService.GetGame | server/src/main/java/service/GameService.java:61-75 | an unknown token is unauthorized, an unknown game not found; otherwise the stored record |
| Services.GameService.MakeMove | server/src/main/java/service/GameService.java:77-120 | the result is the move rule's; on failure the store is unchanged, on success only that game's record is replaced |
| Services.GameService.ResignGame | server/src/main/java/service/GameService.java:122-159 | the result is the resign rule's; on failure the store is unchanged, on success only that game's record is replaced |
| Services.GameService.Clear | server/src/main/java/service/GameService.java:161-163 | empties the game store |
| InGame.ParsePosition | client/src/main/java/ui/InGameUI.java:141-153 | accepted exactly when the text is a file a–h followed by a rank 1–8, giving an on-board square; otherwise the invalid-square error naming the text |
| InGame.SquareNameRoundTrip | client/src/main/java/ui/InGameUI.java:141-153 | every on-board square's name parses back to it, and a name that parses is that square's name |
| InGame.ParsePositionInjective | client/src/main/java/ui/InGameUI.java:141-153 | different names never parse to the same square |
| InGame.ParsePromotion | client/src/main/java/ui/InGameUI.java:155-164 | accepted exactly for "q", "r", "b", "n", giving a piece a pawn may promote to; otherwise the invalid-promotion error naming the text |
| InGame.PromotionLetterRoundTrip | client/src/main/java/ui/InGameUI.java:155-164 | each promotion piece's letter parses back to it, and a letter that parses is that piece's letter |
| InGame.ParseParts | client/src/main/java/ui/InGameUI.java:128-138 | on the split tokens: the usage error unless there are three or four; the start and end squares are those the second and third tokens name, a bad one giving the invalid-square error for that token; a fourth token is the promotion letter, else the invalid-promotion error; well-formed tokens are accepted |
| InGame.ParseMove | client/src/main/java/ui/InGameUI.java:126-139 | fewer than three or more than four tokens is the usage error; otherwise the second token names the start square and the third the end square, a bad one giving the invalid-square error for that token (start first); a fourth token, when present, is the promotion letter, else the invalid-promotion error; when every token is well formed the move is accepted |
| InGame.MoveWordsPlain | client/src/main/java/ui/InGameUI.java:127 | each token of a printed move command survives trimming, lower-casing and splitting unchanged |
| InGame.ParseMoveCommand | client/src/main/java/ui/InGameUI.java:126-164 | every move with on-board squares and a valid promotion parses back from its command text |
| InGame.Ends | client/src/main/java/ui/InGameUI.java:118-120 | the set holds the end square of every move and nothing else |
| InGame.HighlightsSpec | client/src/main/java/ui/InGameUI.java:111-120 | an empty square gives no highlight; otherwise the chosen square and the end of every legal move are marked |
| InGame.HighlightedSquare | client/src/main/java/ui/InGameUI.java:116-120 | every other marked square ends a legal move, is on the board, and is empty or holds an enemy piece |
| InGame.MarkEnds | client/src/main/java/ui/InGameUI.java:116-120 | the loop collects the chosen square and every move's end square |
| InGame.Highlight | client/src/main/java/ui/InGameUI.java:106-124 | with no game, nothing to highlight; otherwise the marked squares of the game's board, which is left unchanged |

## Left out

- Console and network I/O are not part of this model: the client's `run` and `handleInput` loops, the `highlight` command's own argument reading, board drawing, the HTTP handlers, the websocket handler and the SQL stores.
- `UUID.randomUUID()` is a parameter: `RegisterUser` and `LoginUser` take the new token and require that it is not already in use, which a random UUID makes true in practice.
- Stored games are values. A `GameData` holds the game's state, not a reference to a live `ChessGame`, so aliasing between a stored record and a game object is not modelled.
- The game's "over" flag is a field of the game state. The server calls `isGameOver`/`setGameOver`, and `ChessGame.java` as given does not define them.
- `ChessGame.setBoard`/`getBoard`, `ChessGame.equals`, and every `hashCode` and `toString` are not modelled.
- Castling, en passant and draws by repetition are not modelled. The source does not implement them.
- Game.ChessGame.MakeMove: requires the start square to be on the board. Java throws an array-index exception inside `getPiece` otherwise.
- Game.ChessGame.CanEscapeCheck: requires that `color` is the piece's own colour. This holds at its only call site, `isInCheckmate`; Java does not check it.
- Move generation passes through a depth gate (`PseudoMovesAt`). It is equal to the plain move function, as `Rules.PseudoMovesIs` proves. The two board scans of `isInCheckmate` and `isInStalemate` are split into helper methods (`HasEscape`, `HasValidMove`).
- `GameService.updateGameWithoutAuth` and `getGameWithoutAuth` are not modelled. They bypass the token check and are used only by the websocket handler.
- The `game == null` branches of `GameService` are dead code, since `MemoryGameDAO.getGame` throws for an unknown id. An unknown id is modelled as the not-found error.
- Services.PlayMoveSpec: a start square off the board makes Java throw an array-index exception inside `getPiece`. The model returns the `OffBoard` error instead.
- Services.Join: an unknown colour makes Java throw `IllegalArgumentException`. The model returns the `BadColor` error.
- Text.Words: Java's `split("\\s+")` on an empty string gives one empty token, and the model gives none. Either way the command has fewer than three tokens and is refused.
- Text.EqualsIgnoreCaseSpec: case mapping covers ASCII letters only. Java maps all of Unicode.
- Text.ToUpper: upper-cases ASCII letters only. Java's `toUpperCase` maps all of Unicode, so `joinGame` (GameService.java:41) could accept a colour spelled with non-ASCII letters that the model refuses.
- Text.ToLower: lower-cases ASCII letters only. Java's `toLowerCase` maps all of Unicode, so the client's command parser (InGameUI.java:127) can differ on non-ASCII input.
- DataAccess.MemoryGameDAO.CreateGame: the id counter is an unbounded integer. Java's `int` wraps after 2^31 - 1 games.
