/** The server's services: UserService (register, login, logout) and
    GameService (list, create, join, move, resign), each a check followed
    by writes to the in-memory stores. Each request is first stated as a
    function of the stores' contents; the service methods are proved to
    return that result and to write exactly what it says. */
module Services {
  import opened Wrappers
  import opened ChessTypes
  import opened Rules
  import opened Text
  import opened DataAccess

  /** The exceptions the services throw. */
  datatype ServiceError =
    | Unauthorized     // UnauthorizedException
    | AlreadyTaken     // AlreadyTakenException
    | GameNotFound     // DataAccessException from getGame
    | BadColor         // IllegalArgumentException from joinGame
    | InvalidMove      // InvalidMoveException
    | GameAlreadyOver  // IllegalStateException from resignGame
    | OffBoard         // array index out of bounds in ChessBoard.getPiece

  // ---------------------------------------------------------------- users

  /** The contents of the user store and the auth store. */
  datatype Accounts = Accounts(users: map<string, UserData>, tokens: map<string, AuthData>)

  /** UserService.register with `token` as the new session's token. */
  function Register(a: Accounts, user: UserData, token: string): Result<(Accounts, AuthData), ServiceError> {
    if user.username in a.users then Err(AlreadyTaken)
    else
      var auth := AuthData(token, user.username);
      Ok((Accounts(a.users[user.username := user], a.tokens[token := auth]), auth))
  }

  /** UserService.login with `token` as the new session's token. */
  function Login(a: Accounts, user: UserData, token: string): Result<(Accounts, AuthData), ServiceError> {
    if user.username !in a.users then Err(Unauthorized)
    else if a.users[user.username].password != user.password then Err(Unauthorized)
    else
      var auth := AuthData(token, user.username);
      Ok((Accounts(a.users, a.tokens[token := auth]), auth))
  }

  /** UserService.logout. */
  function Logout(a: Accounts, token: string): Result<Accounts, ServiceError> {
    if token !in a.tokens then Err(Unauthorized)
    else Ok(Accounts(a.users, a.tokens - {token}))
  }

  /** register fails iff the username is taken (and then writes nothing);
      otherwise it stores the user and one new session for that username,
      keeping every other account and session. */
  lemma RegisterSpec(a: Accounts, user: UserData, token: string)
    requires token !in a.tokens
    ensures Register(a, user, token).Err? <==> user.username in a.users
    ensures user.username in a.users ==> Register(a, user, token) == Err(AlreadyTaken)
    ensures Register(a, user, token).Ok? ==>
      var (a', auth) := Register(a, user, token).value;
      && auth.authToken == token && auth.username == user.username
      && a'.users == a.users[user.username := user]
      && a'.tokens.Keys == a.tokens.Keys + {token}
      && a'.tokens[token] == auth
      && forall t :: t in a.tokens ==> a'.tokens[t] == a.tokens[t]
  {
  }

  /** After registering, logging in with the same password succeeds and
      opens a second session next to the first. */
  lemma RegisterThenLogin(a: Accounts, user: UserData, t1: string, t2: string)
    requires t1 !in a.tokens && t2 !in a.tokens && t1 != t2
    requires Register(a, user, t1).Ok?
    ensures
      var a1 := Register(a, user, t1).value.0;
      Login(a1, user, t2).Ok?
      && t1 in Login(a1, user, t2).value.0.tokens
      && Login(a1, user, t2).value.0.tokens[t2] == AuthData(t2, user.username)
  {
  }

  /** login fails for an unknown user or a wrong password, and succeeds
      otherwise, keeping every session that existed. */
  lemma LoginSpec(a: Accounts, user: UserData, token: string)
    requires token !in a.tokens
    ensures Login(a, user, token).Ok? <==>
      user.username in a.users && a.users[user.username].password == user.password
    ensures !Login(a, user, token).Ok? ==> Login(a, user, token) == Err(Unauthorized)
    ensures Login(a, user, token).Ok? ==>
      var a' := Login(a, user, token).value.0;
      a'.users == a.users && a'.tokens.Keys == a.tokens.Keys + {token}
      && forall t :: t in a.tokens ==> a'.tokens[t] == a.tokens[t]
  {
  }

  /** logout fails as unauthorized exactly for an unknown token;
      otherwise it ends that session only, keeping every user and every
      other session. */
  lemma LogoutSpec(a: Accounts, token: string)
    ensures Logout(a, token).Err? <==> token !in a.tokens
    ensures Logout(a, token).Err? ==> Logout(a, token).error == Unauthorized
    ensures Logout(a, token).Ok? ==>
      var a' := Logout(a, token).value;
      && a'.users == a.users
      && a'.tokens.Keys == a.tokens.Keys - {token}
      && forall t :: t in a'.tokens ==> a'.tokens[t] == a.tokens[t]
  {
  }

  /** A session ended by logout cannot log out again. */
  lemma LogoutTwice(a: Accounts, token: string)
    requires Logout(a, token).Ok?
    ensures token !in Logout(a, token).value.tokens
    ensures Logout(Logout(a, token).value, token) == Err(Unauthorized)
  {
  }

  /** UserService over the user store and the auth store. The auth store
      is the one GameService checks sessions against. */
  class UserService {
    const userDAO: MemoryUserDAO
    const authDAO: MemoryAuthDAO

    ghost function State(): Accounts
      reads userDAO, authDAO
    {
      Accounts(userDAO.users, authDAO.tokens)
    }

    constructor (userDAO: MemoryUserDAO, authDAO: MemoryAuthDAO)
      ensures this.userDAO == userDAO && this.authDAO == authDAO
    {
      this.userDAO := userDAO;
      this.authDAO := authDAO;
    }

    /** register: `token` stands for UUID.randomUUID(), a token no session
        has. */
    method RegisterUser(user: UserData, token: string) returns (r: Result<AuthData, ServiceError>)
      requires token !in authDAO.tokens
      modifies userDAO, authDAO
      ensures Register(old(State()), user, token).Err? ==>
        r == Err(Register(old(State()), user, token).error) && State() == old(State())
      ensures Register(old(State()), user, token).Ok? ==>
        r == Ok(Register(old(State()), user, token).value.1) && State() == Register(old(State()), user, token).value.0
    {
      var existing := userDAO.GetUser(user.username);
      if existing.Some? {
        return Err(AlreadyTaken);
      }
      var created := userDAO.CreateUser(user);
      var auth := AuthData(token, user.username);
      authDAO.CreateAuth(auth);
      return Ok(auth);
    }

    /** login: `token` stands for UUID.randomUUID(). */
    method LoginUser(user: UserData, token: string) returns (r: Result<AuthData, ServiceError>)
      requires token !in authDAO.tokens
      modifies authDAO
      ensures Login(old(State()), user, token).Err? ==>
        r == Err(Login(old(State()), user, token).error) && State() == old(State())
      ensures Login(old(State()), user, token).Ok? ==>
        r == Ok(Login(old(State()), user, token).value.1) && State() == Login(old(State()), user, token).value.0
    {
      var existingUser := userDAO.GetUser(user.username);
      if existingUser.None? {
        return Err(Unauthorized);
      }
      if existingUser.value.password != user.password {
        return Err(Unauthorized);
      }
      var auth := AuthData(token, user.username);
      authDAO.CreateAuth(auth);
      return Ok(auth);
    }

    /** logout. */
    method LogoutUser(token: string) returns (r: Result<(), ServiceError>)
      modifies authDAO
      ensures r == Err(Unauthorized) <==> token !in old(authDAO.tokens)
      ensures r.Ok? <==> token in old(authDAO.tokens)
      ensures r.Ok? ==> authDAO.tokens == old(authDAO.tokens) - {token}
      ensures Logout(old(State()), token).Err? ==>
        r == Err(Logout(old(State()), token).error) && authDAO.tokens == old(authDAO.tokens)
      ensures Logout(old(State()), token).Ok? ==>
        r.Ok? && authDAO.tokens == Logout(old(State()), token).value.tokens
    {
      var auth := authDAO.GetAuth(token);
      if auth.None? {
        return Err(Unauthorized);
      }
      authDAO.DeleteAuth(token);
      return Ok(());
    }

    /** clear: no accounts and no sessions. */
    method Clear()
      modifies userDAO, authDAO
      ensures userDAO.users == map[] && authDAO.tokens == map[]
    {
      userDAO.Clear();
      authDAO.Clear();
    }
  }

  // ---------------------------------------------------------------- games

  /** The seat joinGame is asked for. */
  datatype JoinColor = JoinWhite | JoinBlack | JoinEmpty

  /** joinGame's switch on color.toUpperCase(); None for any other colour. */
  function ParseJoinColor(color: string): (jc: Option<JoinColor>)
    ensures jc == Some(JoinWhite) <==> ToUpper(color) == "WHITE"
    ensures jc == Some(JoinBlack) <==> ToUpper(color) == "BLACK"
    ensures jc == Some(JoinEmpty) <==> ToUpper(color) == "EMPTY"
  {
    var c := ToUpper(color);
    if c == "BLACK" then Some(JoinBlack)
    else if c == "WHITE" then Some(JoinWhite)
    else if c == "EMPTY" then Some(JoinEmpty)
    else None
  }

  /** joinGame's test that two usernames name the same user: equal once
      trimmed, ignoring case. */
  predicate SameUser(a: string, b: string) {
    EqualsIgnoreCase(Trim(a), Trim(b))
  }

  /** A seat someone other than `username` holds. */
  predicate TakenByOther(seat: Option<string>, username: string) {
    seat.Some? && !SameUser(seat.value, username)
  }

  /** joinGame once the session and the game are found: the record to
      store, or None when nothing is written ("EMPTY"). */
  function Join(d: GameData, username: string, color: string): (r: Result<Option<GameData>, ServiceError>)
    ensures r.Ok? && r.value.Some? ==>
      r.value.value.gameID == d.gameID && r.value.value.gameName == d.gameName && r.value.value.game == d.game
  {
    match ParseJoinColor(color)
    case None => Err(BadColor)
    case Some(seat) => TakeSeat(d, username, seat)
  }

  /** joinGame's branch for a recognised colour. */
  function TakeSeat(d: GameData, username: string, seat: JoinColor): (r: Result<Option<GameData>, ServiceError>)
    ensures r.Ok? && r.value.Some? ==>
      r.value.value.gameID == d.gameID && r.value.value.gameName == d.gameName && r.value.value.game == d.game
  {
    match seat
    case JoinEmpty => Ok(None)
    case JoinBlack =>
      if TakenByOther(d.blackUsername, username) then Err(AlreadyTaken)
      else Ok(Some(GameData(d.gameID, d.whiteUsername, Some(username), d.gameName, d.game)))
    case JoinWhite =>
      if TakenByOther(d.whiteUsername, username) then Err(AlreadyTaken)
      else Ok(Some(GameData(d.gameID, Some(username), d.blackUsername, d.gameName, d.game)))
  }

  /** joinGame for WHITE or BLACK fails AlreadyTaken iff someone else
      holds that seat; otherwise it succeeds and only that seat changes,
      to the caller. "EMPTY" writes
      nothing and any other colour is refused. */
  lemma JoinSpec(d: GameData, username: string, color: string)
    ensures Join(d, username, color) == Err(BadColor) <==> ParseJoinColor(color).None?
    ensures Join(d, username, color) == Ok(None) <==> ToUpper(color) == "EMPTY"
    ensures ToUpper(color) == "WHITE" ==>
      Join(d, username, color) ==
        if TakenByOther(d.whiteUsername, username) then Err(AlreadyTaken)
        else Ok(Some(d.(whiteUsername := Some(username))))
    ensures ToUpper(color) == "BLACK" ==>
      Join(d, username, color) ==
        if TakenByOther(d.blackUsername, username) then Err(AlreadyTaken)
        else Ok(Some(d.(blackUsername := Some(username))))
  {
  }

  /** Joining the seat one already holds succeeds again and changes
      nothing more. */
  lemma {:induction false} JoinAgain(d: GameData, username: string, color: string)
    requires Join(d, username, color).Ok? && Join(d, username, color).value.Some?
    ensures
      var d' := Join(d, username, color).value.value;
      Join(d', username, color) == Ok(Some(d'))
  {
    var seat := ParseJoinColor(color).value;
    TakeSeatAgain(d, username, seat);
  }

  /** Taking a seat twice is taking it once. */
  lemma {:induction false} TakeSeatAgain(d: GameData, username: string, seat: JoinColor)
    requires TakeSeat(d, username, seat).Ok? && TakeSeat(d, username, seat).value.Some?
    ensures
      var d' := TakeSeat(d, username, seat).value.value;
      TakeSeat(d', username, seat) == Ok(Some(d'))
  {
    EqualsIgnoreCaseSpec(Trim(username), Trim(username));
  }

  /** Once a user holds a seat, no other user can join it. */
  lemma {:induction false} JoinExcludesOthers(d: GameData, u: string, v: string, color: string)
    requires Join(d, u, color).Ok? && Join(d, u, color).value.Some?
    requires !SameUser(u, v)
    ensures Join(Join(d, u, color).value.value, v, color) == Err(AlreadyTaken)
  {
    var seat := ParseJoinColor(color).value;
    assert Join(d, u, color) == TakeSeat(d, u, seat);
    var d' := TakeSeat(d, u, seat).value.value;
    TakeSeatExcludesOthers(d, u, v, seat);
    assert Join(d', v, color) == TakeSeat(d', v, seat);
  }

  /** A taken seat refuses every other user. */
  lemma {:induction false} TakeSeatExcludesOthers(d: GameData, u: string, v: string, seat: JoinColor)
    requires TakeSeat(d, u, seat).Ok? && TakeSeat(d, u, seat).value.Some?
    requires !SameUser(u, v)
    ensures TakeSeat(TakeSeat(d, u, seat).value.value, v, seat) == Err(AlreadyTaken)
  {
    if seat == JoinWhite {
      assert TakeSeat(d, u, seat).value.value.whiteUsername == Some(u);
    } else {
      assert TakeSeat(d, u, seat).value.value.blackUsername == Some(u);
    }
  }

  /** `username` holds the seat of the team `c` by exact string equality
      (how makeMove and resignGame compare). */
  predicate Holds(d: GameData, username: string, c: TeamColor) {
    if c == White then d.whiteUsername == Some(username) else d.blackUsername == Some(username)
  }

  /** makeMove once the session and the game are found: the caller must
      hold a seat, the seat of the team to move, and the game must not be
      over; then the game makes the move. */
  function PlayMove(d: GameData, username: string, move: Move): (r: Result<GameData, ServiceError>)
    ensures r.Ok? ==> r.value.gameID == d.gameID && r.value.gameName == d.gameName
    ensures r.Ok? ==> r.value.whiteUsername == d.whiteUsername && r.value.blackUsername == d.blackUsername
  {
    var isWhite := d.whiteUsername == Some(username);
    var isBlack := d.blackUsername == Some(username);
    if !isWhite && !isBlack then Err(Unauthorized)
    else if d.game.turn == White && !isWhite then Err(Unauthorized)
    else if d.game.turn == Black && !isBlack then Err(Unauthorized)
    else if d.game.gameOver then Err(InvalidMove)
    else if !OnBoard(move.start) then Err(OffBoard)
    else
      match MakeMoveOutcome(d.game, move)
      case Err(_) => Err(InvalidMove)
      case Ok(st) => Ok(d.(game := st))
  }

  /** A move is accepted only from the holder of the seat of the team to
      move, in a game that is not over; the stored record keeps its id,
      seats and name, the turn passes, and the mover's king is not left in
      check. Observers and the other player are Unauthorized, a finished
      game or a move the engine refuses InvalidMove. */
  lemma PlayMoveSpec(d: GameData, username: string, move: Move)
    ensures !Holds(d, username, White) && !Holds(d, username, Black) ==>
      PlayMove(d, username, move) == Err(Unauthorized)
    ensures !Holds(d, username, d.game.turn) ==> PlayMove(d, username, move) == Err(Unauthorized)
    ensures Holds(d, username, d.game.turn) && d.game.gameOver ==> PlayMove(d, username, move) == Err(InvalidMove)
    ensures Holds(d, username, d.game.turn) && !d.game.gameOver && OnBoard(move.start) ==>
      (PlayMove(d, username, move).Ok? <==> MakeMoveOutcome(d.game, move).Ok?)
      && (PlayMove(d, username, move).Err? ==> PlayMove(d, username, move) == Err(InvalidMove))
    ensures PlayMove(d, username, move).Ok? ==>
      var d' := PlayMove(d, username, move).value;
      && Holds(d, username, d.game.turn) && !d.game.gameOver
      && d'.gameID == d.gameID && d'.whiteUsername == d.whiteUsername
      && d'.blackUsername == d.blackUsername && d'.gameName == d.gameName
      && d'.game.turn == Other(d.game.turn) && !d'.game.gameOver
      && OnBoard(move.start) && d'.game == MakeMoveOutcome(d.game, move).value
      && !InCheck(d'.game.board, d.game.turn)
  {
    if PlayMove(d, username, move).Ok? {
      MakeMoveKeepsKingSafe(d.game, move);
    }
  }

  /** resignGame once the session and the game are found. */
  function Resign(d: GameData, username: string): (r: Result<GameData, ServiceError>)
    ensures r.Ok? ==> r.value.gameID == d.gameID && r.value.gameName == d.gameName
    ensures r.Ok? ==> r.value.whiteUsername == d.whiteUsername && r.value.blackUsername == d.blackUsername
  {
    var isWhite := d.whiteUsername == Some(username);
    var isBlack := d.blackUsername == Some(username);
    if !isWhite && !isBlack then Err(Unauthorized)
    else if d.game.gameOver then Err(GameAlreadyOver)
    else Ok(d.(game := d.game.(gameOver := true)))
  }

  /** Only a seat holder can resign, only once; a resigned game accepts no
      further move from anyone. Anyone else is Unauthorized, and a second
      resignation fails as already over. */
  lemma ResignSpec(d: GameData, username: string, other: string, move: Move)
    ensures Resign(d, username).Ok? <==>
      (Holds(d, username, White) || Holds(d, username, Black)) && !d.game.gameOver
    ensures !Holds(d, username, White) && !Holds(d, username, Black) ==>
      Resign(d, username) == Err(Unauthorized)
    ensures (Holds(d, username, White) || Holds(d, username, Black)) && d.game.gameOver ==>
      Resign(d, username) == Err(GameAlreadyOver)
    ensures Resign(d, username).Ok? ==>
      var d' := Resign(d, username).value;
      && d'.game.gameOver && d'.game.board == d.game.board && d'.game.turn == d.game.turn
      && Resign(d', username) == Err(GameAlreadyOver)
      && PlayMove(d', other, move).Err?
  {
  }

  /** The record a request works on: the stored fields of game `gameID`,
      under that id (the service rebuilds every record it writes with the
      id of the request). */
  function RecordFor(games: map<int, GameData>, gameID: int): (d: GameData)
    requires gameID in games
    ensures d.gameID == gameID
    ensures d.whiteUsername == games[gameID].whiteUsername && d.blackUsername == games[gameID].blackUsername
    ensures d.gameName == games[gameID].gameName && d.game == games[gameID].game
  {
    games[gameID].(gameID := gameID)
  }

  /** joinGame as a whole: the session, then the game, then the seat. */
  function JoinRequest(tokens: map<string, AuthData>, games: map<int, GameData>, token: string, color: string, gameID: int)
    : Result<Option<GameData>, ServiceError>
  {
    if token !in tokens then Err(Unauthorized)
    else if gameID !in games then Err(GameNotFound)
    else Join(RecordFor(games, gameID), tokens[token].username, color)
  }

  /** makeMove as a whole. */
  function MoveRequest(tokens: map<string, AuthData>, games: map<int, GameData>, token: string, gameID: int, move: Move)
    : Result<GameData, ServiceError>
  {
    if token !in tokens then Err(Unauthorized)
    else if gameID !in games then Err(GameNotFound)
    else PlayMove(RecordFor(games, gameID), tokens[token].username, move)
  }

  /** resignGame as a whole. */
  function ResignRequest(tokens: map<string, AuthData>, games: map<int, GameData>, token: string, gameID: int)
    : Result<GameData, ServiceError>
  {
    if token !in tokens then Err(Unauthorized)
    else if gameID !in games then Err(GameNotFound)
    else Resign(RecordFor(games, gameID), tokens[token].username)
  }

  /** Without a session every request is refused as Unauthorized, before
      the game is looked up, and an unknown game is GameNotFound; a record
      a request writes carries the id it is stored under. */
  lemma RequestsNeedSession(tokens: map<string, AuthData>, games: map<int, GameData>, token: string,
                            color: string, gameID: int, move: Move)
    ensures token !in tokens ==>
      JoinRequest(tokens, games, token, color, gameID) == Err(Unauthorized)
      && MoveRequest(tokens, games, token, gameID, move) == Err(Unauthorized)
      && ResignRequest(tokens, games, token, gameID) == Err(Unauthorized)
    ensures token in tokens && gameID !in games ==>
      JoinRequest(tokens, games, token, color, gameID) == Err(GameNotFound)
      && MoveRequest(tokens, games, token, gameID, move) == Err(GameNotFound)
      && ResignRequest(tokens, games, token, gameID) == Err(GameNotFound)
    ensures JoinRequest(tokens, games, token, color, gameID).Ok? && JoinRequest(tokens, games, token, color, gameID).value.Some? ==>
      JoinRequest(tokens, games, token, color, gameID).value.value.gameID == gameID
    ensures MoveRequest(tokens, games, token, gameID, move).Ok? ==>
      MoveRequest(tokens, games, token, gameID, move).value.gameID == gameID
    ensures ResignRequest(tokens, games, token, gameID).Ok? ==>
      ResignRequest(tokens, games, token, gameID).value.gameID == gameID
  {
  }

  /** GameService over the game store and the auth store. */
  class GameService {
    const gameDAO: MemoryGameDAO
    const authDAO: MemoryAuthDAO

    constructor (gameDAO: MemoryGameDAO, authDAO: MemoryAuthDAO)
      ensures this.gameDAO == gameDAO && this.authDAO == authDAO
    {
      this.gameDAO := gameDAO;
      this.authDAO := authDAO;
    }

    /** listGames: a copy of the store, for a known session. */
    method ListGames(authToken: string) returns (r: Result<map<int, GameData>, ServiceError>)
      ensures r.Err? <==> authToken !in authDAO.tokens
      ensures r.Err? ==> r.error == Unauthorized
      ensures r.Ok? ==> r.value == gameDAO.games
    {
      var auth := authDAO.GetAuth(authToken);
      if auth.None? {
        return Err(Unauthorized);
      }
      var games := gameDAO.ListGames();
      return Ok(games);
    }

    /** createGame: a new game under the next id, for a known session. */
    method CreateGame(authToken: string, gameName: string) returns (r: Result<int, ServiceError>)
      requires gameDAO.Valid()
      modifies gameDAO
      ensures gameDAO.Valid()
      ensures r.Err? <==> authToken !in authDAO.tokens
      ensures r.Err? ==> r.error == Unauthorized && unchanged(gameDAO)
      ensures r.Ok? ==>
        && r.value == old(gameDAO.nextID) && r.value !in old(gameDAO.games)
        && gameDAO.games == old(gameDAO.games)[r.value := NewGameData(r.value, gameName)]
    {
      var auth := authDAO.GetAuth(authToken);
      if auth.None? {
        return Err(Unauthorized);
      }
      var gameID := gameDAO.CreateGame(gameName);
      return Ok(gameID);
    }

    /** joinGame. */
    method JoinGame(authToken: string, color: string, gameID: int) returns (r: Result<(), ServiceError>)
      requires gameDAO.Valid()
      modifies gameDAO
      ensures gameDAO.Valid() && gameDAO.nextID == old(gameDAO.nextID)
      ensures
        var want := JoinRequest(old(authDAO.tokens), old(gameDAO.games), authToken, color, gameID);
        && (r.Err? <==> want.Err?)
        && (want.Err? ==> r.error == want.error && gameDAO.games == old(gameDAO.games))
        && (want == Ok(None) ==> gameDAO.games == old(gameDAO.games))
        && (want.Ok? && want.value.Some? ==> gameDAO.games == old(gameDAO.games)[gameID := want.value.value])
    {
      var auth := authDAO.GetAuth(authToken);
      if auth.None? {
        return Err(Unauthorized);
      }
      var game := gameDAO.GetGame(gameID);
      if game.Err? {
        return Err(GameNotFound);
      }
      var joined := Join(game.value.(gameID := gameID), auth.value.username, color);
      if joined.Err? {
        return Err(joined.error);
      }
      if joined.value.Some? {
        var stored := gameDAO.UpdateGame(gameID, joined.value.value);
      }
      return Ok(());
    }

    /** getGame: the record, for a known session. */
    method GetGame(authToken: string, gameID: int) returns (r: Result<GameData, ServiceError>)
      ensures authToken !in authDAO.tokens ==> r == Err(Unauthorized)
      ensures authToken in authDAO.tokens && gameID !in gameDAO.games ==> r == Err(GameNotFound)
      ensures r.Ok? <==> authToken in authDAO.tokens && gameID in gameDAO.games
      ensures r.Ok? ==> r.value == gameDAO.games[gameID]
    {
      var auth := authDAO.GetAuth(authToken);
      if auth.None? {
        return Err(Unauthorized);
      }
      var game := gameDAO.GetGame(gameID);
      if game.Err? {
        return Err(GameNotFound);
      }
      return Ok(game.value);
    }

    /** makeMove: on success the record is stored again with the game
        after the move; on any failure nothing is written. */
    method MakeMove(authToken: string, gameID: int, move: Move) returns (r: Result<(), ServiceError>)
      requires gameDAO.Valid()
      modifies gameDAO
      ensures gameDAO.Valid() && gameDAO.nextID == old(gameDAO.nextID)
      ensures
        var want := MoveRequest(old(authDAO.tokens), old(gameDAO.games), authToken, gameID, move);
        && (r.Err? <==> want.Err?)
        && (want.Err? ==> r.error == want.error && gameDAO.games == old(gameDAO.games))
        && (want.Ok? ==> gameDAO.games == old(gameDAO.games)[gameID := want.value])
    {
      var auth := authDAO.GetAuth(authToken);
      if auth.None? {
        return Err(Unauthorized);
      }
      var gameData := gameDAO.GetGame(gameID);
      if gameData.Err? {
        return Err(GameNotFound);
      }
      var played := PlayMove(gameData.value.(gameID := gameID), auth.value.username, move);
      if played.Err? {
        return Err(played.error);
      }
      var stored := gameDAO.UpdateGame(gameID, played.value);
      return Ok(());
    }

    /** resignGame: on success the record is stored again with the game
        over; on any failure nothing is written. */
    method ResignGame(authToken: string, gameID: int) returns (r: Result<(), ServiceError>)
      requires gameDAO.Valid()
      modifies gameDAO
      ensures gameDAO.Valid() && gameDAO.nextID == old(gameDAO.nextID)
      ensures
        var want := ResignRequest(old(authDAO.tokens), old(gameDAO.games), authToken, gameID);
        && (r.Err? <==> want.Err?)
        && (want.Err? ==> r.error == want.error && gameDAO.games == old(gameDAO.games))
        && (want.Ok? ==> gameDAO.games == old(gameDAO.games)[gameID := want.value])
    {
      var auth := authDAO.GetAuth(authToken);
      if auth.None? {
        return Err(Unauthorized);
      }
      var gameData := gameDAO.GetGame(gameID);
      if gameData.Err? {
        return Err(GameNotFound);
      }
      var resigned := Resign(gameData.value.(gameID := gameID), auth.value.username);
      if resigned.Err? {
        return Err(resigned.error);
      }
      var stored := gameDAO.UpdateGame(gameID, resigned.value);
      return Ok(());
    }

    /** clear: no games; the id counter is not reset. */
    method Clear()
      requires gameDAO.Valid()
      modifies gameDAO
      ensures gameDAO.Valid() && gameDAO.games == map[] && gameDAO.nextID == old(gameDAO.nextID)
    {
      gameDAO.Clear();
    }
  }
}
