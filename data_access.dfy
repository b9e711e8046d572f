/** The server's in-memory stores: maps from game ids, usernames and auth
    tokens to records, changed in place. A stored game is held here as the
    value of its ChessGame (board, turn, game-over flag). */
module DataAccess {
  import opened Wrappers
  import opened ChessTypes
  import opened Board
  import opened Rules

  /** model.UserData: a registered account. */
  datatype UserData = UserData(username: string, password: string, email: string)

  /** model.AuthData: a login session. */
  datatype AuthData = AuthData(authToken: string, username: string)

  /** model.GameData: a game record. An empty seat is None (null). */
  datatype GameData = GameData(
    gameID: int,
    whiteUsername: Option<string>,
    blackUsername: Option<string>,
    gameName: string,
    game: GameState)

  /** Why a store throws DataAccessException. */
  datatype DataError = UnknownGame | UserExists

  /** The record createGame stores: both seats empty, a new game. */
  function NewGameData(gameID: int, gameName: string): (d: GameData)
    ensures d.gameID == gameID && d.gameName == gameName
    ensures d.whiteUsername.None? && d.blackUsername.None?
    ensures d.game.turn == White && !d.game.gameOver && d.game.board == StartingGrid()
  {
    GameData(gameID, None, None, gameName, InitialState())
  }

  /** MemoryGameDAO: game records by id, and the id the next created game
      gets. */
  class MemoryGameDAO {
    var games: map<int, GameData>
    var nextID: int

    /** Ids start at 1 and every stored id was handed out already, so the
        next id is not in use. */
    ghost predicate Valid()
      reads this
    {
      nextID >= 1 && forall id :: id in games ==> 1 <= id < nextID
    }

    constructor ()
      ensures Valid() && games == map[] && nextID == 1
    {
      games := map[];
      nextID := 1;
    }

    /** createGame: the new record gets the next id, which was not in use;
        no other record changes and the counter moves on by one. */
    method CreateGame(gameName: string) returns (gameID: int)
      requires Valid()
      modifies this
      ensures Valid()
      ensures gameID == old(nextID) && nextID == gameID + 1 && gameID >= 1
      ensures gameID !in old(games)
      ensures games == old(games)[gameID := NewGameData(gameID, gameName)]
    {
      gameID := nextID;
      nextID := nextID + 1;
      games := games[gameID := NewGameData(gameID, gameName)];
    }

    /** getGame: the stored record, or UnknownGame. */
    method GetGame(gameID: int) returns (r: Result<GameData, DataError>)
      ensures r.Ok? <==> gameID in games
      ensures r.Ok? ==> r.value == games[gameID]
      ensures r.Err? ==> r.error == UnknownGame
    {
      if gameID in games {
        return Ok(games[gameID]);
      }
      return Err(UnknownGame);
    }

    /** updateGame: replaces the record of a known id and nothing else; an
        unknown id fails and changes nothing. */
    method UpdateGame(gameID: int, game: GameData) returns (r: Result<(), DataError>)
      requires Valid()
      modifies this
      ensures Valid() && nextID == old(nextID)
      ensures r.Ok? <==> gameID in old(games)
      ensures r.Ok? ==> games == old(games)[gameID := game]
      ensures r.Err? ==> r.error == UnknownGame && games == old(games)
    {
      if gameID !in games {
        return Err(UnknownGame);
      }
      games := games[gameID := game];
      return Ok(());
    }

    /** listGames: a copy of the map. */
    method ListGames() returns (copy: map<int, GameData>)
      ensures copy == games
    {
      copy := games;
    }

    /** clear: no records; the id counter is not reset. */
    method Clear()
      requires Valid()
      modifies this
      ensures Valid() && games == map[] && nextID == old(nextID)
    {
      games := map[];
    }
  }

  /** MemoryUserDAO: accounts by username. */
  class MemoryUserDAO {
    var users: map<string, UserData>

    constructor ()
      ensures users == map[]
    {
      users := map[];
    }

    /** getUser: the stored account, or None (null). */
    method GetUser(username: string) returns (u: Option<UserData>)
      ensures u.Some? <==> username in users
      ensures u.Some? ==> u.value == users[username]
    {
      if username in users {
        return Some(users[username]);
      }
      return None;
    }

    /** createUser: a taken username fails and changes nothing; otherwise
        exactly that account is added. */
    method CreateUser(user: UserData) returns (r: Result<(), DataError>)
      modifies this
      ensures r.Err? <==> user.username in old(users)
      ensures r.Err? ==> r.error == UserExists && users == old(users)
      ensures r.Ok? ==> users == old(users)[user.username := user]
    {
      if user.username in users {
        return Err(UserExists);
      }
      users := users[user.username := user];
      return Ok(());
    }

    /** clear: no accounts. */
    method Clear()
      modifies this
      ensures users == map[]
    {
      users := map[];
    }
  }

  /** MemoryAuthDAO: sessions by token. */
  class MemoryAuthDAO {
    var tokens: map<string, AuthData>

    constructor ()
      ensures tokens == map[]
    {
      tokens := map[];
    }

    /** createAuth: maps the token to the session, replacing any session
        already under that token. */
    method CreateAuth(auth: AuthData)
      modifies this
      ensures tokens == old(tokens)[auth.authToken := auth]
    {
      tokens := tokens[auth.authToken := auth];
    }

    /** getAuth: the stored session, or None (null). */
    method GetAuth(token: string) returns (a: Option<AuthData>)
      ensures a.Some? <==> token in tokens
      ensures a.Some? ==> a.value == tokens[token]
    {
      if token in tokens {
        return Some(tokens[token]);
      }
      return None;
    }

    /** deleteAuth: removes that token only; an absent token changes
        nothing. */
    method DeleteAuth(token: string)
      modifies this
      ensures tokens == old(tokens) - {token}
      ensures token !in old(tokens) ==> tokens == old(tokens)
    {
      tokens := tokens - {token};
    }

    /** clear: no sessions. */
    method Clear()
      modifies this
      ensures tokens == map[]
    {
      tokens := map[];
    }
  }
}
