/** The game, player and trading-session tables (app/store/game/accessor.py).
    Rows are keyed by their id, handed out from a counter; `select ... where`
    is a walk over the ids in order. */
module GameAccessor {
  import opened Wrappers
  import opened States
  import opened Models

  /** The numbers create_game_in_chat gives every new game. */
  const DefaultSessionLimit := 3
  const DefaultStartPlayerBalance := 10000

  /** The filter of get_active_game_by_chat_id: not finished by state and
      without a finishing time. */
  predicate IsActive(g: Game)
  {
    g.state != GameFinished && g.finishedAt.None?
  }

  /** A player who confirmed participation in that game and has not left. */
  predicate IsGamingIn(p: UserInGame, gameId: int)
  {
    p.gameId == gameId && p.state == Some(Gaming)
  }

  /** The players after a game is finished: every player of that game is set
      to not gaming, every other player is left alone, and no other field of
      any player changes. */
  function PlayersReset(players: map<int, UserInGame>, gameId: int): (r: map<int, UserInGame>)
    ensures r.Keys == players.Keys
    ensures forall id :: id in players ==> r[id].(state := players[id].state) == players[id]
    ensures forall id :: id in players && players[id].gameId == gameId ==> r[id].state == Some(NotGaming)
    ensures forall id :: id in players && players[id].gameId != gameId ==> r[id] == players[id]
  {
    map id | id in players ::
      if players[id].gameId == gameId then players[id].(state := Some(NotGaming)) else players[id]
  }

  /** At most one active game per chat: what lets the active-game lookup
      return one row rather than raise. */
  predicate OneActiveGamePerChat(games: map<int, Game>)
  {
    forall a, b ::
      (a in games && b in games && IsActive(games[a]) && IsActive(games[b]) &&
       games[a].chatId == games[b].chatId) ==> a == b
  }

  /** At most one player per (game, user): what lets the player lookup
      return one row rather than raise. */
  predicate OnePlayerPerUser(players: map<int, UserInGame>)
  {
    forall a, b ::
      (a in players && b in players && players[a].gameId == players[b].gameId &&
       players[a].userId == players[b].userId) ==> a == b
  }

  /** The gaming players of a game among the ids below `bound`, in id order. */
  function GamePlayers(players: map<int, UserInGame>, gameId: int, bound: int): seq<UserInGame>
    decreases bound
  {
    if bound <= 1 then []
    else GamePlayers(players, gameId, bound - 1) +
         (if bound - 1 in players && IsGamingIn(players[bound - 1], gameId) then [players[bound - 1]] else [])
  }

  /** GamePlayers lists exactly the gaming players of the game with an id
      below the bound, each once, in increasing id order. */
  lemma {:induction false} GamePlayersAreTheGamingPlayers(players: map<int, UserInGame>, gameId: int, bound: int)
    requires forall id :: id in players ==> players[id].id == id
    ensures forall i :: 0 <= i < |GamePlayers(players, gameId, bound)| ==>
              var p := GamePlayers(players, gameId, bound)[i];
              p.id in players && players[p.id] == p && IsGamingIn(p, gameId) && 0 < p.id < bound
    ensures forall id :: id in players && 0 < id < bound && IsGamingIn(players[id], gameId) ==>
              players[id] in GamePlayers(players, gameId, bound)
    ensures forall i, j :: 0 <= i < j < |GamePlayers(players, gameId, bound)| ==>
              GamePlayers(players, gameId, bound)[i].id < GamePlayers(players, gameId, bound)[j].id
    decreases bound
  {
    if bound > 1 {
      GamePlayersAreTheGamingPlayers(players, gameId, bound - 1);
    }
  }

  /** No player is listed exactly when the game has no gaming player. */
  lemma NoGamePlayers(players: map<int, UserInGame>, gameId: int, bound: int)
    requires forall id :: id in players ==> players[id].id == id
    ensures |GamePlayers(players, gameId, bound)| == 0 <==>
              forall id :: id in players && 0 < id < bound ==> !IsGamingIn(players[id], gameId)
  {
    GamePlayersAreTheGamingPlayers(players, gameId, bound);
    var ps := GamePlayers(players, gameId, bound);
    if |ps| > 0 {
      assert ps[0].id in players && IsGamingIn(players[ps[0].id], gameId);
    }
  }

  /** Whether some game of that chat is active. */
  ghost predicate ChatHasActiveGame(games: map<int, Game>, chatId: int)
  {
    exists id :: id in games && games[id].chatId == chatId && IsActive(games[id])
  }

  class GameStore {
    var games: map<int, Game>
    var players: map<int, UserInGame>
    var sessions: map<int, TradingSession>
    var nextGameId: int
    var nextPlayerId: int
    var nextSessionId: int

    /** Keys are the rows' ids, below the next id to hand out. */
    ghost predicate Valid()
      reads this
    {
      && 1 <= nextGameId && 1 <= nextPlayerId && 1 <= nextSessionId
      && (forall id :: id in games ==> games[id].id == id && 0 < id < nextGameId)
      && (forall id :: id in players ==> players[id].id == id && 0 < id < nextPlayerId)
      && (forall id :: id in sessions ==> sessions[id].id == id && 0 < id < nextSessionId)
    }

    ghost predicate HasActiveGame(chatId: int)
      reads this
    {
      ChatHasActiveGame(games, chatId)
    }

    ghost function ActiveGameOf(chatId: int): (id: int)
      reads this
      requires HasActiveGame(chatId)
      ensures id in games && games[id].chatId == chatId && IsActive(games[id])
    {
      var id :| id in games && games[id].chatId == chatId && IsActive(games[id]); id
    }

    ghost predicate HasPlayer(gameId: int, userId: int)
      reads this
    {
      exists id :: id in players && players[id].gameId == gameId && players[id].userId == userId
    }

    ghost function PlayerOf(gameId: int, userId: int): (id: int)
      reads this
      requires HasPlayer(gameId, userId)
      ensures id in players && players[id].gameId == gameId && players[id].userId == userId
    {
      var id :| id in players && players[id].gameId == gameId && players[id].userId == userId; id
    }

    constructor()
      ensures Valid() && OneActiveGamePerChat(games) && OnePlayerPerUser(players)
      ensures games == map[] && players == map[] && sessions == map[]
    {
      games, players, sessions := map[], map[], map[];
      nextGameId, nextPlayerId, nextSessionId := 1, 1, 1;
    }

    /** create_game_in_chat: one new game of that chat, waiting for
        confirmations, with session limit 3 and start balance 10000.  It does
        not look for an active game: a chat keeps one active game only if
        the caller creates a game when the chat has none. */
    method CreateGameInChat(chatId: int, now: Timestamp) returns (g: Game)
      requires Valid()
      modifies this
      ensures Valid()
      ensures g.id !in old(games) && g.id == old(nextGameId)
      ensures g == NewGame(g.id, chatId, WaitingForConfirmation, DefaultStartPlayerBalance, DefaultSessionLimit, now)
      ensures games == old(games)[g.id := g]
      ensures players == old(players) && sessions == old(sessions)
      ensures nextPlayerId == old(nextPlayerId) && nextSessionId == old(nextSessionId)
      ensures old(OneActiveGamePerChat(games) && !HasActiveGame(chatId)) ==> OneActiveGamePerChat(games) && HasActiveGame(chatId)
    {
      g := NewGame(nextGameId, chatId, WaitingForConfirmation, DefaultStartPlayerBalance, DefaultSessionLimit, now);
      games := games[g.id := g];
      nextGameId := nextGameId + 1;
      assert games[g.id].chatId == chatId && IsActive(games[g.id]);
    }

    /** get_active_game_by_chat_id: the active game of that chat, or None. */
    method GetActiveGameByChatId(chatId: int) returns (r: Option<Game>)
      requires Valid() && OneActiveGamePerChat(games)
      ensures r.Some? <==> HasActiveGame(chatId)
      ensures r.Some? ==> r.value.id == ActiveGameOf(chatId) && games[r.value.id] == r.value
    {
      var id := 1;
      while id < nextGameId
        invariant 1 <= id <= nextGameId
        invariant forall k :: k in games && k < id ==> !(games[k].chatId == chatId && IsActive(games[k]))
      {
        if id in games && games[id].chatId == chatId && IsActive(games[id]) {
          return Some(games[id]);
        }
        id := id + 1;
      }
      r := None;
    }

    /** The loop of finish_game_in_chat over the players of one game. */
    method ResetPlayersOf(gameId: int)
      requires Valid()
      modifies this`players
      ensures Valid()
      ensures players == PlayersReset(old(players), gameId)
    {
      var updated := players;
      var id := 1;
      while id < nextPlayerId
        invariant 1 <= id <= nextPlayerId && updated.Keys == players.Keys
        invariant forall k :: k in players && k < id ==> updated[k] == PlayersReset(players, gameId)[k]
        invariant forall k :: k in players && k >= id ==> updated[k] == players[k]
      {
        if id in updated && updated[id].gameId == gameId {
          updated := updated[id := updated[id].(state := Some(NotGaming))];
        }
        id := id + 1;
      }
      var reset := PlayersReset(players, gameId);
      assert updated.Keys == reset.Keys;
      assert forall k :: k in updated ==> updated[k] == reset[k];
      players := updated;
    }

    /** finish_game_in_chat: with an active game in the chat, that game is
        finished now and all of its players stop gaming, and the finished game
        is returned; without one, nothing changes and None is returned. */
    method FinishGameInChat(chatId: int, now: Timestamp) returns (r: Option<Game>)
      requires Valid() && OneActiveGamePerChat(games)
      modifies this
      ensures Valid() && OneActiveGamePerChat(games)
      ensures r.None? <==> !old(HasActiveGame(chatId))
      ensures r.None? ==> games == old(games) && players == old(players)
      ensures r.Some? ==> r.value.id == old(ActiveGameOf(chatId))
      ensures r.Some? ==> r.value == old(games)[r.value.id].(state := GameFinished, finishedAt := Some(now))
      ensures r.Some? ==> games == old(games)[r.value.id := r.value]
      ensures r.Some? ==> players == PlayersReset(old(players), r.value.id)
      ensures !HasActiveGame(chatId)
      ensures sessions == old(sessions)
      ensures nextGameId == old(nextGameId) && nextPlayerId == old(nextPlayerId) && nextSessionId == old(nextSessionId)
    {
      var active := GetActiveGameByChatId(chatId);
      r := None;
      if active.Some? {
        var g := active.value.(state := GameFinished, finishedAt := Some(now));
        games := games[g.id := g];
        ResetPlayersOf(g.id);
        r := Some(g);
      }
    }

    /** create_player_by_chat_user_id: one new player row with exactly the
        given game, user, state and balance. */
    method CreatePlayer(gameId: int, userId: int, state: Option<PlayerState>, balance: int)
      returns (p: UserInGame)
      requires Valid()
      modifies this
      ensures Valid()
      ensures p.id == old(nextPlayerId) && p.id !in old(players) && nextPlayerId == p.id + 1
      ensures p == UserInGame(p.id, userId, gameId, state, balance)
      ensures players == old(players)[p.id := p]
      ensures games == old(games) && sessions == old(sessions)
      ensures nextGameId == old(nextGameId) && nextSessionId == old(nextSessionId)
      ensures old(OnePlayerPerUser(players) && !HasPlayer(gameId, userId)) ==> OnePlayerPerUser(players)
    {
      p := UserInGame(nextPlayerId, userId, gameId, state, balance);
      players := players[p.id := p];
      nextPlayerId := nextPlayerId + 1;
    }

    /** get_player_by_chat_and_user_id: the player of that game and user, in
        any state, or None. */
    method GetPlayerByGameAndUserId(gameId: int, userId: int) returns (r: Option<UserInGame>)
      requires Valid() && OnePlayerPerUser(players)
      ensures r.Some? <==> HasPlayer(gameId, userId)
      ensures r.Some? ==> r.value.id == PlayerOf(gameId, userId) && players[r.value.id] == r.value
    {
      var id := 1;
      while id < nextPlayerId
        invariant 1 <= id <= nextPlayerId
        invariant forall k :: k in players && k < id ==> !(players[k].gameId == gameId && players[k].userId == userId)
      {
        if id in players && players[id].gameId == gameId && players[id].userId == userId {
          return Some(players[id]);
        }
        id := id + 1;
      }
      r := None;
    }

    /** get_active_player_by_game_and_user_id: the player of that game and
        user whose state is gaming, or None. */
    method GetActivePlayerByGameAndUserId(gameId: int, userId: int) returns (r: Option<UserInGame>)
      requires Valid() && OnePlayerPerUser(players)
      ensures r.Some? <==> HasPlayer(gameId, userId) && players[PlayerOf(gameId, userId)].state == Some(Gaming)
      ensures r.Some? ==> r.value.id == PlayerOf(gameId, userId) && players[r.value.id] == r.value
      ensures r.None? ==> forall k :: k in players && players[k].userId == userId ==> !IsGamingIn(players[k], gameId)
    {
      var id := 1;
      while id < nextPlayerId
        invariant 1 <= id <= nextPlayerId
        invariant forall k :: k in players && k < id ==>
                    !(players[k].gameId == gameId && players[k].userId == userId && players[k].state == Some(Gaming))
      {
        if id in players && players[id].gameId == gameId && players[id].userId == userId
           && players[id].state == Some(Gaming) {
          return Some(players[id]);
        }
        id := id + 1;
      }
      r := None;
    }

    /** set_player_state: the state of the player with that id. */
    method SetPlayerState(playerId: int, state: PlayerState)
      requires Valid()
      modifies this`players
      ensures Valid()
      ensures playerId in old(players) ==> players == old(players)[playerId := old(players)[playerId].(state := Some(state))]
      ensures playerId !in old(players) ==> players == old(players)
    {
      if playerId in players {
        players := players[playerId := players[playerId].(state := Some(state))];
      }
    }

    /** set_game_state: only the state field of the game with that id. */
    method SetGameState(gameId: int, state: GameState)
      requires Valid()
      modifies this`games
      ensures Valid()
      ensures gameId in old(games) ==> games == old(games)[gameId := old(games)[gameId].(state := state)]
      ensures gameId !in old(games) ==> games == old(games)
    {
      if gameId in games {
        games := games[gameId := games[gameId].(state := state)];
      }
    }

    /** create_trading_session: a new, unfinished session with that number. */
    method CreateTradingSession(gameId: int, sessionNum: int, now: Timestamp) returns (s: TradingSession)
      requires Valid()
      modifies this`sessions, this`nextSessionId
      ensures Valid()
      ensures s.id == old(nextSessionId) && s.id !in old(sessions)
      ensures s == NewTradingSession(s.id, gameId, sessionNum, now)
      ensures sessions == old(sessions)[s.id := s]
    {
      s := NewTradingSession(nextSessionId, gameId, sessionNum, now);
      sessions := sessions[s.id := s];
      nextSessionId := nextSessionId + 1;
    }

    /** get_game_players: the gaming players of that game, in id order. */
    method GetGamePlayers(gameId: int) returns (ps: seq<UserInGame>)
      requires Valid()
      ensures ps == GamePlayers(players, gameId, nextPlayerId)
    {
      ps := [];
      var id := 1;
      while id < nextPlayerId
        invariant 1 <= id <= nextPlayerId
        invariant ps == GamePlayers(players, gameId, id)
      {
        if id in players && IsGamingIn(players[id], gameId) {
          ps := ps + [players[id]];
        }
        id := id + 1;
      }
    }
  }
}
