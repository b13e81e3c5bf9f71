/** The three state machines of the bot, over the tokens that the database
    columns hold.  Chat states come from app/FSM/chat/state.py, game states from
    app/FSM/game/state.py and player states from app/FSM/player/state.py. */
module States {
  import opened Wrappers

  /** Whether a chat currently hosts a game. */
  datatype ChatState = GameNotStarted | GameIsGoing

  /** The life cycle of one game. */
  datatype GameState = WaitingForConfirmation | GameGoing | GameFinished

  /** Whether a user takes part in a game. */
  datatype PlayerState = NotGaming | Gaming

  /** The token a chat row stores for a chat state. */
  function ChatToken(s: ChatState): string
  {
    match s
    case GameNotStarted => "no game"
    case GameIsGoing => "game"
  }

  /** Reads a stored chat token back; every other string is not a chat state. */
  function ParseChatState(t: string): (r: Option<ChatState>)
    ensures r.Some? ==> ChatToken(r.value) == t
    ensures forall s :: ChatToken(s) == t ==> r == Some(s)
  {
    if t == "no game" then Some(GameNotStarted)
    else if t == "game" then Some(GameIsGoing)
    else None
  }

  /** The token a game row stores for a game state. */
  function GameToken(s: GameState): string
  {
    match s
    case WaitingForConfirmation => "waiting_for_conf"
    case GameGoing => "session"
    case GameFinished => "finished"
  }

  function ParseGameState(t: string): (r: Option<GameState>)
    ensures r.Some? ==> GameToken(r.value) == t
    ensures forall s :: GameToken(s) == t ==> r == Some(s)
  {
    if t == "waiting_for_conf" then Some(WaitingForConfirmation)
    else if t == "session" then Some(GameGoing)
    else if t == "finished" then Some(GameFinished)
    else None
  }

  /** The token a player row stores for a player state. */
  function PlayerToken(s: PlayerState): string
  {
    match s
    case NotGaming => "not_gaming"
    case Gaming => "gaming"
  }

  function ParsePlayerState(t: string): (r: Option<PlayerState>)
    ensures r.Some? ==> PlayerToken(r.value) == t
    ensures forall s :: PlayerToken(s) == t ==> r == Some(s)
  {
    if t == "not_gaming" then Some(NotGaming)
    else if t == "gaming" then Some(Gaming)
    else None
  }

  /** Distinct states are stored as distinct tokens, so a stored token
      identifies its state. */
  lemma TokensAreInjective()
    ensures forall a: ChatState, b: ChatState :: ChatToken(a) == ChatToken(b) ==> a == b
    ensures forall a: GameState, b: GameState :: GameToken(a) == GameToken(b) ==> a == b
    ensures forall a: PlayerState, b: PlayerState :: PlayerToken(a) == PlayerToken(b) ==> a == b
  {
    forall a: ChatState, b: ChatState | ChatToken(a) == ChatToken(b) ensures a == b {
      assert ParseChatState(ChatToken(a)) == Some(a);
    }
    forall a: GameState, b: GameState | GameToken(a) == GameToken(b) ensures a == b {
      assert ParseGameState(GameToken(a)) == Some(a);
    }
    forall a: PlayerState, b: PlayerState | PlayerToken(a) == PlayerToken(b) ensures a == b {
      assert ParsePlayerState(PlayerToken(a)) == Some(a);
    }
  }
}
