/** The persisted entities of app/store/database/models.py, one datatype per
    table, with the column defaults the accessors rely on.  A nullable column is
    an `Option`; a non-null column is a plain value.  `Numeric` columns are
    integers here: every amount the modelled operations store is whole. */
module Models {
  import opened Wrappers
  import opened States

  /** A database timestamp (`func.now()`), supplied by the caller. */
  type Timestamp = int

  /** telegram_user.  `last_name` is nullable here; see UserRowAsWritten. */
  datatype TgUser = TgUser(
    id: int,
    firstName: string,
    lastName: Option<string>,
    username: Option<string>,
    telegramId: int)

  /** telegram_chat: `state` is non-null and holds a chat-state token. */
  datatype TgChat = TgChat(id: int, telegramId: int, state: ChatState)

  /** user_chat: which user has been seen in which chat.  The two extra
      non-null columns models.py declares are discussed at RelationRowAsWritten. */
  datatype UserInChat = UserInChat(id: int, userId: int, chatId: int)

  /** user_game, a player: one user's participation in one game.  `state` is
      nullable; `balance` is the player's current balance. */
  datatype UserInGame = UserInGame(
    id: int,
    userId: int,
    gameId: int,
    state: Option<PlayerState>,
    balance: int)

  /** game: `finished_at` and `winner_id` are nullable, the rest is not. */
  datatype Game = Game(
    id: int,
    startedAt: Timestamp,
    finishedAt: Option<Timestamp>,
    state: GameState,
    startPlayerBalance: int,
    sessionLimit: int,
    winnerId: Option<int>,
    chatId: int)

  /** trading_session: `session_num` is required, `finished_at` nullable. */
  datatype TradingSession = TradingSession(
    id: int,
    gameId: int,
    startedAt: Timestamp,
    finishedAt: Option<Timestamp>,
    isFinished: bool,
    sessionNum: int)

  /** asset: a catalogue entry shared by all games. */
  datatype Asset = Asset(id: int, title: string)

  /** user_in_game_asset: how many units of one asset a player holds. */
  datatype UserInGameAsset = UserInGameAsset(id: int, userGameId: int, assetId: int, quantity: int)

  /** asset_price_in_session: the required price of one asset in one session. */
  datatype AssetPriceInSession = AssetPriceInSession(id: int, assetId: int, sessionId: int, price: int)

  /** A chat row inserted with only its telegram id takes the column default
      for its state, the "no game" token. */
  function NewChat(id: int, telegramId: int): (c: TgChat)
    ensures c.id == id && c.telegramId == telegramId
    ensures ChatToken(c.state) == "no game"
  {
    TgChat(id, telegramId, GameNotStarted)
  }

  /** A game row as inserted: started now, not finished, no winner. */
  function NewGame(id: int, chatId: int, state: GameState, startPlayerBalance: int,
                   sessionLimit: int, now: Timestamp): (g: Game)
    ensures g.id == id && g.chatId == chatId && g.state == state && g.startedAt == now
    ensures g.startPlayerBalance == startPlayerBalance && g.sessionLimit == sessionLimit
    ensures g.finishedAt.None? && g.winnerId.None?
  {
    Game(id, now, None, state, startPlayerBalance, sessionLimit, None, chatId)
  }

  /** A trading session as inserted with its number: not finished. */
  function NewTradingSession(id: int, gameId: int, sessionNum: int, now: Timestamp): (s: TradingSession)
    ensures s.id == id && s.gameId == gameId && s.sessionNum == sessionNum && s.startedAt == now
    ensures !s.isFinished && s.finishedAt.None?
  {
    TradingSession(id, gameId, now, None, false, sessionNum)
  }

  /** A holding inserted without a quantity starts at zero units. */
  function NewHolding(id: int, userGameId: int, assetId: int): (h: UserInGameAsset)
    ensures h.id == id && h.userGameId == userGameId && h.assetId == assetId
    ensures h.quantity == 0
  {
    UserInGameAsset(id, userGameId, assetId, 0)
  }

  /** Python's `x if x else None` on an optional string: the empty string and
      a missing value both become null. */
  function NoneIfEmpty(s: Option<string>): (r: Option<string>)
    ensures r.None? <==> (s.None? || s == Some(""))
    ensures r.Some? ==> r == s
  {
    if s.None? || s.value == "" then None else s
  }

  /** The user row create_user_by_tg_id stores: the first name as given,
      an empty or missing last name or username as null. */
  function NewUser(id: int, telegramId: int, firstName: string, lastName: Option<string>,
                   username: string): (u: TgUser)
    ensures u.id == id && u.telegramId == telegramId && u.firstName == firstName
    ensures u.lastName.None? <==> (lastName.None? || lastName == Some(""))
    ensures u.lastName.Some? ==> u.lastName == lastName
    ensures u.username.None? <==> username == ""
    ensures u.username.Some? ==> u.username.value == username
  {
    TgUser(id, firstName, NoneIfEmpty(lastName), NoneIfEmpty(Some(username)), telegramId)
  }

  // ---------------------------------------------------------------------
  // The schema exactly as declared, for the two inserts it rejects.
  // ---------------------------------------------------------------------

  /** telegram_user as declared: `first_name` and `last_name` are NOT NULL. */
  datatype TgUserRowAsDeclared = TgUserRowAsDeclared(
    id: int,
    firstName: Option<string>,
    lastName: Option<string>,
    username: Option<string>,
    telegramId: int)

  predicate UserRowAcceptedAsDeclared(r: TgUserRowAsDeclared)
  {
    r.firstName.Some? && r.lastName.Some?
  }

  /** The row create_user_by_tg_id hands to the declared table. */
  function UserRowAsWritten(id: int, telegramId: int, firstName: string, lastName: Option<string>,
                            username: string): TgUserRowAsDeclared
  {
    TgUserRowAsDeclared(id, Some(firstName), NoneIfEmpty(lastName), NoneIfEmpty(Some(username)), telegramId)
  }

  /** A Telegram user without a last name cannot be stored under the declared
      schema: the accessor writes null into a NOT NULL column. */
  lemma UserWithoutLastNameRejectedAsWritten(id: int, telegramId: int, firstName: string, username: string)
    ensures !UserRowAcceptedAsDeclared(UserRowAsWritten(id, telegramId, firstName, None, username))
    ensures !UserRowAcceptedAsDeclared(UserRowAsWritten(id, telegramId, firstName, Some(""), username))
  {
  }

  /** user_chat as declared: `state` and `cur_balance` are NOT NULL and have
      no default. */
  datatype UserInChatRowAsDeclared = UserInChatRowAsDeclared(
    id: int,
    userId: int,
    chatId: int,
    state: Option<string>,
    curBalance: Option<int>)

  predicate RelationRowAcceptedAsDeclared(r: UserInChatRowAsDeclared)
  {
    r.state.Some? && r.curBalance.Some?
  }

  /** The row connect_user_to_chat hands to the declared table: only the keys. */
  function RelationRowAsWritten(id: int, userId: int, chatId: int): UserInChatRowAsDeclared
  {
    UserInChatRowAsDeclared(id, userId, chatId, None, None)
  }

  /** Under the declared schema no user can ever be connected to a chat. */
  lemma RelationInsertRejectedAsWritten(id: int, userId: int, chatId: int)
    ensures !RelationRowAcceptedAsDeclared(RelationRowAsWritten(id, userId, chatId))
  {
  }
}
