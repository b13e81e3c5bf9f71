/** The running bot as the handlers see it: the two stores, the timer registry
    and the outbound side, with the agreements between them that every handler
    keeps.  Foreign keys are those of app/store/database/models.py; the
    agreement between a chat's state and its games is the design of the
    handlers in app/FSM/chat/processors.py and app/FSM/game/processors.py. */
module Application {
  import opened States
  import opened Models
  import opened Messages
  import opened TelegramAccessor
  import opened GameAccessor
  import opened GameTimers

  /** Every game belongs to a recorded chat (game.chat_id). */
  predicate GamesInChats(games: map<int, Game>, chats: map<int, TgChat>)
  {
    forall id :: id in games ==> games[id].chatId in chats
  }

  /** Every player belongs to a recorded game and user. */
  predicate PlayersLinked(players: map<int, UserInGame>, games: map<int, Game>, users: map<int, TgUser>)
  {
    forall id :: id in players ==> players[id].gameId in games && players[id].userId in users
  }

  /** Every trading session belongs to a recorded game. */
  predicate SessionsLinked(sessions: map<int, TradingSession>, games: map<int, Game>)
  {
    forall id :: id in sessions ==> sessions[id].gameId in games
  }

  /** Every user-in-chat relation joins a recorded user and chat. */
  predicate RelationsLinked(relations: map<int, UserInChat>, users: map<int, TgUser>, chats: map<int, TgChat>)
  {
    forall id :: id in relations ==> relations[id].userId in users && relations[id].chatId in chats
  }

  /** A chat is in the going state exactly when it has an active game. */
  ghost predicate ChatStatesMatchGames(chats: map<int, TgChat>, games: map<int, Game>)
  {
    forall c :: c in chats ==> (chats[c].state == GameIsGoing <==> ChatHasActiveGame(games, c))
  }

  /** What a registered timer captured still describes its game: the game is
      active and waiting for confirmations, and the captured chat is the
      game's chat, with its telegram id. */
  predicate TaskMatches(t: TimerTask, id: int, games: map<int, Game>, chats: map<int, TgChat>)
  {
    && id in games && IsActive(games[id]) && games[id].state == WaitingForConfirmation
    && t.game.id == id && t.game.state == WaitingForConfirmation
    && t.chat.id == games[id].chatId && t.chat.id in chats
    && chats[t.chat.id].telegramId == t.chat.telegramId
  }

  predicate TimersMatchGames(tasks: map<int, TimerTask>, games: map<int, Game>, chats: map<int, TgChat>)
  {
    forall id :: id in tasks ==> TaskMatches(tasks[id], id, games, chats)
  }

  /** An active game still waiting for confirmations has its timer. */
  predicate WaitingGamesHaveTimers(games: map<int, Game>, tasks: map<int, TimerTask>)
  {
    forall id :: id in games && IsActive(games[id]) && games[id].state == WaitingForConfirmation ==> id in tasks
  }

  class App {
    const tg: TelegramStore
    const store: GameStore
    const timers: TimerRegistry
    const out: Messenger

    /** Each store is well formed, and the lookups the handlers make find at
        most one row. */
    ghost predicate StoresValid()
      reads this, tg, store, timers
    {
      && tg.Valid() && UniqueChats(tg.chats) && UniqueUsers(tg.users)
      && store.Valid() && OneActiveGamePerChat(store.games) && OnePlayerPerUser(store.players)
      && timers.Valid()
    }

    ghost predicate Consistent()
      reads this, tg, store, timers
    {
      && StoresValid()
      && GamesInChats(store.games, tg.chats)
      && PlayersLinked(store.players, store.games, tg.users)
      && SessionsLinked(store.sessions, store.games)
      && RelationsLinked(tg.relations, tg.users, tg.chats)
      && ChatStatesMatchGames(tg.chats, store.games)
      && TimersMatchGames(timers.tasks, store.games, tg.chats)
      && WaitingGamesHaveTimers(store.games, timers.tasks)
    }

    /** A freshly started bot: empty tables, no timers, nothing sent. */
    constructor()
      ensures Consistent()
      ensures fresh(tg) && fresh(store) && fresh(timers) && fresh(out)
      ensures tg.chats == map[] && store.games == map[] && timers.tasks == map[] && out.sent == []
    {
      tg := new TelegramStore();
      store := new GameStore();
      timers := new TimerRegistry();
      out := new Messenger();
    }
  }
}
