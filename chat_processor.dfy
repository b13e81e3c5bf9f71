/** ChatProcessor (app/FSM/chat/processors.py): text commands matched on
    the text and the chat's state, the start and stop handlers, and the fall
    through to the game processor. */
module ChatProcessor {
  import opened Wrappers
  import opened States
  import opened Models
  import opened Keyboard
  import opened Handlers
  import opened Messages
  import opened TelegramAccessor
  import opened GameAccessor
  import opened GameTimers
  import opened Application
  import opened GameProcessor
  import ChatFsm

  datatype ChatAction = StartGame | StartGameWhenGoing | FinishGame

  const StartCommand := "/start_game"
  const StopCommand := "/stop_game"

  /** The timeout handle_start_game gives the confirmation timer. */
  const ConfirmationTimeout := 5

  /** The decorated handlers of ChatProcessor, in declaration order. */
  const ChatRules: seq<Rule<ChatHandlerMeta, ChatAction>> := [
    Rule(ChatMessageHandler(text := Some(StartCommand), chatState := Some(GameNotStarted)), StartGame),
    Rule(ChatMessageHandler(text := Some(StartCommand), chatState := Some(GameIsGoing)), StartGameWhenGoing),
    Rule(ChatMessageHandler(text := Some(StopCommand), chatState := Some(GameIsGoing)), FinishGame)
  ]

  /** The test process_message applies to a descriptor: its text is None or
      equals the message's text, and its chat_state is None or equals the
      chat's state.  The descriptor's game_state plays no part. */
  predicate ChatRuleMatches(meta: ChatHandlerMeta, text: Option<string>, state: ChatState)
  {
    && (meta.text.None? || text == meta.text)
    && (meta.chatState.None? || meta.chatState == Some(state))
  }

  function ChatMatcher(text: Option<string>, state: ChatState): Rule<ChatHandlerMeta, ChatAction> -> bool
  {
    (r: Rule<ChatHandlerMeta, ChatAction>) => ChatRuleMatches(r.meta, text, state)
  }

  /** The handler process_message runs for a text in a chat state: start in
      the no-game state, the already-going reply or stop in the going state,
      and no handler for any other text. */
  function SelectChatHandler(text: Option<string>, state: ChatState): (r: Option<ChatAction>)
    ensures r == Some(StartGame) <==> text == Some(StartCommand) && state == GameNotStarted
    ensures r == Some(StartGameWhenGoing) <==> text == Some(StartCommand) && state == GameIsGoing
    ensures r == Some(FinishGame) <==> text == Some(StopCommand) && state == GameIsGoing
    ensures r.None? <==> text != Some(StartCommand) && (text != Some(StopCommand) || state == GameNotStarted)
  {
    assert ChatRules[0].meta == ChatHandlerMeta(Some(StartCommand), Some(GameNotStarted), None);
    assert ChatRules[1].meta == ChatHandlerMeta(Some(StartCommand), Some(GameIsGoing), None);
    assert ChatRules[2].meta == ChatHandlerMeta(Some(StopCommand), Some(GameIsGoing), None);
    assert ChatMatcher(text, state)(ChatRules[0]) == ChatRuleMatches(ChatRules[0].meta, text, state);
    assert ChatMatcher(text, state)(ChatRules[1]) == ChatRuleMatches(ChatRules[1].meta, text, state);
    assert ChatMatcher(text, state)(ChatRules[2]) == ChatRuleMatches(ChatRules[2].meta, text, state);
    match FirstMatch(ChatRules, ChatMatcher(text, state))
    case None =>
      // a start command matches the first or the second rule, whatever the state
      assert text == Some(StartCommand) ==> Some(state) != Some(GameNotStarted);
      assert text == Some(StartCommand) ==> Some(state) != Some(GameIsGoing);
      assert state.GameNotStarted? || state.GameIsGoing?;
      None
    case Some(k) => Some(ChatRules[k].handler)
  }

  /** Chat dispatch reads only the text and chat_state of a descriptor: two
      handler tables that agree on those select the same position, whatever
      their game_state. */
  lemma ChatDispatchReadsOnlyTextAndState(rs: seq<Rule<ChatHandlerMeta, ChatAction>>,
                                          ss: seq<Rule<ChatHandlerMeta, ChatAction>>,
                                          text: Option<string>, state: ChatState)
    requires |rs| == |ss|
    requires forall i :: 0 <= i < |rs| ==> rs[i].meta.text == ss[i].meta.text && rs[i].meta.chatState == ss[i].meta.chatState
    ensures FirstMatch(rs, ChatMatcher(text, state)) == FirstMatch(ss, ChatMatcher(text, state))
  {
    FirstMatchCongruence(rs, ChatMatcher(text, state), ss, ChatMatcher(text, state));
  }

  /** Adding a game of one chat, or changing one, leaves which other chats
      have an active game as it was. */
  lemma OtherChatsKeepTheirGames(games: map<int, Game>, games': map<int, Game>, chatId: int)
    requires games.Keys <= games'.Keys
    requires forall id :: id in games' && (id !in games || games'[id] != games[id]) ==>
               games'[id].chatId == chatId && (id in games ==> games[id].chatId == chatId)
    ensures forall c :: c != chatId ==> (ChatHasActiveGame(games', c) <==> ChatHasActiveGame(games, c))
  {
    forall c | c != chatId
      ensures ChatHasActiveGame(games', c) <==> ChatHasActiveGame(games, c)
    {
      if ChatHasActiveGame(games, c) {
        var id :| id in games && games[id].chatId == c && IsActive(games[id]);
        assert games'[id] == games[id];
      }
      if ChatHasActiveGame(games', c) {
        var id :| id in games' && games'[id].chatId == c && IsActive(games'[id]);
        assert id in games && games'[id] == games[id];
      }
    }
  }

  /** What handle_start_game does after the chat-state update: a game
      waiting for confirmations, with the default limits, is added to the
      chat under the next game id; its timer is set with timeout 5, capturing
      the chat as it now is; the participation keyboard is sent.  Players,
      sessions and earlier timers are left alone. */
  twostate predicate GameOpened(app: App, telegramId: int, chatId: int, now: Timestamp)
    reads app, app.tg, app.store, app.timers, app.out
  {
    var id := old(app.store.nextGameId);
    && id !in old(app.store.games)
    && app.store.games == old(app.store.games)[id := NewGame(id, chatId, WaitingForConfirmation, DefaultStartPlayerBalance, DefaultSessionLimit, now)]
    && chatId in app.tg.chats
    && app.timers.tasks == old(app.timers.tasks)[id := TimerTask(app.tg.chats[chatId], app.store.games[id], ConfirmationTimeout)]
    && app.timers.cancelled == old(app.timers.cancelled)
    && app.store.players == old(app.store.players) && app.store.sessions == old(app.store.sessions)
    && app.out.sent == old(app.out.sent) + [SendMessage(telegramId, ParticipationPrompt(ParticipationKeyboard()))]
  }

  /** The steps of handle_start_game after the chat-state update, whatever
      state that update left the chat in. */
  method OpenGame(app: App, message: Message, now: Timestamp)
    requires app.StoresValid() && app.tg.HasChat(message.chat.id)
    requires !app.store.HasActiveGame(app.tg.ChatIdOf(message.chat.id))
    requires forall id :: id in app.timers.tasks ==> id in app.store.games
    modifies app.store, app.timers, app.out
    ensures app.StoresValid()
    ensures GameOpened(app, message.chat.id, app.tg.ChatIdOf(message.chat.id), now)
  {
    var found := app.tg.GetChatByTelegramId(message.chat.id);
    var chat := found.value;
    var game := app.store.CreateGameInChat(chat.id, now);
    app.out.Send(SendMessage(message.chat.id, ParticipationPrompt(ParticipationKeyboard())));
    app.timers.SetTimer(chat, game, ConfirmationTimeout);
  }

  /** Putting a chat without an active game in the going state, opening a
      waiting game in it and registering that game's timer keeps the
      agreements between chat states, games and timers. */
  lemma StartingKeepsAgreement(chats: map<int, TgChat>, games: map<int, Game>, tasks: map<int, TimerTask>,
                               telegramId: int, chatId: int, g: Game)
    requires ChatStatesMatchGames(chats, games) && TimersMatchGames(tasks, games, chats)
    requires WaitingGamesHaveTimers(games, tasks) && UniqueChats(chats)
    requires chatId in chats && chats[chatId].id == chatId && chats[chatId].telegramId == telegramId
    requires !ChatHasActiveGame(games, chatId)
    requires g.id !in games && g.chatId == chatId && IsActive(g) && g.state == WaitingForConfirmation
    ensures var chats' := ChatsWithState(chats, telegramId, GameIsGoing);
            var games' := games[g.id := g];
            var tasks' := tasks[g.id := TimerTask(chats'[chatId], g, ConfirmationTimeout)];
            && ChatStatesMatchGames(chats', games')
            && TimersMatchGames(tasks', games', chats')
            && WaitingGamesHaveTimers(games', tasks')
  {
    var chats' := ChatsWithState(chats, telegramId, GameIsGoing);
    var games' := games[g.id := g];
    var tasks' := tasks[g.id := TimerTask(chats'[chatId], g, ConfirmationTimeout)];
    OtherChatsKeepTheirGames(games, games', chatId);
    assert games'[g.id].chatId == chatId && IsActive(games'[g.id]);
    forall c | c in chats' && c != chatId
      ensures chats'[c] == chats[c]
    {
      assert chats[c].telegramId != telegramId;
    }
    forall t | t in tasks'
      ensures TaskMatches(tasks'[t], t, games', chats')
    {
      if t != g.id {
        assert TaskMatches(tasks[t], t, games, chats);
      }
    }
  }

  /** What handle_start_game does when the chat-state update raises on
      failure, as the except branch of start_processor expects: a failure
      stops the handler before anything else happens; otherwise the chat goes
      to the going state and the game is opened. */
  twostate predicate StartHandled(app: App, telegramId: int, chatId: int, now: Timestamp, storeFails: bool, ok: bool)
    reads app, app.tg, app.store, app.timers, app.out
  {
    && (ok <==> !storeFails)
    && (storeFails ==> unchanged(app.tg, app.store, app.timers, app.out))
    && (!storeFails ==>
          && app.tg.chats == ChatsWithState(old(app.tg.chats), telegramId, GameIsGoing)
          && app.tg.users == old(app.tg.users) && app.tg.relations == old(app.tg.relations)
          && GameOpened(app, telegramId, chatId, now))
  }

  /** handle_start_game, reached in the no-game state, with a chat-state
      update that raises when the store fails.  A chat never gets a second
      active game this way, since it had none, and every agreement is kept. */
  method HandleStartGame(app: App, message: Message, now: Timestamp, storeFails: bool) returns (ok: bool)
    requires app.Consistent() && app.tg.HasChat(message.chat.id)
    requires app.tg.chats[app.tg.ChatIdOf(message.chat.id)].state == GameNotStarted
    modifies app.tg, app.store, app.timers, app.out
    ensures app.Consistent()
    ensures StartHandled(app, message.chat.id, old(app.tg.ChatIdOf(message.chat.id)), now, storeFails, ok)
  {
    ghost var chats, games, tasks := app.tg.chats, app.store.games, app.timers.tasks;
    ghost var chatId := app.tg.ChatIdOf(message.chat.id);
    var failed := ChatFsm.SetState(app.tg, message.chat.id, GameIsGoing, storeFails);
    if failed {
      return false;
    }
    assert app.tg.ChatIdOf(message.chat.id) == chatId;
    OpenGame(app, message, now);
    ghost var g := app.store.games[old(app.store.nextGameId)];
    StartingKeepsAgreement(chats, games, tasks, message.chat.id, chatId, g);
    ok := true;
  }

  /** handle_start_game as written: the failure that set_state returns is
      dropped, so the game is opened and its timer set even when the chat
      stays in the no-game state.  Then the chat has an active game it does
      not know of, and the next "/start_game" selects this handler again,
      which opens games. */
  method HandleStartGameAsWritten(app: App, message: Message, now: Timestamp, storeFails: bool)
    requires app.Consistent() && app.tg.HasChat(message.chat.id)
    requires app.tg.chats[app.tg.ChatIdOf(message.chat.id)].state == GameNotStarted
    modifies app.tg, app.store, app.timers, app.out
    ensures app.StoresValid() && app.tg.HasChat(message.chat.id)
    ensures GameOpened(app, message.chat.id, old(app.tg.ChatIdOf(message.chat.id)), now)
    ensures app.tg.chats == if storeFails then old(app.tg.chats) else ChatsWithState(old(app.tg.chats), message.chat.id, GameIsGoing)
    ensures !storeFails ==> app.Consistent()
    ensures storeFails ==>
              && !ChatStatesMatchGames(app.tg.chats, app.store.games)
              && app.store.HasActiveGame(app.tg.ChatIdOf(message.chat.id))
              && SelectChatHandler(Some(StartCommand), StateOfChat(app.tg, message.chat.id)) == Some(StartGame)
  {
    ghost var chats, games, tasks := app.tg.chats, app.store.games, app.timers.tasks;
    ghost var chatId := app.tg.ChatIdOf(message.chat.id);
    var failed := ChatFsm.SetState(app.tg, message.chat.id, GameIsGoing, storeFails);
    assert app.tg.ChatIdOf(message.chat.id) == chatId;
    OpenGame(app, message, now);
    ghost var g := app.store.games[old(app.store.nextGameId)];
    assert g.chatId == chatId && IsActive(g);
    if !failed {
      StartingKeepsAgreement(chats, games, tasks, message.chat.id, chatId, g);
    }
  }

  /** handle_start_game_when_game_is_going: only the already-going reply. */
  method HandleStartGameWhenGoing(app: App, message: Message)
    modifies app.out
    ensures app.out.sent == old(app.out.sent) + [SendMessage(message.chat.id, GameAlreadyGoing)]
  {
    app.out.Send(SendMessage(message.chat.id, GameAlreadyGoing));
  }

  /** Finishing the active game of a chat leaves the chat without one; then
      dropping the game's timer and putting the chat back in the no-game
      state keeps the agreements between chat states, games and timers. */
  lemma FinishingKeepsAgreement(chats: map<int, TgChat>, games: map<int, Game>, tasks: map<int, TimerTask>,
                                telegramId: int, id: int, now: Timestamp)
    requires ChatStatesMatchGames(chats, games) && TimersMatchGames(tasks, games, chats)
    requires WaitingGamesHaveTimers(games, tasks) && UniqueChats(chats) && OneActiveGamePerChat(games)
    requires id in games && IsActive(games[id]) && games[id].chatId in chats
    requires chats[games[id].chatId].telegramId == telegramId
    ensures var games' := games[id := games[id].(state := GameFinished, finishedAt := Some(now))];
            var chats' := ChatsWithState(chats, telegramId, GameNotStarted);
            && !ChatHasActiveGame(games', games[id].chatId)
            && ChatStatesMatchGames(chats', games')
            && TimersMatchGames(tasks - {id}, games', chats')
            && WaitingGamesHaveTimers(games', tasks - {id})
  {
    var games' := games[id := games[id].(state := GameFinished, finishedAt := Some(now))];
    var chats' := ChatsWithState(chats, telegramId, GameNotStarted);
    var chatId := games[id].chatId;
    ActiveGamesElsewhereUnchanged(games, games', id);
    assert !ChatHasActiveGame(games', chatId);
    forall c | c in chats' && c != chatId
      ensures chats'[c] == chats[c]
    {
      assert chats[c].telegramId != telegramId;
    }
    forall t | t in tasks - {id}
      ensures TaskMatches((tasks - {id})[t], t, games', chats')
    {
      assert TaskMatches(tasks[t], t, games, chats);
    }
  }

  /** The steps of handle_finish_game after the game is finished: its timer
      is cancelled, the chat is put back in the no-game state unless the
      store fails (set_state returns that failure, and it is dropped), and
      the game's state is set to finished once more. */
  method CloseFinishedGame(app: App, telegramId: int, id: int, storeFails: bool)
    requires app.tg.Valid() && app.store.Valid() && app.timers.Valid()
    modifies app.tg, app.store`games, app.timers
    ensures app.tg.Valid() && app.store.Valid() && app.timers.Valid()
    ensures UniqueChats(app.tg.chats) == old(UniqueChats(app.tg.chats))
    ensures app.tg.chats == if storeFails then old(app.tg.chats) else ChatsWithState(old(app.tg.chats), telegramId, GameNotStarted)
    ensures app.tg.users == old(app.tg.users) && app.tg.relations == old(app.tg.relations)
    ensures id in old(app.store.games) ==> app.store.games == old(app.store.games)[id := old(app.store.games)[id].(state := GameFinished)]
    ensures id !in old(app.store.games) ==> app.store.games == old(app.store.games)
    ensures app.timers.tasks == old(app.timers.tasks) - {id}
    ensures id in old(app.timers.tasks) ==> app.timers.cancelled == old(app.timers.cancelled) + [old(app.timers.tasks)[id]]
    ensures id !in old(app.timers.tasks) ==> app.timers.cancelled == old(app.timers.cancelled)
  {
    app.timers.CancelTimer(id);
    var failed := ChatFsm.SetState(app.tg, telegramId, GameNotStarted, storeFails);
    app.store.SetGameState(id, GameFinished);
  }

  /** What handle_finish_game does: the chat's active game, if any, is
      finished and its players reset; then its timer is cancelled, the chat
      goes back to the no-game state unless that update fails, and the
      game's state is set to finished.  With no active game, no state
      changes.  The game-killed message is sent either way. */
  twostate predicate FinishHandled(app: App, telegramId: int, chatId: int, now: Timestamp, storeFails: bool)
    reads app, app.tg, app.store, app.timers, app.out
  {
    && app.tg.users == old(app.tg.users) && app.tg.relations == old(app.tg.relations)
    && app.store.sessions == old(app.store.sessions)
    && app.out.sent == old(app.out.sent) + [SendMessage(telegramId, GameKilled)]
    && (!old(app.store.HasActiveGame(chatId)) ==>
          && app.tg.chats == old(app.tg.chats) && app.store.games == old(app.store.games)
          && app.store.players == old(app.store.players)
          && app.timers.tasks == old(app.timers.tasks) && app.timers.cancelled == old(app.timers.cancelled))
    && (old(app.store.HasActiveGame(chatId)) ==>
          var id := old(app.store.ActiveGameOf(chatId));
          && app.store.games == old(app.store.games)[id := old(app.store.games)[id].(state := GameFinished, finishedAt := Some(now))]
          && app.store.players == PlayersReset(old(app.store.players), id)
          && app.timers.tasks == old(app.timers.tasks) - {id}
          && (id in old(app.timers.tasks) ==> app.timers.cancelled == old(app.timers.cancelled) + [old(app.timers.tasks)[id]])
          && (id !in old(app.timers.tasks) ==> app.timers.cancelled == old(app.timers.cancelled))
          && app.tg.chats == if storeFails then old(app.tg.chats) else ChatsWithState(old(app.tg.chats), telegramId, GameNotStarted))
  }

  /** handle_finish_game.  Every agreement is kept when the chat-state update
      succeeds.  When it fails after a game was finished, the chat is left in
      the going state with no active game: "/start_game" then only gets the
      already-going reply and "/stop_game" finds no game, so the chat cannot
      start a game again. */
  method HandleFinishGame(app: App, message: Message, now: Timestamp, storeFails: bool) returns (finished: Option<Game>)
    requires app.StoresValid() && app.tg.HasChat(message.chat.id)
    modifies app.tg, app.store, app.timers, app.out
    ensures app.StoresValid()
    ensures old(app.Consistent()) && !storeFails ==> app.Consistent()
    ensures old(app.Consistent()) && storeFails && finished.Some? ==> !ChatStatesMatchGames(app.tg.chats, app.store.games)
    ensures finished.None? <==> !old(app.store.HasActiveGame(app.tg.ChatIdOf(message.chat.id)))
    ensures FinishHandled(app, message.chat.id, old(app.tg.ChatIdOf(message.chat.id)), now, storeFails)
  {
    ghost var chats, games, tasks := app.tg.chats, app.store.games, app.timers.tasks;
    ghost var wasConsistent := app.Consistent();
    var found := app.tg.GetChatByTelegramId(message.chat.id);
    var chat := found.value;
    finished := app.store.FinishGameInChat(chat.id, now);
    if finished.Some? {
      CloseFinishedGame(app, message.chat.id, finished.value.id, storeFails);
      assert app.store.games == games[finished.value.id := games[finished.value.id].(state := GameFinished, finishedAt := Some(now))];
      if wasConsistent {
        FinishingKeepsAgreement(chats, games, tasks, message.chat.id, finished.value.id, now);
        if storeFails {
          assert chats[chat.id].state == GameIsGoing;
          assert !ChatHasActiveGame(app.store.games, chat.id);
        }
      }
    }
    app.out.Send(SendMessage(message.chat.id, GameKilled));
  }

  /** The state of the chat with that telegram id (get_state_by_tg_id). */
  ghost function StateOfChat(tg: TelegramStore, telegramId: int): ChatState
    reads tg
    requires tg.HasChat(telegramId)
  {
    tg.chats[tg.ChatIdOf(telegramId)].state
  }

  /** What process_message does with a message from a recorded chat: the
      first handler whose descriptor matches the text and the chat's state
      runs, with the effect its own predicate states.  When none does, the
      text goes to the game processor if the chat has an active game, and is
      answered as an unknown command otherwise. */
  twostate predicate MessageProcessed(app: App, message: Message, now: Timestamp, storeFails: bool,
                                      new action: Option<ChatAction>, ok: bool)
    reads app, app.tg, app.store, app.timers, app.out
  {
    old(app.tg.HasChat(message.chat.id)) &&
    var chatId := old(app.tg.ChatIdOf(message.chat.id));
    && action == SelectChatHandler(message.text, old(app.tg.chats[chatId].state))
    && (action == Some(StartGame) ==> StartHandled(app, message.chat.id, chatId, now, storeFails, ok))
    && (action == Some(StartGameWhenGoing) ==>
          && ok && unchanged(app.tg, app.store, app.timers)
          && app.out.sent == old(app.out.sent) + [SendMessage(message.chat.id, GameAlreadyGoing)])
    && (action == Some(FinishGame) ==> ok && FinishHandled(app, message.chat.id, chatId, now, storeFails))
    && (action.None? && !old(app.store.HasActiveGame(chatId)) ==>
          && ok && unchanged(app.tg, app.store, app.timers)
          && app.out.sent == old(app.out.sent) + [SendMessage(message.chat.id, UnknownCommand)])
    && (action.None? && old(app.store.HasActiveGame(chatId)) ==>
          && unchanged(app.timers)
          && var game := old(app.store.games[app.store.ActiveGameOf(chatId)]);
             GameInputHandled(app, old(app.tg.chats[chatId]), game, FromMessage(message),
                              SelectGameHandler(message.data, game.state), ok))
  }

  /** The fall-through of process_message, for a text no chat handler takes:
      with an active game the game processor takes it, as GameInputHandled
      states; otherwise it is answered as an unknown command. */
  method ForwardToGame(app: App, chat: TgChat, message: Message) returns (ok: bool)
    requires app.Consistent()
    requires chat.id in app.tg.chats && app.tg.chats[chat.id] == chat && chat.telegramId == message.chat.id
    modifies app.tg, app.store, app.out
    ensures app.Consistent()
    ensures !old(app.store.HasActiveGame(chat.id)) ==>
              && ok && unchanged(app.tg, app.store)
              && app.out.sent == old(app.out.sent) + [SendMessage(message.chat.id, UnknownCommand)]
    ensures old(app.store.HasActiveGame(chat.id)) ==>
              var game := old(app.store.games[app.store.ActiveGameOf(chat.id)]);
              GameInputHandled(app, chat, game, FromMessage(message), SelectGameHandler(message.data, game.state), ok)
    ensures ok <==> !(old(app.store.HasActiveGame(chat.id)) &&
                      SelectGameHandler(message.data, old(app.store.games[app.store.ActiveGameOf(chat.id)].state)).Some?)
    ensures !ok ==> unchanged(app.tg, app.store) && app.out.sent == old(app.out.sent)
  {
    var game := app.store.GetActiveGameByChatId(chat.id);
    if game.Some? {
      var handled;
      handled, ok := ProcessGameMessage(app, chat, game.value, FromMessage(message));
    } else {
      app.out.Send(SendMessage(message.chat.id, UnknownCommand));
      ok := true;
    }
  }

  /** process_message.  Every path keeps the agreements, except a
      "/stop_game" whose chat-state update fails, which locks the chat as
      HandleFinishGame states; `ok` is false where a handler raises. */
  method ProcessMessage(app: App, message: Message, now: Timestamp, storeFails: bool) returns (action: Option<ChatAction>, ok: bool)
    requires app.Consistent() && app.tg.HasChat(message.chat.id)
    modifies app.tg, app.store, app.timers, app.out
    ensures app.StoresValid()
    ensures action != Some(FinishGame) || !storeFails ==> app.Consistent()
    ensures action == Some(FinishGame) && storeFails ==> !ChatStatesMatchGames(app.tg.chats, app.store.games)
    ensures MessageProcessed(app, message, now, storeFails, action, ok)
    ensures !storeFails ==>
              var chatId := old(app.tg.ChatIdOf(message.chat.id));
              (ok <==> !(action.None? && old(app.store.HasActiveGame(chatId)) &&
                         SelectGameHandler(message.data, old(app.store.games[app.store.ActiveGameOf(chatId)].state)).Some?))
    ensures !ok && !storeFails ==> unchanged(app.tg, app.store, app.timers) && app.out.sent == old(app.out.sent)
  {
    var found := app.tg.GetChatByTelegramId(message.chat.id);
    var chat := found.value;
    assert app.tg.ChatIdOf(message.chat.id) == chat.id;
    var k := FindFirst(ChatRules, ChatMatcher(message.text, chat.state));
    action := if k.Some? then Some(ChatRules[k.value].handler) else None;
    ok := true;
    match action {
      case Some(StartGame) =>
        ok := HandleStartGame(app, message, now, storeFails);
        assert ok <==> !storeFails;
      case Some(StartGameWhenGoing) =>
        HandleStartGameWhenGoing(app, message);
      case Some(FinishGame) =>
        var finished := HandleFinishGame(app, message, now, storeFails);
      case None =>
        ok := ForwardToGame(app, chat, message);
    }
  }
}
