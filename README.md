# Game control of a Telegram trading-game bot, in Dafny

This project models how the bot controls its games. Two stores hold the
tables. `TelegramAccessor.TelegramStore` has chats, users and user-in-chat
relations. `GameAccessor.GameStore` has games, players and trading sessions.
Both are classes over maps from id to row, with counters that hand out
fresh ids. `GameTimers.TimerRegistry` is the per-game registry of
confirmation timers. `Messages.Messenger` is the log of everything the bot
sends. `Application.App` holds the four and defines `Consistent()`, the
agreements every handler keeps:

- every foreign key resolves;
- a chat is in the `"game"` state exactly when it has an active game;
- at most one active game per chat;
- at most one player per (game, user);
- a telegram id names at most one chat and at most one user;
- every registered timer belongs to an active game that is waiting for
  confirmations, and every such game has a timer.

On top of the stores sit:

- the handler descriptors and first-match dispatch (`Handlers`);
- the chat-level processor, for `/start_game`, `/stop_game` and the
  fall-through to the game (`ChatProcessor`);
- the game-level processor, for the confirm and cancel buttons and the
  firing of the confirmation timer (`GameProcessor`);
- the per-state chat processors and the chat-state setter (`ChatFsm`);
- the update router (`BotManager`);
- the inline-keyboard builder (`Keyboard`);
- the three state machines over their stored tokens (`States`);
- the row shapes and column defaults (`Models`).

The clock (`now`) and whether a chat-state update fails (`storeFails`) are
parameters. Sending a message appends to the log. Firing a timer is an
explicit call.

A handler that raises in the source returns `ok == false` and leaves the
stores as they were: cancel by an unknown user, a callback from an unknown
chat, a text message reaching a button handler, and `/start_game` whose
chat-state update fails (as the handler evidently intends; the as-written
handler that drops the failure is modelled beside it).

## Model

| member | source | states |
|---|---|---|
| States.ParseChatState | app/FSM/chat/state.py:13-15 | A stored token is read back as the chat state whose token it is. Every other string is no chat state. |
| States.ParseGameState | app/FSM/game/state.py:18-21 | Reading inverts the game token: `"waiting_for_conf"`, `"session"` and `"finished"` come back as their states, and nothing else does. |
| States.ParsePlayerState | app/FSM/player/state.py:9-11 | Reading inverts the player token (`"not_gaming"`, `"gaming"`). |
| States.TokensAreInjective | app/FSM/chat/state.py:13-15 | In each of the three machines, distinct states are stored as distinct tokens. |
| Models.NewChat | app/store/database/models.py:35-39 | A chat inserted with only its telegram id is in the state whose token is `"no game"`. |
| Models.NewGame | app/store/database/models.py:68-77 | A new game keeps the given chat, state, balance and limit, starts now, and has null `finished_at` and `winner_id`. |
| Models.NewTradingSession | app/store/database/models.py:89-96 | A new session has its number, is not finished, and has a null `finished_at`. |
| Models.NewHolding | app/store/database/models.py:111-116 | A holding inserted without a quantity holds 0 units. |
| Models.NoneIfEmpty | app/store/telegam/accessor.py:49-50 | The result is null exactly for a missing or empty string, and otherwise the string itself. |
| Models.NewUser | app/store/telegam/accessor.py:45-60 | The user row keeps the telegram id and first name. Last name and username are null exactly when missing or empty, and otherwise are the given values. |
| Models.UserWithoutLastNameRejectedAsWritten | app/store/database/models.py:22-23 | Under the declared NOT NULL `last_name`, the row written for a user with no last name, or an empty one, is not accepted. |
| Models.RelationInsertRejectedAsWritten | app/store/database/models.py:46-52 | The row written by connect_user_to_chat leaves `state` and `cur_balance` null. The declared schema refuses every such row. |
| Keyboard.ToInlineButton | app/utils/keyboard.py:5-8 | `text` is copied. `callback_data` is copied when present and null when absent. |
| Keyboard.CreateInlineKeyboard | app/utils/keyboard.py:1-13 | A markup exists exactly when every button has a `text`. It has the same number of rows, each of the same length, and each button is the transform of the input button at the same place. |
| Keyboard.ParticipationKeyboard | app/utils/keyboard.py:16-24 | One row of two buttons, with payloads `"confirm"` then `"cancel"`. |
| Messages.Messenger.Send | app/clients/tg.py:54-63 | A send appends exactly that outbound message to the log. |
| Messages.EchoText | app/store/bot/manager.py:39-42 | An edited message's text is echoed unchanged when present, and a missing text is rendered as `"None"`. |
| Messages.JoinFront | app/FSM/game/processors.py:32-34 | Joining a first part onto the join of the rest puts exactly one separator between them. |
| Messages.JoinPlayerList | app/FSM/game/processors.py:32-34 | The roster is `Join` (Python's `str.join`) of the bulleted names with newline separators. It is empty exactly when there are no names. |
| Handlers.ChatMessageHandler | app/handlers/decorators.py:14-32 | `text`, `chat_state` and `game_state` are recorded exactly as given. Each defaults to None. |
| Handlers.GameMessageHandler | app/handlers/decorators.py:35-54 | All four fields are recorded exactly as given. Each defaults to None. |
| Handlers.Decorate | app/handlers/decorators.py:19-30 | The wrapper returns what the wrapped function returns on every argument, and carries the single descriptor it was given. |
| Handlers.FirstMatch | app/FSM/chat/processors.py:72-84 | Some position is returned exactly when a rule matches. That rule matches and no earlier rule does. |
| Handlers.FirstMatchCongruence | app/FSM/game/processors.py:175-187 | Two rule tables that agree, position by position, on whether a rule matches select the same position. |
| Handlers.FindFirst | app/FSM/game/processors.py:175-187 | The processors' loop over their handlers in order returns the first match. |
| Handlers.FirstMatchIsFirst | app/FSM/chat/processors.py:72-84 | A matching position with no match before it is the selected one. |
| TelegramAccessor.ChatsWithState | app/store/telegam/accessor.py:85-91 | Exactly the chats with the telegram id take the new state. No other field and no other chat changes, and no chat is added or removed. |
| TelegramAccessor.TelegramStore.GetChatByTelegramId | app/store/telegam/accessor.py:9-14 | A chat is returned exactly when one with that telegram id is recorded, and it is that row. |
| TelegramAccessor.TelegramStore.CreateChatByTgId | app/store/telegam/accessor.py:23-27 | Exactly one chat is added, under the next chat id and in the default state. Users, relations and their id counters are unchanged. Telegram ids stay unique if the chat was new. |
| TelegramAccessor.TelegramStore.GetUserByTelegramId | app/store/telegam/accessor.py:37-43 | A user is returned exactly when one with that telegram id is recorded, and it is that row. |
| TelegramAccessor.TelegramStore.CreateUserByTgId | app/store/telegam/accessor.py:45-60 | Exactly one user is added, under the next user id, with the first name as given, and an empty or missing last name or username stored as null. Chats, relations and their id counters are unchanged. |
| TelegramAccessor.TelegramStore.CreateUserByTgIdAsWritten | app/store/telegam/accessor.py:45-60 | Against the declared NOT NULL `last_name`, the insert fails with nothing stored exactly when the sender has no last name or an empty one. Otherwise the user is stored as CreateUserByTgId stores it. |
| TelegramAccessor.TelegramStore.FindRelation | app/store/telegam/accessor.py:68-75 | The result is true exactly when the (user, chat) pair is recorded. |
| TelegramAccessor.TelegramStore.ConnectUserToChatAsWritten | app/store/telegam/accessor.py:62-83 | Against the declared NOT NULL `state` and `cur_balance` of `user_chat`, nothing is ever stored. The call succeeds exactly when the pair was already recorded. |
| TelegramAccessor.TelegramStore.ConnectUserToChat | app/store/telegam/accessor.py:62-83 | Afterwards the pair is recorded. An existing pair leaves the relations and their counter unchanged. Otherwise exactly that pair is added under the next relation id, so each pair is recorded at most once. Chats, users and their counters are unchanged. |
| TelegramAccessor.TelegramStore.SetChatState | app/store/telegam/accessor.py:85-91 | The chats become ChatsWithState of the old chats. Users, relations and counters are unchanged, and so are which telegram ids have a chat. |
| GameAccessor.PlayersReset | app/store/game/accessor.py:29-34 | Every player of the game becomes not gaming, every other player is unchanged, and no other field changes. |
| GameAccessor.GamePlayersAreTheGamingPlayers | app/FSM/game/processors.py:31 | The listed players are exactly the gaming players of the game, each once, in increasing id order. |
| GameAccessor.NoGamePlayers | app/FSM/game/processors.py:31-39 | The list is empty exactly when the game has no gaming player. |
| GameAccessor.GameStore.CreateGameInChat | app/store/game/accessor.py:10-19 | One game is added: fresh id, waiting for confirmations, session limit 3, start balance 10000. When the chat had no active game, it now has exactly one. |
| GameAccessor.GameStore.GetActiveGameByChatId | app/store/game/accessor.py:38-52 | A game is returned exactly when the chat has one that is not finished and has no `finished_at`, and it is that game. |
| GameAccessor.GameStore.ResetPlayersOf | app/store/game/accessor.py:29-34 | The loop over the players leaves them as PlayersReset of the old players. |
| GameAccessor.GameStore.FinishGameInChat | app/store/game/accessor.py:21-36 | With an active game: it becomes finished, gets `finished_at`, and its players, only they, become not gaming. Without one: nothing changes and None is returned. The chat has no active game afterwards. |
| GameAccessor.GameStore.CreatePlayer | app/store/game/accessor.py:54-65 | Exactly one player row is added, under the next player id, with exactly the given game, user, state and balance. Games, sessions and their id counters are unchanged. |
| GameAccessor.GameStore.GetPlayerByGameAndUserId | app/store/game/accessor.py:67-77 | A player is returned exactly when one exists for both that game and that user, and it is that row. |
| GameAccessor.GameStore.GetActivePlayerByGameAndUserId | app/FSM/game/processors.py:143-145 | A player is returned exactly when that game and user have a gaming player, and it is that row. When none is returned, no player of that user is gaming in that game. |
| GameAccessor.GameStore.SetPlayerState | app/FSM/player/state.py:19-20 | Only the state of that player changes. |
| GameAccessor.GameStore.SetGameState | app/store/game/accessor.py:79-83 | Only the state field of the game with that id changes. |
| GameAccessor.GameStore.CreateTradingSession | app/FSM/game/processors.py:50-52 | Exactly one unfinished session with that number is added, with a fresh id. |
| GameAccessor.GameStore.GetGamePlayers | app/FSM/game/processors.py:31 | The result is the game's gaming players in id order. |
| GameTimers.TimerRegistry.SetTimer | app/FSM/game/processors.py:21-63 | The game's entry becomes the new task. A task already registered for the game is logged as cancelled, and nothing else is. |
| GameTimers.TimerRegistry.CancelTimer | app/FSM/game/processors.py:65-69 | A registered task is cancelled and its entry removed. For an unregistered id nothing changes. |
| GameTimers.TimerRegistry.Discard | app/FSM/game/processors.py:59-60 | A task that ran drops its game's entry. |
| GameProcessor.SelectGameHandler | app/FSM/game/processors.py:175-187 | Confirm runs exactly for payload `"confirm"` while waiting for confirmations, and cancel exactly for `"cancel"`. Otherwise no handler runs. |
| GameProcessor.GameDispatchReadsOnlyPayloadAndState | app/FSM/game/processors.py:177-185 | Descriptors that agree on `callback_data` and `game_state` select the same handler, whatever their other two fields. |
| GameProcessor.ParticipationButtonsReachTheirHandlers | app/FSM/game/processors.py:71-74 | The two keyboard buttons reach the confirm and the cancel handler. |
| GameProcessor.GameMessageOf | app/FSM/game/processors.py:164-173 | A button press becomes a message with no text, the payload as data, the presser as sender and the pressed message's chat. A text message stays as it is. |
| GameProcessor.AsWrittenGameMessage | app/FSM/game/processors.py:164-173 | The conversion as written fails on every text message and agrees with GameMessageOf on every button press. |
| GameProcessor.PlainTextDuringGame | app/FSM/game/processors.py:164-192 | A plain text reaching the game processor fails as written. With the corrected conversion, no handler matches it. |
| GameProcessor.FindOrCreateUser | app/FSM/game/processors.py:82-92 | The result is the user with the author's telegram id. Only when none existed is one added, under the next user id and built from the presser's names. Chats, relations and their counters are unchanged. |
| GameProcessor.ConnectToChat | app/FSM/game/processors.py:93-95 | Afterwards the user is recorded in the chat: unchanged relations if already recorded, else exactly that pair under the next relation id. Chats and users are unchanged, and the agreements hold. |
| GameProcessor.ConfirmPlayer | app/FSM/game/processors.py:96-126 | PlayerConfirmed: the user's player ends up gaming. A gaming player only gets "already confirmed". A non-gaming player is set to gaming. Without a player, one is added under the next player id with the game's start balance. Games, sessions and their counters are unchanged. |
| GameProcessor.HandleConfirm | app/FSM/game/processors.py:71-126 | ConfirmHandled: the author's user, created from the presser's names under the next user id when unknown, is recorded in the chat (exactly one relation added if it was not), and the player step has PlayerConfirmed's exact player-table effect and message. Chats never change. |
| GameProcessor.HandleConfirmAsWritten | app/FSM/game/processors.py:71-126 | As written, an unknown author fails at the user-creation call and a user not yet recorded in the chat fails at the relation insert. Both fail with nothing changed. The handler succeeds exactly for a user already recorded in the chat, whose player then ends up gaming. |
| GameProcessor.HandleCancel | app/FSM/game/processors.py:128-154 | CancelHandled: an unknown author fails with nothing changed. Only a gaming player is set to not gaming, with a message. Otherwise nothing changes and nothing is sent. The telegram tables and every id counter are unchanged, and that user has no gaming player in the game afterwards. |
| GameProcessor.ProcessGameMessage | app/FSM/game/processors.py:156-193 | The handler run is SelectGameHandler of the payload and game state. With none, only "unknown command" is sent and no table changes. A handler reached by text, or a cancel by an unknown user, fails with no table changed and nothing sent. A confirm has exactly HandleConfirm's effect and a cancel exactly HandleCancel's. Every agreement is kept. |
| GameProcessor.AbandonGame | app/FSM/game/processors.py:39-45 | Finishing in the timer task's chat finishes exactly the timer task's game and resets its players. |
| GameProcessor.StartFirstSession | app/FSM/game/processors.py:46-52 | The game moves to `"session"`, and trading session 1 is added. |
| GameProcessor.DecideRoster | app/FSM/game/processors.py:30-56 | The roster is announced. An empty roster finishes the game with "not enough players". Otherwise session 1 starts. |
| GameProcessor.FireTimerAsWritten | app/FSM/game/processors.py:27-60 | Without a task nothing happens. Otherwise "time is up" is sent, the roster is decided and the entry dropped. After an abandon, the chat is still `"game"` with no active game. |
| GameProcessor.ActiveGamesElsewhereUnchanged | app/store/game/accessor.py:38-52 | Changing one game leaves every other chat's active-game status as it was. It leaves all of them as they were if the game's own activity is unchanged. |
| GameProcessor.FireTimer | app/FSM/game/processors.py:27-60 | Same effect on games, players, sessions, timers and log as FireTimerAsWritten. An abandoned game also returns its chat to `"no game"`, and every agreement is kept. |
| ChatFsm.ProcessorTableIsOneToOne | app/FSM/chat/state.py:45-48 | Each chat state has one processor, and two states share a processor only if they are equal. |
| ChatFsm.SetState | app/FSM/chat/state.py:56-66 | On success, only chats with the telegram id take the state. A failure is returned, not raised, and changes nothing. Either way, which telegram ids have a chat and whether they are unique are unchanged. |
| ChatFsm.RunGameIsGoingProcessor | app/FSM/chat/state.py:17-24 | `/start_game` only gets "game already started". Any other text does nothing. |
| ChatFsm.RunStartProcessorAsWritten | app/FSM/chat/state.py:26-43 | `/start_game` always reports "game started", even when setting the state failed. Other text is ignored, and the result is always False. |
| ChatFsm.RunStartProcessor | app/FSM/chat/state.py:26-43 | `/start_game` sets `"game"` and reports "game started", or on failure changes nothing and reports "Error starting game". Other text is ignored, and the result is always False. |
| ChatProcessor.SelectChatHandler | app/FSM/chat/processors.py:72-84 | Start runs exactly for `/start_game` with no game. "Already going" runs exactly for `/start_game` during a game. Stop runs exactly for `/stop_game` during a game. Otherwise no handler runs. |
| ChatProcessor.ChatDispatchReadsOnlyTextAndState | app/FSM/chat/processors.py:76-83 | Descriptors that agree on `text` and `chat_state` select the same handler, whatever their `game_state`. |
| ChatProcessor.OtherChatsKeepTheirGames | app/FSM/chat/processors.py:18-33 | Adding or changing games of one chat leaves every other chat's active-game status as it was. |
| ChatProcessor.OpenGame | app/FSM/chat/processors.py:25-33 | One waiting game with the default limits is added to the chat under the next game id. The keyboard is sent, and the game's timer is set with timeout 5 and captures the chat as it now is. Players, sessions and earlier timers are unchanged. |
| ChatProcessor.StartingKeepsAgreement | app/FSM/chat/processors.py:18-33 | Setting a chat without an active game to `"game"`, adding a waiting game in it and registering that game's timer keeps the chat/game/timer agreements. |
| ChatProcessor.HandleStartGame | app/FSM/chat/processors.py:18-33 | With a chat-state update that raises on failure: a failure stops the handler with nothing changed. Otherwise the chat goes to `"game"` and the game is opened as OpenGame states. Every agreement is kept either way, so the chat never has two active games. |
| ChatProcessor.HandleStartGameAsWritten | app/FSM/chat/processors.py:18-33 | As written, the game is opened whether or not the chat-state update failed. After a failure, the chat is still `"no game"` but has an active game, so the agreement is broken, and the next `/start_game` again selects the start handler. |
| ChatProcessor.HandleStartGameWhenGoing | app/FSM/chat/processors.py:35-41 | Only the "already going" message is sent. |
| ChatProcessor.FinishingKeepsAgreement | app/FSM/chat/processors.py:43-63 | Finishing a chat's active game leaves the chat without one. Then dropping its timer and returning the chat to `"no game"` keeps the chat/game/timer agreements. |
| ChatProcessor.CloseFinishedGame | app/FSM/chat/processors.py:54-61 | The timer is cancelled, and the game's state is set to finished. The chat returns to `"no game"`, unless the chat-state update fails; that failure is returned and dropped, and the chat is left as it was. |
| ChatProcessor.HandleFinishGame | app/FSM/chat/processors.py:43-63 | A game is finished exactly when the chat had an active one. Then its timer is cancelled, its players are reset, and the chat returns to `"no game"` unless that update fails. Otherwise no state changes. "Game over" is always sent. The agreements are kept when the update succeeds. When it fails after a game was finished, the chat is left in `"game"` with no active game. |
| ChatProcessor.ForwardToGame | app/FSM/chat/processors.py:85-92 | With an active game the text goes to the game processor with exactly ProcessGameMessage's effect, and fails exactly when a game handler takes it. Without one, only "unknown command" is sent and no table changes. |
| ChatProcessor.ProcessMessage | app/FSM/chat/processors.py:65-94 | The handler run is SelectChatHandler of the text and chat state, with the effect of that handler: start, "already going" alone, or finish. With none, the text is forwarded as ForwardToGame states. With a chat-state update that succeeds, it fails exactly when a game handler takes a forwarded text, and then nothing changes. Every path keeps the agreements, except a `/stop_game` whose chat-state update fails, which leaves the chat in `"game"` with no game. |
| BotManager.RouteOf | app/store/bot/manager.py:35-44 | Exactly one route per update: a message wins over an edited message, which wins over a callback. An update with none of them is skipped. |
| BotManager.ProcessFirstMessage | app/store/bot/manager.py:46-54 | A chat seen for the first time is stored under the next chat id in `"no game"`. `/start_game` then starts a game in it, or fails with only the chat stored if the chat-state update fails. Any other text gets only "unknown command". The agreements are kept. |
| BotManager.ProcessNewMessage | app/store/bot/manager.py:46-54 | The chat exists afterwards. A new chat has the message processed as ProcessFirstMessage states. A known chat has it processed in its own state, with the effect ProcessMessage states. With a chat-state update that succeeds, it fails exactly when MessageSucceeds of the tables it found says so, and then nothing changes. |
| BotManager.ProcessCallback | app/store/bot/manager.py:56-71 | An unknown chat fails with nothing changed. Without an active game, only "game not found" is answered. Otherwise the game processor takes the callback, with the effect ProcessGameMessage states for the chat and its active game. It fails exactly when CallbackSucceeds of the tables it found says so, and then nothing changes. |
| BotManager.HandleUpdate | app/store/bot/manager.py:36-44 | A message has the effect ProcessNewMessage states, and a callback the effect ProcessCallback states, with timers untouched. An edit is echoed to its chat with nothing else changed. A skipped update changes nothing. Messages are only appended. With a chat-state update that succeeds, it fails exactly when UpdateSucceeds of the tables it found says so, and then nothing changes. The agreements are kept, except by a `/stop_game` whose chat-state update fails. |
| BotManager.HandleUpdateInBatch | app/store/bot/manager.py:36-44 | One update of a batch appends exactly its own messages to the log and keeps the agreements. It fails exactly when UpdateSucceeds of the tables it found says so, and then sends nothing and leaves the tables as they were. An edit sends its echo, and a skipped update nothing. |
| BotManager.HandleUpdates | app/store/bot/manager.py:34-44 | The updates are handled in list order. Each recorded outcome is UpdateSucceeds of the tables that update found, starting from the tables before the batch; an edit or a skipped update passes the tables on unchanged. The returned position is the first update that raised: every update before it succeeded, and it changed nothing and sent nothing. Without one, every update succeeded. The log grows by each update's messages in order. The agreements hold throughout, and an empty batch changes nothing. |

## Left out

- Transport is not modelled: the HTTP client, the long poller, and the wording of outbound messages beyond their literal texts. A send is an append to `Messenger.sent`. `answer_callback_query` is not part of the client shown, so it is modelled only as an outbound record.
- asyncio is not modelled: real time, cancellation timing, and the race in which a cancelled task's `finally` removes a newer task's entry. Firing and cancelling are atomic calls (`GameProcessor.FireTimer`, `TimerRegistry.CancelTimer`), and `now` is a parameter.
- The admin HTTP surface, configuration, database setup and the wiring in app/FSM/__init__.py are not part of this model.
- The `pass` processors of app/FSM/game/state.py and the player FSM are not part of this model. Only their tokens and delegations are used.
- Buy/sell, elimination, winner selection and session rollover are not part of this model. The shown code has none of them.
- `get_chat_by_custom_id` and `get_user_by_custom_id` are not modelled. Nothing in the core calls them.
- Several names do not exist at run time. The model follows the intended behaviour through the stored tokens:
  - `GameFSM.GameStates`, `ChatStates.WAITING_FOR_GAME`, `PlayerStates.Gaming`;
  - `create_player_by_game_user_id`;
  - `GameMessenger` and `game_killed_message_`;
  - `ChatFSM(app)` and `get_state_by_tg_id`;
  - `chat_fsm.set_state(chat_id, state)`, whose static method also takes a session first;
  - `UpdateObj.callback_query`, which the shown dataclass lacks.
- `get_game_players`, `get_active_player_by_game_and_user_id`, `set_player_state` and `create_trading_session` are not in the accessor shown. They are modelled as their names and call sites describe.
- The confirm handler passes `cur_balance`, which is not a column of `user_game`. The model keeps it as the player's `balance`.
- The roster reads `player.first_name`, which a player row lacks. The model takes the first name of the player's user.
- `Numeric` columns are integers.
- The `unique` constraint on `username` is not modelled.
- Store failures are modelled only where the source catches them, in `ChatFsm.SetState`, and at its call sites: ChatProcessor.HandleStartGame, ChatProcessor.CloseFinishedGame and ChatProcessor.HandleFinishGame take whether the update fails as a parameter. The NOT NULL violations of the two inserts are modelled by the as-written accessor members. Other database errors are not modelled.
- GameProcessor.FindOrCreateUser: the confirm handler passes `first_name`, `last_name` and `username` as keyword arguments to `create_user_by_tg_id`, which takes only `telegram_id` and `from_` (app/store/telegam/accessor.py:45-47). The model passes the presser's names as the intended `from_`; GameProcessor.HandleConfirmAsWritten shows the call as written.
- ChatProcessor.ProcessMessage, BotManager.ProcessNewMessage and BotManager.HandleUpdate: after a `/stop_game` whose chat-state update fails, the chat/game agreements are not kept, as written. Their contracts then state the effect but not the agreements.
- GameProcessor.FireTimerAsWritten: the branch taken when the captured game is not waiting is kept, but it cannot happen in a consistent application. A registered task always captured a waiting game, and the captured object is never updated.
- GameProcessor.HandleConfirm and GameProcessor.HandleCancel identify the user by the author of the message carrying the keyboard, as written (`callback_query.message.from_`). The presser is used only for a new user's names.
- BotManager.HandleUpdates: the batch is handled with chat-state updates that succeed. A failing chat-state update is modelled one update at a time by BotManager.HandleUpdate, because after a failed `/stop_game` the agreements that later lookups rely on no longer hold. Within the batch, the effect of a message or a callback on the tables, and the messages it sends, are not chained from one update to the next (BotManager.HandleUpdate states them for one update). The batch states each outcome against the tables that update found, that a failing update changes nothing and sends nothing, that an edit or a skipped update leaves the tables unchanged, and what edits send.
- The dispatch tables are fixed sequences of (descriptor, handler) pairs. Python's reflection over the class dictionary is represented by their declaration order.

## Findings

| source | as written | input that shows it | evidently intended | confidence | as-written member | corrected member |
|---|---|---|---|---|---|---|
| app/FSM/game/processors.py:39-45 | With an empty roster the timer finishes the game but leaves the chat in `"game"`. Afterwards `/start_game` only gets "already going", and `/stop_game` finds no game and leaves the state alone, so the chat can never start a game again. | `/start_game`, then nobody confirms before the timer fires | The chat returns to `"no game"` when the game is abandoned | medium, not executed | GameProcessor.FireTimerAsWritten | GameProcessor.FireTimer |
| app/FSM/chat/state.py:31-42 | `ChatFSM.set_state` returns its exception instead of raising it. The `except` never runs, so "game started" is sent even when the state was not set. | `/start_game` while the chat-state update fails | "Error starting game" on failure | high, not executed | ChatFsm.RunStartProcessorAsWritten | ChatFsm.RunStartProcessor |
| app/FSM/game/processors.py:164-173 | `hasattr(update, "data")` also holds for a text `Message`, whose `data` defaults to None. The conversion then reads `update.message`, which a `Message` lacks, and raises. | Any plain text with no chat command, e.g. `hello`, sent while the chat has an active game | The text is taken as is and answered "unknown command" | high, not executed | GameProcessor.AsWrittenGameMessage | GameProcessor.GameMessageOf |
| app/store/database/models.py:51-52 | `user_chat.state` and `cur_balance` are NOT NULL without defaults, but connect_user_to_chat inserts only the two keys. | A confirm by a known user not yet recorded in the chat | The relation row is just the pair | medium, not executed | TelegramAccessor.TelegramStore.ConnectUserToChatAsWritten | TelegramAccessor.TelegramStore.ConnectUserToChat |
| app/store/database/models.py:23 | `last_name` is NOT NULL, but create_user_by_tg_id stores None for a missing last name. | A call of create_user_by_tg_id with a sender without a last name (the confirm handler's own call stops earlier, at its keyword arguments) | `last_name` nullable | medium, not executed | TelegramAccessor.TelegramStore.CreateUserByTgIdAsWritten | TelegramAccessor.TelegramStore.CreateUserByTgId |
| app/FSM/chat/processors.py:22-33 | The failed chat-state update is dropped and the game is opened anyway, in a chat still in `"no game"`. The chat then has an active game it does not know of, and the next `/start_game` in it again selects the start handler, which opens games. | `/start_game` while the chat-state update fails | The failure is raised before the game is created | medium, not executed | ChatProcessor.HandleStartGameAsWritten | ChatProcessor.HandleStartGame |
| app/FSM/game/processors.py:87-92 | create_user_by_tg_id is called with keyword arguments it does not declare, so the call raises a TypeError. | Confirm pressed when the keyboard message's author is not yet a stored user | The presser's names are passed as `from_` | high, not executed | GameProcessor.HandleConfirmAsWritten | GameProcessor.FindOrCreateUser |
