/** GameProcessor (app/FSM/game/processors.py): dispatch of button presses
    to the confirm and cancel handlers, the handlers themselves, and what a
    confirmation timer does when it fires. */
module GameProcessor {
  import opened Wrappers
  import opened States
  import opened Models
  import opened Keyboard
  import opened Handlers
  import opened Messages
  import opened TelegramAccessor
  import opened GameAccessor
  import opened GameTimers
  import opened Application

  datatype GameAction = ConfirmParticipation | CancelParticipation

  /** What reaches the game processor: a text message that no chat handler
      took, or a button press. */
  datatype GameInput = FromMessage(message: Message) | FromCallback(callback: CallbackQuery)

  /** The decorated handlers of GameProcessor, in declaration order. */
  const GameRules: seq<Rule<GameHandlerMeta, GameAction>> := [
    Rule(GameMessageHandler(callbackData := Some(ConfirmPayload), gameState := Some(WaitingForConfirmation)),
         ConfirmParticipation),
    Rule(GameMessageHandler(callbackData := Some(CancelPayload), gameState := Some(WaitingForConfirmation)),
         CancelParticipation)
  ]

  /** The test process_message applies to a descriptor: its callback_data is
      None or equals the payload, and its game_state is None or equals the
      game's state.  The other two fields of the descriptor play no part. */
  predicate GameRuleMatches(meta: GameHandlerMeta, data: Option<string>, state: GameState)
  {
    && (meta.callbackData.None? || data == meta.callbackData)
    && (meta.gameState.None? || meta.gameState == Some(state))
  }

  function GameMatcher(data: Option<string>, state: GameState): Rule<GameHandlerMeta, GameAction> -> bool
  {
    (r: Rule<GameHandlerMeta, GameAction>) => GameRuleMatches(r.meta, data, state)
  }

  /** The handler process_message runs for a payload while the game is in a
      state: confirm or cancel for their own payloads while confirmations are
      awaited, and no handler otherwise. */
  function SelectGameHandler(data: Option<string>, state: GameState): (r: Option<GameAction>)
    ensures r == Some(ConfirmParticipation) <==> state == WaitingForConfirmation && data == Some(ConfirmPayload)
    ensures r == Some(CancelParticipation) <==> state == WaitingForConfirmation && data == Some(CancelPayload)
    ensures r.None? <==> state != WaitingForConfirmation || (data != Some(ConfirmPayload) && data != Some(CancelPayload))
  {
    var confirm, cancel := GameRules[0], GameRules[1];
    assert confirm.meta == GameHandlerMeta(Some(ConfirmPayload), None, Some(WaitingForConfirmation), None);
    assert cancel.meta == GameHandlerMeta(Some(CancelPayload), None, Some(WaitingForConfirmation), None);
    assert GameMatcher(data, state)(cancel) == GameRuleMatches(cancel.meta, data, state);
    match FirstMatch(GameRules, GameMatcher(data, state))
    case None => None
    case Some(k) => Some(GameRules[k].handler)
  }

  /** Game dispatch reads only callback_data and game_state of a descriptor:
      two handler tables that agree on those select the same position,
      whatever their callback_data_startswith and player_state. */
  lemma GameDispatchReadsOnlyPayloadAndState(rs: seq<Rule<GameHandlerMeta, GameAction>>,
                                             ss: seq<Rule<GameHandlerMeta, GameAction>>,
                                             data: Option<string>, state: GameState)
    requires |rs| == |ss|
    requires forall i :: 0 <= i < |rs| ==>
               rs[i].meta.callbackData == ss[i].meta.callbackData && rs[i].meta.gameState == ss[i].meta.gameState
    ensures FirstMatch(rs, GameMatcher(data, state)) == FirstMatch(ss, GameMatcher(data, state))
  {
    FirstMatchCongruence(rs, GameMatcher(data, state), ss, GameMatcher(data, state));
  }

  /** The two buttons of the participation keyboard carry exactly the
      payloads of the confirm and cancel handlers. */
  lemma ParticipationButtonsReachTheirHandlers()
    ensures SelectGameHandler(ParticipationKeyboard().inlineKeyboard[0][0].callbackData, WaitingForConfirmation)
            == Some(ConfirmParticipation)
    ensures SelectGameHandler(ParticipationKeyboard().inlineKeyboard[0][1].callbackData, WaitingForConfirmation)
            == Some(CancelParticipation)
  {
    var row := ParticipationKeyboard().inlineKeyboard[0];
    assert row[0].callbackData == Some(ConfirmPayload) && row[1].callbackData == Some(CancelPayload);
  }

  /** The message process_message matches on: a button press becomes a
      message of the pressed message's id and chat, from the presser, with
      no text and the button's payload as data; a text message is taken as it
      is. */
  function GameMessageOf(u: GameInput): (m: Message)
    ensures u.FromCallback? ==> m.text.None? && m.data == u.callback.data
    ensures u.FromCallback? ==> m.from == u.callback.from && m.chat == u.callback.message.chat
    ensures u.FromMessage? ==> m == u.message
  {
    match u
    case FromMessage(m) => m
    case FromCallback(cb) => Message(cb.message.messageId, cb.from, cb.message.chat, None, cb.data)
  }

  /** The conversion as written: `hasattr(update, "data")` holds for a text
      message too, whose missing `.message` then raises (None here).  It
      agrees with GameMessageOf on button presses and fails on every text
      message. */
  function AsWrittenGameMessage(u: GameInput): (r: Option<Message>)
    ensures r.None? <==> u.FromMessage?
    ensures u.FromCallback? ==> r == Some(GameMessageOf(u))
  {
    match u
    case FromMessage(_) => None
    case FromCallback(cb) => Some(Message(cb.message.messageId, cb.from, cb.message.chat, None, cb.data))
  }

  /** A plain text message in a chat with an active game: as written the game
      processor raises; with the corrected conversion no handler matches, so
      the "unknown command" reply is sent. */
  lemma PlainTextDuringGame(m: Message, state: GameState)
    requires m.data.None?
    ensures AsWrittenGameMessage(FromMessage(m)).None?
    ensures SelectGameHandler(GameMessageOf(FromMessage(m)).data, state).None?
  {
    assert GameMessageOf(FromMessage(m)).data == None;
  }

  /** The first step of confirm: the user with that telegram id, created
      from the presser's names when there is none. */
  method FindOrCreateUser(app: App, telegramId: int, from: MessageFrom) returns (user: TgUser)
    requires app.Consistent()
    modifies app.tg
    ensures app.Consistent()
    ensures user.telegramId == telegramId && user.id in app.tg.users && app.tg.users[user.id] == user
    ensures old(app.tg.HasUser(telegramId)) ==> app.tg.users == old(app.tg.users) && app.tg.nextUserId == old(app.tg.nextUserId)
    ensures !old(app.tg.HasUser(telegramId)) ==>
              && user.id == old(app.tg.nextUserId) && app.tg.nextUserId == user.id + 1
              && user.id !in old(app.tg.users) && app.tg.users == old(app.tg.users)[user.id := user]
              && user == NewUser(user.id, telegramId, from.firstName, from.lastName, from.username)
    ensures app.tg.chats == old(app.tg.chats) && app.tg.relations == old(app.tg.relations)
    ensures app.tg.nextChatId == old(app.tg.nextChatId) && app.tg.nextRelationId == old(app.tg.nextRelationId)
  {
    var found := app.tg.GetUserByTelegramId(telegramId);
    if found.Some? {
      user := found.value;
    } else {
      user := app.tg.CreateUserByTgId(telegramId, from);
    }
  }

  /** The second step of confirm: the user is recorded in the chat. */
  method ConnectToChat(app: App, chat: TgChat, user: TgUser)
    requires app.Consistent()
    requires chat.id in app.tg.chats && app.tg.chats[chat.id] == chat
    requires user.id in app.tg.users && app.tg.users[user.id] == user
    modifies app.tg
    ensures app.Consistent()
    ensures app.tg.chats == old(app.tg.chats) && app.tg.users == old(app.tg.users)
    ensures app.tg.nextChatId == old(app.tg.nextChatId) && app.tg.nextUserId == old(app.tg.nextUserId)
    ensures app.tg.Connected(user.id, chat.id)
    ensures old(app.tg.Connected(user.id, chat.id)) ==>
              app.tg.relations == old(app.tg.relations) && app.tg.nextRelationId == old(app.tg.nextRelationId)
    ensures !old(app.tg.Connected(user.id, chat.id)) ==>
              var id := old(app.tg.nextRelationId);
              && app.tg.relations == old(app.tg.relations)[id := UserInChat(id, user.id, chat.id)]
              && app.tg.nextRelationId == id + 1
  {
    var connectedUser, connectedChat := app.tg.ConnectUserToChat(chat.telegramId, user.telegramId);
    assert app.tg.UserIdOf(user.telegramId) == user.id && app.tg.ChatIdOf(chat.telegramId) == chat.id;
  }

  /** The last step of confirm: the user's player in the game ends up gaming. */
  method ConfirmPlayer(app: App, chat: TgChat, game: Game, user: TgUser)
    requires app.Consistent()
    requires game.id in app.store.games && user.id in app.tg.users
    modifies app.store, app.out
    ensures app.Consistent()
    ensures PlayerConfirmed(app, chat, game, user)
  {
    var existing := app.store.GetPlayerByGameAndUserId(game.id, user.id);
    if existing.Some? {
      if existing.value.state == Some(Gaming) {
        app.out.Send(SendMessage(chat.telegramId, AlreadyConfirmed(user.firstName)));
      } else {
        app.store.SetPlayerState(existing.value.id, Gaming);
        assert app.store.players[existing.value.id].gameId == game.id;
        app.out.Send(SendMessage(chat.telegramId, ParticipationConfirmed(user.firstName)));
      }
    } else {
      var p := app.store.CreatePlayer(game.id, user.id, Some(Gaming), game.startPlayerBalance);
      assert app.store.players[p.id].gameId == game.id && app.store.players[p.id].userId == user.id;
      app.out.Send(SendMessage(chat.telegramId, ParticipationConfirmed(user.firstName)));
    }
  }

  /** What the player step of confirm does: afterwards the user's player in
      the game is gaming.  An already gaming player only hears that; a
      player who had left is put back; a user without a player gets a new
      gaming player with the game's start balance.  Games and sessions never
      change. */
  twostate predicate PlayerConfirmed(app: App, chat: TgChat, game: Game, user: TgUser)
    reads app, app.store, app.out
  {
    var had := old(app.store.HasPlayer(game.id, user.id));
    && app.store.games == old(app.store.games) && app.store.sessions == old(app.store.sessions)
    && app.store.nextGameId == old(app.store.nextGameId) && app.store.nextSessionId == old(app.store.nextSessionId)
    && app.store.HasPlayer(game.id, user.id)
    && app.store.players[app.store.PlayerOf(game.id, user.id)].state == Some(Gaming)
    && (had && old(app.store.players[app.store.PlayerOf(game.id, user.id)].state) == Some(Gaming) ==>
          && app.store.players == old(app.store.players) && app.store.nextPlayerId == old(app.store.nextPlayerId)
          && app.out.sent == old(app.out.sent) + [SendMessage(chat.telegramId, AlreadyConfirmed(user.firstName))])
    && (had && old(app.store.players[app.store.PlayerOf(game.id, user.id)].state) != Some(Gaming) ==>
          var pid := old(app.store.PlayerOf(game.id, user.id));
          && app.store.players == old(app.store.players)[pid := old(app.store.players)[pid].(state := Some(Gaming))]
          && app.store.nextPlayerId == old(app.store.nextPlayerId)
          && app.out.sent == old(app.out.sent) + [SendMessage(chat.telegramId, ParticipationConfirmed(user.firstName))])
    && (!had ==>
          var pid := old(app.store.nextPlayerId);
          && pid !in old(app.store.players)
          && app.store.players == old(app.store.players)[pid := UserInGame(pid, user.id, game.id, Some(Gaming), game.startPlayerBalance)]
          && app.store.nextPlayerId == pid + 1
          && app.out.sent == old(app.out.sent) + [SendMessage(chat.telegramId, ParticipationConfirmed(user.firstName))])
  }

  /** What handle_conifrm_participation does.  The user is the one whose
      telegram id is the author of the message the keyboard hangs on; an
      unknown user is created from the presser's names under the next user
      id.  The user is then recorded in the chat, under the next relation id
      unless already recorded, and the player step runs as PlayerConfirmed
      states.  Chats never change. */
  twostate predicate ConfirmHandled(app: App, chat: TgChat, game: Game, cb: CallbackQuery)
    reads app, app.tg, app.store, app.out
  {
    var tid := cb.message.from.id;
    app.tg.HasUser(tid) &&
    var uid := app.tg.UserIdOf(tid);
    && (old(app.tg.HasUser(tid)) ==> app.tg.users == old(app.tg.users) && app.tg.nextUserId == old(app.tg.nextUserId))
    && (!old(app.tg.HasUser(tid)) ==>
          && uid == old(app.tg.nextUserId) && app.tg.nextUserId == uid + 1
          && app.tg.users == old(app.tg.users)[uid := NewUser(uid, tid, cb.from.firstName, cb.from.lastName, cb.from.username)])
    && app.tg.chats == old(app.tg.chats) && app.tg.nextChatId == old(app.tg.nextChatId)
    && app.tg.Connected(uid, chat.id)
    && (old(app.tg.Connected(uid, chat.id)) ==>
          app.tg.relations == old(app.tg.relations) && app.tg.nextRelationId == old(app.tg.nextRelationId))
    && (!old(app.tg.Connected(uid, chat.id)) ==>
          var rid := old(app.tg.nextRelationId);
          app.tg.relations == old(app.tg.relations)[rid := UserInChat(rid, uid, chat.id)] && app.tg.nextRelationId == rid + 1)
    && PlayerConfirmed(app, chat, game, app.tg.users[uid])
  }

  /** handle_conifrm_participation, with the effect ConfirmHandled states; the
      user it returns is the one with the author's telegram id. */
  method HandleConfirm(app: App, chat: TgChat, game: Game, cb: CallbackQuery) returns (user: TgUser)
    requires app.Consistent()
    requires chat.id in app.tg.chats && app.tg.chats[chat.id] == chat
    requires game.id in app.store.games
    modifies app.tg, app.store, app.out
    ensures app.Consistent()
    ensures user.telegramId == cb.message.from.id && user.id in app.tg.users && app.tg.users[user.id] == user
    ensures ConfirmHandled(app, chat, game, cb)
  {
    user := FindOrCreateUser(app, cb.message.from.id, cb.from);
    assert app.tg.UserIdOf(cb.message.from.id) == user.id;
    ConnectToChat(app, chat, user);
    label Connected:
    ConfirmPlayer(app, chat, game, user);
    assert PlayerConfirmed@Connected(app, chat, game, user);
  }

  /** handle_conifrm_participation as written.  An unknown user is created by
      a call whose keyword arguments create_user_by_tg_id does not accept, so
      it raises before anything is stored; and connect_user_to_chat stores a
      relation row its table refuses, so a user not yet recorded in the chat
      raises there.  Only a user already recorded in the chat reaches the
      player step, and no relation is ever added. */
  method HandleConfirmAsWritten(app: App, chat: TgChat, game: Game, cb: CallbackQuery) returns (ok: bool)
    requires app.Consistent()
    requires chat.id in app.tg.chats && app.tg.chats[chat.id] == chat
    requires game.id in app.store.games
    modifies app.store, app.out
    ensures app.Consistent()
    ensures ok <==> app.tg.HasUser(cb.message.from.id) && app.tg.Connected(app.tg.UserIdOf(cb.message.from.id), chat.id)
    ensures !ok ==> unchanged(app.store, app.out)
    ensures ok ==>
              var uid := app.tg.UserIdOf(cb.message.from.id);
              app.store.HasPlayer(game.id, uid) && app.store.players[app.store.PlayerOf(game.id, uid)].state == Some(Gaming)
  {
    var found := app.tg.GetUserByTelegramId(cb.message.from.id);
    if found.None? {
      return false;
    }
    var user, connectedChat;
    user, connectedChat, ok := app.tg.ConnectUserToChatAsWritten(chat.telegramId, found.value.telegramId);
    if !ok {
      return;
    }
    ConfirmPlayer(app, chat, game, user);
  }

  /** What handle_cancel_participation does.  The user is the author of the
      message the keyboard hangs on; with no such user the handler raises
      (ok is false) and nothing changes.  Only a gaming player of that user
      in the game is set to not gaming, with a message; otherwise nothing
      changes and nothing is sent.  The telegram tables never change. */
  twostate predicate CancelHandled(app: App, chat: TgChat, game: Game, cb: CallbackQuery, ok: bool)
    reads app, app.tg, app.store, app.out
  {
    var tid := cb.message.from.id;
    && (ok <==> app.tg.HasUser(tid))
    && unchanged(app.tg)
    && app.store.games == old(app.store.games) && app.store.sessions == old(app.store.sessions)
    && app.store.nextGameId == old(app.store.nextGameId) && app.store.nextPlayerId == old(app.store.nextPlayerId)
    && app.store.nextSessionId == old(app.store.nextSessionId)
    && (!ok ==> unchanged(app.store, app.out))
    && (ok ==>
          var uid := app.tg.UserIdOf(tid);
          && (forall id :: id in app.store.players && app.store.players[id].userId == uid ==>
                !IsGamingIn(app.store.players[id], game.id))
          && if old(app.store.HasPlayer(game.id, uid) && app.store.players[app.store.PlayerOf(game.id, uid)].state == Some(Gaming)) then
               var pid := old(app.store.PlayerOf(game.id, uid));
               && app.store.players == old(app.store.players)[pid := old(app.store.players)[pid].(state := Some(NotGaming))]
               && app.out.sent == old(app.out.sent) + [SendMessage(chat.telegramId, ParticipationCancelled(app.tg.users[uid].firstName))]
             else
               app.store.players == old(app.store.players) && app.out.sent == old(app.out.sent))
  }

  /** handle_cancel_participation, with the effect CancelHandled states. */
  method HandleCancel(app: App, chat: TgChat, game: Game, cb: CallbackQuery) returns (ok: bool)
    requires app.Consistent()
    modifies app.store, app.out
    ensures app.Consistent()
    ensures CancelHandled(app, chat, game, cb, ok)
  {
    var found := app.tg.GetUserByTelegramId(cb.message.from.id);
    if found.None? {
      return false;
    }
    var user := found.value;
    var player := app.store.GetActivePlayerByGameAndUserId(game.id, user.id);
    if player.Some? {
      app.store.SetPlayerState(player.value.id, NotGaming);
      app.out.Send(SendMessage(chat.telegramId, ParticipationCancelled(user.firstName)));
    }
    ok := true;
  }

  /** What GameProcessor.process_message does with an input in a chat with
      an active game: the handler SelectGameHandler picks runs, with the
      effect ConfirmHandled or CancelHandled states, or only "unknown
      command" is sent.  A handler reached by a text message raises, since it
      reads the message under `.message`, and so does cancel by an unknown
      user; `ok` is false then and nothing changes.  Games, sessions and
      chats never change here, and messages are only appended. */
  twostate predicate GameInputHandled(app: App, chat: TgChat, game: Game, u: GameInput, new action: Option<GameAction>, ok: bool)
    reads app, app.tg, app.store, app.out
  {
    && action == SelectGameHandler(GameMessageOf(u).data, game.state)
    && (!ok <==> ((action.Some? && u.FromMessage?) ||
                  (action == Some(CancelParticipation) && !app.tg.HasUser(u.callback.message.from.id))))
    && app.store.games == old(app.store.games) && app.store.sessions == old(app.store.sessions)
    && app.tg.chats == old(app.tg.chats)
    && old(app.out.sent) <= app.out.sent
    && (action.None? || !ok ==> unchanged(app.tg, app.store))
    && (action.None? ==> app.out.sent == old(app.out.sent) + [SendMessage(chat.telegramId, UnknownCommand)])
    && (!ok ==> app.out.sent == old(app.out.sent))
    && (action == Some(ConfirmParticipation) && ok ==> ConfirmHandled(app, chat, game, u.callback))
    && (action == Some(CancelParticipation) && u.FromCallback? ==> CancelHandled(app, chat, game, u.callback, ok))
  }

  /** GameProcessor.process_message with the corrected conversion, as
      GameInputHandled describes it; every path keeps the agreements. */
  method ProcessGameMessage(app: App, chat: TgChat, game: Game, u: GameInput) returns (action: Option<GameAction>, ok: bool)
    requires app.Consistent()
    requires chat.id in app.tg.chats && app.tg.chats[chat.id] == chat
    requires game.id in app.store.games
    modifies app.tg, app.store, app.out
    ensures app.Consistent()
    ensures GameInputHandled(app, chat, game, u, action, ok)
  {
    var m := GameMessageOf(u);
    var k := FindFirst(GameRules, GameMatcher(m.data, game.state));
    action := if k.Some? then Some(GameRules[k.value].handler) else None;
    ok := true;
    match action {
      case None =>
        app.out.Send(SendMessage(chat.telegramId, UnknownCommand));
      case Some(ConfirmParticipation) =>
        if u.FromCallback? {
          var user := HandleConfirm(app, chat, game, u.callback);
          assert app.tg.users[user.id].telegramId == u.callback.message.from.id;
          assert app.tg.UserIdOf(u.callback.message.from.id) == user.id;
        } else {
          ok := false;
        }
      case Some(CancelParticipation) =>
        if u.FromCallback? {
          ok := HandleCancel(app, chat, game, u.callback);
        } else {
          ok := false;
        }
    }
  }

  /** How a fired confirmation timer ended. */
  datatype FireOutcome = NoTask | NotWaiting | GameAbandoned | SessionStarted

  /** The first names of listed players, for the roster message. */
  function PlayerNames(ps: seq<UserInGame>, users: map<int, TgUser>): (names: seq<string>)
    requires forall i :: 0 <= i < |ps| ==> ps[i].userId in users
    ensures |names| == |ps|
  {
    seq(|ps|, i requires 0 <= i < |ps| => users[ps[i].userId].firstName)
  }

  /** The roster a timer announces: the names of the game's gaming players. */
  function Roster(players: map<int, UserInGame>, users: map<int, TgUser>, gameId: int, bound: int): (names: seq<string>)
    requires forall id :: id in players ==> players[id].id == id && players[id].userId in users
    ensures |names| == |GamePlayers(players, gameId, bound)|
  {
    GamePlayersAreTheGamingPlayers(players, gameId, bound);
    PlayerNames(GamePlayers(players, gameId, bound), users)
  }

  /** What the timer task set_timer schedules does to the game store, the timers
      and the outbound log when it fires for a game.  With no task registered
      (never set, or cancelled) nothing happens.  Otherwise the time-up notice
      is sent, the waiting branch runs and the entry is dropped.  (The timer task
      also tests that the game it captured is waiting for confirmations;
      every registered task captured a waiting game, so that test passes.) */
  twostate predicate TimerFired(app: App, gameId: int, now: Timestamp, outcome: FireOutcome)
    requires old(app.Consistent())
    reads app.store, app.timers, app.out
  {
    if gameId !in old(app.timers.tasks) then
      && outcome == NoTask
      && app.timers.tasks == old(app.timers.tasks) && app.timers.cancelled == old(app.timers.cancelled)
      && app.store.games == old(app.store.games) && app.store.players == old(app.store.players)
      && app.store.sessions == old(app.store.sessions) && app.out.sent == old(app.out.sent)
    else
      var to := old(app.timers.tasks[gameId]).chat.telegramId;
      && app.timers.tasks == old(app.timers.tasks) - {gameId} && app.timers.cancelled == old(app.timers.cancelled)
      && RosterDecided(app, to, gameId, now, outcome, old(app.out.sent) + [SendMessage(to, TimeIsUp)])
  }

  /** The waiting branch of the timer task, after what was sent before it: the
      roster is sent; an empty roster finishes the game, and otherwise the game
      moves to its trading state with session 1. */
  twostate predicate RosterDecided(app: App, to: int, gameId: int, now: Timestamp, outcome: FireOutcome,
                                   before: seq<Outbound>)
    requires old(app.StoresValid()) && old(PlayersLinked(app.store.players, app.store.games, app.tg.users))
    requires gameId in old(app.store.games)
    reads app.store, app.out
  {
    var roster := JoinPlayerList(Roster(old(app.store.players), old(app.tg.users), gameId, old(app.store.nextPlayerId)));
    var announced := before + [SendMessage(to, CurrentPlayers(roster))];
    if |roster| < 1 then
      && outcome == GameAbandoned
      && app.store.games == old(app.store.games)[gameId := old(app.store.games)[gameId].(state := GameFinished, finishedAt := Some(now))]
      && app.store.players == PlayersReset(old(app.store.players), gameId)
      && app.store.sessions == old(app.store.sessions)
      && app.out.sent == announced + [SendMessage(to, NotEnoughPlayers)]
    else
      var sid := old(app.store.nextSessionId);
      && outcome == SessionStarted
      && app.store.games == old(app.store.games)[gameId := old(app.store.games)[gameId].(state := GameGoing)]
      && app.store.players == old(app.store.players)
      && sid !in old(app.store.sessions)
      && app.store.sessions == old(app.store.sessions)[sid := NewTradingSession(sid, gameId, 1, now)]
      && app.out.sent == announced + [SendMessage(to, SessionOneStarted)]
  }

  /** The empty-roster step: finish_game_in_chat on the timer task's chat finishes
      exactly the timer task's game. */
  method AbandonGame(app: App, chat: TgChat, game: Game, now: Timestamp)
    requires app.Consistent()
    requires game.id in app.timers.tasks && app.timers.tasks[game.id].chat == chat && app.timers.tasks[game.id].game == game
    modifies app.store
    ensures app.StoresValid()
    ensures app.store.games == old(app.store.games)[game.id := old(app.store.games)[game.id].(state := GameFinished, finishedAt := Some(now))]
    ensures app.store.players == PlayersReset(old(app.store.players), game.id)
    ensures app.store.sessions == old(app.store.sessions) && app.store.nextSessionId == old(app.store.nextSessionId)
    ensures !app.store.HasActiveGame(chat.id)
  {
    assert TaskMatches(app.timers.tasks[game.id], game.id, app.store.games, app.tg.chats);
    var finished := app.store.FinishGameInChat(chat.id, now);
    assert finished.Some? && finished.value.id == game.id;
  }

  /** The non-empty-roster step: the game is set to its trading state and
      trading session 1 is created. */
  method StartFirstSession(app: App, game: Game, now: Timestamp)
    requires app.StoresValid()
    requires game.id in app.store.games && IsActive(app.store.games[game.id])
    modifies app.store
    ensures app.StoresValid()
    ensures app.store.games == old(app.store.games)[game.id := old(app.store.games)[game.id].(state := GameGoing)]
    ensures app.store.players == old(app.store.players)
    ensures var sid := old(app.store.nextSessionId);
            sid !in old(app.store.sessions) && app.store.sessions == old(app.store.sessions)[sid := NewTradingSession(sid, game.id, 1, now)]
  {
    app.store.SetGameState(game.id, GameGoing);
    var session := app.store.CreateTradingSession(game.id, 1, now);
  }

  /** The waiting branch of the timer task, for a registered task's chat and game. */
  method DecideRoster(app: App, chat: TgChat, game: Game, now: Timestamp) returns (outcome: FireOutcome)
    requires app.Consistent()
    requires game.id in app.timers.tasks && app.timers.tasks[game.id].chat == chat && app.timers.tasks[game.id].game == game
    modifies app.store, app.out
    ensures app.StoresValid()
    ensures RosterDecided(app, chat.telegramId, game.id, now, outcome, old(app.out.sent))
    ensures outcome == GameAbandoned ==> !app.store.HasActiveGame(chat.id)
  {
    assert TaskMatches(app.timers.tasks[game.id], game.id, app.store.games, app.tg.chats);
    var ps := app.store.GetGamePlayers(game.id);
    GamePlayersAreTheGamingPlayers(app.store.players, game.id, app.store.nextPlayerId);
    var playerList := JoinPlayerList(PlayerNames(ps, app.tg.users));
    app.out.Send(SendMessage(chat.telegramId, CurrentPlayers(playerList)));
    if |playerList| < 1 {
      app.out.Send(SendMessage(chat.telegramId, NotEnoughPlayers));
      AbandonGame(app, chat, game, now);
      outcome := GameAbandoned;
    } else {
      StartFirstSession(app, game, now);
      app.out.Send(SendMessage(chat.telegramId, SessionOneStarted));
      outcome := SessionStarted;
    }
  }

  /** The confirmation timer firing, as written in set_timer: with an empty
      roster the game is finished but the chat is left in the going state,
      while it no longer has an active game. */
  method FireTimerAsWritten(app: App, gameId: int, now: Timestamp) returns (outcome: FireOutcome)
    requires app.Consistent()
    modifies app.store, app.timers, app.out
    ensures app.StoresValid()
    ensures TimerFired(app, gameId, now, outcome)
    ensures outcome == GameAbandoned ==>
              var chatId := old(app.timers.tasks[gameId]).chat.id;
              && chatId in app.tg.chats && app.tg.chats[chatId].state == GameIsGoing
              && !app.store.HasActiveGame(chatId)
    ensures outcome == GameAbandoned ==> !ChatStatesMatchGames(app.tg.chats, app.store.games)
  {
    if gameId !in app.timers.tasks {
      return NoTask;
    }
    var task := app.timers.tasks[gameId];
    var chat, game := task.chat, task.game;
    app.out.Send(SendMessage(chat.telegramId, TimeIsUp));
    if game.state == WaitingForConfirmation {
      outcome := DecideRoster(app, chat, game, now);
    } else {
      outcome := NotWaiting;
    }
    app.timers.Discard(game.id);
  }

  /** Activity of every game is unchanged when only one game changes and it
      stays active, or when the changed game's chat is left out. */
  lemma ActiveGamesElsewhereUnchanged(games: map<int, Game>, games': map<int, Game>, gameId: int)
    requires games'.Keys == games.Keys && gameId in games
    requires forall id :: id in games && id != gameId ==> games'[id] == games[id]
    requires games'[gameId].chatId == games[gameId].chatId
    ensures forall c :: c != games[gameId].chatId ==> (ChatHasActiveGame(games', c) <==> ChatHasActiveGame(games, c))
    ensures IsActive(games'[gameId]) == IsActive(games[gameId]) ==>
              forall c :: ChatHasActiveGame(games', c) <==> ChatHasActiveGame(games, c)
  {
    forall c | c != games[gameId].chatId
      ensures ChatHasActiveGame(games', c) <==> ChatHasActiveGame(games, c)
    {
      if ChatHasActiveGame(games, c) {
        var id :| id in games && games[id].chatId == c && IsActive(games[id]);
        assert games'[id] == games[id];
      }
      if ChatHasActiveGame(games', c) {
        var id :| id in games' && games'[id].chatId == c && IsActive(games'[id]);
        assert games'[id] == games[id];
      }
    }
    if IsActive(games'[gameId]) == IsActive(games[gameId]) {
      forall c ensures ChatHasActiveGame(games', c) <==> ChatHasActiveGame(games, c) {
        if ChatHasActiveGame(games, c) {
          var id :| id in games && games[id].chatId == c && IsActive(games[id]);
          assert games'[id].chatId == c && IsActive(games'[id]);
        }
        if ChatHasActiveGame(games', c) {
          var id :| id in games' && games'[id].chatId == c && IsActive(games'[id]);
          assert games[id].chatId == c && IsActive(games[id]);
        }
      }
    }
  }

  /** The confirmation timer firing with the chat returned to the no-game
      state when the game is abandoned, so that the chat can start a new
      game; every agreement between chats, games and timers is kept. */
  method FireTimer(app: App, gameId: int, now: Timestamp) returns (outcome: FireOutcome)
    requires app.Consistent()
    modifies app.tg, app.store, app.timers, app.out
    ensures app.Consistent()
    ensures TimerFired(app, gameId, now, outcome)
    ensures outcome == GameAbandoned ==>
              app.tg.chats == ChatsWithState(old(app.tg.chats), old(app.timers.tasks[gameId]).chat.telegramId, GameNotStarted)
    ensures outcome != GameAbandoned ==> app.tg.chats == old(app.tg.chats)
    ensures app.tg.users == old(app.tg.users) && app.tg.relations == old(app.tg.relations)
  {
    ghost var games, tasks, chats := app.store.games, app.timers.tasks, app.tg.chats;
    var captured := if gameId in app.timers.tasks then Some(app.timers.tasks[gameId].chat) else None;
    outcome := FireTimerAsWritten(app, gameId, now);
    if outcome == GameAbandoned && captured.Some? {
      var chat := captured.value;
      assert TaskMatches(tasks[gameId], gameId, games, chats);
      app.tg.SetChatState(chat.telegramId, GameNotStarted);
      ActiveGamesElsewhereUnchanged(games, app.store.games, gameId);
      assert ChatStatesMatchGames(app.tg.chats, app.store.games) by {
        forall c | c in app.tg.chats
          ensures app.tg.chats[c].state == GameIsGoing <==> ChatHasActiveGame(app.store.games, c)
        {
          if c != chat.id {
            assert app.tg.chats[c] == chats[c];
          }
        }
      }
    } else if outcome == SessionStarted {
      assert TaskMatches(tasks[gameId], gameId, games, chats);
      ActiveGamesElsewhereUnchanged(games, app.store.games, gameId);
    }
  }
}
