/** BotManager (app/store/bot/manager.py): the entry point for a batch of
    updates from the long poller.  Each update is routed by the first of its
    message, edited message and callback query that is present. */
module BotManager {
  import opened Wrappers
  import opened States
  import opened Models
  import opened Messages
  import opened TelegramAccessor
  import opened GameAccessor
  import opened GameTimers
  import opened Application
  import opened GameProcessor
  import opened ChatProcessor

  /** Where handle_updates sends one update. */
  datatype Route = ToChatProcessor(message: Message) | EchoEdit(edited: Message) | ToCallback(callback: CallbackQuery) | Skip

  /** The routing of handle_updates: a message wins over an edited message,
      which wins over a callback query; an update with none is skipped. */
  function RouteOf(u: UpdateObj): (r: Route)
    ensures r.ToChatProcessor? <==> u.message.Some?
    ensures r.ToChatProcessor? ==> r.message == u.message.value
    ensures r.EchoEdit? <==> u.message.None? && u.editedMessage.Some?
    ensures r.EchoEdit? ==> r.edited == u.editedMessage.value
    ensures r.ToCallback? <==> u.message.None? && u.editedMessage.None? && u.callbackQuery.Some?
    ensures r.ToCallback? ==> r.callback == u.callbackQuery.value
    ensures r.Skip? <==> u.message.None? && u.editedMessage.None? && u.callbackQuery.None?
  {
    if u.message.Some? then ToChatProcessor(u.message.value)
    else if u.editedMessage.Some? then EchoEdit(u.editedMessage.value)
    else if u.callbackQuery.Some? then ToCallback(u.callbackQuery.value)
    else Skip
  }

  /** The tables whether an update raises depends on. */
  datatype Tables = Tables(chats: map<int, TgChat>, users: map<int, TgUser>, games: map<int, Game>)

  ghost function TablesOf(app: App): Tables
    reads app, app.tg, app.store
  {
    Tables(app.tg.chats, app.tg.users, app.store.games)
  }

  /** Whether _process_message gets through a message without raising, with
      a chat-state update that succeeds: it raises only when the message's
      chat is recorded, no chat handler takes the text, the chat has an
      active game, and a game handler takes the message, which then reads
      it under `.message`. */
  ghost predicate MessageSucceeds(t: Tables, m: Message)
  {
    !exists cid, gid ::
      && cid in t.chats && t.chats[cid].telegramId == m.chat.id
      && SelectChatHandler(m.text, t.chats[cid].state).None?
      && gid in t.games && t.games[gid].chatId == cid && IsActive(t.games[gid])
      && SelectGameHandler(m.data, t.games[gid].state).Some?
  }

  /** Whether _process_callback gets through a callback without raising: it
      raises when the callback's chat is not recorded, and when the chat has
      an active game in which the press cancels for an author who is not a
      stored user. */
  ghost predicate CallbackSucceeds(t: Tables, cb: CallbackQuery)
  {
    && (exists cid :: cid in t.chats && t.chats[cid].telegramId == cb.message.chat.id)
    && !exists cid, gid ::
         && cid in t.chats && t.chats[cid].telegramId == cb.message.chat.id
         && gid in t.games && t.games[gid].chatId == cid && IsActive(t.games[gid])
         && SelectGameHandler(cb.data, t.games[gid].state) == Some(CancelParticipation)
         && !(exists uid :: uid in t.users && t.users[uid].telegramId == cb.message.from.id)
  }

  /** Whether handle_updates gets through one update without raising, with
      chat-state updates that succeed; an edit or a skipped update never
      raises. */
  ghost predicate UpdateSucceeds(t: Tables, u: UpdateObj)
  {
    match RouteOf(u)
    case ToChatProcessor(m) => MessageSucceeds(t, m)
    case ToCallback(cb) => CallbackSucceeds(t, cb)
    case _ => true
  }

  /** The state a message finds its chat in: a chat seen for the first time
      is created in the no-game state. */
  ghost function ArrivalState(tg: TelegramStore, telegramId: int): (s: ChatState)
    reads tg
  {
    if tg.HasChat(telegramId) then StateOfChat(tg, telegramId) else GameNotStarted
  }

  /** What _process_message does with a message from a chat seen for the
      first time: the chat is stored under the next chat id in the no-game
      state, and the message is dispatched in that state.  "/start_game"
      starts a game in it as StartHandled describes; any other text is
      answered as an unknown command, since the new chat has no game. */
  twostate predicate FirstMessageProcessed(app: App, message: Message, now: Timestamp, storeFails: bool, ok: bool)
    reads app, app.tg, app.store, app.timers, app.out
  {
    var cid := old(app.tg.nextChatId);
    var arrived := old(app.tg.chats)[cid := NewChat(cid, message.chat.id)];
    && cid !in old(app.tg.chats)
    && app.tg.users == old(app.tg.users) && app.tg.relations == old(app.tg.relations)
    && (message.text == Some(StartCommand) ==>
          && (ok <==> !storeFails)
          && (storeFails ==> app.tg.chats == arrived && unchanged(app.store, app.timers, app.out))
          && (!storeFails ==>
                app.tg.chats == ChatsWithState(arrived, message.chat.id, GameIsGoing)
                && GameOpened(app, message.chat.id, cid, now)))
    && (message.text != Some(StartCommand) ==>
          && ok && app.tg.chats == arrived && unchanged(app.store, app.timers)
          && app.out.sent == old(app.out.sent) + [SendMessage(message.chat.id, UnknownCommand)])
  }

  /** What _process_message does: afterwards the chat is recorded; a known
      chat has the message processed in its own state, a new one as
      FirstMessageProcessed states. */
  twostate predicate MessageRouted(app: App, message: Message, now: Timestamp, storeFails: bool, ok: bool)
    reads app, app.tg, app.store, app.timers, app.out
  {
    && app.tg.HasChat(message.chat.id)
    && (old(app.tg.HasChat(message.chat.id)) ==>
          MessageProcessed(app, message, now, storeFails,
                           SelectChatHandler(message.text, old(StateOfChat(app.tg, message.chat.id))), ok))
    && (!old(app.tg.HasChat(message.chat.id)) ==> FirstMessageProcessed(app, message, now, storeFails, ok))
  }

  /** _process_message for a chat seen for the first time: the chat is
      created, and the chat processor takes the message in the no-game
      state. */
  method ProcessFirstMessage(app: App, message: Message, now: Timestamp, storeFails: bool) returns (action: Option<ChatAction>, ok: bool)
    requires app.Consistent() && !app.tg.HasChat(message.chat.id)
    modifies app.tg, app.store, app.timers, app.out
    ensures app.Consistent()
    ensures action == SelectChatHandler(message.text, GameNotStarted)
    ensures MessageRouted(app, message, now, storeFails, ok)
  {
    ghost var chats := app.tg.chats;
    var chat := app.tg.CreateChatByTgId(message.chat.id);
    assert !ChatHasActiveGame(app.store.games, chat.id);
    assert ChatStatesMatchGames(app.tg.chats, app.store.games) by {
      forall c | c in app.tg.chats
        ensures app.tg.chats[c].state == GameIsGoing <==> ChatHasActiveGame(app.store.games, c)
      {
        if c != chat.id {
          assert app.tg.chats[c] == chats[c];
        }
      }
    }
    assert app.tg.ChatIdOf(message.chat.id) == chat.id;
    label Arrived:
    action, ok := ProcessMessage(app, message, now, storeFails);
    if message.text == Some(StartCommand) {
      assert action == Some(StartGame);
      assert StartHandled@Arrived(app, message.chat.id, chat.id, now, storeFails, ok);
    } else {
      assert action.None?;
    }
  }

  /** _process_message: the chat is created if it is not recorded yet, then
      the chat processor takes the message.  Only a "/stop_game" whose
      chat-state update fails breaks the agreements. */
  method ProcessNewMessage(app: App, message: Message, now: Timestamp, storeFails: bool) returns (action: Option<ChatAction>, ok: bool)
    requires app.Consistent()
    modifies app.tg, app.store, app.timers, app.out
    ensures app.StoresValid()
    ensures action == SelectChatHandler(message.text, old(ArrivalState(app.tg, message.chat.id)))
    ensures action != Some(FinishGame) || !storeFails ==> app.Consistent()
    ensures MessageRouted(app, message, now, storeFails, ok)
    ensures !storeFails ==> (ok <==> MessageSucceeds(old(TablesOf(app)), message))
    ensures !ok && !storeFails ==> unchanged(app.tg, app.store, app.timers) && app.out.sent == old(app.out.sent)
  {
    var found := app.tg.GetChatByTelegramId(message.chat.id);
    if found.None? {
      action, ok := ProcessFirstMessage(app, message, now, storeFails);
    } else {
      assert app.tg.ChatIdOf(message.chat.id) == found.value.id;
      action, ok := ProcessMessage(app, message, now, storeFails);
    }
  }

  /** What _process_callback does: the callback's chat must be recorded (the
      source dereferences it); with an active game the game processor takes
      the callback as GameInputHandled states, and without one the query is
      answered "game not found". */
  twostate predicate CallbackProcessed(app: App, callback: CallbackQuery, ok: bool)
    reads app, app.tg, app.store, app.out
  {
    var tid := callback.message.chat.id;
    && (!old(app.tg.HasChat(tid)) ==> !ok && unchanged(app.tg, app.store, app.out))
    && (old(app.tg.HasChat(tid)) && !old(app.store.HasActiveGame(app.tg.ChatIdOf(tid))) ==>
          && ok && unchanged(app.tg, app.store)
          && app.out.sent == old(app.out.sent) + [AnswerCallbackQuery(callback.id, GameNotFound)])
    && (old(app.tg.HasChat(tid)) && old(app.store.HasActiveGame(app.tg.ChatIdOf(tid))) ==>
          var chatId := old(app.tg.ChatIdOf(tid));
          var game := old(app.store.games[app.store.ActiveGameOf(chatId)]);
          GameInputHandled(app, old(app.tg.chats[chatId]), game, FromCallback(callback),
                           SelectGameHandler(callback.data, game.state), ok))
  }

  /** _process_callback. */
  method ProcessCallback(app: App, callback: CallbackQuery) returns (ok: bool)
    requires app.Consistent()
    modifies app.tg, app.store, app.out
    ensures app.Consistent()
    ensures CallbackProcessed(app, callback, ok)
    ensures ok <==> CallbackSucceeds(old(TablesOf(app)), callback)
    ensures !ok ==> unchanged(app.tg, app.store) && app.out.sent == old(app.out.sent)
  {
    var found := app.tg.GetChatByTelegramId(callback.message.chat.id);
    if found.None? {
      return false;
    }
    var chat := found.value;
    assert app.tg.ChatIdOf(callback.message.chat.id) == chat.id;
    var game := app.store.GetActiveGameByChatId(chat.id);
    if game.Some? {
      var action;
      action, ok := ProcessGameMessage(app, chat, game.value, FromCallback(callback));
    } else {
      app.out.Send(AnswerCallbackQuery(callback.id, GameNotFound));
      ok := true;
    }
  }

  /** Whether the update is a message that handle_finish_game takes. */
  ghost predicate StopsGame(tg: TelegramStore, u: UpdateObj)
    reads tg
  {
    RouteOf(u).ToChatProcessor? &&
    SelectChatHandler(u.message.value.text, ArrivalState(tg, u.message.value.chat.id)) == Some(FinishGame)
  }

  /** One update of handle_updates, routed by RouteOf, with the effect of the
      route it takes.  `ok` is false where the source raises. */
  method HandleUpdate(app: App, u: UpdateObj, now: Timestamp, storeFails: bool) returns (ok: bool)
    requires app.Consistent()
    modifies app.tg, app.store, app.timers, app.out
    ensures app.StoresValid()
    ensures !(storeFails && old(StopsGame(app.tg, u))) ==> app.Consistent()
    ensures RouteOf(u).ToChatProcessor? ==> MessageRouted(app, u.message.value, now, storeFails, ok)
    ensures RouteOf(u).EchoEdit? ==>
              && ok && unchanged(app.tg, app.store, app.timers)
              && app.out.sent == old(app.out.sent) + [SendMessage(u.editedMessage.value.chat.id, Echo(EchoText(u.editedMessage.value.text)))]
    ensures RouteOf(u).Skip? ==> ok && unchanged(app.tg, app.store, app.timers, app.out)
    ensures old(app.out.sent) <= app.out.sent
    ensures !storeFails ==> (ok <==> UpdateSucceeds(old(TablesOf(app)), u))
    ensures !ok && !storeFails ==> unchanged(app.tg, app.store, app.timers) && app.out.sent == old(app.out.sent)
  {
    match RouteOf(u) {
      case ToChatProcessor(message) =>
        var action;
        action, ok := ProcessNewMessage(app, message, now, storeFails);
      case EchoEdit(edited) =>
        app.out.Send(SendMessage(edited.chat.id, Echo(EchoText(edited.text))));
        ok := true;
      case ToCallback(callback) =>
        ok := ProcessCallback(app, callback);
      case Skip =>
        ok := true;
    }
  }

  /** The outbound messages of several updates, in order. */
  function Concat(logs: seq<seq<Outbound>>): seq<Outbound>
  {
    if |logs| == 0 then [] else Concat(logs[..|logs| - 1]) + logs[|logs| - 1]
  }

  /** Whether an update changes no table and no timer whatever it finds:
      an edited message, which is only echoed, and a skipped update. */
  predicate LeavesTables(u: UpdateObj)
  {
    RouteOf(u).EchoEdit? || RouteOf(u).Skip?
  }

  /** What handle_updates records of one update that found the tables `t`:
      it raised exactly when UpdateSucceeds says so, and then sent nothing;
      an edit sent its echo and a skipped update nothing. */
  ghost predicate StepRecorded(t: Tables, u: UpdateObj, ok: bool, log: seq<Outbound>)
  {
    && (ok <==> UpdateSucceeds(t, u))
    && (!ok ==> log == [])
    && (RouteOf(u).EchoEdit? ==> log == [SendMessage(u.editedMessage.value.chat.id, Echo(EchoText(u.editedMessage.value.text)))])
    && (RouteOf(u).Skip? ==> log == [])
  }

  /** The records of the first |oks| updates of a batch: each as
      StepRecorded relates them, and an update that leaves the tables alone
      passes them on unchanged to the next. */
  ghost predicate BatchRecorded(updates: seq<UpdateObj>, seen: seq<Tables>, oks: seq<bool>, logs: seq<seq<Outbound>>)
  {
    && |seen| == |oks| && |logs| == |oks| && |oks| <= |updates|
    && (forall i :: 0 <= i < |oks| ==> StepRecorded(seen[i], updates[i], oks[i], logs[i]))
    && (forall i :: 0 <= i < |seen| - 1 && LeavesTables(updates[i]) ==> seen[i + 1] == seen[i])
  }

  /** Recording one more update keeps the records of a batch. */
  lemma RecordStep(updates: seq<UpdateObj>, seen: seq<Tables>, oks: seq<bool>, logs: seq<seq<Outbound>>,
                   t: Tables, ok: bool, log: seq<Outbound>)
    requires BatchRecorded(updates, seen, oks, logs) && |oks| < |updates|
    requires StepRecorded(t, updates[|oks|], ok, log)
    requires |seen| > 0 && LeavesTables(updates[|seen| - 1]) ==> t == seen[|seen| - 1]
    ensures BatchRecorded(updates, seen + [t], oks + [ok], logs + [log])
  {
  }

  /** One update of a batch, with chat-state updates that succeed: it
      raises exactly when UpdateSucceeds says so, and then changes nothing.
      `log` is what it sent.  The effect of each route is HandleUpdate's. */
  method HandleUpdateInBatch(app: App, u: UpdateObj, now: Timestamp) returns (ok: bool, ghost log: seq<Outbound>)
    requires app.Consistent()
    modifies app.tg, app.store, app.timers, app.out
    ensures app.Consistent()
    ensures app.out.sent == old(app.out.sent) + log
    ensures StepRecorded(old(TablesOf(app)), u, ok, log)
    ensures !ok || LeavesTables(u) ==> TablesOf(app) == old(TablesOf(app))
  {
    ghost var before := app.out.sent;
    ok := HandleUpdate(app, u, now, false);
    log := app.out.sent[|before|..];
    assert app.out.sent == before + log;
  }

  /** handle_updates, with chat-state updates that succeed: the updates are
      handled in list order, and handling stops at the first that raises,
      whose position is returned.  `seen[i]` holds the tables update i
      found, `oks[i]` its outcome and `logs[i]` what it sent, as
      BatchRecorded relates them.  Every update before the failing one
      succeeded; the failing one changed nothing, so the tables are left as
      it found them. */
  method HandleUpdates(app: App, updates: seq<UpdateObj>, now: Timestamp)
    returns (failedAt: Option<nat>, ghost oks: seq<bool>, ghost logs: seq<seq<Outbound>>, ghost seen: seq<Tables>)
    requires app.Consistent()
    modifies app.tg, app.store, app.timers, app.out
    ensures app.Consistent()
    ensures |logs| == |oks| && |seen| == |oks| && app.out.sent == old(app.out.sent) + Concat(logs)
    ensures failedAt.None? ==> |oks| == |updates| && forall i :: 0 <= i < |oks| ==> oks[i]
    ensures failedAt.Some? ==>
              && failedAt.value < |updates| && |oks| == failedAt.value + 1
              && !oks[failedAt.value] && (forall i :: 0 <= i < failedAt.value ==> oks[i])
              && TablesOf(app) == seen[failedAt.value]
    ensures |seen| > 0 ==> seen[0] == old(TablesOf(app))
    ensures BatchRecorded(updates, seen, oks, logs)
    ensures |updates| == 0 ==> failedAt.None? && unchanged(app.tg, app.store, app.timers, app.out)
  {
    oks, logs, seen := [], [], [];
    var i := 0;
    while i < |updates|
      invariant 0 <= i <= |updates| && |oks| == i && |logs| == i && |seen| == i
      invariant app.Consistent()
      invariant forall j :: 0 <= j < i ==> oks[j]
      invariant app.out.sent == old(app.out.sent) + Concat(logs)
      invariant i > 0 ==> seen[0] == old(TablesOf(app))
      invariant BatchRecorded(updates, seen, oks, logs)
      invariant i > 0 && LeavesTables(updates[i - 1]) ==> TablesOf(app) == seen[i - 1]
      invariant i == 0 ==> unchanged(app.tg, app.store, app.timers, app.out)
    {
      var ok;
      ghost var log;
      ghost var tables := TablesOf(app);
      ok, log := HandleUpdateInBatch(app, updates[i], now);
      RecordStep(updates, seen, oks, logs, tables, ok, log);
      assert (logs + [log])[..i] == logs;
      oks, logs, seen := oks + [ok], logs + [log], seen + [tables];
      if !ok {
        return Some(i), oks, logs, seen;
      }
      i := i + 1;
    }
    failedAt := None;
  }
}
