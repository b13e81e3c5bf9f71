/** ChatProcessor and ChatFSM of app/FSM/chat/state.py: the table from chat
    state to processor, the two processors, and the chat-state setter that
    hands back a store failure instead of raising it.  Whether the store
    fails is a parameter. */
module ChatFsm {
  import opened States
  import opened Messages
  import opened TelegramAccessor

  datatype ChatStateProcessor = StartProcessor | GameIsGoingProcessor

  const StartGameCommand := "/start_game"

  /** The `processors` table. */
  function ProcessorFor(s: ChatState): ChatStateProcessor
  {
    match s
    case GameNotStarted => StartProcessor
    case GameIsGoing => GameIsGoingProcessor
  }

  /** Each chat state has exactly one processor, and no two states share
      one. */
  lemma ProcessorTableIsOneToOne(s: ChatState, t: ChatState)
    ensures ProcessorFor(s) == ProcessorFor(t) <==> s == t
  {
  }

  /** ChatFSM.set_state: the chats with that telegram id take the state; a
      store failure is returned, and leaves the chats as they were. */
  method SetState(tg: TelegramStore, telegramId: int, state: ChatState, storeFails: bool) returns (failed: bool)
    requires tg.Valid()
    modifies tg
    ensures tg.Valid() && UniqueChats(tg.chats) == old(UniqueChats(tg.chats))
    ensures forall t :: tg.HasChat(t) == old(tg.HasChat(t))
    ensures failed == storeFails
    ensures failed ==> unchanged(tg)
    ensures !failed ==> tg.chats == ChatsWithState(old(tg.chats), telegramId, state)
    ensures tg.users == old(tg.users) && tg.relations == old(tg.relations)
    ensures tg.nextChatId == old(tg.nextChatId) && tg.nextUserId == old(tg.nextUserId)
    ensures tg.nextRelationId == old(tg.nextRelationId)
  {
    if storeFails {
      return true;
    }
    tg.SetChatState(telegramId, state);
    failed := false;
  }

  /** game_is_going_processor: "/start_game" gets the already-started reply;
      nothing else happens, and no state changes. */
  method RunGameIsGoingProcessor(out: Messenger, message: string, chatId: int)
    modifies out
    ensures message == StartGameCommand ==> out.sent == old(out.sent) + [SendMessage(chatId, GameAlreadyStarted)]
    ensures message != StartGameCommand ==> out.sent == old(out.sent)
  {
    if message == StartGameCommand {
      out.Send(SendMessage(chatId, GameAlreadyStarted));
    }
  }

  /** start_processor as written: "/start_game" sets the chat to the "game"
      state and reports the game started.  Since set_state returns its
      failure rather than raising it, the except branch is never taken and
      the report is "game started" even when the chat state was not set.
      Any other text is ignored; the result is always False. */
  method RunStartProcessorAsWritten(tg: TelegramStore, out: Messenger, message: string, chatId: int, storeFails: bool)
    returns (r: bool)
    requires tg.Valid()
    modifies tg, out
    ensures tg.Valid() && !r
    ensures tg.users == old(tg.users) && tg.relations == old(tg.relations)
    ensures message == StartGameCommand ==> out.sent == old(out.sent) + [SendMessage(chatId, GameStarted)]
    ensures message == StartGameCommand && storeFails ==> tg.chats == old(tg.chats)
    ensures message == StartGameCommand && !storeFails ==>
              tg.chats == ChatsWithState(old(tg.chats), chatId, ParseChatState("game").value)
    ensures message != StartGameCommand ==> tg.chats == old(tg.chats) && out.sent == old(out.sent)
  {
    if message == StartGameCommand {
      var failed := SetState(tg, chatId, GameIsGoing, storeFails);
      out.Send(SendMessage(chatId, GameStarted));
    }
    r := false;
  }

  /** start_processor as its except branch intends: a failure to set the
      chat state is reported as "Error starting game" instead of "game
      started". */
  method RunStartProcessor(tg: TelegramStore, out: Messenger, message: string, chatId: int, storeFails: bool)
    returns (r: bool)
    requires tg.Valid()
    modifies tg, out
    ensures tg.Valid() && !r
    ensures tg.users == old(tg.users) && tg.relations == old(tg.relations)
    ensures message == StartGameCommand && storeFails ==>
              tg.chats == old(tg.chats) && out.sent == old(out.sent) + [SendMessage(chatId, ErrorStartingGame)]
    ensures message == StartGameCommand && !storeFails ==>
              && tg.chats == ChatsWithState(old(tg.chats), chatId, ParseChatState("game").value)
              && out.sent == old(out.sent) + [SendMessage(chatId, GameStarted)]
    ensures message != StartGameCommand ==> tg.chats == old(tg.chats) && out.sent == old(out.sent)
  {
    if message == StartGameCommand {
      var failed := SetState(tg, chatId, GameIsGoing, storeFails);
      if failed {
        out.Send(SendMessage(chatId, ErrorStartingGame));
      } else {
        out.Send(SendMessage(chatId, GameStarted));
      }
    }
    r := false;
  }
}
