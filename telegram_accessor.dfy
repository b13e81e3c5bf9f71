/** The chat, user and user-in-chat tables (app/store/telegam/accessor.py).
    Rows are keyed by their id, which the table assigns from a counter; each
    `select ... where` is a walk over the keys. */
module TelegramAccessor {
  import opened Wrappers
  import opened States
  import opened Models
  import opened Messages

  /** `update(TgChat).where(telegram_id == t).values(state=s)`: the chats with
      that telegram id take the new state; nothing else changes. */
  function ChatsWithState(chats: map<int, TgChat>, telegramId: int, s: ChatState): (r: map<int, TgChat>)
    ensures r.Keys == chats.Keys
    ensures forall id :: id in chats ==> r[id].(state := chats[id].state) == chats[id]
    ensures forall id :: id in chats && chats[id].telegramId == telegramId ==> r[id].state == s
    ensures forall id :: id in chats && chats[id].telegramId != telegramId ==> r[id] == chats[id]
  {
    map id | id in chats :: if chats[id].telegramId == telegramId then chats[id].(state := s) else chats[id]
  }

  /** A telegram id names at most one chat: what lets the chat lookup return
      one row rather than raise.  The column is not declared unique. */
  predicate UniqueChats(chats: map<int, TgChat>)
  {
    forall a, b :: a in chats && b in chats && chats[a].telegramId == chats[b].telegramId ==> a == b
  }

  /** A telegram id names at most one user, likewise. */
  predicate UniqueUsers(users: map<int, TgUser>)
  {
    forall a, b :: a in users && b in users && users[a].telegramId == users[b].telegramId ==> a == b
  }

  class TelegramStore {
    var chats: map<int, TgChat>
    var users: map<int, TgUser>
    var relations: map<int, UserInChat>
    var nextChatId: int
    var nextUserId: int
    var nextRelationId: int

    /** Keys are the rows' ids, below the next id to hand out; a (user, chat)
        pair is recorded at most once, since the only insert looks first. */
    ghost predicate Valid()
      reads this
    {
      && 1 <= nextChatId && 1 <= nextUserId && 1 <= nextRelationId
      && (forall id :: id in chats ==> chats[id].id == id && 0 < id < nextChatId)
      && (forall id :: id in users ==> users[id].id == id && 0 < id < nextUserId)
      && (forall id :: id in relations ==> relations[id].id == id && 0 < id < nextRelationId)
      && (forall a, b ::
            (a in relations && b in relations &&
             relations[a].userId == relations[b].userId && relations[a].chatId == relations[b].chatId) ==> a == b)
    }

    ghost predicate HasChat(telegramId: int)
      reads this
    {
      exists id :: id in chats && chats[id].telegramId == telegramId
    }

    /** The id of the chat with that telegram id. */
    ghost function ChatIdOf(telegramId: int): (id: int)
      reads this
      requires HasChat(telegramId)
      ensures id in chats && chats[id].telegramId == telegramId
    {
      var id :| id in chats && chats[id].telegramId == telegramId; id
    }

    ghost predicate HasUser(telegramId: int)
      reads this
    {
      exists id :: id in users && users[id].telegramId == telegramId
    }

    ghost function UserIdOf(telegramId: int): (id: int)
      reads this
      requires HasUser(telegramId)
      ensures id in users && users[id].telegramId == telegramId
    {
      var id :| id in users && users[id].telegramId == telegramId; id
    }

    ghost predicate Connected(userId: int, chatId: int)
      reads this
    {
      exists id :: id in relations && relations[id].userId == userId && relations[id].chatId == chatId
    }

    constructor()
      ensures Valid()
      ensures chats == map[] && users == map[] && relations == map[]
    {
      chats, users, relations := map[], map[], map[];
      nextChatId, nextUserId, nextRelationId := 1, 1, 1;
    }

    /** get_chat_by_telegram_id: the chat with that telegram id, or None. */
    method GetChatByTelegramId(telegramId: int) returns (r: Option<TgChat>)
      requires Valid() && UniqueChats(chats)
      ensures r.Some? <==> HasChat(telegramId)
      ensures r.Some? ==> r.value.id in chats && chats[r.value.id] == r.value && r.value.telegramId == telegramId
    {
      var id := 1;
      while id < nextChatId
        invariant 1 <= id <= nextChatId
        invariant forall k :: k in chats && k < id ==> chats[k].telegramId != telegramId
      {
        if id in chats && chats[id].telegramId == telegramId {
          return Some(chats[id]);
        }
        id := id + 1;
      }
      r := None;
    }

    /** create_chat_by_tg_id: one new chat with that telegram id, in the
        column's default state.  It does not look for an existing chat. */
    method CreateChatByTgId(telegramId: int) returns (c: TgChat)
      requires Valid()
      modifies this
      ensures Valid() && HasChat(telegramId)
      ensures old(UniqueChats(chats) && !HasChat(telegramId)) ==> UniqueChats(chats)
      ensures c.id !in old(chats) && c.id == old(nextChatId) && c == NewChat(c.id, telegramId)
      ensures chats == old(chats)[c.id := c]
      ensures users == old(users) && relations == old(relations)
      ensures nextUserId == old(nextUserId) && nextRelationId == old(nextRelationId)
    {
      c := NewChat(nextChatId, telegramId);
      chats := chats[c.id := c];
      nextChatId := nextChatId + 1;
      assert chats[c.id].telegramId == telegramId;
    }

    /** get_user_by_telegram_id: the user with that telegram id, or None. */
    method GetUserByTelegramId(telegramId: int) returns (r: Option<TgUser>)
      requires Valid() && UniqueUsers(users)
      ensures r.Some? <==> HasUser(telegramId)
      ensures r.Some? ==> r.value.id in users && users[r.value.id] == r.value && r.value.telegramId == telegramId
    {
      var id := 1;
      while id < nextUserId
        invariant 1 <= id <= nextUserId
        invariant forall k :: k in users && k < id ==> users[k].telegramId != telegramId
      {
        if id in users && users[id].telegramId == telegramId {
          return Some(users[id]);
        }
        id := id + 1;
      }
      r := None;
    }

    /** create_user_by_tg_id: one new user with the sender's names, an empty
        or missing last name or username stored as null.  It does not look
        for an existing user. */
    method CreateUserByTgId(telegramId: int, from: MessageFrom) returns (u: TgUser)
      requires Valid()
      modifies this
      ensures Valid() && HasUser(telegramId)
      ensures old(UniqueUsers(users) && !HasUser(telegramId)) ==> UniqueUsers(users)
      ensures u.id !in old(users) && u == NewUser(u.id, telegramId, from.firstName, from.lastName, from.username)
      ensures u.id == old(nextUserId) && nextUserId == old(nextUserId) + 1
      ensures users == old(users)[u.id := u]
      ensures chats == old(chats) && relations == old(relations)
      ensures nextChatId == old(nextChatId) && nextRelationId == old(nextRelationId)
    {
      u := NewUser(nextUserId, telegramId, from.firstName, from.lastName, from.username);
      users := users[u.id := u];
      nextUserId := nextUserId + 1;
      assert users[u.id].telegramId == telegramId;
    }

    /** create_user_by_tg_id against the telegram_user table as declared,
        whose `last_name` is NOT NULL: the row for a sender without a last
        name, or with an empty one, is refused and nothing is stored; any
        other row is stored as CreateUserByTgId stores it. */
    method CreateUserByTgIdAsWritten(telegramId: int, from: MessageFrom) returns (u: Option<TgUser>)
      requires Valid()
      modifies this
      ensures Valid()
      ensures u.None? <==> from.lastName.None? || from.lastName == Some("")
      ensures u.None? ==> unchanged(this)
      ensures u.Some? ==> u.value.id !in old(users) && users == old(users)[u.value.id := u.value]
      ensures u.Some? ==> u.value == NewUser(u.value.id, telegramId, from.firstName, from.lastName, from.username)
      ensures chats == old(chats) && relations == old(relations)
    {
      var row := UserRowAsWritten(nextUserId, telegramId, from.firstName, from.lastName, from.username);
      if UserRowAcceptedAsDeclared(row) {
        var created := CreateUserByTgId(telegramId, from);
        u := Some(created);
      } else {
        u := None;
      }
    }

    /** Whether the (user, chat) relation is already recorded. */
    method FindRelation(userId: int, chatId: int) returns (found: bool)
      requires Valid()
      ensures found <==> Connected(userId, chatId)
    {
      var id := 1;
      while id < nextRelationId
        invariant 1 <= id <= nextRelationId
        invariant forall k :: k in relations && k < id ==>
                    !(relations[k].userId == userId && relations[k].chatId == chatId)
      {
        if id in relations && relations[id].userId == userId && relations[id].chatId == chatId {
          return true;
        }
        id := id + 1;
      }
      found := false;
    }

    /** connect_user_to_chat: records that the user is in the chat unless that
        is already recorded, so each pair is recorded once.  Both must exist:
        the source dereferences them. */
    method ConnectUserToChat(chatTelegramId: int, userTelegramId: int) returns (user: TgUser, chat: TgChat)
      requires Valid() && UniqueChats(chats) && UniqueUsers(users)
      requires HasUser(userTelegramId) && HasChat(chatTelegramId)
      modifies this
      ensures Valid() && UniqueChats(chats) && UniqueUsers(users)
      ensures chats == old(chats) && users == old(users)
      ensures user == users[UserIdOf(userTelegramId)] && chat == chats[ChatIdOf(chatTelegramId)]
      ensures Connected(user.id, chat.id)
      ensures nextChatId == old(nextChatId) && nextUserId == old(nextUserId)
      ensures old(Connected(user.id, chat.id)) ==> relations == old(relations) && nextRelationId == old(nextRelationId)
      ensures !old(Connected(user.id, chat.id)) ==>
                var id := old(nextRelationId);
                && id !in old(relations) && relations == old(relations)[id := UserInChat(id, user.id, chat.id)]
                && nextRelationId == id + 1
    {
      var u := GetUserByTelegramId(userTelegramId);
      var c := GetChatByTelegramId(chatTelegramId);
      user, chat := u.value, c.value;
      var exists_ := FindRelation(user.id, chat.id);
      if !exists_ {
        var id := nextRelationId;
        relations := relations[id := UserInChat(id, user.id, chat.id)];
        nextRelationId := nextRelationId + 1;
        assert relations[id].userId == user.id && relations[id].chatId == chat.id;
      }
    }

    /** connect_user_to_chat against the user_chat table as declared, whose
        `state` and `cur_balance` are NOT NULL without defaults: the row it
        inserts for a new pair holds only the two keys and is refused.  So
        nothing is ever stored, and the call succeeds only for a pair that
        is already recorded. */
    method ConnectUserToChatAsWritten(chatTelegramId: int, userTelegramId: int) returns (user: TgUser, chat: TgChat, ok: bool)
      requires Valid() && UniqueChats(chats) && UniqueUsers(users)
      requires HasUser(userTelegramId) && HasChat(chatTelegramId)
      ensures user == users[UserIdOf(userTelegramId)] && chat == chats[ChatIdOf(chatTelegramId)]
      ensures ok <==> Connected(user.id, chat.id)
    {
      var u := GetUserByTelegramId(userTelegramId);
      var c := GetChatByTelegramId(chatTelegramId);
      user, chat := u.value, c.value;
      var exists_ := FindRelation(user.id, chat.id);
      ok := exists_ || RelationRowAcceptedAsDeclared(RelationRowAsWritten(nextRelationId, user.id, chat.id));
    }

    /** set_chat_state: the chats with that telegram id take the new state. */
    method SetChatState(telegramId: int, s: ChatState)
      requires Valid()
      modifies this
      ensures Valid() && UniqueChats(chats) == old(UniqueChats(chats))
      ensures forall t :: HasChat(t) == old(HasChat(t))
      ensures chats == ChatsWithState(old(chats), telegramId, s)
      ensures users == old(users) && relations == old(relations)
      ensures nextChatId == old(nextChatId) && nextUserId == old(nextUserId) && nextRelationId == old(nextRelationId)
    {
      var updated := chats;
      var id := 1;
      while id < nextChatId
        invariant 1 <= id <= nextChatId && updated.Keys == chats.Keys
        invariant forall k :: k in chats && k < id ==> updated[k] == ChatsWithState(chats, telegramId, s)[k]
        invariant forall k :: k in chats && k >= id ==> updated[k] == chats[k]
      {
        if id in updated && updated[id].telegramId == telegramId {
          updated := updated[id := updated[id].(state := s)];
        }
        id := id + 1;
      }
      var target := ChatsWithState(chats, telegramId, s);
      assert updated.Keys == target.Keys;
      assert forall k :: k in updated ==> updated[k] == target[k];
      chats := updated;
    }
  }
}
