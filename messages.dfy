/** What flows in and out of the bot.  Inbound shapes follow
    app/store/tg_api/dataclasses.py; outbound messages are appended to a log
    instead of being sent, each as the notice it carries and its literal text. */
module Messages {
  import opened Wrappers
  import opened Keyboard

  /** The chat an inbound message belongs to (its telegram id). */
  datatype ChatRef = ChatRef(id: int, kind: string)

  /** The sender of an inbound message or callback. */
  datatype MessageFrom = MessageFrom(id: int, firstName: string, username: string, lastName: Option<string>)

  datatype Message = Message(
    messageId: int,
    from: MessageFrom,
    chat: ChatRef,
    text: Option<string>,
    data: Option<string>)

  /** A button press: its own sender, the bot message the keyboard hangs on,
      and the button's payload. */
  datatype CallbackQuery = CallbackQuery(id: string, from: MessageFrom, message: Message, data: Option<string>)

  /** One update of a poll: at most one of its three parts is normally set. */
  datatype UpdateObj = UpdateObj(
    updateId: int,
    message: Option<Message>,
    editedMessage: Option<Message>,
    callbackQuery: Option<CallbackQuery>)

  /** The notices the core sends. */
  datatype Notice =
    | TimeIsUp
    | CurrentPlayers(list: string)
    | NotEnoughPlayers
    | SessionOneStarted
    | ParticipationPrompt(keyboard: InlineKeyboard)
    | GameAlreadyGoing
    | GameKilled
    | UnknownCommand
    | AlreadyConfirmed(name: string)
    | ParticipationConfirmed(name: string)
    | ParticipationCancelled(name: string)
    | Echo(text: string)
    | GameNotFound
    | GameStarted
    | ErrorStartingGame
    | GameAlreadyStarted

  /** The literal text of each notice. */
  function Text(n: Notice): string
  {
    match n
    case TimeIsUp => "Время вышло"
    case CurrentPlayers(list) => "Текущие игроки:\n" + list
    case NotEnoughPlayers => "Недостаточно игроков для игры"
    case SessionOneStarted => "Сессия 1 начата!"
    case ParticipationPrompt(_) => "Подтвердите участие:"
    case GameAlreadyGoing => "Игра уже начата"
    case GameKilled => "Игра окончена"
    case UnknownCommand => "Неизвестная команда"
    case AlreadyConfirmed(name) => name + ", ваше участие уже подтверждено"
    case ParticipationConfirmed(name) => "Пользователь " + name + " подтвердил участие"
    case ParticipationCancelled(name) => "Пользователь " + name + " отменил участие"
    case Echo(text) => text
    case GameNotFound => "Игра не найдена"
    case GameStarted => "game started"
    case ErrorStartingGame => "Error starting game"
    case GameAlreadyStarted => "game already started"
  }

  /** An outbound call to the chat platform. */
  datatype Outbound =
    | SendMessage(chatId: int, notice: Notice)
    | AnswerCallbackQuery(callbackId: string, notice: Notice)

  /** The outbound side: everything sent, in order. */
  class Messenger {
    var sent: seq<Outbound>

    constructor()
      ensures sent == []
    {
      sent := [];
    }

    method Send(o: Outbound)
      modifies this
      ensures sent == old(sent) + [o]
    {
      sent := sent + [o];
    }
  }

  /** The text of an edited message echoed back: Python's f-string of the
      optional text, which renders a missing text as "None". */
  function EchoText(text: Option<string>): (r: string)
    ensures text.Some? ==> r == text.value
    ensures text.None? ==> r == "None"
  {
    if text.Some? then text.value else "None"
  }

  /** Python's `sep.join(parts)`: the parts in order, with `sep` between each
      two neighbours. */
  function Join(sep: string, parts: seq<string>): string
  {
    if |parts| == 0 then ""
    else if |parts| == 1 then parts[0]
    else Join(sep, parts[..|parts| - 1]) + sep + parts[|parts| - 1]
  }

  /** Joining a first part onto the join of the rest puts one separator
      between them. */
  lemma {:induction false} JoinFront(sep: string, x: string, rest: seq<string>)
    requires |rest| > 0
    ensures Join(sep, [x] + rest) == x + sep + Join(sep, rest)
    decreases |rest|
  {
    var all := [x] + rest;
    if |rest| == 1 {
      assert all[..|all| - 1] == [x];
    } else {
      var init := rest[..|rest| - 1];
      assert all[..|all| - 1] == [x] + init;
      JoinFront(sep, x, init);
    }
  }

  /** The roster line of one player. */
  function Bullet(name: string): string
  {
    "• " + name
  }

  /** `"\n".join(f"• {name}" for name in names)`: the roster is empty exactly
      when there are no names, and is the bulleted names joined by newlines. */
  function JoinPlayerList(names: seq<string>): (r: string)
    ensures |r| == 0 <==> |names| == 0
    ensures r == Join("\n", seq(|names|, i requires 0 <= i < |names| => Bullet(names[i])))
  {
    if |names| == 0 then ""
    else if |names| == 1 then Bullet(names[0])
    else
      var rest := seq(|names| - 1, i requires 0 <= i < |names| - 1 => Bullet(names[1..][i]));
      assert seq(|names|, i requires 0 <= i < |names| => Bullet(names[i])) == [Bullet(names[0])] + rest;
      JoinFront("\n", Bullet(names[0]), rest);
      Bullet(names[0]) + "\n" + JoinPlayerList(names[1..])
  }
}
