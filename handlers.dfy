/** Handler descriptors (app/handlers/decorators.py) and the first-match
    selection the two processors run over them.  A decorated handler is its
    function together with exactly one descriptor; the processors walk their
    handlers in declaration order and run the first whose descriptor matches. */
module Handlers {
  import opened Wrappers
  import opened States

  /** The descriptor `chat_message_handler` attaches. */
  datatype ChatHandlerMeta = ChatHandlerMeta(
    text: Option<string>,
    chatState: Option<ChatState>,
    gameState: Option<GameState>)

  /** The descriptor `game_message_handler` attaches. */
  datatype GameHandlerMeta = GameHandlerMeta(
    callbackData: Option<string>,
    callbackDataStartswith: Option<string>,
    gameState: Option<GameState>,
    playerState: Option<PlayerState>)

  /** A decorated handler: the wrapper and its single descriptor. */
  datatype Decorated<M, !A, R> = Decorated(call: A -> R, meta: M)

  /** `chat_message_handler(...)`: every argument recorded as given, each
      defaulting to None. */
  function ChatMessageHandler(text: Option<string> := None, chatState: Option<ChatState> := None,
                              gameState: Option<GameState> := None): (m: ChatHandlerMeta)
    ensures m.text == text && m.chatState == chatState && m.gameState == gameState
  {
    ChatHandlerMeta(text, chatState, gameState)
  }

  /** `game_message_handler(...)`: every argument recorded as given, each
      defaulting to None. */
  function GameMessageHandler(callbackData: Option<string> := None,
                              callbackDataStartswith: Option<string> := None,
                              gameState: Option<GameState> := None,
                              playerState: Option<PlayerState> := None): (m: GameHandlerMeta)
    ensures m.callbackData == callbackData && m.callbackDataStartswith == callbackDataStartswith
    ensures m.gameState == gameState && m.playerState == playerState
  {
    GameHandlerMeta(callbackData, callbackDataStartswith, gameState, playerState)
  }

  /** Decorating a function: the wrapper forwards its arguments unchanged and
      returns what the wrapped function returns, and carries the one
      descriptor it was given. */
  function Decorate<M, A(!new), R>(meta: M, f: A -> R): (d: Decorated<M, A, R>)
    ensures d.meta == meta
    ensures forall a :: d.call(a) == f(a)
  {
    Decorated(a => f(a), meta)
  }

  /** A decorated method as a processor's loop sees it: its descriptor and
      which handler it is. */
  datatype Rule<M, H> = Rule(meta: M, handler: H)

  /** The first position whose rule matches, or None when no rule does. */
  function FirstMatch<R>(rules: seq<R>, matches: R -> bool): (r: Option<nat>)
    ensures r.Some? ==> r.value < |rules| && matches(rules[r.value])
    ensures r.Some? ==> forall j :: 0 <= j < r.value ==> !matches(rules[j])
    ensures r.None? ==> forall j :: 0 <= j < |rules| ==> !matches(rules[j])
  {
    if |rules| == 0 then None
    else if matches(rules[0]) then Some(0)
    else match FirstMatch(rules[1..], matches)
      case None => None
      case Some(k) => Some(k + 1)
  }

  /** Two rule tables that agree, position by position, on whether a rule
      matches select the same position. */
  lemma {:induction false} FirstMatchCongruence<R, S>(rs: seq<R>, p: R -> bool, ss: seq<S>, q: S -> bool)
    requires |rs| == |ss|
    requires forall i :: 0 <= i < |rs| ==> p(rs[i]) == q(ss[i])
    ensures FirstMatch(rs, p) == FirstMatch(ss, q)
  {
    if |rs| > 0 && !p(rs[0]) {
      FirstMatchCongruence(rs[1..], p, ss[1..], q);
    }
  }

  /** The processors' loop over their handlers: walk the rules in order and
      stop at the first that matches. */
  method FindFirst<R>(rules: seq<R>, matches: R -> bool) returns (k: Option<nat>)
    ensures k == FirstMatch(rules, matches)
  {
    var i := 0;
    while i < |rules|
      invariant 0 <= i <= |rules|
      invariant forall j :: 0 <= j < i ==> !matches(rules[j])
    {
      if matches(rules[i]) {
        FirstMatchIsFirst(rules, matches, i);
        return Some(i);
      }
      i := i + 1;
    }
    k := None;
  }

  /** Any position that matches with no match before it is the first match. */
  lemma FirstMatchIsFirst<R>(rules: seq<R>, matches: R -> bool, i: nat)
    requires i < |rules| && matches(rules[i])
    requires forall j :: 0 <= j < i ==> !matches(rules[j])
    ensures FirstMatch(rules, matches) == Some(i)
  {
  }
}
