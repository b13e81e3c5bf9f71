/** Inline keyboards (app/utils/keyboard.py): the nested-list transform from
    button dictionaries to the `inline_keyboard` markup, and the participation
    keyboard shown when a game opens. */
module Keyboard {
  import opened Wrappers

  /** A button as a caller writes it: a dictionary from key to value. */
  type ButtonSpec = map<string, string>

  /** A button of the markup: exactly the two keys the transform emits. */
  datatype InlineButton = InlineButton(text: string, callbackData: Option<string>)

  /** The markup: a dictionary whose one key, `inline_keyboard`, holds rows. */
  datatype InlineKeyboard = InlineKeyboard(inlineKeyboard: seq<seq<InlineButton>>)

  /** Every button has a `text` key, without which `btn["text"]` raises. */
  predicate AllHaveText(buttons: seq<seq<ButtonSpec>>)
  {
    forall i, j :: 0 <= i < |buttons| && 0 <= j < |buttons[i]| ==> "text" in buttons[i][j]
  }

  /** One button: `text` is copied, `callback_data` is copied or null when
      absent, and every other key is dropped. */
  function ToInlineButton(btn: ButtonSpec): (b: InlineButton)
    requires "text" in btn
    ensures b.text == btn["text"]
    ensures b.callbackData.Some? <==> "callback_data" in btn
    ensures "callback_data" in btn ==> b.callbackData == Some(btn["callback_data"])
  {
    InlineButton(btn["text"], if "callback_data" in btn then Some(btn["callback_data"]) else None)
  }

  /** create_inline_keyboard.  None stands for the KeyError raised when some
      button has no `text`. */
  function CreateInlineKeyboard(buttons: seq<seq<ButtonSpec>>): (r: Option<InlineKeyboard>)
    ensures r.Some? <==> AllHaveText(buttons)
    ensures r.Some? ==> |r.value.inlineKeyboard| == |buttons|
    ensures r.Some? ==> forall i :: 0 <= i < |buttons| ==> |r.value.inlineKeyboard[i]| == |buttons[i]|
    ensures r.Some? ==> forall i, j :: 0 <= i < |buttons| && 0 <= j < |buttons[i]| ==>
              r.value.inlineKeyboard[i][j] == ToInlineButton(buttons[i][j])
  {
    if AllHaveText(buttons) then
      Some(InlineKeyboard(
        seq(|buttons|, i requires 0 <= i < |buttons| =>
          seq(|buttons[i]|, j requires 0 <= j < |buttons[i]| => ToInlineButton(buttons[i][j])))))
    else
      None
  }

  const ConfirmPayload := "confirm"
  const CancelPayload := "cancel"

  /** get_participation_keyboard: one row, a confirm button then a cancel
      button, carrying the payloads the two participation handlers match. */
  function ParticipationKeyboard(): (kb: InlineKeyboard)
    ensures |kb.inlineKeyboard| == 1 && |kb.inlineKeyboard[0]| == 2
    ensures kb.inlineKeyboard[0][0].callbackData == Some(ConfirmPayload)
    ensures kb.inlineKeyboard[0][1].callbackData == Some(CancelPayload)
  {
    var buttons := [[map["text" := "✅ Подтвердить", "callback_data" := ConfirmPayload],
                     map["text" := "❌ Отменить", "callback_data" := CancelPayload]]];
    assert AllHaveText(buttons);
    CreateInlineKeyboard(buttons).value
  }
}
