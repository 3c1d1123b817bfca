/**
 * Inline keyboards: the confirm/cancel keyboards of the dialogue and the
 * keyboard listing the stored events, one button per event.
 */
module Keyboards {
  import opened Wrappers
  import opened Text
  import opened UrlsTable

  /** An inline button: the text shown and the callback data sent back when pressed. */
  datatype Button = Button(text: string, callbackData: string)

  /** An inline keyboard: its rows of buttons, top to bottom. */
  type Markup = seq<seq<Button>>

  /** A message the bot sends: its text and, optionally, an inline keyboard under it. */
  datatype Reply = Reply(text: string, keyboard: Option<Markup>)

  /** Callback tokens the confirmation step understands. */
  const ConfirmToken: string := "confirm"
  const CancelToken: string := "cancel"

  /** Key of the callback data carried by an event button: `used_url=<id>`. */
  const UsedUrlKey: string := "used_url"

  /** Fixed text in front of an event's summary on its button. */
  const EventButtonPrefix: string := "Событие: "

  /** Widest row aiogram's inline keyboard builder accepts (and narrowest: 1). */
  const MaxInlineWidth: nat := 8

  /** confirm_keyboard: a "confirm" row above a "cancel" row. */
  function ConfirmKeyboard(): Markup {
    [[Button("Подтвердить.", ConfirmToken)], [Button("Отменить", CancelToken)]]
  }

  /** cancel_keyboard: a single row with a single "cancel" button. */
  function CancelKeyboard(): Markup {
    [[Button("Отменить", CancelToken)]]
  }

  /** The callback data of the button for the event with this id. */
  function CallbackData(id: nat): string {
    UsedUrlKey + "=" + Decimal(id)
  }

  /** The button create_events_keyboard makes for one event. */
  function EventButton(e: EventRef): Button {
    Button(EventButtonPrefix + PyStr(e.summary), CallbackData(e.id))
  }

  /** The buttons of a keyboard read row by row, left to right. */
  function Flatten(kb: Markup): seq<Button> {
    if |kb| == 0 then [] else kb[0] + Flatten(kb[1..])
  }

  /**
   * `row(*buttons, width=width)` of aiogram's keyboard builder: the buttons cut
   * into consecutive rows of `width`, the last row holding what is left.
   */
  function Rows(buttons: seq<Button>, width: nat): (kb: Markup)
    requires 1 <= width
    ensures Flatten(kb) == buttons
    ensures forall r :: 0 <= r < |kb| ==> 1 <= |kb[r]| <= width
    ensures forall r :: 0 <= r < |kb| - 1 ==> |kb[r]| == width
    decreases |buttons|
  {
    if |buttons| == 0 then []
    else if |buttons| <= width then [buttons]
    else [buttons[..width]] + Rows(buttons[width..], width)
  }

  /**
   * create_events_keyboard: one button per event in the order of the list, laid
   * out in rows of `width` (one button per row when `width` is 1).
   */
  method CreateEventsKeyboard(width: nat, events: seq<EventRef>) returns (kb: Markup)
    requires 1 <= width <= MaxInlineWidth
    ensures |Flatten(kb)| == |events|
    ensures forall i :: 0 <= i < |events| ==> Flatten(kb)[i] == EventButton(events[i])
    ensures forall r :: 0 <= r < |kb| ==> 1 <= |kb[r]| <= width
    ensures forall r :: 0 <= r < |kb| - 1 ==> |kb[r]| == width
    ensures width == 1 ==> |kb| == |events| && forall i :: 0 <= i < |events| ==> kb[i] == [EventButton(events[i])]
  {
    var buttons: seq<Button> := [];
    var i := 0;
    while i < |events|
      invariant 0 <= i <= |events|
      invariant |buttons| == i
      invariant forall j :: 0 <= j < i ==> buttons[j] == EventButton(events[j])
    {
      buttons := buttons + [Button(EventButtonPrefix + PyStr(events[i].summary), CallbackData(events[i].id))];
      i := i + 1;
    }
    kb := Rows(buttons, width);
    if width == 1 {
      OneButtonRows(kb);
    }
  }

  /** When every row holds one button, there are as many rows as buttons. */
  lemma {:induction false} OneButtonRows(kb: Markup)
    requires forall r :: 0 <= r < |kb| ==> |kb[r]| == 1
    ensures |Flatten(kb)| == |kb|
    ensures forall r :: 0 <= r < |kb| ==> kb[r] == [Flatten(kb)[r]]
  {
    if |kb| > 0 {
      OneButtonRows(kb[1..]);
    }
  }

  /** The callback data of every event button starts with the `used_url` key. */
  lemma EventButtonCarriesKey(e: EventRef)
    ensures StartsWith(EventButton(e).callbackData, UsedUrlKey)
  {
    assert EventButton(e).callbackData[..|UsedUrlKey|] == UsedUrlKey;
  }
}
