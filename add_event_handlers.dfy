/**
 * The event-creation dialogue: a finite state machine that collects six text
 * fields one message at a time, shows them for confirmation and then stores
 * them as one row of the `urls` table or discards them.
 *
 * The transitions are first given as functions on a snapshot of one user's
 * session (`Form`); the class `FormContext` is the mutable session the
 * handlers update, and each of its methods is specified by those functions.
 */
module AddEventHandlers {
  import opened Wrappers
  import opened Text
  import opened UrlsTable
  import opened Keyboards

  /** The states of FSMFillForm, plus the default (no) state. */
  datatype FormState =
    | Idle
    | FillSummary
    | FillLongUrl
    | FillLocation
    | FillDescription
    | FillDateStart
    | FillDateEnd
    | Confirmation
  {
    /** A state in which the next text message is stored as a field. */
    predicate IsFill() {
      !Idle? && !Confirmation?
    }
  }

  /** The data key a fill state stores the message text under. */
  function FieldKey(s: FormState): string
    requires s.IsFill()
  {
    match s
    case FillSummary => "summary"
    case FillLongUrl => "long_url"
    case FillLocation => "location"
    case FillDescription => "description"
    case FillDateStart => "date_start"
    case FillDateEnd => "date_end"
  }

  /** The state a fill state moves to once its field is stored. */
  function Next(s: FormState): FormState
    requires s.IsFill()
  {
    match s
    case FillSummary => FillLongUrl
    case FillLongUrl => FillLocation
    case FillLocation => FillDescription
    case FillDescription => FillDateStart
    case FillDateStart => FillDateEnd
    case FillDateEnd => Confirmation
  }

  /** The keys already collected when the dialogue is in state `s`. */
  function Collected(s: FormState): set<string> {
    match s
    case Idle => {}
    case FillSummary => {}
    case FillLongUrl => {"summary"}
    case FillLocation => {"summary", "long_url"}
    case FillDescription => {"summary", "long_url", "location"}
    case FillDateStart => {"summary", "long_url", "location", "description"}
    case FillDateEnd => {"summary", "long_url", "location", "description", "date_start"}
    case Confirmation => {"summary", "long_url", "location", "description", "date_start", "date_end"}
  }

  /** Storing a fill state's field adds exactly its key to the collected ones. */
  lemma CollectedStep(s: FormState)
    requires s.IsFill()
    ensures FieldKey(s) !in Collected(s)
    ensures Collected(Next(s)) == Collected(s) + {FieldKey(s)}
  {
    match s
    case FillSummary =>
    case FillLongUrl =>
    case FillLocation =>
    case FillDescription =>
    case FillDateStart =>
    case FillDateEnd =>
  }

  /** The six keys in the order the dialogue asks for them. */
  const FieldOrder: seq<string> := ["summary", "long_url", "location", "description", "date_start", "date_end"]

  /** The labels of the confirmation summary, in the same order. */
  const FieldLabels: seq<string> :=
    ["Название: ", "Ссылка на событие: ", "Местоположение: ", "Описание: ", "Начало: ", "Окончание: "]

  const ConfirmationHeader: string := "Подтвердите введенные данные:\n\n"
  const CancelledText: string :=
    "Вы прервали заполнение события.\nЧтобы снова перейти к заполнению выберите в меню или введите команду /add_event"
  const IntroText: string :=
    "Заполните все поля события. Если хотите прервать заполнение введите команду /cancel\n"
  const AskSummaryText: string := "Пожалуйста, введите название события."
  const SavedText: string := "Событие сохранено в базе данных. Спасибо!"
  const DiscardedText: string :=
    "Добавление события отменено. Выберите в меню или введите /add_event для создания нового события."

  /** One user's session: the FSM state and the data collected so far. */
  datatype Form = Form(state: FormState, data: map<string, string>)

  /** The session invariant: the data holds exactly the fields already asked for. */
  predicate WellFormed(f: Form) {
    f.data.Keys == Collected(f.state)
  }

  /** What the dialogue's router does with a text message. */
  datatype MessageOutcome =
    | NotHandled                     // no handler of the dialogue matches; later routers get it
    | Answered(replies: seq<Reply>)

  /** What the dialogue's router does with a button press. */
  datatype CallbackOutcome =
    | NotRouted                      // not in the confirmation state; later routers get it
    | Ignored                        // in confirmation, but neither token: only acknowledged
    | Saved(event: map<string, string>, edited: string)
    | Discarded(edited: string)

  datatype MessageStep = MessageStep(next: Form, outcome: MessageOutcome)
  datatype CallbackStep = CallbackStep(next: Form, outcome: CallbackOutcome)

  /** The six collected lines of the confirmation summary, label then value. */
  function ConfirmationLines(data: map<string, string>): (lines: seq<string>)
    requires HasEventKeys(data)
    ensures |lines| == 6
  {
    seq(6, i requires 0 <= i < 6 => FieldLabels[i] + data[FieldOrder[i]] + "\n")
  }

  /** The summary shown on entering the confirmation state. */
  function ConfirmationMessage(data: map<string, string>): string
    requires HasEventKeys(data)
  {
    ConfirmationHeader + Concat(ConfirmationLines(data)) + "\n"
  }

  /** Where the k-th collected value starts in the confirmation summary. */
  function ConfirmationOffset(data: map<string, string>, k: nat): nat
    requires HasEventKeys(data) && k < 6
  {
    |ConfirmationHeader| + |Concat(ConfirmationLines(data)[..k])| + |FieldLabels[k]|
  }

  /** The message a fill handler answers with once it stored its field. */
  function PromptAfter(s: FormState, data: map<string, string>): Reply
    requires s.IsFill()
    requires s == FillDateEnd ==> HasEventKeys(data)
  {
    match s
    case FillSummary => Reply("Теперь введите ссылку на событие.", None)
    case FillLongUrl => Reply("Теперь введите местоположение.", None)
    case FillLocation => Reply("Теперь введите описание события.", None)
    case FillDescription => Reply("Теперь введите дату начала события в формате YYYY-MM-DD HH:MM:SS.", None)
    case FillDateStart => Reply("Теперь введите дату окончания события в формате YYYY-MM-DD HH:MM:SS.", None)
    case FillDateEnd => Reply(ConfirmationMessage(data), Some(ConfirmKeyboard()))
  }

  /**
   * The dialogue's message router, handlers tried in registration order:
   * `/cancel` in any non-default state, `/add_event` in the default state,
   * then the fill handler of the current state, which stores any text as is.
   */
  function OnMessage(f: Form, text: string): (r: MessageStep)
    requires WellFormed(f)
    ensures WellFormed(r.next)
    ensures r.outcome.NotHandled? <==>
      || (f.state == Confirmation && !IsCommand(text, "cancel"))
      || (f.state == Idle && !IsCommand(text, "add_event"))
    ensures r.outcome.NotHandled? ==> r.next == f
  {
    if f.state != Idle && IsCommand(text, "cancel") then
      MessageStep(Form(Idle, map[]), Answered([Reply(CancelledText, None)]))
    else if f.state == Idle && IsCommand(text, "add_event") then
      MessageStep(Form(FillSummary, f.data), Answered([Reply(IntroText, None), Reply(AskSummaryText, None)]))
    else if f.state.IsFill() then
      var data := f.data[FieldKey(f.state) := text];
      CollectedStep(f.state);
      MessageStep(Form(Next(f.state), data), Answered([PromptAfter(f.state, data)]))
    else
      MessageStep(f, NotHandled)
  }

  /**
   * process_confirmation: in the confirmation state `confirm` hands the data
   * to the database and clears the session, `cancel` clears it, anything else
   * changes nothing.
   */
  function OnCallback(f: Form, callbackData: string): (r: CallbackStep)
    requires WellFormed(f)
    ensures WellFormed(r.next)
    ensures r.outcome.Saved? ==> HasEventKeys(r.outcome.event)
  {
    if f.state != Confirmation then CallbackStep(f, NotRouted)
    else if callbackData == ConfirmToken then CallbackStep(Form(Idle, map[]), Saved(f.data, SavedText))
    else if callbackData == CancelToken then CallbackStep(Form(Idle, map[]), Discarded(DiscardedText))
    else CallbackStep(f, Ignored)
  }

  /** The session after a sequence of text messages. */
  function Run(f: Form, texts: seq<string>): (r: Form)
    requires WellFormed(f)
    ensures WellFormed(r)
    decreases |texts|
  {
    if |texts| == 0 then f else Run(OnMessage(f, texts[0]).next, texts[1..])
  }

  /** The data holding six values under the six keys, in the order they are asked for. */
  function FormData(values: seq<string>): map<string, string>
    requires |values| == 6
  {
    map["summary" := values[0], "long_url" := values[1], "location" := values[2],
        "description" := values[3], "date_start" := values[4], "date_end" := values[5]]
  }

  // ---------------------------------------------------------------------------
  // Properties of the dialogue
  // ---------------------------------------------------------------------------

  /** `/add_event` starts the dialogue exactly when the session is in the default state. */
  lemma AddEventOnlyFromIdle(f: Form, text: string)
    requires WellFormed(f) && IsCommand(text, "add_event")
    ensures OnMessage(f, text).next.state == FillSummary <==> f.state == Idle
    ensures f.state == Idle ==> OnMessage(f, text).next == Form(FillSummary, map[])
  {
    CommandFirstLetter(text, "add_event");
  }

  /**
   * A fill handler stores the text verbatim under its own key, whatever the
   * text is (dates are not checked), keeps every other field and moves exactly
   * one state on.
   */
  lemma FillStoresVerbatim(f: Form, text: string)
    requires WellFormed(f) && f.state.IsFill() && !IsCommand(text, "cancel")
    ensures OnMessage(f, text).next.state == Next(f.state)
    ensures OnMessage(f, text).next.data.Keys == f.data.Keys + {FieldKey(f.state)}
    ensures OnMessage(f, text).next.data[FieldKey(f.state)] == text
    ensures forall k :: k in f.data ==> OnMessage(f, text).next.data[k] == f.data[k]
  {
    assert FieldKey(f.state) !in f.data;
  }

  /** `/cancel` in any state but the default one clears the session. */
  lemma CancelClears(f: Form, text: string)
    requires WellFormed(f) && f.state != Idle && IsCommand(text, "cancel")
    ensures OnMessage(f, text).next == Form(Idle, map[])
  {
  }

  /** A `/cancel` message never ends up as a field value. */
  lemma CancelNeverStored(f: Form, text: string)
    requires WellFormed(f) && IsCommand(text, "cancel")
    ensures text !in OnMessage(f, text).next.data.Values
  {
    CommandFirstLetter(text, "cancel");
  }

  /**
   * From the default state, `/add_event` followed by six messages (none of them
   * `/cancel`) reaches the confirmation state holding exactly those six values
   * under the six keys, in the order entered.
   */
  lemma FillingTheForm(values: seq<string>)
    requires |values| == 6
    requires forall i :: 0 <= i < 6 ==> !IsCommand(values[i], "cancel")
    ensures Run(Form(Idle, map[]), ["/add_event"] + values) == Form(Confirmation, FormData(values))
  {
    assert IsCommand("/add_event", "add_event");
    AddEventStep(["/add_event"] + values);
    assert (["/add_event"] + values)[1..] == values;
    FillFirstHalf(values);
    FillSecondHalf(values);
  }

  /** The data after the first three fill steps. */
  function FirstHalfData(values: seq<string>): map<string, string>
    requires |values| == 6
  {
    map["summary" := values[0], "long_url" := values[1], "location" := values[2]]
  }

  /** Summary, link and location are stored one message at a time. */
  lemma FillFirstHalf(values: seq<string>)
    requires |values| == 6
    requires forall i :: 0 <= i < 6 ==> !IsCommand(values[i], "cancel")
    ensures WellFormed(Form(FillDescription, FirstHalfData(values)))
    ensures Run(Form(FillSummary, map[]), values) == Run(Form(FillDescription, FirstHalfData(values)), values[3..])
  {
    var d0: map<string, string> := map[];
    FillStep(Form(FillSummary, d0), values);
    var d1 := d0["summary" := values[0]];
    FillStep(Form(FillLongUrl, d1), values[1..]);
    var d2 := d1["long_url" := values[1]];
    FillStep(Form(FillLocation, d2), values[2..]);
    assert values[2..][1..] == values[3..];
  }

  /** Description and the two dates complete the form. */
  lemma FillSecondHalf(values: seq<string>)
    requires |values| == 6
    requires forall i :: 0 <= i < 6 ==> !IsCommand(values[i], "cancel")
    requires WellFormed(Form(FillDescription, FirstHalfData(values)))
    ensures Run(Form(FillDescription, FirstHalfData(values)), values[3..]) == Form(Confirmation, FormData(values))
  {
    var d3 := FirstHalfData(values);
    FillStep(Form(FillDescription, d3), values[3..]);
    var d4 := d3["description" := values[3]];
    FillStep(Form(FillDateStart, d4), values[4..]);
    var d5 := d4["date_start" := values[4]];
    FillStep(Form(FillDateEnd, d5), values[5..]);
    var d6 := d5["date_end" := values[5]];
    assert Run(Form(Confirmation, d6), values[6..]) == Form(Confirmation, d6);
    assert d6 == FormData(values);
  }

  /** The first step of a run from the default state: `/add_event` opens the form. */
  lemma AddEventStep(texts: seq<string>)
    requires |texts| > 0 && IsCommand(texts[0], "add_event")
    ensures Run(Form(Idle, map[]), texts) == Run(Form(FillSummary, map[]), texts[1..])
  {
  }

  /** One fill step of a run: the head message is stored and the rest runs on. */
  lemma FillStep(f: Form, texts: seq<string>)
    requires WellFormed(f) && f.state.IsFill() && |texts| > 0 && !IsCommand(texts[0], "cancel")
    ensures WellFormed(Form(Next(f.state), f.data[FieldKey(f.state) := texts[0]]))
    ensures Run(f, texts) == Run(Form(Next(f.state), f.data[FieldKey(f.state) := texts[0]]), texts[1..])
  {
  }

  /**
   * Cancelling at any point and starting again collects a wholly fresh form:
   * none of the cancelled values survives.
   */
  lemma CancelThenRestart(f: Form, values: seq<string>)
    requires WellFormed(f) && f.state != Idle
    requires |values| == 6
    requires forall i :: 0 <= i < 6 ==> !IsCommand(values[i], "cancel")
    ensures Run(f, ["/cancel", "/add_event"] + values) == Form(Confirmation, FormData(values))
  {
    var texts := ["/cancel", "/add_event"] + values;
    assert IsCommand(texts[0], "cancel");
    assert OnMessage(f, texts[0]).next == Form(Idle, map[]);
    assert texts[1..] == ["/add_event"] + values;
    FillingTheForm(values);
  }

  /**
   * The confirmation summary shows each collected value verbatim, the six of
   * them in the order they were asked for.
   */
  lemma ConfirmationShowsFieldsInOrder(data: map<string, string>, k: nat)
    requires HasEventKeys(data) && k < 6
    ensures var at := ConfirmationOffset(data, k);
      var v := data[FieldOrder[k]];
      at + |v| <= |ConfirmationMessage(data)| && ConfirmationMessage(data)[at..at + |v|] == v
    ensures k < 5 ==> ConfirmationOffset(data, k) + |data[FieldOrder[k]]| < ConfirmationOffset(data, k + 1)
  {
    var lines := ConfirmationLines(data);
    var v := data[FieldOrder[k]];
    var listing := ConfirmationHeader + Concat(lines);
    var start := |ConfirmationHeader| + |Concat(lines[..k])|;
    ListingAt(ConfirmationHeader, lines, k);
    assert lines[k] == FieldLabels[k] + v + "\n";
    FramedValue(listing + "\n", start, FieldLabels[k], v, "\n");
  }

  /** `confirm` in the confirmation state saves the collected data once and clears the session. */
  lemma ConfirmSavesThenClears(data: map<string, string>)
    requires WellFormed(Form(Confirmation, data))
    ensures OnCallback(Form(Confirmation, data), ConfirmToken) == CallbackStep(Form(Idle, map[]), Saved(data, SavedText))
  {
  }

  /** `cancel` in the confirmation state clears the session without saving. */
  lemma CancelDiscards(data: map<string, string>)
    requires WellFormed(Form(Confirmation, data))
    ensures OnCallback(Form(Confirmation, data), CancelToken) == CallbackStep(Form(Idle, map[]), Discarded(DiscardedText))
  {
  }

  /** Any other callback data in the confirmation state saves nothing and changes nothing. */
  lemma OtherCallbackIgnored(data: map<string, string>, callbackData: string)
    requires WellFormed(Form(Confirmation, data))
    requires callbackData != ConfirmToken && callbackData != CancelToken
    ensures OnCallback(Form(Confirmation, data), callbackData) == CallbackStep(Form(Confirmation, data), Ignored)
  {
  }

  /**
   * The keyboard shown with the summary carries exactly the two tokens the
   * confirmation handler acts on: the top button saves, the bottom one discards.
   */
  lemma ConfirmKeyboardMatchesHandler(data: map<string, string>)
    requires WellFormed(Form(Confirmation, data))
    ensures |ConfirmKeyboard()| == 2 && |ConfirmKeyboard()[0]| == 1 && |ConfirmKeyboard()[1]| == 1
    ensures OnCallback(Form(Confirmation, data), ConfirmKeyboard()[0][0].callbackData).outcome.Saved?
    ensures OnCallback(Form(Confirmation, data), ConfirmKeyboard()[1][0].callbackData).outcome.Discarded?
    ensures OnCallback(Form(Confirmation, data), CancelKeyboard()[0][0].callbackData).outcome.Discarded?
  {
  }

  // ---------------------------------------------------------------------------
  // The session object the handlers update
  // ---------------------------------------------------------------------------

  /** One user's FSMContext: the current state and the collected data. */
  class FormContext {
    var state: FormState
    var data: map<string, string>

    function Snapshot(): Form
      reads this
    {
      Form(state, data)
    }

    ghost predicate Valid()
      reads this
    {
      WellFormed(Snapshot())
    }

    /** A user the bot has not seen yet: no state and no data. */
    constructor ()
      ensures Valid() && state == Idle && data == map[]
    {
      state, data := Idle, map[];
    }

    /** FSMContext.clear: back to the default state with no data. */
    method Clear()
      modifies this
      ensures Valid() && state == Idle && data == map[]
    {
      state, data := Idle, map[];
    }

    /** process_cancel_command_state. */
    method ProcessCancelCommand() returns (reply: Reply)
      requires Valid() && state != Idle
      modifies this
      ensures Valid() && state == Idle && data == map[]
      ensures reply == Reply(CancelledText, None)
    {
      reply := Reply(CancelledText, None);
      Clear();
    }

    /** process_add_event_command: two prompts, then the first fill state. */
    method ProcessAddEventCommand() returns (replies: seq<Reply>)
      requires Valid() && state == Idle
      modifies this
      ensures Valid() && state == FillSummary && data == old(data) == map[]
      ensures replies == [Reply(IntroText, None), Reply(AskSummaryText, None)]
    {
      replies := [Reply(IntroText, None), Reply(AskSummaryText, None)];
      state := FillSummary;
    }

    /**
     * The six fill handlers: store the text under the current state's key,
     * answer with the next prompt (the summary and the confirm keyboard after
     * the last field) and move to the next state.
     */
    method ProcessFieldSent(text: string) returns (reply: Reply)
      requires Valid() && state.IsFill()
      modifies this
      ensures Valid() && state == Next(old(state))
      ensures data == old(data)[FieldKey(old(state)) := text]
      ensures reply == PromptAfter(old(state), data)
    {
      data := data[FieldKey(state) := text];
      reply := PromptAfter(state, data);
      state := Next(state);
    }

    /** process_confirmation, saving through the `urls` table. */
    method ProcessConfirmation(callbackData: string, db: Database) returns (outcome: CallbackOutcome)
      requires Valid() && state == Confirmation
      requires db.Valid() && db.tableExists
      modifies this, db
      ensures Valid() && db.Valid() && db.tableExists
      ensures callbackData == ConfirmToken ==>
        && state == Idle && data == map[]
        && db.rows == old(db.rows) + [EventRow(old(db.nextId), old(data))]
        && db.nextId == old(db.nextId) + 1
        && outcome == Saved(old(data), SavedText)
      ensures callbackData == CancelToken ==>
        && state == Idle && data == map[]
        && db.rows == old(db.rows) && db.nextId == old(db.nextId)
        && outcome == Discarded(DiscardedText)
      ensures callbackData != ConfirmToken && callbackData != CancelToken ==>
        && state == old(state) && data == old(data)
        && db.rows == old(db.rows) && db.nextId == old(db.nextId)
        && outcome == Ignored
    {
      if callbackData == ConfirmToken {
        var event := data;
        var saved := db.SaveEvent(event);
        Clear();
        outcome := Saved(event, SavedText);
      } else if callbackData == CancelToken {
        Clear();
        outcome := Discarded(DiscardedText);
      } else {
        outcome := Ignored;
      }
    }

    /** The dialogue's router for a text message, specified by OnMessage. */
    method HandleMessage(text: string) returns (outcome: MessageOutcome)
      requires Valid()
      modifies this
      ensures Valid()
      ensures MessageStep(Snapshot(), outcome) == OnMessage(old(Snapshot()), text)
    {
      if state != Idle && IsCommand(text, "cancel") {
        var reply := ProcessCancelCommand();
        outcome := Answered([reply]);
      } else if state == Idle && IsCommand(text, "add_event") {
        var replies := ProcessAddEventCommand();
        outcome := Answered(replies);
      } else if state.IsFill() {
        var reply := ProcessFieldSent(text);
        outcome := Answered([reply]);
      } else {
        outcome := NotHandled;
      }
    }

    /** The dialogue's router for a button press, specified by OnCallback. */
    method HandleCallback(callbackData: string, db: Database) returns (outcome: CallbackOutcome)
      requires Valid() && db.Valid() && db.tableExists
      modifies this, db
      ensures Valid() && db.Valid() && db.tableExists
      ensures CallbackStep(Snapshot(), outcome) == OnCallback(old(Snapshot()), callbackData)
      ensures outcome.Saved? ==>
        db.rows == old(db.rows) + [EventRow(old(db.nextId), outcome.event)] && db.nextId == old(db.nextId) + 1
      ensures !outcome.Saved? ==> db.rows == old(db.rows) && db.nextId == old(db.nextId)
    {
      if state == Confirmation {
        outcome := ProcessConfirmation(callbackData, db);
      } else {
        outcome := NotRouted;
      }
    }
  }
}
