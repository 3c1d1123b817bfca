/**
 * The `/get_events` and `/get_usages_count` commands and the handler of an
 * event button: listing, statistics and "mark this event as used".
 */
module GetEventHandlers {
  import opened Wrappers
  import opened Text
  import opened UrlsTable
  import opened Keyboards

  const ChooseEventText: string := "Выберите событие на которое нужна ссылка:"
  const EmptyListText: string := "Список событий пуст."
  const UsageHeader: string := "Список событий со статистикой их использования:\n"
  const NoEventsText: string := "В базе данных нет событий."
  const UsageLinePrefix: string := "Ссылка на событие "
  const UsedText: string := " - Использована "
  const TimesText: string := " раз(а)\n"
  const LinkPrefix: string := "Ссылка на событие ["

  /** The button of the k-th row of the table, as the event list shows it. */
  function RowButton(r: Row): Button {
    EventButton(EventRef(r.id, r.summary, r.longUrl))
  }

  /**
   * process_get_events_command for `/get_events`: the fixed "list is empty"
   * text without a keyboard when the table has no rows, otherwise a prompt
   * with one single-button row per event, in the order the query returns them.
   */
  method ProcessGetEventsCommand(db: Database) returns (reply: Reply)
    requires db.tableExists
    ensures |db.rows| == 0 ==> reply == Reply(EmptyListText, None)
    ensures |db.rows| > 0 ==>
      && reply.text == ChooseEventText && reply.keyboard.Some?
      && |reply.keyboard.value| == |db.rows|
      && forall i :: 0 <= i < |db.rows| ==> reply.keyboard.value[i] == [RowButton(db.rows[i])]
  {
    var events := db.AllEvents();
    if |events| > 0 {
      var keyboard := CreateEventsKeyboard(1, events);
      reply := Reply(ChooseEventText, Some(keyboard));
    } else {
      reply := Reply(EmptyListText, None);
    }
  }

  /** One line of the usage statistics. */
  function UsageLine(s: UsageStat): string {
    UsageLinePrefix + PyStr(s.summary) + UsedText + Decimal(s.usageCount) + TimesText
  }

  function UsageLines(stats: seq<UsageStat>): (lines: seq<string>)
    ensures |lines| == |stats|
  {
    seq(|stats|, i requires 0 <= i < |stats| => UsageLine(stats[i]))
  }

  /**
   * The text of `/get_usages_count`: the fixed "no events" text for an empty
   * result, otherwise the header followed by one line per entry, in order.
   */
  method UsageStatsText(stats: seq<UsageStat>) returns (text: string)
    ensures |stats| == 0 ==> text == NoEventsText
    ensures |stats| > 0 ==> text == UsageHeader + Concat(UsageLines(stats))
  {
    if |stats| > 0 {
      text := UsageHeader;
      var i := 0;
      while i < |stats|
        invariant 0 <= i <= |stats|
        invariant text == UsageHeader + Concat(UsageLines(stats)[..i])
      {
        ListingSnoc(UsageHeader, UsageLines(stats), i);
        text := text + UsageLine(stats[i]);
        i := i + 1;
      }
      ListingDone(UsageHeader, UsageLines(stats));
    } else {
      text := NoEventsText;
    }
  }

  /** process_get_events_command for `/get_usages_count`: the statistics of every row. */
  method ProcessGetUsagesCountCommand(db: Database) returns (text: string)
    requires db.tableExists
    ensures |db.rows| == 0 ==> text == NoEventsText
    ensures |db.rows| > 0 ==> text == UsageHeader + Concat(RowUsageLines(db.rows))
  {
    var stats := db.UsageCounts();
    text := UsageStatsText(stats);
    assert UsageLines(stats) == RowUsageLines(db.rows);
  }

  /** The statistics lines of the table's rows, one per row in storage order. */
  function RowUsageLines(rows: seq<Row>): (lines: seq<string>)
    ensures |lines| == |rows|
  {
    seq(|rows|, i requires 0 <= i < |rows| => UsageLine(UsageStat(rows[i].summary, rows[i].usageCount)))
  }

  /** Each entry's line stands whole in the statistics text, after the lines of the entries before it. */
  lemma UsageListingShowsEachEntry(stats: seq<UsageStat>, k: nat)
    requires k < |stats|
    ensures var text := UsageHeader + Concat(UsageLines(stats));
      var at := |UsageHeader| + |Concat(UsageLines(stats)[..k])|;
      at + |UsageLine(stats[k])| <= |text| && text[at..at + |UsageLine(stats[k])|] == UsageLine(stats[k])
  {
    ListingAt(UsageHeader, UsageLines(stats), k);
  }

  // ---------------------------------------------------------------------------
  // The event button
  // ---------------------------------------------------------------------------

  /** Why reading an event id from callback data fails. */
  datatype CounterError =
    | NoValue        // `split("=")[1]` raises IndexError: there is no "="
    | NotAnInteger   // `int(...)` raises ValueError
    | NoSuchEvent    // no row has the id: update_usage_count_by_id fails

  /** The callback filter of process_update_usages_counter. */
  predicate RoutesToCounter(callbackData: string) {
    StartsWith(callbackData, UsedUrlKey)
  }

  /** `int(callback.data.split("=")[1])`. */
  function ParseEventId(callbackData: string): Result<int, CounterError> {
    var parts := Split(callbackData, '=');
    if |parts| < 2 then Err(NoValue)
    else match ParseInt(parts[1])
      case None => Err(NotAnInteger)
      case Some(n) => Ok(n)
  }

  /** The reply linking to the event: `[summary](long_url)`. */
  function LinkText(link: EventLink): string {
    LinkPrefix + PyStr(link.summary) + "](" + link.longUrl + ")"
  }

  /** Parsing the callback data of an event button gives back that event's id. */
  lemma CallbackDataRoundTrip(id: nat)
    ensures ParseEventId(CallbackData(id)) == Ok(id)
  {
    NonDigitNotInDecimal(id, '=');
    SplitAtSeparator(UsedUrlKey, '=', Decimal(id));
    assert CallbackData(id) == UsedUrlKey + ['='] + Decimal(id);
    SplitWithoutSeparator(Decimal(id), '=');
    DecimalRoundTrip(id);
  }

  /** Event buttons reach the counter handler; the confirmation tokens do not. */
  lemma OnlyEventButtonsRouteToCounter(e: EventRef)
    ensures RoutesToCounter(EventButton(e).callbackData)
    ensures !RoutesToCounter(ConfirmToken) && !RoutesToCounter(CancelToken)
  {
    EventButtonCarriesKey(e);
  }

  /**
   * process_update_usages_counter: parse the id, increment that event's
   * counter and answer with a link built from its summary and long_url.
   */
  method ProcessUpdateUsagesCounter(callbackData: string, db: Database) returns (r: Result<string, CounterError>)
    requires RoutesToCounter(callbackData)
    requires db.Valid() && db.tableExists
    modifies db
    ensures db.Valid() && db.tableExists && db.nextId == old(db.nextId)
    ensures ParseEventId(callbackData).Err? ==> r == Err(ParseEventId(callbackData).error) && db.rows == old(db.rows)
    ensures ParseEventId(callbackData).Ok? ==>
      var id := ParseEventId(callbackData).value;
      && db.rows == Increment(old(db.rows), ById(id))
      && match FirstMatch(old(db.rows), ById(id))
         case None => r == Err(NoSuchEvent) && db.rows == old(db.rows)
         case Some(k) => r == Ok(LinkText(EventLink(old(db.rows)[k].summary, old(db.rows)[k].longUrl)))
  {
    match ParseEventId(callbackData)
    case Err(e) =>
      r := Err(e);
    case Ok(id) =>
      var updated := db.IncrementById(id);
      match updated
      case Err(_) =>
        r := Err(NoSuchEvent);
      case Ok(link) =>
        r := Ok(LinkText(link));
  }

  /**
   * Pressing the button of the k-th listed event selects that row: its id is
   * read back from the button, and the increment raises that row's counter by
   * one and changes nothing else.
   */
  lemma PressingListedEvent(db: Database, k: nat)
    requires db.Valid() && k < |db.rows|
    ensures ParseEventId(RowButton(db.rows[k]).callbackData) == Ok(db.rows[k].id)
    ensures FirstMatch(db.rows, ById(db.rows[k].id)) == Some(k)
    ensures Increment(db.rows, ById(db.rows[k].id))[k].usageCount == db.rows[k].usageCount + 1
    ensures forall j :: 0 <= j < |db.rows| && j != k ==> Increment(db.rows, ById(db.rows[k].id))[j] == db.rows[j]
  {
    CallbackDataRoundTrip(db.rows[k].id);
    ListedEventIsSelectable(db, k);
    IncrementByIdOneRow(db.rows, db.rows[k].id, k);
  }
}
