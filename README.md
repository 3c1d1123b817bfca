# shortener_bot: a verified model in Dafny

shortener_bot is a Telegram bot that keeps events and shortened links in one
PostgreSQL table, `urls`. Through a guided dialogue a user creates an event.
The dialogue asks for the title, the link, the place, the description and the
start and end dates, then asks the user to confirm. Users can list the events
as buttons. Pressing a button counts one use of that event's link and sends
the link back. Users can also ask for usage statistics. A separate router
shortens any message that starts with `http`. It lists the short links with
their counts and echoes everything else. `bot.py` does not include that router
(`bot.py:40` is commented out), but its handlers are modelled all the same.

The model has seven modules, one per file:

- `Wrappers` (`wrappers.dfy`): `Option` and `Result`.
- `Text` (`text.dfy`): the string operations the handlers rely on:
  - command matching;
  - Python's `str(None)`;
  - decimal rendering of a count and Python's `int()` on it;
  - `str.split`;
  - building a text line by line.
- `UrlsTable` (`db_utils.dfy`): the table as a class `Database`.
  - It holds the rows in storage order, the next value of the `id SERIAL`
    sequence, whether `CREATE TABLE` has run, and the Hashids encoder, fixed
    when the database is made.
  - Each function of `utils/db_utils.py` is one member of the class. The
    writers are methods; `insert_url`'s INSERT and UPDATE are one method,
    `InsertUrl`. The reads `get_all_events` and `get_hash_value` are the
    functions `AllEvents` and `HashFor`.
  - The contracts are stated through pure functions on the row sequence.
    The INSERTs append `EventRow` or `UrlRow` (for `insert_url`, with the
    hash set). The UPDATEs of the counter give `Increment`. `FirstMatch` is
    what `fetchrow` returns, and `LookupHash` is `get_hash_value`.
  - `Valid()` keeps two table invariants: the ids increase in storage order,
    and every hash is empty or the encoding of its own row's id
    (`HashesFrom`). Every writer also promises `CountsKept`: no row is lost
    or renumbered, and no usage count goes down.
- `Keyboards` (`keyboards.dfy`): the inline keyboards, as rows of buttons.
- `AddEventHandlers` (`add_event_handlers.dfy`): the event-creation dialogue.
  - Its pure layer is a transition function over `Form(state, data)`
    (`OnMessage`, `OnCallback`, `Run`).
  - The class `FormContext` holds the session's state and data. Each handler
    is a method that updates them in place, and `HandleMessage` and
    `HandleCallback` are proved to follow the pure transition function.
- `GetEventHandlers` (`get_event_handlers.dfy`): the event list, the event
  statistics and the button that counts a use.
- `ShortenerHandlers` (`shortener_handlers.dfy`): shortening, the short-link
  statistics and the router's dispatch, including the echo.

The model's parameters:

- The Hashids encoder is a function `encode: nat -> string`, held by the
  database. The database methods and most lemmas assume nothing about it.
  Three lemmas add what Hashids guarantees for ids from 1 up:
  `ShortenTwiceSameLink` assumes the encoder never returns the empty hash,
  `HashSelectsAtMostOne` assumes it is injective, and
  `ShorteningCountsOneUse` assumes both.
- The short domain is a parameter `domain: Option<string>`. An unset domain
  renders as `None`, as the f-string does.

Three behaviours of the code that are easy to miss:

- In the idle state an ordinary message is not answered by the event
  dialogue. The handler that answers it belongs to other routers
  (`handlers/other_handlers.py`), which are not part of this model.
- A shortened URL's row keeps NULL in summary, location, description and the
  two dates. It keeps the empty hash only if the encoder returns one.
- `/get_usages_count` is registered twice: by the event router and by the
  shortener router. Since the shortener router is not included, the event
  version answers.

## Model

| member | source | states |
|---|---|---|
| Text.CommandFirstLetter | handlers/add_event_handlers.py:25-42 | a message that is a command starts with `/` and the command's first letter, so two commands with different first letters never match the same text |
| Text.Decimal | handlers/get_event_handlers.py:43-46 | the rendering of a count consists of digits only, with no leading zero |
| Text.DecimalRoundTrip | handlers/get_event_handlers.py:55 | Python `int()` applied to the rendered decimal of any n gives back n |
| Text.DigitsValueOfDecimal | handlers/get_event_handlers.py:55 | the digit string of n has value n (induction on n) |
| Text.NonDigitNotInDecimal | keyboards/keyboards.py:63 | a rendered id contains no character other than a digit, in particular no `=`, so the `used_url=<id>` payload splits in exactly two |
| Text.ParseIntNeedsDigit | handlers/get_event_handlers.py:55 | `int()` rejects a text with no digits, such as the empty piece after `used_url=` |
| Text.Split | handlers/get_event_handlers.py:55 | `str.split` gives at least one piece, no piece contains the separator, and joining the pieces with the separator gives back the input |
| Text.SplitWithoutSeparator | handlers/get_event_handlers.py:55 | text without the separator splits into itself alone |
| Text.SplitAtSeparator | handlers/get_event_handlers.py:55 | a separator-free head followed by the separator splits off as the first piece |
| Text.ConcatAppend | handlers/get_event_handlers.py:40-46 | concatenating two lists of lines is concatenating their texts |
| Text.ListingAt | handlers/shortener_handlers.py:53-61 | every line occurs whole in the listing, after the header and the lines before it |
| Text.FramedValue | handlers/add_event_handlers.py:102-110 | a value written between a label and a suffix can be read back at the label's end |
| UrlsTable.FirstMatch | utils/db_utils.py:167 | `fetchrow` returns the first selected row in storage order, or nothing exactly when no row is selected |
| UrlsTable.IncrementTotal | utils/db_utils.py:114-117 | an `UPDATE ... usage_count + 1` adds exactly one use per selected row to the table's total |
| UrlsTable.IncrementOnlyCountsGrow | utils/db_utils.py:186-188 | the counter update adds, removes and reorders no row and changes no column but `usage_count`, which never decreases |
| UrlsTable.IncrementNoMatch | utils/db_utils.py:186-188 | an update that selects no row leaves the table unchanged |
| UrlsTable.IdSelectsAtMostOne | utils/db_utils.py:37 | with the `SERIAL PRIMARY KEY` ids, `WHERE id = $1` selects at most one row, and exactly one when some row has the id |
| UrlsTable.IncrementByIdOneRow | utils/db_utils.py:113-121 | counting a use by id adds one to that row's count, leaves every other row as it was and adds one to the total |
| UrlsTable.IncrementByIdTwice | utils/db_utils.py:113-121 | two presses of the same event add two uses to that row and to the total |
| UrlsTable.LookupHash | utils/db_utils.py:155-177 | `get_hash_value` gives None exactly when no row holds the URL, and otherwise the hash of the first row that does |
| UrlsTable.CountsKeepLookups | utils/db_utils.py:180-197 | counting uses never changes which hash a URL looks up to |
| UrlsTable.LookupKeepsFirst | utils/db_utils.py:200-230 | inserting rows never changes the hash of a URL the table already holds |
| UrlsTable.CountsKeptTransitive | utils/db_utils.py:108-230 | counts kept over two successive writes are kept over both, so no sequence of writes takes a use back |
| UrlsTable.IncrementKeepsHashes | utils/db_utils.py:180-197 | the counter update keeps every hash the empty default or its id's encoding, and takes no use back |
| UrlsTable.AppendKeepsHashes | utils/db_utils.py:56-80 | appending a row whose hash is the default (`save_event_to_database`) or its id's encoding (`insert_url`) keeps the invariant and every existing count |
| UrlsTable.MatchCountMonotone | utils/db_utils.py:186-188 | a WHERE clause whose selected rows another clause also selects matches no more rows than that one |
| UrlsTable.HashSelectsAtMostOne | utils/db_utils.py:180-197 | with hashes drawn from an injective encoder, `WHERE hash_value = $1` of a non-empty hash selects at most one row |
| UrlsTable.Database.constructor | utils/db_utils.py:215-218 | a fresh database has no table, no rows, the id sequence at 1, and the encoder it was given |
| UrlsTable.Database.CreateTable | utils/db_utils.py:30-53 | `CREATE TABLE IF NOT EXISTS` creates an empty table once, and leaves an existing table and its sequence as they were |
| UrlsTable.Database.SaveEvent | utils/db_utils.py:56-80 | the event's six fields are appended as one row with the next id, the default hash `''` and count 0; data lacking a key stores nothing (the KeyError) |
| UrlsTable.Database.AllEvents | utils/db_utils.py:83-105 | one `{id, summary, long_url}` per row, in storage order |
| UrlsTable.Database.IncrementById | utils/db_utils.py:108-125 | the table becomes `Increment(rows, ById(id))`; the result is the first updated row's summary and URL, or `NoRowReturned` when no row has the id |
| UrlsTable.Database.UsageCounts | utils/db_utils.py:128-152 | one `{summary, usage_count}` per row, in storage order |
| UrlsTable.Database.IncrementByHash | utils/db_utils.py:180-197 | the table becomes `Increment(rows, ByHash(hash))`; `found` is false exactly when no row carries the hash (the case where the handler fails) |
| UrlsTable.Database.InsertUrl | utils/db_utils.py:200-230 | one row is appended with the next id, the URL, NULL event columns, count 0 and the hash `encode(id)`, and that hash is returned |
| UrlsTable.Database.HashCounts | utils/db_utils.py:233-260 | one `{hash_value, usage_count}` per row, in storage order |
| UrlsTable.ListedEventIsSelectable | utils/db_utils.py:83-125 | the id of each listed event selects exactly that row for the update by id |
| Keyboards.Rows | keyboards/keyboards.py:67 | `row(*buttons, width=w)` keeps every button in order; every row has 1 to w buttons, and all rows but the last have exactly w |
| Keyboards.CreateEventsKeyboard | keyboards/keyboards.py:52-69 | the keyboard holds one button per event, in order, with text `Событие: <summary>` and payload `used_url=<id>`; with width 1 row i is exactly event i's button |
| Keyboards.OneButtonRows | keyboards/keyboards.py:67 | a keyboard of one-button rows is its flattened buttons, one per row |
| Keyboards.EventButtonCarriesKey | keyboards/keyboards.py:63 | every event button's payload starts with `used_url` |
| AddEventHandlers.CollectedStep | handlers/add_event_handlers.py:45-99 | each fill state stores a key not yet collected, and the next state's collected keys are exactly the old ones plus that key |
| AddEventHandlers.OnMessage | handlers/add_event_handlers.py:25-112 | a message keeps the session well formed; it is left unhandled, with the session unchanged, exactly in confirmation without `/cancel` and in idle without `/add_event` |
| AddEventHandlers.OnCallback | handlers/add_event_handlers.py:115-130 | a button press keeps the session well formed, and whatever it saves carries all six event keys |
| AddEventHandlers.Run | handlers/add_event_handlers.py:25-112 | any sequence of messages keeps the session well formed |
| AddEventHandlers.AddEventOnlyFromIdle | handlers/add_event_handlers.py:35-42 | `/add_event` starts an empty form at the title step if and only if the session is idle |
| AddEventHandlers.FillStoresVerbatim | handlers/add_event_handlers.py:45-99 | every fill step stores the message text unchanged under its key, keeps every earlier value and moves to the next step |
| AddEventHandlers.CancelClears | handlers/add_event_handlers.py:25-32 | `/cancel` in any state other than idle returns to idle with no data |
| AddEventHandlers.CancelNeverStored | handlers/add_event_handlers.py:25-32 | the `/cancel` text itself is never stored as a field value |
| AddEventHandlers.FillingTheForm | handlers/add_event_handlers.py:35-112 | `/add_event` followed by six ordinary texts reaches confirmation holding exactly those six values under their keys |
| AddEventHandlers.FillFirstHalf | handlers/add_event_handlers.py:45-70 | the first three answers fill the title, link and place |
| AddEventHandlers.FillSecondHalf | handlers/add_event_handlers.py:73-112 | the last three answers fill the description and dates and reach confirmation |
| AddEventHandlers.AddEventStep | handlers/add_event_handlers.py:35-42 | from idle, `/add_event` is one step to the title state with empty data |
| AddEventHandlers.FillStep | handlers/add_event_handlers.py:45-99 | one ordinary message in a fill state is one step to the next state with its value stored |
| AddEventHandlers.CancelThenRestart | handlers/add_event_handlers.py:25-42 | after `/cancel`, a fresh `/add_event` and six texts, the form holds only the new values: nothing from the cancelled dialogue survives |
| AddEventHandlers.ConfirmationShowsFieldsInOrder | handlers/add_event_handlers.py:101-110 | the confirmation message shows each collected value verbatim, after its label and in the order asked |
| AddEventHandlers.ConfirmSavesThenClears | handlers/add_event_handlers.py:117-123 | `confirm` saves exactly the collected data, clears the session and edits in the thank-you text |
| AddEventHandlers.CancelDiscards | handlers/add_event_handlers.py:124-129 | the `cancel` button clears the session, saves nothing and edits in the cancellation text |
| AddEventHandlers.OtherCallbackIgnored | handlers/add_event_handlers.py:115-130 | any other payload in confirmation only answers the callback: the state, the data and the table stay as they were |
| AddEventHandlers.ConfirmKeyboardMatchesHandler | keyboards/keyboards.py:25-49 | the confirm keyboard's two buttons lead to save and to discard, and the cancel keyboard's button to discard |
| AddEventHandlers.FormContext.constructor | handlers/add_event_handlers.py:35 | a new session is in the FSM's default state (idle) with no data |
| AddEventHandlers.FormContext.Clear | handlers/add_event_handlers.py:32 | `state.clear()` resets the session to idle with no data |
| AddEventHandlers.FormContext.ProcessCancelCommand | handlers/add_event_handlers.py:25-32 | clears the session and answers the cancellation text |
| AddEventHandlers.FormContext.ProcessAddEventCommand | handlers/add_event_handlers.py:35-42 | sends the two intro messages and moves to the title step with empty data |
| AddEventHandlers.FormContext.ProcessFieldSent | handlers/add_event_handlers.py:45-112 | stores the text under the state's key, moves to the next state and answers its prompt (the confirmation message and keyboard after the end date) |
| AddEventHandlers.FormContext.ProcessConfirmation | handlers/add_event_handlers.py:115-130 | `confirm` saves the data as one row and clears the session, `cancel` clears it, and any other payload changes nothing |
| AddEventHandlers.FormContext.HandleMessage | handlers/add_event_handlers.py:25-112 | the in-place session follows `OnMessage` step for step |
| AddEventHandlers.FormContext.HandleCallback | handlers/add_event_handlers.py:115-130 | the in-place session follows `OnCallback`; the table gains the saved row on save and is untouched otherwise |
| GetEventHandlers.ProcessGetEventsCommand | handlers/get_event_handlers.py:14-28 | no rows gives "Список событий пуст." with no keyboard; otherwise one button per row, one per keyboard row, in storage order |
| GetEventHandlers.UsageStatsText | handlers/get_event_handlers.py:38-48 | the loop builds exactly the header followed by one `Ссылка на событие <summary> - Использована <n> раз(а)` line per entry; an empty list gives "В базе данных нет событий." |
| GetEventHandlers.ProcessGetUsagesCountCommand | handlers/get_event_handlers.py:31-50 | the statistics text has one line per row of the table, in storage order |
| GetEventHandlers.UsageListingShowsEachEntry | handlers/get_event_handlers.py:40-46 | each entry's line stands whole in the statistics, after the lines of the entries before it |
| GetEventHandlers.CallbackDataRoundTrip | handlers/get_event_handlers.py:55 | parsing the payload a button carries gives back its event id |
| GetEventHandlers.OnlyEventButtonsRouteToCounter | handlers/get_event_handlers.py:53 | every event button passes the `startswith("used_url")` filter, and the confirm and cancel payloads do not |
| GetEventHandlers.ProcessUpdateUsagesCounter | handlers/get_event_handlers.py:53-64 | a payload without `=` or with a non-integer id fails with the table untouched; otherwise the table is updated by id, and the reply is the Markdown link of the updated row, or the handler fails when no row has the id |
| GetEventHandlers.PressingListedEvent | handlers/get_event_handlers.py:14-64 | pressing the button of a listed event parses back to its id and adds one use to that row only |
| ShortenerHandlers.ShortenUrl | handlers/shortener_handlers.py:21-40 | the table becomes `ShortenedRows` (get or insert, then count), the sequence moves only when a row was inserted, no count goes down, and the reply shows the original and the short URL; the counter update never fails |
| ShortenerHandlers.ExistingHashIsStored | utils/db_utils.py:155-177 | a non-empty hash that `get_hash_value` returns is carried by a row of the table |
| ShortenerHandlers.ShorteningCountsAUse | handlers/shortener_handlers.py:30-37 | after the get-or-insert, at least one row carries the reply's hash, and the total usage grows by the number of such rows |
| ShortenerHandlers.MatchCountPositive | utils/db_utils.py:186-188 | a selected row makes the update's match count positive |
| ShortenerHandlers.ExistingLinkReused | handlers/shortener_handlers.py:30-36 | a URL whose first row has a non-empty hash is not inserted again, and the reply uses that hash |
| ShortenerHandlers.ShortenedKeepsHashes | handlers/shortener_handlers.py:30-37 | shortening keeps every hash the default or its id's encoding, and takes no use back |
| ShortenerHandlers.ShorteningCountsOneUse | handlers/shortener_handlers.py:30-37 | with an injective encoder that never gives the empty hash, exactly one row carries the reply's hash, and the total usage grows by exactly one |
| ShortenerHandlers.ShortenTwiceSameLink | handlers/shortener_handlers.py:30-37 | shortening the same new (or already hashed) URL twice gives the same short link, and the second time inserts nothing |
| ShortenerHandlers.EmptyHashInsertsEveryTime | handlers/shortener_handlers.py:31-34 | a URL whose first row has the empty hash (an event's link) gets a further row on every shortening, the next time as well |
| ShortenerHandlers.LinkStatsText | handlers/shortener_handlers.py:52-63 | the loop builds exactly the header followed by one `<short url> - Использована <n> раз(а)` line per link; no links gives "В базе данных нет коротких ссылок." |
| ShortenerHandlers.ProcessGetUsagesCountCommand | handlers/shortener_handlers.py:43-65 | the short-link statistics have one line per row of the table, in storage order |
| ShortenerHandlers.LinkListingShowsEachRow | handlers/shortener_handlers.py:56-61 | each row's short URL and count stand whole in the statistics, in order, and the count reads back as the stored number |
| ShortenerHandlers.RouteOf | handlers/shortener_handlers.py:21-71 | a message is shortened exactly when its text starts with `http`; it falls to the echo handler exactly when it is not shortened and its command text (the text, or the caption when the text is missing or empty, as aiogram's `Command` filter reads it) is not `/get_usages_count` |
| ShortenerHandlers.StatsCommandNotShortened | handlers/shortener_handlers.py:21-43 | a text `/get_usages_count` is never taken for a link to shorten and always gets the statistics, whatever the caption |
| ShortenerHandlers.CaptionedCommandGetsStats | handlers/shortener_handlers.py:43 | a media message without text whose caption is `/get_usages_count` gets the statistics |
| ShortenerHandlers.EchoReply | handlers/shortener_handlers.py:68-71 | the echo answers with its fixed text exactly the messages the other two handlers do not take |

## Left out

- I/O is left out: sending and editing messages, `callback.answer()`, logging, opening and closing connections, `load_dotenv` and the environment. The replies appear as returned values.
- Store failures are left out: an unreachable database, and the `close_connection` that `update_usage_count_by_id` never makes.
- The Hashids algorithm, with its salt and minimum length, is not modelled. The encoder is a value the database is made with. A property holds for any encoder unless its lemma names a condition on it.
- Concurrency is left out. Each handler runs as one atomic step, and only one user's session is modelled. aiogram's per-user `MemoryStorage` is not part of this model.
- Dispatch between routers is left out. The order in which `bot.py` includes the routers, `handlers/user_handlers.py` and `handlers/other_handlers.py` are not part of this model.
- Two effects of that order are noted:
  - A `used_url` button pressed while a session is in confirmation is taken by `process_confirmation` and ignored.
  - `bot.py:37` includes `handlers/user_handlers.py` first. So `/start` and `/help` sent during a fill step are answered there and never stored. `FillStoresVerbatim` speaks of the dialogue's router alone.
- `set_main_menu` (keyboards/keyboards.py:17-22) is left out. It only sends the fixed command list to Telegram.
- Messages without text are left out of the dialogue handlers (`message.text` is None there). A `None` field value is never stored.
- Command syntax: the `/name@botname` form, leading whitespace and other separators than space and newline are left out of command matching.
- Keyboards.CreateEventsKeyboard: requires a width between 1 and 8. aiogram refuses other widths, and the handler only ever passes 1. The limit on the number of buttons in a Telegram markup is left out.
- Text.ParseIntNeedsDigit: models `int()` only on an optional sign followed by ASCII digits. Surrounding whitespace, `_` separators and non-ASCII digits are left out.
- `id` and `usage_count` are unbounded numbers in the model. The 32-bit overflow of PostgreSQL `SERIAL` and `INT` is left out.
- `SELECT` without `ORDER BY` is modelled as returning rows in storage order, which PostgreSQL does not promise.
- MarkdownV2 escaping of the link reply is left out. The reply is modelled as the formatted text, before Telegram parses it.
- UrlsTable.Database methods: every operation except `CreateTable`, including the reads `AllEvents`, `UsageCounts`, `HashFor` and `HashCounts`, requires that the table exists, so the handlers that call them require it too. `bot.py:35` runs `create_table` before polling starts; a query on a missing table is not modelled.
- UrlsTable.HashSelectsAtMostOne: requires an injective encoder and a non-empty hash. Hashids is injective on the ids it is given, but the encoder is not modelled.
- ShortenerHandlers.ShortenTwiceSameLink: is stated only for a URL with no row yet or whose first row has a non-empty hash. `EmptyHashInsertsEveryTime` covers the other case.
- ShortenerHandlers.ShortenTwiceSameLink: also requires `encode(nextId) != ""`. Hashids never returns the empty hash for an id of 1 or more, but the encoder is not modelled.
- ShortenerHandlers.ShorteningCountsOneUse: requires an injective encoder that never returns the empty hash, for the same reason.
