/**
 * The URL shortener router: a message starting with "http" is shortened
 * (looked up or inserted, then counted as used), `/get_usages_count` lists
 * every short link with its count, and anything else gets the echo answer.
 * The short domain comes from the environment and may be unset (None); the
 * Hashids encoder is the one the database holds.
 */
module ShortenerHandlers {
  import opened Wrappers
  import opened Text
  import opened UrlsTable

  const OriginalPrefix: string := "Оригинальная ссылка: "
  const ShortenedPrefix: string := "\nСокращенная ссылка: "
  const LinksHeader: string := "Список коротких ссылок со статистикой их использования:\n"
  const NoLinksText: string := "В базе данных нет коротких ссылок."
  const UsedText: string := " - Использована "
  const TimesText: string := " раз(а)\n"
  const EchoText: string := "Некорректный ввод. Просто отправь длинную ссылку."
  const StatsCommand: string := "get_usages_count"

  /** The filter of shorten_url: the message has text and that text starts with "http". */
  predicate IsShortenRequest(text: string) {
    StartsWith(text, "http")
  }

  /** The f-string `{short_domain}{hash_value}`: an unset domain renders as "None". */
  function ShortUrl(domain: Option<string>, hash: string): string {
    PyStr(domain) + hash
  }

  /** `if not hash_value`: a missing row and an empty hash both count as no hash. */
  predicate HasHash(h: Option<string>) {
    h.Some? && h.value != ""
  }

  // ---------------------------------------------------------------------------
  // shorten_url as a function of the table
  // ---------------------------------------------------------------------------

  /** The hash shorten_url replies with: the stored one if it is non-empty, else the new row's. */
  function ShortenedHash(rows: seq<Row>, nextId: nat, longUrl: string, encode: nat -> string): string {
    var h := LookupHash(rows, longUrl);
    if HasHash(h) then h.value else encode(nextId)
  }

  /** The table after the get-or-insert step of shorten_url, before the counter update. */
  function StoredRows(rows: seq<Row>, nextId: nat, longUrl: string, encode: nat -> string): seq<Row> {
    if HasHash(LookupHash(rows, longUrl)) then rows
    else rows + [UrlRow(nextId, longUrl).(hashValue := encode(nextId))]
  }

  /** The table after shorten_url: the stored rows with every row of the hash counted once more. */
  function ShortenedRows(rows: seq<Row>, nextId: nat, longUrl: string, encode: nat -> string): seq<Row> {
    Increment(StoredRows(rows, nextId, longUrl, encode), ByHash(ShortenedHash(rows, nextId, longUrl, encode)))
  }

  /** The id sequence after shorten_url: advanced exactly when a row was inserted. */
  function ShortenedNextId(rows: seq<Row>, nextId: nat, longUrl: string): nat {
    if HasHash(LookupHash(rows, longUrl)) then nextId else nextId + 1
  }

  /** The reply of shorten_url. */
  function ShortenReply(longUrl: string, domain: Option<string>, hash: string): string {
    OriginalPrefix + longUrl + ShortenedPrefix + ShortUrl(domain, hash)
  }

  /**
   * shorten_url. The counter update after the get-or-insert always finds a
   * row carrying the hash, so the handler never fails on its missing result.
   */
  method ShortenUrl(text: string, domain: Option<string>, db: Database)
    returns (reply: string)
    requires db.Valid() && db.tableExists && IsShortenRequest(text)
    modifies db
    ensures db.Valid() && db.tableExists
    ensures db.rows == ShortenedRows(old(db.rows), old(db.nextId), text, db.encode)
    ensures db.nextId == ShortenedNextId(old(db.rows), old(db.nextId), text)
    ensures CountsKept(old(db.rows), db.rows)
    ensures reply == ShortenReply(text, domain, ShortenedHash(old(db.rows), old(db.nextId), text, db.encode))
  {
    var hash := db.HashFor(text);
    var hashValue: string;
    if HasHash(hash) {
      hashValue := hash.value;
      ExistingHashIsStored(db.rows, text);
    } else {
      hashValue := db.InsertUrl(text);
      assert db.rows[|db.rows| - 1].hashValue == hashValue;
    }
    var shortUrl := ShortUrl(domain, hashValue);
    ghost var stored := db.rows;
    var found := db.IncrementByHash(hashValue);
    assert found;
    CountsKeptTransitive(old(db.rows), stored, db.rows);
    reply := OriginalPrefix + text + ShortenedPrefix + shortUrl;
  }

  /** A non-empty hash get_hash_value returns sits on a row of the table. */
  lemma ExistingHashIsStored(rows: seq<Row>, longUrl: string)
    requires HasHash(LookupHash(rows, longUrl))
    ensures exists i :: 0 <= i < |rows| && rows[i].hashValue == LookupHash(rows, longUrl).value
  {
  }

  /**
   * Every shortening counts at least one use: some row carries the hash the
   * reply shows, and the table's total usage grows by the number of such rows.
   */
  lemma ShorteningCountsAUse(rows: seq<Row>, nextId: nat, longUrl: string, encode: nat -> string)
    ensures var stored := StoredRows(rows, nextId, longUrl, encode);
      var sel := ByHash(ShortenedHash(rows, nextId, longUrl, encode));
      MatchCount(stored, sel) >= 1 &&
      TotalUsage(ShortenedRows(rows, nextId, longUrl, encode)) == TotalUsage(stored) + MatchCount(stored, sel)
  {
    var stored := StoredRows(rows, nextId, longUrl, encode);
    var sel := ByHash(ShortenedHash(rows, nextId, longUrl, encode));
    IncrementTotal(stored, sel);
    var k :| 0 <= k < |stored| && Selects(sel, stored[k]) by {
      if HasHash(LookupHash(rows, longUrl)) {
        ExistingHashIsStored(rows, longUrl);
      } else {
        assert Selects(sel, stored[|stored| - 1]);
      }
    }
    MatchCountPositive(stored, sel, k);
  }

  /** A selected row makes the match count positive. */
  lemma {:induction false} MatchCountPositive(rows: seq<Row>, sel: Selector, k: nat)
    requires k < |rows| && Selects(sel, rows[k])
    ensures MatchCount(rows, sel) >= 1
  {
    if k > 0 {
      MatchCountPositive(rows[1..], sel, k - 1);
    }
  }

  /** A URL whose first row already carries a non-empty hash is reused: no row is inserted. */
  lemma ExistingLinkReused(rows: seq<Row>, nextId: nat, longUrl: string, encode: nat -> string)
    requires HasHash(LookupHash(rows, longUrl))
    ensures |ShortenedRows(rows, nextId, longUrl, encode)| == |rows|
    ensures ShortenedNextId(rows, nextId, longUrl) == nextId
    ensures ShortenedHash(rows, nextId, longUrl, encode) == LookupHash(rows, longUrl).value
  {
  }

  /** shorten_url keeps the hashes a function of the ids and takes no use back. */
  lemma ShortenedKeepsHashes(rows: seq<Row>, nextId: nat, longUrl: string, encode: nat -> string)
    requires HashesFrom(rows, encode)
    ensures HashesFrom(ShortenedRows(rows, nextId, longUrl, encode), encode)
    ensures CountsKept(rows, ShortenedRows(rows, nextId, longUrl, encode))
  {
    var stored := StoredRows(rows, nextId, longUrl, encode);
    if !HasHash(LookupHash(rows, longUrl)) {
      AppendKeepsHashes(rows, UrlRow(nextId, longUrl).(hashValue := encode(nextId)), encode);
    }
    IncrementKeepsHashes(stored, ByHash(ShortenedHash(rows, nextId, longUrl, encode)), encode);
    CountsKeptTransitive(rows, stored, ShortenedRows(rows, nextId, longUrl, encode));
  }

  /**
   * With an injective encoder that never gives the empty hash, as Hashids for
   * ids from 1 up, every shortening counts exactly one use, on one row.
   */
  lemma ShorteningCountsOneUse(rows: seq<Row>, nextId: nat, longUrl: string, encode: nat -> string)
    requires IdsIncreasing(rows) && forall i :: 0 <= i < |rows| ==> rows[i].id < nextId
    requires HashesFrom(rows, encode) && Injective(encode) && encode(nextId) != DefaultHash
    ensures var stored := StoredRows(rows, nextId, longUrl, encode);
      MatchCount(stored, ByHash(ShortenedHash(rows, nextId, longUrl, encode))) == 1 &&
      TotalUsage(ShortenedRows(rows, nextId, longUrl, encode)) == TotalUsage(stored) + 1
  {
    var stored := StoredRows(rows, nextId, longUrl, encode);
    if !HasHash(LookupHash(rows, longUrl)) {
      AppendKeepsHashes(rows, UrlRow(nextId, longUrl).(hashValue := encode(nextId)), encode);
    }
    assert IdsIncreasing(stored);
    HashSelectsAtMostOne(stored, encode, ShortenedHash(rows, nextId, longUrl, encode));
    ShorteningCountsAUse(rows, nextId, longUrl, encode);
  }

  /**
   * Shortening the same URL twice gives the same short link and inserts no
   * second row, provided the URL had no row yet or its first row carries a
   * non-empty hash, and the encoder gives a non-empty hash.
   */
  lemma ShortenTwiceSameLink(rows: seq<Row>, nextId: nat, longUrl: string, encode: nat -> string)
    requires LookupHash(rows, longUrl).None? || HasHash(LookupHash(rows, longUrl))
    requires encode(nextId) != ""
    ensures var rows1 := ShortenedRows(rows, nextId, longUrl, encode);
      var next1 := ShortenedNextId(rows, nextId, longUrl);
      && ShortenedHash(rows1, next1, longUrl, encode) == ShortenedHash(rows, nextId, longUrl, encode)
      && |ShortenedRows(rows1, next1, longUrl, encode)| == |rows1|
      && ShortenedNextId(rows1, next1, longUrl) == next1
  {
    var stored := StoredRows(rows, nextId, longUrl, encode);
    var rows1 := ShortenedRows(rows, nextId, longUrl, encode);
    IncrementOnlyCountsGrow(stored, ByHash(ShortenedHash(rows, nextId, longUrl, encode)));
    CountsKeepLookups(stored, rows1, longUrl);
    if !HasHash(LookupHash(rows, longUrl)) {
      assert stored[|stored| - 1].longUrl == longUrl;
      assert forall i :: 0 <= i < |stored| - 1 ==> stored[i] == rows[i];
      assert LookupHash(stored, longUrl) == Some(encode(nextId));
    }
  }

  /**
   * A URL whose first row carries the empty hash (an event saved with that
   * link keeps the column default) is never reused: every shortening inserts
   * a further row for it, and the next shortening does so again.
   */
  lemma EmptyHashInsertsEveryTime(rows: seq<Row>, nextId: nat, longUrl: string, encode: nat -> string)
    requires LookupHash(rows, longUrl) == Some("")
    ensures var rows1 := ShortenedRows(rows, nextId, longUrl, encode);
      var next1 := ShortenedNextId(rows, nextId, longUrl);
      && |rows1| == |rows| + 1 && rows1[|rows|].longUrl == longUrl && next1 == nextId + 1
      && LookupHash(rows1, longUrl) == Some("")
      && |ShortenedRows(rows1, next1, longUrl, encode)| == |rows1| + 1
  {
    var stored := StoredRows(rows, nextId, longUrl, encode);
    var rows1 := ShortenedRows(rows, nextId, longUrl, encode);
    IncrementOnlyCountsGrow(stored, ByHash(ShortenedHash(rows, nextId, longUrl, encode)));
    CountsKeepLookups(stored, rows1, longUrl);
    LookupKeepsFirst(rows, [UrlRow(nextId, longUrl).(hashValue := encode(nextId))], longUrl);
  }

  // ---------------------------------------------------------------------------
  // /get_usages_count
  // ---------------------------------------------------------------------------

  /** The line a short link gets in the statistics. */
  function LinkLine(domain: Option<string>, url: HashStat): string {
    ShortUrl(domain, url.hashValue) + UsedText + Decimal(url.usageCount) + TimesText
  }

  function LinkLines(domain: Option<string>, urls: seq<HashStat>): (lines: seq<string>)
    ensures |lines| == |urls|
  {
    seq(|urls|, i requires 0 <= i < |urls| => LinkLine(domain, urls[i]))
  }

  /** The statistics text built from get_all_urls' result, line by line. */
  method LinkStatsText(domain: Option<string>, urls: seq<HashStat>) returns (text: string)
    ensures |urls| == 0 ==> text == NoLinksText
    ensures |urls| > 0 ==> text == LinksHeader + Concat(LinkLines(domain, urls))
  {
    if |urls| > 0 {
      text := LinksHeader;
      var i := 0;
      while i < |urls|
        invariant 0 <= i <= |urls|
        invariant text == LinksHeader + Concat(LinkLines(domain, urls)[..i])
      {
        ListingSnoc(LinksHeader, LinkLines(domain, urls), i);
        text := text + LinkLine(domain, urls[i]);
        i := i + 1;
      }
      ListingDone(LinksHeader, LinkLines(domain, urls));
    } else {
      text := NoLinksText;
    }
  }

  /** The lines of the statistics, one per row of the table in storage order. */
  function RowLinkLines(domain: Option<string>, rows: seq<Row>): (lines: seq<string>)
    ensures |lines| == |rows|
  {
    seq(|rows|, i requires 0 <= i < |rows| => LinkLine(domain, HashStat(rows[i].hashValue, rows[i].usageCount)))
  }

  /** process_get_usages_count_command of the shortener router. */
  method ProcessGetUsagesCountCommand(domain: Option<string>, db: Database) returns (text: string)
    requires db.tableExists
    ensures |db.rows| == 0 ==> text == NoLinksText
    ensures |db.rows| > 0 ==> text == LinksHeader + Concat(RowLinkLines(domain, db.rows))
  {
    var urls := db.HashCounts();
    text := LinkStatsText(domain, urls);
    assert LinkLines(domain, urls) == RowLinkLines(domain, db.rows);
  }

  /**
   * Each row's short link and its count stand whole in the statistics text,
   * after the lines of the rows before it, and the count reads back as the
   * stored number.
   */
  lemma LinkListingShowsEachRow(domain: Option<string>, rows: seq<Row>, k: nat)
    requires k < |rows|
    ensures var lines := RowLinkLines(domain, rows);
      var at := |LinksHeader| + |Concat(lines[..k])|;
      var text := LinksHeader + Concat(lines);
      && at + |lines[k]| <= |text| && text[at..at + |lines[k]|] == lines[k]
      && StartsWith(lines[k], ShortUrl(domain, rows[k].hashValue) + UsedText)
    ensures ParseInt(Decimal(rows[k].usageCount)) == Some(rows[k].usageCount)
  {
    var lines := RowLinkLines(domain, rows);
    ListingAt(LinksHeader, lines, k);
    DecimalRoundTrip(rows[k].usageCount);
    var head := ShortUrl(domain, rows[k].hashValue) + UsedText;
    assert lines[k] == head + (Decimal(rows[k].usageCount) + TimesText);
    assert lines[k][..|head|] == head;
  }

  // ---------------------------------------------------------------------------
  // Routing within the router
  // ---------------------------------------------------------------------------

  datatype Route = Shorten | Stats | Echo

  /**
   * What aiogram's `Command` filter reads: `message.text or message.caption`,
   * so the caption when the text is missing or empty.
   */
  function CommandSource(text: Option<string>, caption: Option<string>): Option<string> {
    if text.Some? && text.value != "" then text else caption
  }

  /**
   * Which of the router's handlers answers a message, tried in registration
   * order. `text` is None for a message without text; `caption` is the
   * caption of a media message, None when it has none.
   */
  function RouteOf(text: Option<string>, caption: Option<string>): (r: Route)
    ensures r == Shorten <==> text.Some? && IsShortenRequest(text.value)
    ensures r == Echo <==>
      && (text.None? || !IsShortenRequest(text.value))
      && (CommandSource(text, caption).None? || !IsCommand(CommandSource(text, caption).value, StatsCommand))
  {
    var source := CommandSource(text, caption);
    if text.Some? && IsShortenRequest(text.value) then Shorten
    else if source.Some? && IsCommand(source.value, StatsCommand) then Stats
    else Echo
  }

  /** The command is never taken for a link: the two filters exclude each other. */
  lemma StatsCommandNotShortened(text: string, caption: Option<string>)
    requires IsCommand(text, StatsCommand)
    ensures RouteOf(Some(text), caption) == Stats
  {
    CommandFirstLetter(text, StatsCommand);
  }

  /** A media message without text whose caption is the command gets the statistics. */
  lemma CaptionedCommandGetsStats(caption: string)
    requires IsCommand(caption, StatsCommand)
    ensures RouteOf(None, Some(caption)) == Stats
  {
  }

  /** send_echo: the fixed answer to anything the other two handlers do not take. */
  function EchoReply(text: Option<string>, caption: Option<string>): (reply: Option<string>)
    ensures reply.Some? <==> RouteOf(text, caption) == Echo
    ensures reply.Some? ==> reply.value == EchoText
  {
    if RouteOf(text, caption) == Echo then Some(EchoText) else None
  }
}
