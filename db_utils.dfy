/**
 * The `urls` table and the statements the bot runs against it. The table is
 * held in memory as the sequence of its rows in storage order, together with
 * the next value of the `id SERIAL` sequence. Every statement is one atomic
 * change of that state.
 */
module UrlsTable {
  import opened Wrappers

  /** One row of `urls`. The TEXT columns without NOT NULL may hold NULL (None). */
  datatype Row = Row(
    id: nat,
    longUrl: string,
    summary: Option<string>,
    location: Option<string>,
    description: Option<string>,
    dateStart: Option<string>,
    dateEnd: Option<string>,
    hashValue: string,
    usageCount: nat)

  /** Column defaults of `hash_value` and `usage_count`. */
  const DefaultHash: string := ""
  const DefaultUsageCount: nat := 0

  /** `{id, summary, long_url}` as returned by get_all_events. */
  datatype EventRef = EventRef(id: nat, summary: Option<string>, longUrl: string)

  /** `{summary, long_url}` as returned by update_usage_count_by_id. */
  datatype EventLink = EventLink(summary: Option<string>, longUrl: string)

  /** `{summary, usage_count}` as returned by get_usages_count. */
  datatype UsageStat = UsageStat(summary: Option<string>, usageCount: nat)

  /** `{hash_value, usage_count}` as returned by get_all_urls. */
  datatype HashStat = HashStat(hashValue: string, usageCount: nat)

  /** No row came back where the code subscripts one: the handler fails. */
  datatype DbError = NoRowReturned

  /** A WHERE clause of the statements: `id = $1`, `hash_value = $1` or `long_url = $1`. */
  datatype Selector = ById(id: int) | ByHash(hash: string) | ByLongUrl(url: string)

  predicate Selects(sel: Selector, r: Row) {
    match sel
    case ById(id) => r.id == id
    case ByHash(h) => r.hashValue == h
    case ByLongUrl(u) => r.longUrl == u
  }

  /** The keys save_event_to_database reads from the collected form data. */
  predicate HasEventKeys(event: map<string, string>) {
    && "long_url" in event && "summary" in event && "location" in event
    && "description" in event && "date_start" in event && "date_end" in event
  }

  /** The row `INSERT INTO urls (long_url, summary, ..., date_end) VALUES (...)` creates. */
  function EventRow(id: nat, event: map<string, string>): Row
    requires HasEventKeys(event)
  {
    Row(id, event["long_url"], Some(event["summary"]), Some(event["location"]),
        Some(event["description"]), Some(event["date_start"]), Some(event["date_end"]),
        DefaultHash, DefaultUsageCount)
  }

  /** The row `INSERT INTO urls (long_url) VALUES ($1)` creates. */
  function UrlRow(id: nat, longUrl: string): Row {
    Row(id, longUrl, None, None, None, None, None, DefaultHash, DefaultUsageCount)
  }

  /** Ids in storage order are strictly increasing: SERIAL never hands out an id twice. */
  predicate IdsIncreasing(rows: seq<Row>) {
    forall i, j :: 0 <= i < j < |rows| ==> rows[i].id < rows[j].id
  }

  /** The first row (in storage order) a WHERE clause selects, as `fetchrow` returns it. */
  function FirstMatch(rows: seq<Row>, sel: Selector): (r: Option<nat>)
    ensures r.None? ==> forall i :: 0 <= i < |rows| ==> !Selects(sel, rows[i])
    ensures r.Some? ==> r.value < |rows| && Selects(sel, rows[r.value])
    ensures r.Some? ==> forall i :: 0 <= i < r.value ==> !Selects(sel, rows[i])
  {
    if |rows| == 0 then None
    else if Selects(sel, rows[0]) then Some(0)
    else match FirstMatch(rows[1..], sel)
      case None => None
      case Some(k) => Some(k + 1)
  }

  /** `UPDATE urls SET usage_count = usage_count + 1 WHERE <sel>`. */
  function Increment(rows: seq<Row>, sel: Selector): seq<Row> {
    seq(|rows|, i requires 0 <= i < |rows| =>
      if Selects(sel, rows[i]) then rows[i].(usageCount := rows[i].usageCount + 1) else rows[i])
  }

  /** `UPDATE urls SET hash_value = $1 WHERE id = $2`. */
  function SetHash(rows: seq<Row>, id: nat, hash: string): seq<Row> {
    seq(|rows|, i requires 0 <= i < |rows| =>
      if rows[i].id == id then rows[i].(hashValue := hash) else rows[i])
  }

  /** Number of rows a WHERE clause selects. */
  function MatchCount(rows: seq<Row>, sel: Selector): nat {
    if |rows| == 0 then 0
    else (if Selects(sel, rows[0]) then 1 else 0) + MatchCount(rows[1..], sel)
  }

  /** Sum of `usage_count` over the table. */
  function TotalUsage(rows: seq<Row>): nat {
    if |rows| == 0 then 0 else rows[0].usageCount + TotalUsage(rows[1..])
  }

  /** `rows'` is `rows` with no row removed, added or reordered and no column but usage_count changed, which never went down. */
  predicate OnlyCountsGrew(rows: seq<Row>, rows': seq<Row>) {
    && |rows'| == |rows|
    && forall i :: 0 <= i < |rows| ==>
         rows'[i].(usageCount := 0) == rows[i].(usageCount := 0) && rows'[i].usageCount >= rows[i].usageCount
  }

  // ---------------------------------------------------------------------------
  // Properties of the increment statement
  // ---------------------------------------------------------------------------

  /** An increment adds exactly one use per selected row to the table's total. */
  lemma {:induction false} IncrementTotal(rows: seq<Row>, sel: Selector)
    ensures TotalUsage(Increment(rows, sel)) == TotalUsage(rows) + MatchCount(rows, sel)
    decreases |rows|
  {
    if |rows| > 0 {
      var r := Increment(rows, sel);
      assert r[1..] == Increment(rows[1..], sel);
      IncrementTotal(rows[1..], sel);
    }
  }

  /** An increment only raises counters: ids, text columns and hashes stay, usage_count is monotone. */
  lemma IncrementOnlyCountsGrow(rows: seq<Row>, sel: Selector)
    ensures OnlyCountsGrew(rows, Increment(rows, sel))
  {
  }

  /** An increment whose WHERE clause selects nothing leaves the table as it was. */
  lemma IncrementNoMatch(rows: seq<Row>, sel: Selector)
    requires FirstMatch(rows, sel).None?
    ensures Increment(rows, sel) == rows
  {
  }

  /** With increasing ids, at most one row has a given id. */
  lemma {:induction false} IdSelectsAtMostOne(rows: seq<Row>, id: int)
    requires IdsIncreasing(rows)
    ensures MatchCount(rows, ById(id)) == if FirstMatch(rows, ById(id)).Some? then 1 else 0
    decreases |rows|
  {
    if |rows| > 0 {
      IdSelectsAtMostOne(rows[1..], id);
      if rows[0].id == id {
        assert FirstMatch(rows[1..], ById(id)).None? by {
          forall i | 0 <= i < |rows[1..]| ensures !Selects(ById(id), rows[1..][i]) {
            assert rows[0].id < rows[i + 1].id;
          }
        }
      }
    }
  }

  /**
   * Incrementing an existing id raises that one row's usage_count by exactly one:
   * every other row and every other column stay as they were, and the table's
   * total goes up by one.
   */
  lemma IncrementByIdOneRow(rows: seq<Row>, id: int, k: nat)
    requires IdsIncreasing(rows)
    requires k < |rows| && rows[k].id == id
    ensures |Increment(rows, ById(id))| == |rows|
    ensures Increment(rows, ById(id))[k] == rows[k].(usageCount := rows[k].usageCount + 1)
    ensures forall j :: 0 <= j < |rows| && j != k ==> Increment(rows, ById(id))[j] == rows[j]
    ensures TotalUsage(Increment(rows, ById(id))) == TotalUsage(rows) + 1
  {
    IncrementTotal(rows, ById(id));
    IdSelectsAtMostOne(rows, id);
    forall j | 0 <= j < |rows| && j != k ensures rows[j].id != id {
      if j < k { assert rows[j].id < rows[k].id; } else { assert rows[k].id < rows[j].id; }
    }
  }

  /** Incrementing the same existing id twice raises its usage_count by two. */
  lemma IncrementByIdTwice(rows: seq<Row>, id: int, k: nat)
    requires IdsIncreasing(rows)
    requires k < |rows| && rows[k].id == id
    ensures Increment(Increment(rows, ById(id)), ById(id))[k].usageCount == rows[k].usageCount + 2
    ensures TotalUsage(Increment(Increment(rows, ById(id)), ById(id))) == TotalUsage(rows) + 2
  {
    var once := Increment(rows, ById(id));
    IncrementByIdOneRow(rows, id, k);
    assert IdsIncreasing(once);
    IncrementByIdOneRow(once, id, k);
  }

  /**
   * get_hash_value: `SELECT hash_value FROM urls WHERE long_url = $1` read with
   * fetchrow, so the hash_value of the first row holding the URL, or None when
   * no row holds it.
   */
  function LookupHash(rows: seq<Row>, longUrl: string): (r: Option<string>)
    ensures r.None? <==> forall i :: 0 <= i < |rows| ==> rows[i].longUrl != longUrl
    ensures r.Some? ==> exists k :: 0 <= k < |rows| && rows[k].longUrl == longUrl && rows[k].hashValue == r.value
                          && forall i :: 0 <= i < k ==> rows[i].longUrl != longUrl
  {
    match FirstMatch(rows, ByLongUrl(longUrl))
    case None => None
    case Some(k) =>
      assert forall i :: 0 <= i < k ==> !Selects(ByLongUrl(longUrl), rows[i]);
      Some(rows[k].hashValue)
  }

  /** Counting uses never changes which hash a URL looks up to. */
  lemma CountsKeepLookups(rows: seq<Row>, rows': seq<Row>, longUrl: string)
    requires OnlyCountsGrew(rows, rows')
    ensures LookupHash(rows', longUrl) == LookupHash(rows, longUrl)
  {
    var sel := ByLongUrl(longUrl);
    forall i | 0 <= i < |rows|
      ensures Selects(sel, rows'[i]) == Selects(sel, rows[i])
      ensures rows'[i].hashValue == rows[i].hashValue
    {
      assert rows'[i].(usageCount := 0).longUrl == rows[i].(usageCount := 0).longUrl;
      assert rows'[i].(usageCount := 0).hashValue == rows[i].(usageCount := 0).hashValue;
    }
  }

  /** Appending rows never changes the hash of a URL the table already holds. */
  lemma LookupKeepsFirst(rows: seq<Row>, added: seq<Row>, longUrl: string)
    requires LookupHash(rows, longUrl).Some?
    ensures LookupHash(rows + added, longUrl) == LookupHash(rows, longUrl)
  {
    var sel := ByLongUrl(longUrl);
    var k := FirstMatch(rows, sel).value;
    var all := rows + added;
    assert Selects(sel, all[k]);
    assert forall i :: 0 <= i < k ==> all[i] == rows[i];
  }

  // ---------------------------------------------------------------------------
  // Table invariants across the writers
  // ---------------------------------------------------------------------------

  /**
   * Every hash_value is the column default or the encoding of its own row's
   * id: the hashes are a function of the ids.
   */
  predicate HashesFrom(rows: seq<Row>, encode: nat -> string) {
    forall i :: 0 <= i < |rows| ==> rows[i].hashValue == DefaultHash || rows[i].hashValue == encode(rows[i].id)
  }

  /** `rows'` keeps every row of `rows` at its place and id, with a usage count that never went down. */
  predicate CountsKept(rows: seq<Row>, rows': seq<Row>) {
    && |rows| <= |rows'|
    && forall i :: 0 <= i < |rows| ==> rows'[i].id == rows[i].id && rows'[i].usageCount >= rows[i].usageCount
  }

  /** Counts kept over two writes are kept over both. */
  lemma CountsKeptTransitive(rows: seq<Row>, rows': seq<Row>, rows'': seq<Row>)
    requires CountsKept(rows, rows') && CountsKept(rows', rows'')
    ensures CountsKept(rows, rows'')
  {
  }

  /** The counter update keeps every hash and takes no use back. */
  lemma IncrementKeepsHashes(rows: seq<Row>, sel: Selector, encode: nat -> string)
    requires HashesFrom(rows, encode)
    ensures HashesFrom(Increment(rows, sel), encode)
    ensures CountsKept(rows, Increment(rows, sel))
  {
  }

  /** Appending a row whose hash is the default or its id's encoding keeps the invariants. */
  lemma AppendKeepsHashes(rows: seq<Row>, r: Row, encode: nat -> string)
    requires HashesFrom(rows, encode)
    requires r.hashValue == DefaultHash || r.hashValue == encode(r.id)
    ensures HashesFrom(rows + [r], encode)
    ensures CountsKept(rows, rows + [r])
  {
  }

  /** An encoder that maps distinct ids to distinct hashes, as Hashids does. */
  ghost predicate Injective(encode: nat -> string) {
    forall a: nat, b: nat :: encode(a) == encode(b) ==> a == b
  }

  /** A WHERE clause that selects no row another one misses matches no more rows. */
  lemma {:induction false} MatchCountMonotone(rows: seq<Row>, narrow: Selector, wide: Selector)
    requires forall i :: 0 <= i < |rows| && Selects(narrow, rows[i]) ==> Selects(wide, rows[i])
    ensures MatchCount(rows, narrow) <= MatchCount(rows, wide)
  {
    if |rows| > 0 {
      assert forall i :: 0 <= i < |rows[1..]| ==> rows[1..][i] == rows[i + 1];
      MatchCountMonotone(rows[1..], narrow, wide);
    }
  }

  /**
   * With hashes drawn from an injective encoder, `WHERE hash_value = $1` of a
   * non-empty hash selects at most one row: update_usage_count counts one link.
   */
  lemma HashSelectsAtMostOne(rows: seq<Row>, encode: nat -> string, hash: string)
    requires IdsIncreasing(rows) && HashesFrom(rows, encode) && Injective(encode)
    requires hash != DefaultHash
    ensures MatchCount(rows, ByHash(hash)) <= 1
  {
    match FirstMatch(rows, ByHash(hash))
    case None =>
      // no row is selected, so it matches no more rows than an id no row has
      MatchCountMonotone(rows, ByHash(hash), ById(-1));
      IdSelectsAtMostOne(rows, -1);
    case Some(k) =>
      var id := rows[k].id;
      forall i | 0 <= i < |rows| && Selects(ByHash(hash), rows[i])
        ensures Selects(ById(id), rows[i])
      {
        assert encode(rows[i].id) == encode(id);
      }
      MatchCountMonotone(rows, ByHash(hash), ById(id));
      IdSelectsAtMostOne(rows, id);
  }

  // ---------------------------------------------------------------------------
  // The table
  // ---------------------------------------------------------------------------

  class Database {
    /** Whether `CREATE TABLE urls` has run. */
    var tableExists: bool
    /** The rows of `urls` in storage order. */
    var rows: seq<Row>
    /** The next value the `id SERIAL` sequence hands out. */
    var nextId: nat
    /** The Hashids encoder, built once from the salt and minimum length of the environment. */
    const encode: nat -> string

    ghost predicate Valid()
      reads this
    {
      && nextId >= 1
      && IdsIncreasing(rows)
      && (forall i :: 0 <= i < |rows| ==> 1 <= rows[i].id < nextId)
      && (!tableExists ==> rows == [])
      && HashesFrom(rows, encode)
    }

    /** A database in which the table has not been created yet. */
    constructor (encode: nat -> string)
      ensures Valid() && !tableExists && rows == [] && nextId == 1 && this.encode == encode
    {
      tableExists, rows, nextId := false, [], 1;
      this.encode := encode;
    }

    /** create_table: `CREATE TABLE IF NOT EXISTS urls (...)`. */
    method CreateTable()
      requires Valid()
      modifies this
      ensures Valid() && tableExists
      ensures rows == old(rows)
      ensures old(tableExists) ==> nextId == old(nextId)
      ensures !old(tableExists) ==> rows == [] && nextId == 1
    {
      if !tableExists {
        tableExists, rows, nextId := true, [], 1;
      }
    }

    /**
     * save_event_to_database: one INSERT of the six form fields. A missing key
     * raises KeyError before the statement runs, and then nothing is stored.
     */
    method SaveEvent(event: map<string, string>) returns (saved: bool)
      requires Valid() && tableExists
      modifies this
      ensures Valid() && tableExists
      ensures saved == HasEventKeys(event)
      ensures CountsKept(old(rows), rows)
      ensures saved ==> rows == old(rows) + [EventRow(old(nextId), event)] && nextId == old(nextId) + 1
      ensures !saved ==> rows == old(rows) && nextId == old(nextId)
    {
      saved := HasEventKeys(event);
      if saved {
        rows := rows + [EventRow(nextId, event)];
        nextId := nextId + 1;
      }
    }

    /** get_all_events: `SELECT id, summary, long_url FROM urls`, one entry per row. */
    function AllEvents(): (events: seq<EventRef>)
      reads this
      requires tableExists
      ensures |events| == |rows|
      ensures forall i :: 0 <= i < |rows| ==>
        events[i].id == rows[i].id && events[i].summary == rows[i].summary && events[i].longUrl == rows[i].longUrl
    {
      seq(|rows|, i requires 0 <= i < |rows| reads this => EventRef(rows[i].id, rows[i].summary, rows[i].longUrl))
    }

    /**
     * update_usage_count_by_id: increments the counter of the row with that id
     * and returns its summary and long_url; when no row has that id the UPDATE
     * changes nothing and subscripting the missing row fails.
     */
    method IncrementById(id: int) returns (r: Result<EventLink, DbError>)
      requires Valid() && tableExists
      modifies this
      ensures Valid() && tableExists && nextId == old(nextId)
      ensures rows == Increment(old(rows), ById(id))
      ensures CountsKept(old(rows), rows)
      ensures match FirstMatch(old(rows), ById(id))
        case None => r == Err(NoRowReturned) && rows == old(rows)
        case Some(k) => r == Ok(EventLink(old(rows)[k].summary, old(rows)[k].longUrl))
    {
      var returned := FirstMatch(rows, ById(id));
      IncrementOnlyCountsGrow(rows, ById(id));
      rows := Increment(rows, ById(id));
      match returned
      case None =>
        r := Err(NoRowReturned);
      case Some(k) =>
        r := Ok(EventLink(rows[k].summary, rows[k].longUrl));
    }

    /** get_usages_count: `SELECT summary, usage_count FROM urls`, appended row by row. */
    method UsageCounts() returns (stats: seq<UsageStat>)
      requires tableExists
      ensures |stats| == |rows|
      ensures forall i :: 0 <= i < |rows| ==> stats[i] == UsageStat(rows[i].summary, rows[i].usageCount)
    {
      stats := [];
      var i := 0;
      while i < |rows|
        invariant 0 <= i <= |rows|
        invariant |stats| == i
        invariant forall j :: 0 <= j < i ==> stats[j] == UsageStat(rows[j].summary, rows[j].usageCount)
      {
        stats := stats + [UsageStat(rows[i].summary, rows[i].usageCount)];
        i := i + 1;
      }
    }

    /** get_hash_value against the current rows. */
    function HashFor(longUrl: string): Option<string>
      reads this
      requires tableExists
    {
      LookupHash(rows, longUrl)
    }

    /**
     * update_usage_count: increments the counter of every row carrying the hash;
     * `found` is false exactly when no row carries it, where subscripting the
     * missing returned row fails.
     */
    method IncrementByHash(hash: string) returns (found: bool)
      requires Valid() && tableExists
      modifies this
      ensures Valid() && tableExists && nextId == old(nextId)
      ensures rows == Increment(old(rows), ByHash(hash))
      ensures CountsKept(old(rows), rows)
      ensures found <==> exists i :: 0 <= i < |old(rows)| && old(rows)[i].hashValue == hash
    {
      found := FirstMatch(rows, ByHash(hash)).Some?;
      IncrementOnlyCountsGrow(rows, ByHash(hash));
      rows := Increment(rows, ByHash(hash));
    }

    /**
     * insert_url: inserts a row holding only long_url, encodes the id the
     * sequence gave it, writes that hash back onto the row and returns it.
     */
    method InsertUrl(longUrl: string) returns (hash: string)
      requires Valid() && tableExists
      modifies this
      ensures Valid() && tableExists && nextId == old(nextId) + 1
      ensures hash == encode(old(nextId))
      ensures rows == old(rows) + [UrlRow(old(nextId), longUrl).(hashValue := hash)]
      ensures CountsKept(old(rows), rows)
    {
      var id := nextId;
      rows := rows + [UrlRow(id, longUrl)];
      nextId := nextId + 1;
      ghost var inserted := rows;
      rows := SetHash(rows, id, encode(id));
      assert rows == inserted[..|inserted| - 1] + [UrlRow(id, longUrl).(hashValue := encode(id))] by {
        forall j | 0 <= j < |inserted| - 1 ensures inserted[j].id != id {
        }
      }
      assert forall j :: 0 <= j < |rows| - 1 ==> !Selects(ById(id), rows[j]);
      assert Selects(ById(id), rows[|rows| - 1]);
      var k := FirstMatch(rows, ById(id));
      assert k == Some(|rows| - 1);
      hash := rows[k.value].hashValue;
    }

    /** get_all_urls: `SELECT hash_value, usage_count FROM urls`, appended row by row. */
    method HashCounts() returns (urls: seq<HashStat>)
      requires tableExists
      ensures |urls| == |rows|
      ensures forall i :: 0 <= i < |rows| ==> urls[i] == HashStat(rows[i].hashValue, rows[i].usageCount)
    {
      urls := [];
      var i := 0;
      while i < |rows|
        invariant 0 <= i <= |rows|
        invariant |urls| == i
        invariant forall j :: 0 <= j < i ==> urls[j] == HashStat(rows[j].hashValue, rows[j].usageCount)
      {
        urls := urls + [HashStat(rows[i].hashValue, rows[i].usageCount)];
        i := i + 1;
      }
    }
  }

  /**
   * Every event get_all_events lists is found again by its id: the UPDATE ...
   * WHERE id = $1 of a listed id selects exactly that row.
   */
  lemma ListedEventIsSelectable(db: Database, k: nat)
    requires db.Valid() && k < |db.rows|
    ensures FirstMatch(db.rows, ById(db.AllEvents()[k].id)) == Some(k)
    ensures MatchCount(db.rows, ById(db.AllEvents()[k].id)) == 1
  {
    IdSelectsAtMostOne(db.rows, db.AllEvents()[k].id);
  }
}
