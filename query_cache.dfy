/**
 * The query-cache engine of functions/sql.php: the process-wide settings
 * that m_sql_* keep in $CONFIG (the runtime cache, the persistent tier, the
 * enabled, paused and autoclear flags, the counters and logs, and the
 * time-zone and charset shadows), the step each function takes on them, and
 * a class whose methods take those steps one field at a time.
 *
 * The database connection and the persistent store are not visible here.
 * The connection's answers to a call come in as an `Answers` value; the
 * statements it receives are recorded in `sent`; md5 and escape are
 * uninterpreted functions carried by `Link`; the persistent store is a map.
 */
module QueryCache {
  import opened PhpText
  import opened SqlText

  /** One fetched row object: field name to value. */
  type Row = map<string, string>

  /** A materialised result set. serialize/unserialize are taken as the identity. */
  type Rows = seq<Row>

  /** What this layer uses of the connection object without seeing inside it. */
  datatype Link = Link(token: string, md5: string -> string, escape: string -> string)

  /** The cache key of a statement on a connection. */
  function KeyOf(link: Link, sql: string): string {
    CacheKey(link.token, link.md5(sql))
  }

  /**
   * How the connection answers one call: whether it opens, whether the
   * SET time_zone and SET NAMES statements throw if they are sent, and what
   * query() returns for the statement itself.
   */
  datatype Answers<R> = Answers(opens: bool, timezoneThrows: bool, namesThrows: bool, reply: R)

  /** What query() returns through m_sql_exec: false, true, or a number (a new id or a row count, by mode). */
  datatype Reply = False | True | Int(n: int)

  /** A statement the connection received, with the mode it was sent in ("" for none). */
  datatype Sent = Sent(sql: string, mode: string)

  /** $CONFIG->database_counter. */
  datatype Counters = Counters(select: nat, cache: nat, nocache: nat, cached: nat, runcached: nat)

  /** $CONFIG->database_log, by bucket. */
  datatype Logs = Logs(noncached: seq<string>, cached: seq<string>, runcached: seq<string>)

  /** The fields of $CONFIG that the engine reads and writes, and the connection's statement history. */
  datatype Config = Config(
    runCache: Option<map<string, Rows>>,   // database_run_cache; None until it is an array
    autoclear: bool,                       // database_run_cache_autoclear
    store: Option<map<string, Rows>>,      // database_cache: the persistent tier, if configured
    ttl: int,                              // database_cache_time
    enabled: bool,                         // database_cache_enabled
    paused: bool,                          // database_cache_paused
    logQueries: bool,                      // database_log_queries
    counters: Counters,
    logs: Logs,
    timezone: Option<string>,              // database_timezone; None when not a string
    timezoneExecuted: Option<string>,      // database_timezone_executed
    names: Option<string>,                 // database_names
    namesExecuted: Option<string>,         // database_names_executed
    sent: seq<Sent>)                       // every statement the connection has received

  /** Everything unset, as before any configuration call. */
  function Initial(): Config {
    Config(None, false, None, 0, false, false, false, Counters(0, 0, 0, 0, 0), Logs([], [], []),
           None, None, None, None, [])
  }

  /**
   * What every reachable configuration satisfies: a persistent tier is only
   * configured together with the runtime one, every served or run select
   * was counted as a select, and every statement counted as run reached the
   * connection.
   */
  predicate Invariant(c: Config) {
    && (c.store.Some? ==> c.runCache.Some?)
    && c.counters.cache + c.counters.cached + c.counters.runcached <= c.counters.select
    && c.counters.cache + c.counters.nocache <= |c.sent|
  }

  // ---------------------------------------------------------------------------
  // Configuration

  /** The backends m_sql_set_cache hands to the persistent cache library. */
  const PersistentKinds: seq<string> := ["auto", "apc", "memcache", "memcached", "wincache", "files", "sqlite", "xcache"]

  /**
   * m_sql_set_cache: an empty runtime cache with autoclear, a persistent tier
   * for the listed kinds (holding whatever that backend already holds), and
   * caching enabled. The paused flag is left as it was.
   */
  function SetCacheStep(c: Config, kind: string, time: int, held: map<string, Rows>): Config {
    var c1 := c.(runCache := Some(map[]), autoclear := true);
    var c2 := if kind in PersistentKinds then c1.(store := Some(held), ttl := time) else c1;
    c2.(enabled := true)
  }

  /** m_sql_clear_cache: empties the persistent tier and the runtime cache, where they exist. */
  function ClearCacheStep(c: Config): Config {
    c.(store := if c.store.Some? then Some(map[]) else None,
       runCache := if c.runCache.Some? then Some(map[]) else None)
  }

  /** m_sql_cache. */
  function CacheStep(c: Config, enable: bool): Config {
    c.(enabled := enable)
  }

  /** m_sql_no_cache: disable and mark the disabling as a one-read pause. */
  function NoCacheStep(c: Config): Config {
    c.(enabled := false, paused := true)
  }

  /** m_sql_timezone: a truthy argument replaces the setting; the setting is returned. */
  function TimezoneStep(c: Config, tz: Option<string>): (Config, Option<string>) {
    var c1 := if tz.Some? && Truthy(tz.value) then c.(timezone := tz) else c;
    (c1, c1.timezone)
  }

  /** m_sql_names: a truthy argument replaces the setting; the setting is returned. */
  function NamesStep(c: Config, names: Option<string>): (Config, Option<string>) {
    var c1 := if names.Some? && Truthy(names.value) then c.(names := names) else c;
    (c1, c1.names)
  }

  /** m_sql_log_queries: a true argument turns logging on (a false one changes nothing); the flag is returned. */
  function LogQueriesStep(c: Config, log: bool): (Config, bool) {
    var c1 := if log then c.(logQueries := true) else c;
    (c1, c1.logQueries)
  }

  // ---------------------------------------------------------------------------
  // Statement execution

  /** The log after appending a statement to the 'noncached' bucket, when logging. */
  function LogNoncached(c: Config, sql: string): Logs {
    if c.logQueries then c.logs.(noncached := c.logs.noncached + [sql]) else c.logs
  }

  /** SET time_zone is due when the setting is a string other than the one last applied. */
  predicate TimezoneDue(c: Config) {
    c.timezone.Some? && c.timezoneExecuted != c.timezone
  }

  /** SET NAMES is due likewise. */
  predicate NamesDue(c: Config) {
    c.names.Some? && c.namesExecuted != c.names
  }

  /** The first guarded block: SET time_zone, sent, counted and logged when due. */
  function TimezoneSyncStep(c: Config, throws: bool): Config {
    if TimezoneDue(c) then
      var q := TimezoneSql(c.timezone.value);
      c.(counters := c.counters.(nocache := c.counters.nocache + 1),
         logs := LogNoncached(c, q), sent := c.sent + [Sent(q, "")],
         timezoneExecuted := if throws then c.timezoneExecuted else c.timezone)
    else c
  }

  /** The second guarded block: SET NAMES likewise. */
  function NamesSyncStep(c: Config, throws: bool): Config {
    if NamesDue(c) then
      var q := NamesSql(c.names.value);
      c.(counters := c.counters.(nocache := c.counters.nocache + 1),
         logs := LogNoncached(c, q), sent := c.sent + [Sent(q, "")],
         namesExecuted := if throws then c.namesExecuted else c.names)
    else c
  }

  /** The session statements due before a statement is sent, time zone first. */
  function SessionSql(c: Config): (qs: seq<string>)
    ensures |qs| <= 2
  {
    (if TimezoneDue(c) then [TimezoneSql(c.timezone.value)] else [])
    + (if NamesDue(c) then [NamesSql(c.names.value)] else [])
  }

  /** Statements sent without a mode. */
  function Plain(qs: seq<string>): (r: seq<Sent>)
    ensures |r| == |qs| && forall i :: 0 <= i < |qs| ==> r[i] == Sent(qs[i], "")
  {
    seq(|qs|, i requires 0 <= i < |qs| => Sent(qs[i], ""))
  }

  /**
   * The session statements: each due one is sent, counted as not cached and
   * logged, and its shadow records the value unless the statement threw.
   */
  function SessionStep(c: Config, timezoneThrows: bool, namesThrows: bool): Config {
    var qs := SessionSql(c);
    c.(counters := c.counters.(nocache := c.counters.nocache + |qs|),
       logs := if c.logQueries then c.logs.(noncached := c.logs.noncached + qs) else c.logs,
       sent := c.sent + Plain(qs),
       timezoneExecuted := if TimezoneDue(c) && !timezoneThrows then c.timezone else c.timezoneExecuted,
       namesExecuted := if NamesDue(c) && !namesThrows then c.names else c.namesExecuted)
  }

  /** Sending a statement: the session statements, then the statement itself. */
  function SendStep(c: Config, sql: string, mode: string, timezoneThrows: bool, namesThrows: bool): Config {
    var c1 := SessionStep(c, timezoneThrows, namesThrows);
    c1.(sent := c1.sent + [Sent(sql, mode)])
  }

  /** What m_sql_delete, m_sql_update and m_sql_insert_update do after their statement: clear if autoclear. */
  function AfterWrite(c: Config): Config {
    if c.autoclear then c.(runCache := Some(map[])) else c
  }

  /** 'select' is counted for every statement the classifier reads as a read. */
  function CountSelect(c: Config, sql: string): Config {
    if IsSelect(sql) then c.(counters := c.counters.(select := c.counters.select + 1)) else c
  }

  /** An UPDATE or DELETE empties the runtime cache while caching is enabled and autoclear is set. */
  function ClearOnWrite(c: Config, sql: string): Config {
    if c.enabled && IsUpdate(sql) && c.autoclear then c.(runCache := Some(map[])) else c
  }

  /** A runtime entry is served only when it is a non-empty (truthy) result. */
  predicate RunHit(c: Config, id: string) {
    c.runCache.Some? && id in c.runCache.value && |c.runCache.value[id]| > 0
  }

  /** The persistent tier answers for every key it holds, even with an empty result. */
  predicate StoreHit(c: Config, id: string) {
    c.store.Some? && id in c.store.value
  }

  /**
   * The lookup an enabled select makes: a non-empty runtime entry first,
   * then the persistent tier (whose answer is not copied into the runtime
   * cache). None when neither answers.
   */
  function LookupStep(c: Config, sql: string, id: string): Option<(Config, Rows)> {
    if RunHit(c, id) then
      Some((c.(counters := c.counters.(runcached := c.counters.runcached + 1),
               logs := if c.logQueries then c.logs.(runcached := c.logs.runcached + [sql]) else c.logs),
            c.runCache.value[id]))
    else if StoreHit(c, id) then
      Some((c.(counters := c.counters.(cached := c.counters.cached + 1),
               logs := if c.logQueries then c.logs.(cached := c.logs.cached + [sql]) else c.logs),
            c.store.value[id]))
    else None
  }

  /**
   * Storing a select's rows: into the runtime cache (creating it if it was
   * not an array) and into the persistent tier if configured; a pause set by
   * m_sql_no_cache is lifted here.
   */
  function RememberStep(c: Config, id: string, rows: Rows): Config {
    var run := if c.runCache.Some? then c.runCache.value else map[];
    var c1 := c.(runCache := Some(run[id := rows]),
                 store := if c.store.Some? then Some(c.store.value[id := rows]) else None);
    if c1.paused && !c1.enabled then c1.(enabled := true, paused := false) else c1
  }

  /** A statement that ran: counted under 'cache' if a select, 'nocache' otherwise, and logged. */
  function CountRunStep(c: Config, sql: string): Config {
    c.(counters := if IsSelect(sql) then c.counters.(cache := c.counters.cache + 1)
                   else c.counters.(nocache := c.counters.nocache + 1),
       logs := LogNoncached(c, sql))
  }

  /** After the connection returned rows: count them as run, log, and remember a select's rows. */
  function StoreStep(c: Config, sql: string, id: string, rows: Rows): Config {
    var c1 := CountRunStep(c, sql);
    if (c1.runCache.Some? || c1.store.Some?) && IsSelect(sql) then RememberStep(c1, id, rows) else c1
  }

  /** A statement the caches did not answer: clear on a write, send it, and store what comes back. */
  function QueryStep(c: Config, sql: string, id: string, ans: Answers<Option<Rows>>): (Config, Option<Rows>) {
    var c1 := SendStep(ClearOnWrite(c, sql), sql, "", ans.timezoneThrows, ans.namesThrows);
    match ans.reply
    case None => (c1, None)
    case Some(rows) => (StoreStep(c1, sql, id, rows), Some(rows))
  }

  /** A counted statement: an enabled select is answered by a cache tier if one holds it, else it is queried. */
  function ServeStep(c: Config, sql: string, id: string, ans: Answers<Option<Rows>>): (Config, Option<Rows>) {
    if c.enabled && IsSelect(sql) && LookupStep(c, sql, id).Some? then
      (LookupStep(c, sql, id).value.0, Some(LookupStep(c, sql, id).value.1))
    else QueryStep(c, sql, id, ans)
  }

  /** m_sql_objects. */
  function ObjectsStep(c: Config, link: Link, sql: string, ans: Answers<Option<Rows>>): (Config, Option<Rows>) {
    if !ans.opens then (c, None)
    else ServeStep(CountSelect(c, sql), sql, KeyOf(link, sql), ans)
  }

  /** m_sql_exec counts and logs every statement as not cacheable before sending it. */
  function CountExecStep(c: Config, sql: string): Config {
    var c0 := CountSelect(c, sql);
    c0.(counters := c0.counters.(nocache := c0.counters.nocache + 1), logs := LogNoncached(c0, sql))
  }

  /** m_sql_exec: counted, sent, and a write clears the runtime cache afterwards while enabled. */
  function ExecStep(c: Config, sql: string, mode: string, ans: Answers<Reply>): (Config, Reply) {
    if !ans.opens then (c, False)
    else (ClearOnWrite(SendStep(CountExecStep(c, sql), sql, mode, ans.timezoneThrows, ans.namesThrows), sql), ans.reply)
  }

  // ---------------------------------------------------------------------------
  // Helpers

  /** m_sql_list, with its defaults; offset and limit are cast to int before they are written. */
  function ListStep(c: Config, link: Link, table: string, offset: Scalar := IntArg(0), limit: Scalar := IntArg(100),
                    fields: string := "*", where: Fields := Text(""), order: string := "",
                    nameonly ans: Answers<Option<Rows>>): (Config, Option<Rows>)
  {
    ObjectsStep(c, link, ListSql(link.escape, table, IntCast(offset), IntCast(limit), fields, where, order), ans)
  }

  /** $rows[0]->total: the field of the first row, if there is one. */
  function Total(r: Option<Rows>): Option<string> {
    if r.Some? && |r.value| > 0 && "total" in r.value[0] then Some(r.value[0]["total"]) else None
  }

  /** m_sql_count, with its defaults. */
  function CountStep(c: Config, link: Link, table: string, where: Fields := Text(""), fields: string := "*",
                     nameonly ans: Answers<Option<Rows>>): (Config, Option<string>)
  {
    var (c1, r) := ObjectsStep(c, link, CountSql(link.escape, table, where, fields), ans);
    (c1, Total(r))
  }

  /** The autoclear after a helper's write, on the state m_sql_exec left. */
  function AfterWriteStep(p: (Config, Reply)): (Config, Reply) {
    (AfterWrite(p.0), p.1)
  }

  /** m_sql_delete: opens, runs in 'delete' mode, then clears the runtime cache if autoclear. */
  function DeleteStep(c: Config, link: Link, table: string, where: Fields, ans: Answers<Reply>): (Config, Reply) {
    if !ans.opens then (c, False)
    else AfterWriteStep(ExecStep(c, DeleteSql(link.escape, table, where), "delete", ans))
  }

  /** m_sql_insert: opens and runs, in 'insert' mode when asked; the runtime cache is left alone. */
  function InsertStep(c: Config, link: Link, table: string, ps: seq<(string, string)>, asInsert: bool,
                      escape: bool, ans: Answers<Reply>): (Config, Reply)
  {
    if !ans.opens then (c, False)
    else ExecStep(c, InsertSql(link.escape, table, ps, escape), if asInsert then "insert" else "", ans)
  }

  /** m_sql_update: opens, runs in 'affected' or 'update' mode, then clears the runtime cache if autoclear. */
  function UpdateStep(c: Config, link: Link, table: string, assign: Fields, where: Fields, escape: bool,
                      onlyAffected: bool, ans: Answers<Reply>): (Config, Reply)
  {
    if !ans.opens then (c, False)
    else
      AfterWriteStep(ExecStep(c, UpdateSql(link.escape, table, assign, where, escape),
                              if onlyAffected then "affected" else "update", ans))
  }

  /** m_sql_insert_update: opens, runs, then clears the runtime cache if autoclear. */
  function InsertUpdateStep(c: Config, link: Link, table: string, ps: seq<(string, string)>, escape: bool,
                            custom: Fields, ans: Answers<Reply>): (Config, Reply)
  {
    if !ans.opens then (c, False)
    else AfterWriteStep(ExecStep(c, InsertUpdateSql(link.escape, table, ps, escape, custom), "", ans))
  }

  // ---------------------------------------------------------------------------
  // Statistics

  /** The array m_sql_stats returns; the three logs are present only when logging. */
  datatype Stats = Stats(total: nat, select: nat, nonCached: nat, cached: nat, diskCached: nat,
                         runCached: nat, log: Option<Logs>)

  /** m_sql_stats. */
  function StatsOf(c: Config): Stats {
    var k := c.counters;
    Stats(k.cache + k.nocache + k.cached + k.runcached, k.select, k.cache + k.nocache,
          k.cached + k.runcached, k.cached, k.runcached, if c.logQueries then Some(c.logs) else None)
  }

  // ---------------------------------------------------------------------------
  // Every step keeps the invariant

  /** The cache settings, which sending a statement does not touch. */
  predicate SameCache(a: Config, b: Config) {
    && b.runCache == a.runCache && b.autoclear == a.autoclear && b.store == a.store && b.ttl == a.ttl
    && b.enabled == a.enabled && b.paused == a.paused && b.logQueries == a.logQueries
    && b.timezone == a.timezone && b.names == a.names
  }

  /** b extends a only by session statements: sent, counted as not cached, and nothing else. */
  predicate SessionOnly(a: Config, b: Config) {
    && SameCache(a, b)
    && a.sent <= b.sent
    && b.counters == a.counters.(nocache := a.counters.nocache + |b.sent| - |a.sent|)
  }

  /** With both statements due, the blocks send SET time_zone and then SET NAMES. */
  lemma BothBlocksDue(c: Config, t: bool, n: bool)
    requires TimezoneDue(c) && NamesDue(c)
    ensures NamesSyncStep(TimezoneSyncStep(c, t), n) == SessionStep(c, t, n)
  {
    var c1 := TimezoneSyncStep(c, t);
    var c2 := NamesSyncStep(c1, n);
    var s := SessionStep(c, t, n);
    var qs := SessionSql(c);
    assert NamesDue(c1);
    assert qs == [TimezoneSql(c.timezone.value), NamesSql(c.names.value)];
    assert c2.sent == s.sent by {
      assert Plain(qs) == [Sent(qs[0], ""), Sent(qs[1], "")];
    }
    assert c2.logs == s.logs by {
      assert c.logs.noncached + qs == c.logs.noncached + [qs[0]] + [qs[1]];
    }
    assert c2.counters == s.counters;
  }

  /** With only SET time_zone due, the blocks send that one. */
  lemma TimezoneBlockOnly(c: Config, t: bool, n: bool)
    requires TimezoneDue(c) && !NamesDue(c)
    ensures NamesSyncStep(TimezoneSyncStep(c, t), n) == SessionStep(c, t, n)
  {
    var c1 := TimezoneSyncStep(c, t);
    var s := SessionStep(c, t, n);
    var qs := SessionSql(c);
    assert !NamesDue(c1);
    assert qs == [TimezoneSql(c.timezone.value)];
    assert c1.sent == s.sent by {
      assert Plain(qs) == [Sent(qs[0], "")];
    }
    assert c1.logs == s.logs;
    assert c1.counters == s.counters;
  }

  /** With only SET NAMES due, the blocks send that one. */
  lemma NamesBlockOnly(c: Config, t: bool, n: bool)
    requires !TimezoneDue(c) && NamesDue(c)
    ensures NamesSyncStep(TimezoneSyncStep(c, t), n) == SessionStep(c, t, n)
  {
    var c2 := NamesSyncStep(c, n);
    var s := SessionStep(c, t, n);
    var qs := SessionSql(c);
    assert qs == [NamesSql(c.names.value)];
    assert c2.sent == s.sent by {
      assert Plain(qs) == [Sent(qs[0], "")];
    }
    assert c2.logs == s.logs;
    assert c2.counters == s.counters;
  }

  /** The two guarded blocks one after the other are the session step. */
  lemma SessionInTwoBlocks(c: Config, t: bool, n: bool)
    ensures NamesSyncStep(TimezoneSyncStep(c, t), n) == SessionStep(c, t, n)
  {
    if TimezoneDue(c) && NamesDue(c) {
      BothBlocksDue(c, t, n);
    } else if TimezoneDue(c) {
      TimezoneBlockOnly(c, t, n);
    } else if NamesDue(c) {
      NamesBlockOnly(c, t, n);
    } else {
      assert SessionSql(c) == [] && Plain([]) == [];
    }
  }

  /** With nothing due, the session step changes nothing. */
  lemma SessionIdle(c: Config, t: bool, n: bool)
    requires !TimezoneDue(c) && !NamesDue(c)
    ensures SessionStep(c, t, n) == c
  {
    var s := SessionStep(c, t, n);
    assert SessionSql(c) == [] && Plain([]) == [];
    assert s.sent == c.sent && s.logs == c.logs && s.counters == c.counters;
  }

  lemma SessionOnlySends(c: Config, t: bool, n: bool)
    ensures SessionOnly(c, SessionStep(c, t, n))
  {
  }

  lemma SendOnlySends(c: Config, sql: string, mode: string, t: bool, n: bool)
    ensures var c1 := SendStep(c, sql, mode, t, n);
            && SameCache(c, c1) && |c1.sent| > |c.sent|
            && c1.counters == c.counters.(nocache := c.counters.nocache + |c1.sent| - |c.sent| - 1)
  {
    SessionOnlySends(c, t, n);
  }

  /** Room in 'select' for one more served or run select. */
  predicate Headroom(c: Config, sql: string) {
    IsSelect(sql) ==> c.counters.cache + c.counters.cached + c.counters.runcached < c.counters.select
  }

  lemma LookupKeepsInvariant(c: Config, sql: string, id: string)
    requires Invariant(c) && Headroom(c, sql) && IsSelect(sql)
    ensures LookupStep(c, sql, id).Some? ==> Invariant(LookupStep(c, sql, id).value.0)
  {
  }

  /** Room for one more statement counted as run. */
  predicate RunRoom(c: Config) {
    c.counters.cache + c.counters.nocache < |c.sent|
  }

  lemma SendKeepsInvariant(c: Config, sql: string, mode: string, t: bool, n: bool)
    requires Invariant(c)
    ensures var c1 := SendStep(c, sql, mode, t, n);
            Invariant(c1) && RunRoom(c1) && (Headroom(c, sql) ==> Headroom(c1, sql))
  {
    SendOnlySends(c, sql, mode, t, n);
  }

  lemma StoreKeepsInvariant(c: Config, sql: string, id: string, rows: Rows)
    requires Invariant(c) && Headroom(c, sql) && RunRoom(c)
    ensures Invariant(StoreStep(c, sql, id, rows))
  {
    assert Invariant(CountRunStep(c, sql));
  }

  lemma QueryKeepsInvariant(c: Config, sql: string, id: string, ans: Answers<Option<Rows>>)
    requires Invariant(c) && Headroom(c, sql)
    ensures Invariant(QueryStep(c, sql, id, ans).0)
  {
    var c1 := ClearOnWrite(c, sql);
    assert Invariant(c1) && Headroom(c1, sql);
    SendKeepsInvariant(c1, sql, "", ans.timezoneThrows, ans.namesThrows);
    if ans.reply.Some? {
      StoreKeepsInvariant(SendStep(c1, sql, "", ans.timezoneThrows, ans.namesThrows), sql, id, ans.reply.value);
    }
  }

  lemma ObjectsKeepsInvariant(c: Config, link: Link, sql: string, ans: Answers<Option<Rows>>)
    requires Invariant(c)
    ensures Invariant(ObjectsStep(c, link, sql, ans).0)
  {
    if ans.opens {
      var c1 := CountSelect(c, sql);
      assert Invariant(c1) && Headroom(c1, sql);
      if c1.enabled && IsSelect(sql) {
        LookupKeepsInvariant(c1, sql, KeyOf(link, sql));
      }
      QueryKeepsInvariant(c1, sql, KeyOf(link, sql), ans);
    }
  }

  /** The invariant, with one statement counted as run that has not reached the connection yet. */
  predicate OnePending(c: Config) {
    && (c.store.Some? ==> c.runCache.Some?)
    && c.counters.cache + c.counters.cached + c.counters.runcached <= c.counters.select
    && c.counters.cache + c.counters.nocache <= |c.sent| + 1
  }

  /** Sending the pending statement restores the invariant. */
  lemma SendSettles(c: Config, sql: string, mode: string, t: bool, n: bool)
    requires OnePending(c)
    ensures Invariant(SendStep(c, sql, mode, t, n))
  {
    SendOnlySends(c, sql, mode, t, n);
  }

  lemma CountExecPends(c: Config, sql: string)
    requires Invariant(c)
    ensures OnePending(CountExecStep(c, sql))
  {
    var c0 := CountSelect(c, sql);
    assert Invariant(c0);
  }

  lemma ClearKeepsInvariant(c: Config, sql: string)
    requires Invariant(c)
    ensures Invariant(ClearOnWrite(c, sql))
  {
  }

  lemma ExecKeepsInvariant(c: Config, sql: string, mode: string, ans: Answers<Reply>)
    requires Invariant(c)
    ensures Invariant(ExecStep(c, sql, mode, ans).0)
  {
    if ans.opens {
      var c1 := CountExecStep(c, sql);
      CountExecPends(c, sql);
      SendSettles(c1, sql, mode, ans.timezoneThrows, ans.namesThrows);
      ClearKeepsInvariant(SendStep(c1, sql, mode, ans.timezoneThrows, ans.namesThrows), sql);
    }
  }

  // ---------------------------------------------------------------------------
  // The $CONFIG object

  /**
   * The process-wide configuration object, and the connection's statement
   * history. Each method is one m_sql_* function and updates the fields as
   * that function does.
   */
  class Database {
    const link: Link
    var runCache: Option<map<string, Rows>>
    var autoclear: bool
    var store: Option<map<string, Rows>>
    var ttl: int
    var enabled: bool
    var paused: bool
    var logQueries: bool
    var counters: Counters
    var logs: Logs
    var timezone: Option<string>
    var timezoneExecuted: Option<string>
    var names: Option<string>
    var namesExecuted: Option<string>
    var sent: seq<Sent>

    function State(): Config
      reads this
    {
      Config(runCache, autoclear, store, ttl, enabled, paused, logQueries, counters, logs,
             timezone, timezoneExecuted, names, namesExecuted, sent)
    }

    ghost predicate Valid()
      reads this
    {
      Invariant(State())
    }

    constructor (link: Link)
      ensures this.link == link && State() == Initial() && Valid()
    {
      this.link := link;
      runCache, autoclear, store, ttl := None, false, None, 0;
      enabled, paused, logQueries := false, false, false;
      counters, logs := Counters(0, 0, 0, 0, 0), Logs([], [], []);
      timezone, timezoneExecuted, names, namesExecuted := None, None, None, None;
      sent := [];
    }

    /** m_sql_set_cache; `held` is what the chosen backend already holds. */
    method SetCache(kind: string, time: int, held: map<string, Rows>)
      requires Valid()
      modifies this
      ensures Valid() && State() == SetCacheStep(old(State()), kind, time, held)
    {
      runCache := Some(map[]);
      autoclear := true;
      if kind in PersistentKinds {
        store := Some(held);
        ttl := time;
      }
      enabled := true;
    }

    /** m_sql_clear_cache. */
    method ClearCache()
      requires Valid()
      modifies this
      ensures Valid() && State() == ClearCacheStep(old(State()))
    {
      if store.Some? {
        store := Some(map[]);
      }
      if runCache.Some? {
        runCache := Some(map[]);
      }
    }

    /** m_sql_cache. */
    method Cache(enable: bool)
      requires Valid()
      modifies this
      ensures Valid() && State() == CacheStep(old(State()), enable)
    {
      enabled := enable;
    }

    /** m_sql_no_cache. */
    method NoCache()
      requires Valid()
      modifies this
      ensures Valid() && State() == NoCacheStep(old(State()))
    {
      enabled := false;
      paused := true;
    }

    /** m_sql_timezone. */
    method Timezone(tz: Option<string>) returns (r: Option<string>)
      requires Valid()
      modifies this
      ensures Valid() && (State(), r) == TimezoneStep(old(State()), tz)
    {
      if tz.Some? && Truthy(tz.value) {
        timezone := tz;
      }
      r := timezone;
    }

    /** m_sql_names. */
    method Names(n: Option<string>) returns (r: Option<string>)
      requires Valid()
      modifies this
      ensures Valid() && (State(), r) == NamesStep(old(State()), n)
    {
      if n.Some? && Truthy(n.value) {
        names := n;
      }
      r := names;
    }

    /** m_sql_log_queries. */
    method LogQueries(log: bool) returns (r: bool)
      requires Valid()
      modifies this
      ensures Valid() && (State(), r) == LogQueriesStep(old(State()), log)
    {
      if log {
        logQueries := true;
      }
      r := logQueries;
    }

    method SyncTimezone(throws: bool)
      modifies this
      ensures State() == TimezoneSyncStep(old(State()), throws)
    {
      if timezone.Some? && timezoneExecuted != timezone {
        var q := TimezoneSql(timezone.value);
        counters := counters.(nocache := counters.nocache + 1);
        if logQueries {
          logs := logs.(noncached := logs.noncached + [q]);
        }
        sent := sent + [Sent(q, "")];
        if !throws {
          timezoneExecuted := timezone;
        }
      }
    }

    method SyncNames(throws: bool)
      modifies this
      ensures State() == NamesSyncStep(old(State()), throws)
    {
      if names.Some? && namesExecuted != names {
        var q := NamesSql(names.value);
        counters := counters.(nocache := counters.nocache + 1);
        if logQueries {
          logs := logs.(noncached := logs.noncached + [q]);
        }
        sent := sent + [Sent(q, "")];
        if !throws {
          namesExecuted := names;
        }
      }
    }

    /** The two guarded session statements that open both m_sql_objects and m_sql_exec. */
    method SyncSession(timezoneThrows: bool, namesThrows: bool)
      modifies this
      ensures State() == SessionStep(old(State()), timezoneThrows, namesThrows)
    {
      SessionInTwoBlocks(State(), timezoneThrows, namesThrows);
      SyncTimezone(timezoneThrows);
      SyncNames(namesThrows);
    }

    /** The session statements, then the statement itself, on the connection. */
    method Send(sql: string, mode: string, timezoneThrows: bool, namesThrows: bool)
      modifies this
      ensures State() == SendStep(old(State()), sql, mode, timezoneThrows, namesThrows)
    {
      SyncSession(timezoneThrows, namesThrows);
      sent := sent + [Sent(sql, mode)];
    }

    /** The two cache tiers, asked in order for an enabled select. */
    method Lookup(sql: string, id: string) returns (hit: bool, rows: Rows)
      modifies this
      ensures LookupStep(old(State()), sql, id) == if hit then Some((State(), rows)) else None
      ensures !hit ==> State() == old(State())
    {
      if runCache.Some? && id in runCache.value {
        var ret := runCache.value[id];
        if |ret| > 0 {
          counters := counters.(runcached := counters.runcached + 1);
          if logQueries {
            logs := logs.(runcached := logs.runcached + [sql]);
          }
          return true, ret;
        }
      }
      if store.Some? && id in store.value {
        counters := counters.(cached := counters.cached + 1);
        if logQueries {
          logs := logs.(cached := logs.cached + [sql]);
        }
        return true, store.value[id];
      }
      return false, [];
    }

    method CountRun(sql: string)
      modifies this
      ensures State() == CountRunStep(old(State()), sql)
    {
      if IsSelect(sql) {
        counters := counters.(cache := counters.cache + 1);
      } else {
        counters := counters.(nocache := counters.nocache + 1);
      }
      if logQueries {
        logs := logs.(noncached := logs.noncached + [sql]);
      }
    }

    method Keep(id: string, rows: Rows)
      modifies this
      ensures State() == RememberStep(old(State()), id, rows)
    {
      var run := if runCache.Some? then runCache.value else map[];
      runCache := Some(run[id := rows]);
      if store.Some? {
        store := Some(store.value[id := rows]);
      }
      if paused && !enabled {
        enabled := true;
        paused := false;
      }
    }

    /** The rows that came back: counted, logged, and remembered if the statement was a select. */
    method Remember(sql: string, id: string, rows: Rows)
      modifies this
      ensures State() == StoreStep(old(State()), sql, id, rows)
    {
      CountRun(sql);
      if (runCache.Some? || store.Some?) && IsSelect(sql) {
        Keep(id, rows);
      }
    }

    method ClearIfWrite(sql: string)
      modifies this
      ensures State() == ClearOnWrite(old(State()), sql)
    {
      if enabled && IsUpdate(sql) && autoclear {
        runCache := Some(map[]);
      }
    }

    /** A statement neither tier answered. */
    method Query(sql: string, id: string, ans: Answers<Option<Rows>>) returns (r: Option<Rows>)
      modifies this
      ensures (State(), r) == QueryStep(old(State()), sql, id, ans)
    {
      ClearIfWrite(sql);
      Send(sql, "", ans.timezoneThrows, ans.namesThrows);
      if ans.reply.None? {
        return None;
      }
      var ret := FetchAll(ans.reply.value);
      Remember(sql, id, ret);
      return Some(ret);
    }

    /** A counted statement: the cache tiers for an enabled select, else the connection. */
    method Serve(sql: string, id: string, ans: Answers<Option<Rows>>) returns (r: Option<Rows>)
      modifies this
      ensures (State(), r) == ServeStep(old(State()), sql, id, ans)
    {
      if enabled && IsSelect(sql) {
        var hit, rows := Lookup(sql, id);
        if hit {
          return Some(rows);
        }
      }
      r := Query(sql, id, ans);
    }

    method CountIfSelect(sql: string)
      modifies this
      ensures State() == CountSelect(old(State()), sql)
    {
      if IsSelect(sql) {
        counters := counters.(select := counters.select + 1);
      }
    }

    /** m_sql_objects. */
    method Objects(sql: string, ans: Answers<Option<Rows>>) returns (r: Option<Rows>)
      requires Valid()
      modifies this
      ensures Valid() && (State(), r) == ObjectsStep(old(State()), link, sql, ans)
    {
      ObjectsKeepsInvariant(State(), link, sql, ans);
      if !ans.opens {
        return None;
      }
      CountIfSelect(sql);
      r := Serve(sql, KeyOf(link, sql), ans);
    }

    /** m_sql_exec. */
    method Exec(sql: string, mode: string, ans: Answers<Reply>) returns (r: Reply)
      requires Valid()
      modifies this
      ensures Valid() && (State(), r) == ExecStep(old(State()), sql, mode, ans)
    {
      ExecKeepsInvariant(State(), sql, mode, ans);
      if !ans.opens {
        return False;
      }
      CountExec(sql);
      Send(sql, mode, ans.timezoneThrows, ans.namesThrows);
      r := ans.reply;
      ClearIfWrite(sql);
    }

    method CountExec(sql: string)
      modifies this
      ensures State() == CountExecStep(old(State()), sql)
    {
      if IsSelect(sql) {
        counters := counters.(select := counters.select + 1);
      }
      counters := counters.(nocache := counters.nocache + 1);
      if logQueries {
        logs := logs.(noncached := logs.noncached + [sql]);
      }
    }

    /** m_sql_list. */
    method List(table: string, offset: Scalar := IntArg(0), limit: Scalar := IntArg(100), fields: string := "*",
                where: Fields := Text(""), order: string := "", nameonly ans: Answers<Option<Rows>>)
      returns (r: Option<Rows>)
      requires Valid()
      modifies this
      ensures Valid()
      ensures (State(), r) == ListStep(old(State()), link, table, offset, limit, fields, where, order, ans := ans)
    {
      var o := IntCast(offset);
      var l := IntCast(limit);
      r := Objects(ListSql(link.escape, table, o, l, fields, where, order), ans);
    }

    /** m_sql_count. */
    method Count(table: string, where: Fields := Text(""), fields: string := "*", nameonly ans: Answers<Option<Rows>>)
      returns (r: Option<string>)
      requires Valid()
      modifies this
      ensures Valid() && (State(), r) == CountStep(old(State()), link, table, where, fields, ans := ans)
    {
      var rows := Objects(CountSql(link.escape, table, where, fields), ans);
      r := Total(rows);
    }

    method ClearAfterWrite()
      modifies this
      ensures State() == AfterWrite(old(State()))
    {
      if autoclear {
        runCache := Some(map[]);
      }
    }

    /** m_sql_delete. */
    method Delete(table: string, where: Fields, ans: Answers<Reply>) returns (r: Reply)
      requires Valid()
      modifies this
      ensures Valid() && (State(), r) == DeleteStep(old(State()), link, table, where, ans)
    {
      if !ans.opens {
        return False;
      }
      r := Exec(DeleteSql(link.escape, table, where), "delete", ans);
      ClearAfterWrite();
    }

    /** m_sql_insert. */
    method Insert(table: string, ps: seq<(string, string)>, asInsert: bool, escape: bool, ans: Answers<Reply>)
      returns (r: Reply)
      requires Valid()
      modifies this
      ensures Valid() && (State(), r) == InsertStep(old(State()), link, table, ps, asInsert, escape, ans)
    {
      if !ans.opens {
        return False;
      }
      r := Exec(InsertSql(link.escape, table, ps, escape), if asInsert then "insert" else "", ans);
    }

    /** m_sql_update. */
    method Update(table: string, assign: Fields, where: Fields, escape: bool, onlyAffected: bool,
                  ans: Answers<Reply>) returns (r: Reply)
      requires Valid()
      modifies this
      ensures Valid() && (State(), r) == UpdateStep(old(State()), link, table, assign, where, escape, onlyAffected, ans)
    {
      if !ans.opens {
        return False;
      }
      r := Exec(UpdateSql(link.escape, table, assign, where, escape), if onlyAffected then "affected" else "update", ans);
      ClearAfterWrite();
    }

    /** m_sql_insert_update. */
    method InsertUpdate(table: string, ps: seq<(string, string)>, escape: bool, custom: Fields,
                        ans: Answers<Reply>) returns (r: Reply)
      requires Valid()
      modifies this
      ensures Valid() && (State(), r) == InsertUpdateStep(old(State()), link, table, ps, escape, custom, ans)
    {
      if !ans.opens {
        return False;
      }
      r := Exec(InsertUpdateSql(link.escape, table, ps, escape, custom), "", ans);
      ClearAfterWrite();
    }

    /** m_create_table. */
    method CreateTable(table: string, columns: seq<(string, string)>, pk: Names, unique: Names,
                       fulltext: Names, charset: string, engine: string, ans: Answers<Reply>) returns (r: Reply)
      requires Valid()
      modifies this
      ensures Valid()
      ensures (State(), r) == ExecStep(old(State()), CreateTableSql(table, columns, pk, unique, fulltext, charset, engine), "", ans)
    {
      r := Exec(CreateTableSql(table, columns, pk, unique, fulltext, charset, engine), "", ans);
    }

    /** m_auto_create_table. */
    method AutoCreateTable(table: string, samples: seq<(string, Sample)>, ans: Answers<Reply>) returns (r: Reply)
      requires Valid()
      modifies this
      ensures Valid() && (State(), r) == ExecStep(old(State()), AutoCreateTableSql(table, samples), "", ans)
    {
      r := CreateTable(table, AutoColumns(samples), NameList([]), NameList([]), NameList([]), "utf8", "", ans);
    }

    /** m_sql_stats. */
    function Stats(): Stats
      reads this
    {
      StatsOf(State())
    }
  }

  /**
   * The fetch loop of m_sql_objects. The connection's result is given as the
   * rows its fetch() hands out one call at a time, in order; the loop drains
   * them into a fresh array.
   */
  method FetchAll(result: Rows) returns (ret: Rows)
    ensures ret == result
  {
    ret := [];
    var i := 0;
    while i < |result|
      invariant 0 <= i <= |result|
      invariant ret == result[..i]
    {
      ret := ret + [result[i]];
      i := i + 1;
    }
  }
}
