/**
 * What the query cache of functions/sql.php promises its callers, stated
 * over the steps of QueryCache: which tier answers a select, when the
 * connection is reached, what a write clears, when the session statements
 * are sent, and what the statistics add up to.
 */
module CacheProperties {
  import opened PhpText
  import opened SqlText
  import opened QueryCache

  // ---------------------------------------------------------------------------
  // The steps, one at a time

  /** b is a later state of the same history: counters only grow and logs and statements only get appended. */
  predicate Extends(a: Config, b: Config) {
    && a.counters.select <= b.counters.select && a.counters.cache <= b.counters.cache
    && a.counters.nocache <= b.counters.nocache && a.counters.cached <= b.counters.cached
    && a.counters.runcached <= b.counters.runcached
    && a.logs.noncached <= b.logs.noncached && a.logs.cached <= b.logs.cached && a.logs.runcached <= b.logs.runcached
    && a.sent <= b.sent
  }

  lemma SessionExtends(c: Config, t: bool, n: bool)
    ensures Extends(c, SessionStep(c, t, n))
  {
    SessionOnlySends(c, t, n);
  }

  lemma ExtendsTransitive(a: Config, b: Config, c: Config)
    requires Extends(a, b) && Extends(b, c)
    ensures Extends(a, c)
  {
  }

  /** Sending only appends, and the statement itself goes last. */
  lemma SendExtends(c: Config, sql: string, mode: string, t: bool, n: bool)
    ensures var c1 := SendStep(c, sql, mode, t, n);
            && Extends(c, c1) && |c1.sent| > |c.sent| && c1.sent[|c1.sent| - 1] == Sent(sql, mode)
            && SameCache(c, c1) && (!c.logQueries ==> c1.logs == c.logs)
  {
    SessionExtends(c, t, n);
    SendOnlySends(c, sql, mode, t, n);
    var c1 := SessionStep(c, t, n);
    assert Extends(c1, c1.(sent := c1.sent + [Sent(sql, mode)]));
  }

  /** When neither tier answers, m_sql_objects takes the query path on the counted state. */
  lemma ObjectsMissIsQuery(c: Config, link: Link, sql: string, ans: Answers<Option<Rows>>)
    requires ans.opens
    requires !(c.enabled && IsSelect(sql) && (RunHit(c, KeyOf(link, sql)) || StoreHit(c, KeyOf(link, sql))))
    ensures ObjectsStep(c, link, sql, ans) == QueryStep(CountSelect(c, sql), sql, KeyOf(link, sql), ans)
  {
  }

  /** Storing rows sends nothing, keeps autoclear and logging, and logs only when logging. */
  lemma StoreFrame(c: Config, sql: string, id: string, rows: Rows)
    ensures var s := StoreStep(c, sql, id, rows);
            && s.sent == c.sent && s.autoclear == c.autoclear && s.logQueries == c.logQueries
            && (!c.logQueries ==> s.logs == c.logs)
            && (!IsSelect(sql) ==> s.enabled == c.enabled && s.paused == c.paused
                                   && s.store == c.store && s.runCache == c.runCache)
  {
    var c1 := CountRunStep(c, sql);
    assert c1.sent == c.sent && c1.autoclear == c.autoclear && c1.logQueries == c.logQueries;
    assert c1.enabled == c.enabled && c1.paused == c.paused && c1.store == c.store && c1.runCache == c.runCache;
  }

  /** The counting m_sql_exec does before sending touches no setting and sends nothing. */
  lemma CountExecFrame(c: Config, sql: string)
    ensures var c0 := CountExecStep(c, sql);
            && SameCache(c, c0) && c0.sent == c.sent && Extends(c, c0)
            && c0.timezoneExecuted == c.timezoneExecuted && c0.namesExecuted == c.namesExecuted
            && (!c.logQueries ==> c0.logs == c.logs)
  {
    var c1 := CountSelect(c, sql);
    assert SameCache(c, c1) && c1.sent == c.sent && c1.logs == c.logs && Extends(c, c1);
  }

  /** The query path sends the statement last, returns the connection's answer, and only appends to the history. */
  lemma QueryReachesConnection(c: Config, sql: string, id: string, ans: Answers<Option<Rows>>)
    ensures var (c1, r) := QueryStep(c, sql, id, ans);
            && r == ans.reply
            && |c1.sent| > |c.sent| && c1.sent[|c1.sent| - 1] == Sent(sql, "")
            && c1.autoclear == c.autoclear
            && (!c.logQueries ==> c1.logs == c.logs)
  {
    var c0 := ClearOnWrite(c, sql);
    SendExtends(c0, sql, "", ans.timezoneThrows, ans.namesThrows);
    if ans.reply.Some? {
      StoreFrame(SendStep(c0, sql, "", ans.timezoneThrows, ans.namesThrows), sql, id, ans.reply.value);
    }
  }

  lemma QueryExtends(c: Config, sql: string, id: string, ans: Answers<Option<Rows>>)
    ensures Extends(c, QueryStep(c, sql, id, ans).0)
  {
    var c0 := ClearOnWrite(c, sql);
    assert Extends(c, c0);
    SendExtends(c0, sql, "", ans.timezoneThrows, ans.namesThrows);
    var c1 := SendStep(c0, sql, "", ans.timezoneThrows, ans.namesThrows);
    ExtendsTransitive(c, c0, c1);
    if ans.reply.Some? {
      StoreExtends(c1, sql, id, ans.reply.value);
      ExtendsTransitive(c, c1, StoreStep(c1, sql, id, ans.reply.value));
    }
  }

  lemma StoreExtends(c: Config, sql: string, id: string, rows: Rows)
    ensures Extends(c, StoreStep(c, sql, id, rows))
  {
    var c1 := CountRunStep(c, sql);
    assert Extends(c, c1);
  }

  /** Without rows of a select to remember, the query path changes no cache setting except by clearing on a write. */
  lemma QueryKeepsSettings(c: Config, sql: string, id: string, ans: Answers<Option<Rows>>)
    requires !IsSelect(sql) || ans.reply.None?
    ensures var c1 := QueryStep(c, sql, id, ans).0;
            && c1.enabled == c.enabled && c1.paused == c.paused && c1.store == c.store
            && c1.runCache == ClearOnWrite(c, sql).runCache
  {
    var c0 := ClearOnWrite(c, sql);
    SendOnlySends(c0, sql, "", ans.timezoneThrows, ans.namesThrows);
    if ans.reply.Some? {
      StoreFrame(SendStep(c0, sql, "", ans.timezoneThrows, ans.namesThrows), sql, id, ans.reply.value);
    }
  }

  /** The rows of a select that came back are remembered in both tiers, and a pause ends. */
  lemma QueryStoresSelect(c: Config, sql: string, id: string, ans: Answers<Option<Rows>>, rows: Rows)
    requires IsSelect(sql) && ans.reply == Some(rows) && c.runCache.Some?
    ensures var c1 := QueryStep(c, sql, id, ans).0;
            && c1.runCache == Some(c.runCache.value[id := rows])
            && c1.store == (if c.store.Some? then Some(c.store.value[id := rows]) else None)
            && c1.enabled == (c.enabled || c.paused) && c1.paused == (c.paused && c.enabled)
  {
    SelectIsNotUpdate(sql);
    SendOnlySends(c, sql, "", ans.timezoneThrows, ans.namesThrows);
  }

  /** Everything m_sql_exec does to the cache settings and the history. */
  lemma ExecEffect(c: Config, sql: string, mode: string, ans: Answers<Reply>)
    ensures var (c1, r) := ExecStep(c, sql, mode, ans);
            && r == (if ans.opens then ans.reply else False)
            && c1.enabled == c.enabled && c1.paused == c.paused && c1.autoclear == c.autoclear && c1.store == c.store
            && c1.runCache == (if ans.opens && c.enabled && IsUpdate(sql) && c.autoclear then Some(map[]) else c.runCache)
            && (ans.opens ==> |c1.sent| > |c.sent| && c1.sent[|c1.sent| - 1] == Sent(sql, mode))
            && (!c.logQueries ==> c1.logs == c.logs)
  {
    if ans.opens {
      var c0 := CountExecStep(c, sql);
      CountExecFrame(c, sql);
      SendExtends(c0, sql, mode, ans.timezoneThrows, ans.namesThrows);
      var c1 := SendStep(c0, sql, mode, ans.timezoneThrows, ans.namesThrows);
      assert ClearOnWrite(c1, sql).sent == c1.sent && ClearOnWrite(c1, sql).logs == c1.logs;
    }
  }

  // ---------------------------------------------------------------------------
  // Which tier answers

  /** An enabled select with a non-empty runtime entry is answered from it without reaching the connection. */
  lemma RuntimeHitServes(c: Config, link: Link, sql: string, ans: Answers<Option<Rows>>)
    requires ans.opens && c.enabled && IsSelect(sql) && RunHit(c, KeyOf(link, sql))
    ensures var (c1, r) := ObjectsStep(c, link, sql, ans);
            && r == Some(c.runCache.value[KeyOf(link, sql)])
            && c1.sent == c.sent && c1.runCache == c.runCache && c1.store == c.store && c1.enabled == c.enabled
            && c1.counters == c.counters.(select := c.counters.select + 1, runcached := c.counters.runcached + 1)
  {
  }

  /**
   * Otherwise the persistent tier answers for any key it holds, and its
   * answer is not copied into the runtime cache.
   */
  lemma PersistentHitServes(c: Config, link: Link, sql: string, ans: Answers<Option<Rows>>)
    requires ans.opens && c.enabled && IsSelect(sql)
    requires !RunHit(c, KeyOf(link, sql)) && StoreHit(c, KeyOf(link, sql))
    ensures var (c1, r) := ObjectsStep(c, link, sql, ans);
            && r == Some(c.store.value[KeyOf(link, sql)])
            && c1.sent == c.sent && c1.runCache == c.runCache && c1.store == c.store && c1.enabled == c.enabled
            && c1.counters == c.counters.(select := c.counters.select + 1, cached := c.counters.cached + 1)
  {
  }

  /** An empty runtime entry is falsy: with no persistent entry, the select goes to the connection. */
  lemma EmptyRuntimeEntryIsNotServed(c: Config, link: Link, sql: string, ans: Answers<Option<Rows>>)
    requires ans.opens && c.enabled && IsSelect(sql)
    requires c.runCache.Some? && KeyOf(link, sql) in c.runCache.value && c.runCache.value[KeyOf(link, sql)] == []
    requires !StoreHit(c, KeyOf(link, sql))
    ensures var (c1, r) := ObjectsStep(c, link, sql, ans);
            r == ans.reply && |c1.sent| > |c.sent| && c1.sent[|c1.sent| - 1] == Sent(sql, "")
  {
    var id := KeyOf(link, sql);
    var c0 := CountSelect(c, sql);
    assert !RunHit(c0, id) && !StoreHit(c0, id) && c0.sent == c.sent;
    ObjectsMissIsQuery(c, link, sql, ans);
    QueryReachesConnection(c0, sql, id, ans);
  }

  /** A select the caches did not answer is sent, and rows that come back are remembered, even while disabled. */
  lemma MissIsSentAndStored(c: Config, link: Link, sql: string, ans: Answers<Option<Rows>>, rows: Rows)
    requires Invariant(c) && c.runCache.Some? && ans.opens && IsSelect(sql) && ans.reply == Some(rows)
    requires !(c.enabled && (RunHit(c, KeyOf(link, sql)) || StoreHit(c, KeyOf(link, sql))))
    ensures var (c1, r) := ObjectsStep(c, link, sql, ans);
            && r == Some(rows)
            && |c1.sent| > |c.sent| && c1.sent[|c1.sent| - 1] == Sent(sql, "")
            && c1.runCache.Some? && c1.runCache.value == c.runCache.value[KeyOf(link, sql) := rows]
            && c1.store == (if c.store.Some? then Some(c.store.value[KeyOf(link, sql) := rows]) else None)
            && c1.enabled == (c.enabled || c.paused)
  {
    ObjectsMissIsQuery(c, link, sql, ans);
    QueryReachesConnection(CountSelect(c, sql), sql, KeyOf(link, sql), ans);
    QueryStoresSelect(CountSelect(c, sql), sql, KeyOf(link, sql), ans, rows);
  }

  /**
   * The point of the runtime cache: once a select has returned non-empty
   * rows while caching is enabled, asking again returns the same rows and
   * sends nothing to the connection.
   */
  lemma {:induction false} RepeatedSelectIsServedFromCache(c: Config, link: Link, sql: string,
                                                           ans1: Answers<Option<Rows>>, ans2: Answers<Option<Rows>>)
    requires Invariant(c) && c.enabled && c.runCache.Some? && IsSelect(sql) && ans1.opens && ans2.opens
    requires var r1 := ObjectsStep(c, link, sql, ans1).1; r1.Some? && |r1.value| > 0
    ensures var (c1, r1) := ObjectsStep(c, link, sql, ans1);
            var (c2, r2) := ObjectsStep(c1, link, sql, ans2);
            r2 == r1 && c2.sent == c1.sent
  {
    var id := KeyOf(link, sql);
    var (c1, r1) := ObjectsStep(c, link, sql, ans1);
    if RunHit(c, id) {
      RuntimeHitServes(c, link, sql, ans1);
      RuntimeHitServes(c1, link, sql, ans2);
    } else if StoreHit(c, id) {
      PersistentHitServes(c, link, sql, ans1);
      PersistentHitServes(c1, link, sql, ans2);
    } else {
      MissIsSentAndStored(c, link, sql, ans1, r1.value);
      RuntimeHitServes(c1, link, sql, ans2);
    }
  }

  // ---------------------------------------------------------------------------
  // m_sql_no_cache pauses for one read

  /**
   * After m_sql_no_cache the next select goes to the connection even if
   * cached; once it returns rows they are remembered and caching is back on.
   */
  lemma {:induction false} NoCacheBypassesOneRead(c: Config, link: Link, sql: string, ans: Answers<Option<Rows>>, rows: Rows)
    requires Invariant(c) && c.runCache.Some? && IsSelect(sql) && ans.opens && ans.reply == Some(rows)
    ensures var (c1, r) := ObjectsStep(NoCacheStep(c), link, sql, ans);
            && r == Some(rows)
            && |c1.sent| > |c.sent| && c1.sent[|c1.sent| - 1] == Sent(sql, "")
            && c1.enabled && !c1.paused
            && c1.runCache.Some? && c1.runCache.value[KeyOf(link, sql)] == rows
  {
    var c0 := NoCacheStep(c);
    MissIsSentAndStored(c0, link, sql, ans, rows);
  }

  /** The same read, answered from the runtime cache once the pause is over. */
  lemma {:induction false} NoCacheThenCacheServes(c: Config, link: Link, sql: string, ans: Answers<Option<Rows>>,
                                                  ans2: Answers<Option<Rows>>, rows: Rows)
    requires Invariant(c) && c.runCache.Some? && IsSelect(sql) && ans.opens && ans2.opens
    requires ans.reply == Some(rows) && |rows| > 0
    ensures var (c1, r1) := ObjectsStep(NoCacheStep(c), link, sql, ans);
            var (c2, r2) := ObjectsStep(c1, link, sql, ans2);
            r2 == Some(rows) && c2.sent == c1.sent
  {
    NoCacheBypassesOneRead(c, link, sql, ans, rows);
    var c1 := ObjectsStep(NoCacheStep(c), link, sql, ans).0;
    ObjectsKeepsInvariant(NoCacheStep(c), link, sql, ans);
    RuntimeHitServes(c1, link, sql, ans2);
  }

  /** A read that fails, or a statement that is not a select, does not end the pause. */
  lemma PauseOutlastsOtherStatements(c: Config, link: Link, sql: string, ans: Answers<Option<Rows>>)
    requires c.paused && !c.enabled
    requires !IsSelect(sql) || ans.reply.None?
    ensures var c1 := ObjectsStep(c, link, sql, ans).0; c1.paused && !c1.enabled
  {
    if ans.opens {
      ObjectsMissIsQuery(c, link, sql, ans);
      QueryKeepsSettings(CountSelect(c, sql), sql, KeyOf(link, sql), ans);
    }
  }

  // ---------------------------------------------------------------------------
  // What a write clears

  /** Through m_sql_objects or m_sql_exec, an UPDATE or DELETE empties the runtime cache while enabled with autoclear. */
  lemma EnabledWriteClearsRuntime(c: Config, link: Link, sql: string, mode: string,
                                  ans: Answers<Option<Rows>>, ans2: Answers<Reply>)
    requires c.enabled && c.autoclear && IsUpdate(sql)
    ensures ans.opens ==> ObjectsStep(c, link, sql, ans).0.runCache == Some(map[])
    ensures ans2.opens ==> ExecStep(c, sql, mode, ans2).0.runCache == Some(map[])
  {
    SelectIsNotUpdate(sql);
    if ans.opens {
      ObjectsMissIsQuery(c, link, sql, ans);
      QueryKeepsSettings(CountSelect(c, sql), sql, KeyOf(link, sql), ans);
    }
    ExecEffect(c, sql, mode, ans2);
  }

  /** m_sql_exec leaves the runtime cache alone while caching is disabled, even for a write. */
  lemma DisabledExecKeepsRuntime(c: Config, sql: string, mode: string, ans: Answers<Reply>)
    requires !c.enabled
    ensures ExecStep(c, sql, mode, ans).0.runCache == c.runCache
  {
    ExecEffect(c, sql, mode, ans);
  }

  /** m_sql_delete, m_sql_update and m_sql_insert_update clear the runtime cache whenever autoclear is set. */
  lemma HelperWritesClearRuntime(c: Config, link: Link, table: string, where: Fields, assign: Fields,
                                 ps: seq<(string, string)>, escape: bool, onlyAffected: bool, custom: Fields,
                                 ans: Answers<Reply>)
    requires ans.opens && c.autoclear
    ensures DeleteStep(c, link, table, where, ans).0.runCache == Some(map[])
    ensures UpdateStep(c, link, table, assign, where, escape, onlyAffected, ans).0.runCache == Some(map[])
    ensures InsertUpdateStep(c, link, table, ps, escape, custom, ans).0.runCache == Some(map[])
  {
    ExecEffect(c, DeleteSql(link.escape, table, where), "delete", ans);
    ExecEffect(c, UpdateSql(link.escape, table, assign, where, escape), if onlyAffected then "affected" else "update", ans);
    ExecEffect(c, InsertUpdateSql(link.escape, table, ps, escape, custom), "", ans);
  }

  /** m_sql_insert and table creation never clear the runtime cache. */
  lemma InsertAndCreateKeepRuntime(c: Config, link: Link, table: string, ps: seq<(string, string)>, asInsert: bool,
                                   escape: bool, columns: seq<(string, string)>, pk: Names, unique: Names,
                                   fulltext: Names, charset: string, engine: string, ans: Answers<Reply>)
    ensures InsertStep(c, link, table, ps, asInsert, escape, ans).0.runCache == c.runCache
    ensures ExecStep(c, CreateTableSql(table, columns, pk, unique, fulltext, charset, engine), "", ans).0.runCache == c.runCache
  {
    InsertsAndDdlAreOther(link.escape, table, ps, escape, Text(""), columns, pk, unique, fulltext, charset, engine);
    ExecEffect(c, InsertSql(link.escape, table, ps, escape), if asInsert then "insert" else "", ans);
    ExecEffect(c, CreateTableSql(table, columns, pk, unique, fulltext, charset, engine), "", ans);
  }

  /** m_sql_clear_cache empties both tiers where they exist and keeps the counters. */
  lemma ClearCacheEmpties(c: Config, id: string)
    ensures var c1 := ClearCacheStep(c);
            && !RunHit(c1, id) && !StoreHit(c1, id)
            && c1.runCache.Some? == c.runCache.Some? && c1.store.Some? == c.store.Some?
            && c1.counters == c.counters && c1.sent == c.sent
  {
  }

  // ---------------------------------------------------------------------------
  // Session statements

  /** Both session statements, when both are due, are sent time zone first. */
  lemma SessionOrder(c: Config, tz: string, names: string)
    requires c.timezone == Some(tz) && c.timezoneExecuted != c.timezone
    requires c.names == Some(names) && c.namesExecuted != c.names
    ensures SessionStep(c, false, false).sent == c.sent + [Sent(TimezoneSql(tz), ""), Sent(NamesSql(names), "")]
  {
  }

  /** Once applied, the session statements are not sent again. */
  lemma SessionAppliedOnce(c: Config, t: bool, n: bool)
    ensures SessionStep(SessionStep(c, false, false), t, n) == SessionStep(c, false, false)
  {
  }

  /** A session statement that throws leaves its shadow as it was, so the next call sends it again. */
  lemma ThrowingTimezoneIsRetried(c: Config, tz: string)
    requires c.timezone == Some(tz) && c.timezoneExecuted != c.timezone
    ensures var c1 := TimezoneSyncStep(c, true);
            && c1.timezoneExecuted == c.timezoneExecuted
            && TimezoneSyncStep(c1, false).sent == c1.sent + [Sent(TimezoneSql(tz), "")]
  {
  }

  /** A statement sent through m_sql_exec leaves the time zone and charset applied when neither throws. */
  lemma ExecAppliesSession(c: Config, sql: string, mode: string, ans: Answers<Reply>, t: bool, n: bool)
    requires ans.opens && !ans.timezoneThrows && !ans.namesThrows
    ensures var c1 := ExecStep(c, sql, mode, ans).0;
            c1.timezoneExecuted == (if c.timezone.Some? then c.timezone else c.timezoneExecuted)
            && SessionStep(c1, t, n) == c1
  {
    var c0 := CountExecStep(c, sql);
    CountExecFrame(c, sql);
    var c1 := SessionStep(c0, false, false);
    assert !TimezoneDue(c1) && !NamesDue(c1);
    var c2 := SendStep(c0, sql, mode, false, false);
    assert c2.timezone == c1.timezone && c2.timezoneExecuted == c1.timezoneExecuted;
    assert c2.names == c1.names && c2.namesExecuted == c1.namesExecuted;
    var c3 := ClearOnWrite(c2, sql);
    assert c3.timezone == c2.timezone && c3.timezoneExecuted == c2.timezoneExecuted;
    assert c3.names == c2.names && c3.namesExecuted == c2.namesExecuted;
    SessionIdle(c3, t, n);
  }

  /** Naming the applied time zone again sends nothing; naming another one sends it on the next statement. */
  lemma TimezoneChangeIsSent(c: Config, tz: string)
    requires Truthy(tz) && c.timezone.Some? && c.timezoneExecuted == c.timezone
    ensures var c1 := TimezoneStep(c, Some(tz)).0;
            TimezoneSyncStep(c1, false).sent == if Some(tz) == c.timezone then c.sent else c.sent + [Sent(TimezoneSql(tz), "")]
  {
  }

  /** A falsy argument to m_sql_timezone or m_sql_names reads the setting and changes nothing. */
  lemma FalsySettingsOnlyRead(c: Config, s: Option<string>)
    requires s.None? || s == Some("") || s == Some("0")
    ensures TimezoneStep(c, s) == (c, c.timezone)
    ensures NamesStep(c, s) == (c, c.names)
  {
  }

  /** Logging can be turned on but never off. */
  lemma LoggingIsSticky(c: Config, log: bool)
    ensures LogQueriesStep(c, log).1 == (c.logQueries || log)
    ensures !log ==> LogQueriesStep(c, log).0 == c
  {
  }

  // ---------------------------------------------------------------------------
  // Counters, logs and statistics

  lemma ObjectsExtends(c: Config, link: Link, sql: string, ans: Answers<Option<Rows>>)
    ensures Extends(c, ObjectsStep(c, link, sql, ans).0)
  {
    var id := KeyOf(link, sql);
    if ans.opens {
      var c0 := CountSelect(c, sql);
      if c0.enabled && IsSelect(sql) && (RunHit(c0, id) || StoreHit(c0, id)) {
        assert Extends(c, LookupStep(c0, sql, id).value.0);
      } else {
        ObjectsMissIsQuery(c, link, sql, ans);
        QueryExtends(c0, sql, id, ans);
      }
    }
  }

  lemma ExecExtends(c: Config, sql: string, mode: string, ans: Answers<Reply>)
    ensures Extends(c, ExecStep(c, sql, mode, ans).0)
  {
    if ans.opens {
      var c0 := CountExecStep(c, sql);
      CountExecFrame(c, sql);
      SendExtends(c0, sql, mode, ans.timezoneThrows, ans.namesThrows);
      var c1 := SendStep(c0, sql, mode, ans.timezoneThrows, ans.namesThrows);
      ExtendsTransitive(c, c0, c1);
      var c2 := ClearOnWrite(c1, sql);
      assert c2.counters == c1.counters && c2.logs == c1.logs && c2.sent == c1.sent;
      ExtendsTransitive(c, c1, c2);
    }
  }

  /** With logging off, running statements leaves the logs as they are. */
  lemma NoLoggingKeepsLogs(c: Config, link: Link, sql: string, mode: string,
                           ans: Answers<Option<Rows>>, ans2: Answers<Reply>)
    requires !c.logQueries
    ensures ObjectsStep(c, link, sql, ans).0.logs == c.logs
    ensures ExecStep(c, sql, mode, ans2).0.logs == c.logs
  {
    var id := KeyOf(link, sql);
    if ans.opens {
      var c0 := CountSelect(c, sql);
      if !(c0.enabled && IsSelect(sql) && (RunHit(c0, id) || StoreHit(c0, id))) {
        ObjectsMissIsQuery(c, link, sql, ans);
        QueryReachesConnection(c0, sql, id, ans);
      }
    }
    ExecEffect(c, sql, mode, ans2);
  }

  /**
   * The figures of m_sql_stats add up: every statement counted is either
   * non-cached or cached, cached ones came from disk or runtime, no more
   * were served from cache than were selects, and no more ran than reached
   * the connection.
   */
  lemma StatsAddUp(c: Config)
    requires Invariant(c)
    ensures var s := StatsOf(c);
            && s.total == s.nonCached + s.cached
            && s.cached == s.diskCached + s.runCached
            && s.cached <= s.select
            && s.nonCached <= |c.sent|
            && (s.log.Some? <==> c.logQueries)
  {
  }

  /**
   * m_sql_set_cache switches the runtime cache on: from any reachable state,
   * a select that returns rows right after it is answered from the runtime
   * cache the next time, without reaching the connection.
   */
  lemma {:induction false} SetCacheThenSelectIsCached(c: Config, kind: string, time: int, held: map<string, Rows>,
                                                      link: Link, sql: string,
                                                      ans1: Answers<Option<Rows>>, ans2: Answers<Option<Rows>>)
    requires Invariant(c) && IsSelect(sql) && ans1.opens && ans2.opens
    requires var r1 := ObjectsStep(SetCacheStep(c, kind, time, held), link, sql, ans1).1;
             r1.Some? && |r1.value| > 0
    ensures var c0 := SetCacheStep(c, kind, time, held);
            var (c1, r1) := ObjectsStep(c0, link, sql, ans1);
            var (c2, r2) := ObjectsStep(c1, link, sql, ans2);
            Invariant(c0) && r2 == r1 && c2.sent == c1.sent
  {
    var c0 := SetCacheStep(c, kind, time, held);
    assert Invariant(c0) && c0.enabled && c0.runCache.Some?;
    RepeatedSelectIsServedFromCache(c0, link, sql, ans1, ans2);
  }

  /**
   * m_sql_set_cache starts from an empty runtime cache: the first select
   * after it reaches the connection and returns its answer, unless the
   * persistent tier in force holds the statement.
   */
  lemma {:induction false} SetCacheStartsCold(c: Config, kind: string, time: int, held: map<string, Rows>,
                                              link: Link, sql: string, ans: Answers<Option<Rows>>)
    requires ans.opens
    requires kind in PersistentKinds ==> KeyOf(link, sql) !in held
    requires kind !in PersistentKinds ==> !StoreHit(c, KeyOf(link, sql))
    ensures var (c1, r) := ObjectsStep(SetCacheStep(c, kind, time, held), link, sql, ans);
            r == ans.reply && |c1.sent| > |c.sent| && c1.sent[|c1.sent| - 1] == Sent(sql, "")
  {
    var c0 := SetCacheStep(c, kind, time, held);
    var id := KeyOf(link, sql);
    assert !RunHit(c0, id) && !StoreHit(c0, id) && c0.sent == c.sent;
    ObjectsMissIsQuery(c0, link, sql, ans);
    assert CountSelect(c0, sql).sent == c.sent;
    QueryReachesConnection(CountSelect(c0, sql), sql, id, ans);
  }

  /**
   * A count the caches do not answer is sent to the connection, and its
   * total is the 'total' field of the first row the connection returns;
   * there is none when no row, or no such field, comes back.
   */
  lemma {:induction false} CountMissReadsConnection(c: Config, link: Link, table: string, where: Fields, fields: string,
                                                    ans: Answers<Option<Rows>>)
    requires ans.opens
    requires var id := KeyOf(link, CountSql(link.escape, table, where, fields));
             !(c.enabled && (RunHit(c, id) || StoreHit(c, id)))
    ensures var (c1, n) := CountStep(c, link, table, where, fields, ans := ans);
            && |c1.sent| > |c.sent| && c1.sent[|c1.sent| - 1] == Sent(CountSql(link.escape, table, where, fields), "")
            && (n.Some? <==> ans.reply.Some? && |ans.reply.value| > 0 && "total" in ans.reply.value[0])
            && (n.Some? ==> n.value == ans.reply.value[0]["total"])
  {
    var sql := CountSql(link.escape, table, where, fields);
    ObjectsMissIsQuery(c, link, sql, ans);
    assert CountSelect(c, sql).sent == c.sent;
    QueryReachesConnection(CountSelect(c, sql), sql, KeyOf(link, sql), ans);
  }

  /**
   * m_sql_count builds a select, so once a count has come back with a row
   * while caching is enabled, counting again gives the same total without
   * reaching the connection.
   */
  lemma {:induction false} RepeatedCountIsCached(c: Config, link: Link, table: string, where: Fields, fields: string,
                                                 ans1: Answers<Option<Rows>>, ans2: Answers<Option<Rows>>)
    requires Invariant(c) && c.enabled && c.runCache.Some? && ans1.opens && ans2.opens
    requires var r1 := ObjectsStep(c, link, CountSql(link.escape, table, where, fields), ans1).1;
             r1.Some? && |r1.value| > 0
    ensures var (c1, n1) := CountStep(c, link, table, where, fields, ans := ans1);
            var (c2, n2) := CountStep(c1, link, table, where, fields, ans := ans2);
            n2 == n1 && c2.sent == c1.sent
  {
    var sql := CountSql(link.escape, table, where, fields);
    ListAndCountAreSelects(link.escape, table, 0, 0, fields, where, "");
    RepeatedSelectIsServedFromCache(c, link, sql, ans1, ans2);
  }
}
