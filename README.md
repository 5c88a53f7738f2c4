# msc_lib query cache and file helpers in Dafny

This project models two files of the msc_lib PHP library.

- `functions/sql.php`: the query-cache engine behind `m_sql_objects` and
  `m_sql_exec`, together with the helpers that build SQL text.
  - The engine keeps process-wide state in `$CONFIG`: a runtime cache from key
    to rows, an optional persistent tier, the enabled, paused and autoclear
    flags, the per-bucket counters and logs, and the "last applied" time zone
    and charset.
  - The helpers (`m_sql_list`, `m_sql_count`, `m_sql_delete`, `m_sql_insert`,
    `m_sql_update`, `m_sql_insert_update`, `m_create_table`,
    `m_auto_create_table`) build a statement and hand it to the engine.
- `functions/files.php`:
  - `m_check_filename`: sanitises a file name, then renames it with a `_N`
    counter until it is not in a listing.
  - `m_let_to_num`: reads php.ini size notation such as `2M`.
  - `m_get_string_for_upload_error`: names the upload error codes.

The modules, one per file:

- `PhpText` (`php_text.dfy`): the PHP primitives the code relies on.
  - `trim`/`ltrim`/`rtrim`, ASCII `strtolower`, `substr`, `implode`, and
    `str_replace` of quotes.
  - String truthiness, decimal rendering of integers, and PHP's reading of a
    leading integer out of a string.
- `SqlText` (`sql_text.dfy`): the pure half of `sql.php`.
  - The lexical select/update classifier and the cache key.
  - The exact text of every statement the helpers build.
- `QueryCache` (`query_cache.dfy`): the engine.
  - `Config` mirrors the `$CONFIG` fields. Each `m_sql_*` function is a step
    function on `Config`.
  - The class `Database` holds the same fields. Its methods take each step
    imperatively, one field at a time, and each method's `ensures` ties its
    new state to the step function.
  - An invariant on the counters is kept by every step: `Database.Valid`.
- `CacheProperties` (`cache_properties.dfy`): what the engine promises, as
  lemmas over the step functions. Topics:
  - which tier answers a select, and when the connection is reached;
  - what a write clears, and the one-read pause of `m_sql_no_cache`;
  - the order and retry of the session statements;
  - the arithmetic of `m_sql_stats`.
- `Files` (`files.dfy`):
  - the sanitising regular expression, and the rename step with its
    `/^(.+?)(_?)(\d*)(\.[^.]+)?$/` match, worked out position by position;
  - the loop of `m_check_filename`. As written it does not always end: the
    empty name is never renamed (see "## Findings"). With that one step
    corrected to rename "" as "_1", the loop is proved to terminate and to
    return an unlisted, sanitised name;
  - the fall-through switch of `m_let_to_num`;
  - the upload error table and its inverse.

Things the code depends on but this model cannot see are parameters:

- The database connection. Each call gets an `Answers` value: whether the
  connection opens, whether `SET time_zone` / `SET NAMES` throw, and what
  `query()` returns.
- Every statement the connection receives is appended to `sent`.
- `md5` and the connection's `escape` are uninterpreted functions carried by
  `Link`.
- The persistent cache backend is a map. `serialize`/`unserialize` are the
  identity.
- For `m_check_filename`, the listing `$dir` is a sequence of names.

### Where the code is followed

Where the library's documented behaviour and its code differ, the model
follows the code:

- **Shadow values on a throw.** The time-zone and charset shadow values are
  updated only when the session statement returns. A statement that throws
  leaves its shadow as it was, so the statement is sent again on the next
  call (`CacheProperties.ThrowingTimezoneIsRetried`).
- **Clearing on a write in `m_sql_exec`.** `m_sql_exec` empties the runtime
  cache after an UPDATE/DELETE only while caching is enabled
  (`CacheProperties.DisabledExecKeepsRuntime`). The clear does not depend on
  the statement succeeding. By contrast, `m_sql_delete`, `m_sql_update` and
  `m_sql_insert_update` clear it whenever autoclear is set
  (`CacheProperties.HelperWritesClearRuntime`). `m_sql_insert` and table
  creation never clear it.
- **Clearing in `m_sql_objects`.** `m_sql_objects` clears on a write before
  the statement is sent.
- **The `select` counter.** Every statement classified as a select
  increments the `select` counter, including one answered from a cache tier.
- **Logging.** Session statements are counted under `nocache` and logged in
  the `noncached` bucket; they are not reported anywhere else.

## Model

| member | source | states |
|---|---|---|
| PhpText.LTrim | functions/sql.php:209 | ltrim: the longest prefix of space, tab, newline, return, NUL and vertical tab is dropped (its shape in PhpText.LTrimShape) |
| PhpText.Trim | functions/files.php:60 | trim is rtrim after ltrim |
| PhpText.Join | functions/sql.php:333 | implode: the parts with the separator between each two |
| PhpText.Truthy | functions/sql.php:327 | a PHP string is falsy exactly when it is "" or "0" |
| PhpText.LeadingInt | functions/files.php:64-78 | the signed integer at the very front of a string: an optional sign and the digits after it, 0 when there are none |
| PhpText.NumericPrefix | functions/files.php:64-78 | the number PHP arithmetic reads from a string: leading space, tab, newline, return, vertical tab and form feed are skipped, then the leading integer is read |
| PhpText.NumericPrefixOfText | functions/files.php:64-78 | an integer's text, after any such blanks and before a non-digit, reads back as that integer |
| PhpText.Saturate | functions/sql.php:322-323 | a number outside the 64-bit range is pinned to PHP_INT_MAX or PHP_INT_MIN (PhpText.IntCastOfText) |
| PhpText.IntCast | functions/sql.php:322-323 | the (int) cast: null is 0, a boolean 0 or 1, a string the signed integer at its front after leading blanks, saturated at the 64-bit bounds; every cast of a non-integer lies within those bounds |
| PhpText.SkipNumberSpacePrefix | functions/sql.php:322-323 | the cast skips exactly the leading blanks |
| PhpText.IntCastOfText | functions/sql.php:322-323 | an integer's text, after any leading blanks and before a non-digit, casts to that integer when it fits in 64 bits, to PHP_INT_MAX above and to PHP_INT_MIN below |
| PhpText.LTrimShape | functions/sql.php:209 | ltrim leaves a suffix that is empty or starts with a non-blank, and everything it cut is blank |
| PhpText.RTrim | functions/sql.php:209 | rtrim leaves a prefix that is empty or ends with a non-blank, and everything it cut is blank |
| PhpText.Lower | functions/sql.php:209 | strtolower keeps the length and lowers each character on its own (ASCII capitals only) |
| PhpText.JoinAppend | functions/sql.php:333 | implode of two non-empty lists laid end to end is the two implodes joined by one more separator |
| PhpText.StripQuotes | functions/sql.php:249 | str_replace("'", '') leaves no quote, never lengthens, and changes nothing in quote-free text |
| PhpText.NatToDigits | functions/files.php:25 | the decimal text of n is a non-empty digit string whose value is n |
| PhpText.IntToString | functions/sql.php:339 | an integer renders as digits, with a leading "-" when negative |
| PhpText.DigitPrefixLength | functions/files.php:25 | the digit prefix is all digits and is followed by a non-digit or the end |
| PhpText.DigitsRoundTrip | functions/files.php:25 | the digits of n, followed by a non-digit or nothing, read back as n |
| PhpText.IntToStringRoundTrip | functions/sql.php:322-339 | the rendered integer, followed by a non-digit or nothing, reads back as the same integer under PHP's string-to-number reading |
| SqlText.PrefixIs | functions/sql.php:209 | the source's test: the first n characters after ltrim, rtrim-ed and lower-cased, equal the keyword (characterised by SqlText.PrefixIsIff) |
| SqlText.IsSelect | functions/sql.php:209 | a read: after leading blanks it begins with "select" or "show" in any case (equal to the source's test by SqlText.SelectIff) |
| SqlText.IsUpdate | functions/sql.php:215 | a cache-clearing write: it begins with "update" or "delete" (SqlText.UpdateIff) |
| SqlText.CacheKey | functions/sql.php:213 | "m_sql-", the connection token, "-" and the md5 digest (SqlText.CacheKeyInjective) |
| SqlText.WhereClause | functions/sql.php:327-336 | " WHERE " and the literal text or the AND of the where-map when the argument is given (a truthy string or a non-empty map), nothing otherwise |
| SqlText.LimitClause | functions/sql.php:339 | " LIMIT offset, limit" (SqlText.LimitClauseRoundTrip) |
| SqlText.ListSql | functions/sql.php:320-339 | the m_sql_list statement: SELECT fields FROM table, the where clause, ORDER BY when the order is truthy, the LIMIT clause (SqlText.ListSqlPaging, SqlText.ListIsSelect) |
| SqlText.CountSql | functions/sql.php:357-368 | the m_sql_count statement: SELECT COUNT(fields) AS total FROM table and the where clause |
| SqlText.DeleteSql | functions/sql.php:440-450 | the m_sql_delete statement (SqlText.DeleteAndUpdateAreWrites) |
| SqlText.InsertSql | functions/sql.php:468-478 | the m_sql_insert statement: the column list and the value list, comma-joined |
| SqlText.UpdateSql | functions/sql.php:495-521 | the m_sql_update statement: the joined assignments or the literal SET text, then the where clause |
| SqlText.OnDuplicate | functions/sql.php:539-567 | the update part of m_sql_insert_update: a non-empty custom array replaces the inserted pairs, a truthy custom string is used as it is, otherwise the inserted pairs are assigned |
| SqlText.InsertUpdateSql | functions/sql.php:564-567 | the insert statement followed by ON DUPLICATE KEY UPDATE and that update part |
| SqlText.IndexClause | functions/sql.php:155-166 | a PRIMARY, UNIQUE or FULLTEXT KEY clause over one name or a list of names, when the argument is not empty |
| SqlText.CreateTableSql | functions/sql.php:149-169 | the m_create_table statement: column definitions, index clauses, ENGINE when given, DEFAULT CHARSET when given |
| SqlText.AutoCreateTableSql | functions/sql.php:181-196 | m_create_table on the guessed columns with no indexes, no engine and charset utf8 (SqlText.AutoCreateTableColumns) |
| SqlText.TimezoneSql | functions/sql.php:249 | SET time_zone with the value quoted after its quotes are removed (SqlText.SessionSqlDistinct) |
| SqlText.NamesSql | functions/sql.php:261 | SET NAMES with the value after its quotes are removed |
| SqlText.StartsWithWordIff | functions/sql.php:209 | the character-by-character keyword test holds exactly when the lower-cased prefix of that length equals the keyword |
| SqlText.PrefixIsIff | functions/sql.php:209 | the substr/rtrim/strtolower test for a keyword not ending in a blank holds exactly when the left-trimmed statement begins with the keyword in any case; nothing is required after it |
| SqlText.SelectIff | functions/sql.php:209 | IsSelect holds exactly when the "select" 6-character or "show" 4-character test of the source holds |
| SqlText.UpdateIff | functions/sql.php:215 | IsUpdate holds exactly when the "update" or "delete" 6-character test of the source holds |
| SqlText.SelectIsNotUpdate | functions/sql.php:209-215 | no statement is both a cacheable read and a cache-clearing write |
| SqlText.ClassifiesIndentedSelect | functions/sql.php:209 | leading blanks are skipped and case is ignored: "  select * from t" is a select |
| SqlText.ClassifiesSelectFoo | functions/sql.php:209 | "SELECTFOO" is a select: no word boundary is needed |
| SqlText.ClassifiesUpdate | functions/sql.php:215 | "UPDATE t SET x=1" is a write and not a read |
| SqlText.ClassifiesInsertAsOther | functions/sql.php:209-215 | an INSERT is neither a read nor a cache-clearing write |
| SqlText.OtherKeyword | functions/sql.php:209-215 | any statement starting with INSERT or CREATE is neither a read nor a cache-clearing write |
| SqlText.CacheKeyInjective | functions/sql.php:213 | on one connection token, equal cache keys mean equal md5 digests, so the key determines the digest and equal text gives equal keys |
| SqlText.EqualsItems | functions/sql.php:330-332 | the where-map gives one "`k` = 'escaped v'" item per pair, in order |
| SqlText.ConjunctionAppend | functions/sql.php:328-333 | the where text of two maps laid end to end is their where texts joined by " AND " |
| SqlText.ConjunctionSingle | functions/sql.php:330-333 | a one-pair where-map renders as exactly "`k` = 'escaped v'" |
| SqlText.NumberLengthOfInt | functions/sql.php:339 | the rendered integer is exactly the signed number PHP reads at the front |
| SqlText.ReadsTwoNumbers | functions/sql.php:339 | "x, y" reads back as x followed by y |
| SqlText.LimitClauseRoundTrip | functions/sql.php:322-339 | the LIMIT clause carries offset and limit exactly: reading it back gives them |
| SqlText.ListSqlPaging | functions/sql.php:320-339 | the statement m_sql_list builds always ends with its LIMIT clause, which reads back as the integer offset and limit |
| SqlText.ListAndCountAreSelects | functions/sql.php:320-372 | m_sql_list and m_sql_count build selects, so the engine serves and stores them |
| SqlText.ListIsSelect | functions/sql.php:325 | the m_sql_list statement classifies as a select |
| SqlText.DeleteAndUpdateAreWrites | functions/sql.php:436-526 | m_sql_delete and m_sql_update build statements classified as writes and never as reads |
| SqlText.InsertsAndDdlAreOther | functions/sql.php:146-573 | m_sql_insert, m_sql_insert_update and m_create_table build statements that are neither reads nor cache-clearing writes |
| SqlText.InsertKeys | functions/sql.php:469-478 | the column list of an insert has one entry per pair, in order: entry i is pair i's key in backticks when escaping, the raw key otherwise |
| SqlText.InsertValues | functions/sql.php:469-478 | the value list of an insert has one entry per pair, in order: entry i is pair i's escaped value in single quotes when escaping, the raw value otherwise |
| SqlText.Assignments | functions/sql.php:497-506 | the assignment list of an update has one entry per pair, in order: "`k` = 'escaped v'" when escaping, "k = v" otherwise |
| SqlText.ColumnDefs | functions/sql.php:151-154 | m_create_table writes one definition per column, in order, each "`name` type" |
| SqlText.ColumnType | functions/sql.php:186-194 | a guessed column type is TEXT exactly for strings over 100 bytes, CHAR(255) exactly for shorter strings, INT exactly for integers, and empty otherwise |
| SqlText.AutoColumns | functions/sql.php:185-195 | each sample gives one column, in order, named by its key and typed by ColumnType |
| SqlText.AutoCreateTableColumns | functions/sql.php:179-196 | m_auto_create_table builds a CREATE TABLE with the guessed columns in order, no index clauses, no engine and charset utf8 |
| SqlText.SessionSqlDistinct | functions/sql.php:249-261 | SET time_zone and SET NAMES statements never coincide, and a SET time_zone statement determines its quote-free value |
| QueryCache.Invariant | functions/sql.php:203-429 | a persistent tier only with a runtime cache; served and run selects at most the counted selects; statements counted as run at most those sent (kept by QueryCache.ObjectsKeepsInvariant and QueryCache.ExecKeepsInvariant) |
| QueryCache.SetCacheStep | functions/sql.php:51-65 | m_sql_set_cache on the configuration (CacheProperties.SetCacheThenSelectIsCached, CacheProperties.SetCacheStartsCold) |
| QueryCache.ClearCacheStep | functions/sql.php:70-79 | m_sql_clear_cache on the configuration (CacheProperties.ClearCacheEmpties) |
| QueryCache.CacheStep | functions/sql.php:85-89 | m_sql_cache sets the enabled flag |
| QueryCache.NoCacheStep | functions/sql.php:95-99 | m_sql_no_cache disables and pauses (CacheProperties.NoCacheBypassesOneRead) |
| QueryCache.TimezoneStep | functions/sql.php:586-590 | m_sql_timezone (CacheProperties.FalsySettingsOnlyRead, CacheProperties.TimezoneChangeIsSent) |
| QueryCache.NamesStep | functions/sql.php:595-599 | m_sql_names (CacheProperties.FalsySettingsOnlyRead) |
| QueryCache.LogQueriesStep | functions/sql.php:578-582 | m_sql_log_queries (CacheProperties.LoggingIsSticky) |
| QueryCache.TimezoneSyncStep | functions/sql.php:247-257 | the SET time_zone block: when due it is counted, logged and sent, and the shadow is set unless it threw |
| QueryCache.NamesSyncStep | functions/sql.php:259-269 | the SET NAMES block, likewise |
| QueryCache.SessionStep | functions/sql.php:247-269 | both blocks as one update (equal to the two blocks by QueryCache.SessionInTwoBlocks) |
| QueryCache.SendStep | functions/sql.php:247-272 | the session statements, then the statement with its mode |
| QueryCache.ClearOnWrite | functions/sql.php:214-242 | an UPDATE/DELETE empties the runtime cache while enabled with autoclear |
| QueryCache.LookupStep | functions/sql.php:216-241 | a non-empty runtime entry, else a persistent entry, counted and logged; nothing otherwise (CacheProperties.RuntimeHitServes, CacheProperties.PersistentHitServes) |
| QueryCache.RememberStep | functions/sql.php:286-295 | rows stored in the runtime cache and any persistent tier; a pause taken while disabled ends |
| QueryCache.CountRunStep | functions/sql.php:274-278 | counted as cache for a select, nocache otherwise, and logged |
| QueryCache.StoreStep | functions/sql.php:272-295 | the rows that came back counted, logged, and remembered for a select with a tier |
| QueryCache.QueryStep | functions/sql.php:242-300 | clear on a write, send, then store the rows or return false |
| QueryCache.ServeStep | functions/sql.php:214-300 | an enabled select is answered by a tier when one holds it, otherwise queried |
| QueryCache.ObjectsStep | functions/sql.php:203-301 | m_sql_objects: false without a connection, else the select counted and served (CacheProperties.RepeatedSelectIsServedFromCache) |
| QueryCache.CountExecStep | functions/sql.php:391-396 | m_sql_exec counts a select, one nocache, and logs the statement |
| QueryCache.ExecStep | functions/sql.php:387-429 | m_sql_exec: false without a connection, else counted, sent, and cleared on an enabled write (CacheProperties.ExecEffect) |
| QueryCache.ListStep | functions/sql.php:320-345 | m_sql_list with its defaults and the int casts of offset and limit |
| QueryCache.Total | functions/sql.php:374 | the first row's total field, if there is one |
| QueryCache.CountStep | functions/sql.php:354-376 | m_sql_count with its defaults (CacheProperties.CountMissReadsConnection, CacheProperties.RepeatedCountIsCached) |
| QueryCache.AfterWrite | functions/sql.php:453 | the helper writes empty the runtime cache when autoclear is set |
| QueryCache.DeleteStep | functions/sql.php:436-455 | m_sql_delete (CacheProperties.HelperWritesClearRuntime) |
| QueryCache.InsertStep | functions/sql.php:464-481 | m_sql_insert (CacheProperties.InsertAndCreateKeepRuntime) |
| QueryCache.UpdateStep | functions/sql.php:491-526 | m_sql_update (CacheProperties.HelperWritesClearRuntime) |
| QueryCache.InsertUpdateStep | functions/sql.php:535-573 | m_sql_insert_update (CacheProperties.HelperWritesClearRuntime) |
| QueryCache.StatsOf | functions/sql.php:604-626 | m_sql_stats (CacheProperties.StatsAddUp) |
| QueryCache.SessionSql | functions/sql.php:247-269 | at most two session statements are due before a statement |
| QueryCache.Plain | functions/sql.php:253-265 | session statements are sent without a mode, in order |
| QueryCache.SessionInTwoBlocks | functions/sql.php:247-269 | the two guarded blocks run one after the other equal the single session step: due statements sent time zone first, counted, logged, and shadowed unless they threw |
| QueryCache.BothBlocksDue | functions/sql.php:247-269 | the same, when both statements are due |
| QueryCache.TimezoneBlockOnly | functions/sql.php:247-257 | the same, when only SET time_zone is due |
| QueryCache.NamesBlockOnly | functions/sql.php:259-269 | the same, when only SET NAMES is due |
| QueryCache.SessionIdle | functions/sql.php:247-269 | with both shadows up to date, the session blocks change nothing |
| QueryCache.SessionOnlySends | functions/sql.php:247-269 | the session blocks touch no cache setting and only append statements and the matching nocache counts |
| QueryCache.SendOnlySends | functions/sql.php:247-272 | sending touches no cache setting, sends at least the statement, and counts only the session statements |
| QueryCache.LookupKeepsInvariant | functions/sql.php:216-241 | a cache-tier answer keeps the counter invariant |
| QueryCache.SendKeepsInvariant | functions/sql.php:247-272 | sending keeps the invariant and leaves room for one statement counted as run |
| QueryCache.StoreKeepsInvariant | functions/sql.php:272-295 | counting and storing the returned rows keeps the invariant |
| QueryCache.QueryKeepsInvariant | functions/sql.php:242-300 | the uncached path of m_sql_objects keeps the invariant |
| QueryCache.ObjectsKeepsInvariant | functions/sql.php:203-301 | m_sql_objects keeps the invariant: a store implies a runtime cache, served and run selects never exceed counted selects, and run statements never exceed those sent |
| QueryCache.SendSettles | functions/sql.php:395-421 | sending the statement m_sql_exec already counted restores the invariant |
| QueryCache.CountExecPends | functions/sql.php:391-396 | m_sql_exec's counting leaves at most one counted statement not yet sent |
| QueryCache.ClearKeepsInvariant | functions/sql.php:422-425 | clearing on a write keeps the invariant |
| QueryCache.ExecKeepsInvariant | functions/sql.php:387-429 | m_sql_exec keeps the invariant |
| QueryCache.Database.constructor | functions/sql.php:51-65 | a fresh configuration has every field unset and satisfies the invariant |
| QueryCache.Database.SetCache | functions/sql.php:51-65 | m_sql_set_cache gives an empty runtime cache with autoclear, a persistent tier and ttl only for the listed backends, and enables caching |
| QueryCache.Database.ClearCache | functions/sql.php:70-79 | m_sql_clear_cache empties each tier that exists |
| QueryCache.Database.Cache | functions/sql.php:85-89 | m_sql_cache sets only the enabled flag |
| QueryCache.Database.NoCache | functions/sql.php:95-99 | m_sql_no_cache disables and marks the pause |
| QueryCache.Database.Timezone | functions/sql.php:586-590 | m_sql_timezone replaces the setting only for a truthy argument and returns the setting |
| QueryCache.Database.Names | functions/sql.php:595-599 | m_sql_names replaces the setting only for a truthy argument and returns the setting |
| QueryCache.Database.LogQueries | functions/sql.php:578-582 | m_sql_log_queries turns logging on for a true argument, never off, and returns the flag |
| QueryCache.Database.SyncTimezone | functions/sql.php:247-257 | the SET time_zone block, field by field, equals its step function |
| QueryCache.Database.SyncNames | functions/sql.php:259-269 | the SET NAMES block, field by field, equals its step function |
| QueryCache.Database.SyncSession | functions/sql.php:247-269 | both blocks in order equal the session step |
| QueryCache.Database.Send | functions/sql.php:247-272 | the session statements, then the statement, reach the connection |
| QueryCache.Database.Lookup | functions/sql.php:216-241 | a non-empty runtime entry answers first (runcached), then any persistent entry (cached); on a miss nothing changes |
| QueryCache.Database.CountRun | functions/sql.php:274-278 | a run statement is counted under cache if a select, nocache otherwise, and logged |
| QueryCache.Database.Keep | functions/sql.php:286-295 | the rows go into the runtime cache (created if missing) and any persistent tier, and a pause ends |
| QueryCache.Database.Remember | functions/sql.php:272-295 | the returned rows are counted, logged, and remembered only for a select with a tier |
| QueryCache.Database.ClearIfWrite | functions/sql.php:242 | an UPDATE/DELETE empties the runtime cache when enabled with autoclear |
| QueryCache.Database.Query | functions/sql.php:242-300 | the uncached path: clear on write, send, fetch and store; false from the connection gives no rows |
| QueryCache.Database.Serve | functions/sql.php:214-300 | an enabled select asks the tiers first, everything else goes to the connection |
| QueryCache.Database.CountIfSelect | functions/sql.php:209-210 | a select increments the select counter |
| QueryCache.Database.Objects | functions/sql.php:203-301 | m_sql_objects returns false without a connection, else counts, serves or queries, and keeps the invariant |
| QueryCache.Database.Exec | functions/sql.php:387-429 | m_sql_exec returns false without a connection, else counts, sends with its mode, clears on an enabled write, and returns the connection's reply |
| QueryCache.Database.CountExec | functions/sql.php:391-396 | m_sql_exec counts the select and one nocache, and logs the statement |
| QueryCache.Database.List | functions/sql.php:320-345 | m_sql_list, with its defaults (offset 0, limit 100, fields "*", no where, no order), casts offset and limit to int and is m_sql_objects on the built statement |
| QueryCache.Database.Count | functions/sql.php:354-376 | with its defaults (no where, fields "*"), m_sql_count is m_sql_objects on the built statement, returning the first row's total |
| QueryCache.Database.ClearAfterWrite | functions/sql.php:453 | the helper writes empty the runtime cache whenever autoclear is set |
| QueryCache.Database.Delete | functions/sql.php:436-455 | m_sql_delete runs in delete mode, then clears if autoclear |
| QueryCache.Database.Insert | functions/sql.php:464-481 | m_sql_insert runs in insert mode when asked and never clears |
| QueryCache.Database.Update | functions/sql.php:491-526 | m_sql_update runs in affected or update mode, then clears if autoclear |
| QueryCache.Database.InsertUpdate | functions/sql.php:535-573 | m_sql_insert_update runs without a mode, then clears if autoclear |
| QueryCache.Database.CreateTable | functions/sql.php:146-172 | m_create_table hands its statement to m_sql_exec |
| QueryCache.Database.AutoCreateTable | functions/sql.php:179-197 | m_auto_create_table is m_create_table on the guessed columns |
| QueryCache.FetchAll | functions/sql.php:281-283 | the fetch loop collects every row of the result, in order |
| CacheProperties.SessionExtends | functions/sql.php:247-269 | the session blocks only grow counters, logs and the statement history |
| CacheProperties.ExtendsTransitive | functions/sql.php:203-429 | growing the history twice is growing it |
| CacheProperties.SendExtends | functions/sql.php:247-272 | sending only appends, the statement goes last with its mode, no setting changes, and nothing is logged when logging is off |
| CacheProperties.ObjectsMissIsQuery | functions/sql.php:214-300 | when neither tier answers, m_sql_objects is the query path on the counted state |
| CacheProperties.StoreFrame | functions/sql.php:272-295 | storing sends nothing, and for a non-select changes no cache setting |
| CacheProperties.CountExecFrame | functions/sql.php:391-396 | m_sql_exec's counting changes no setting and sends nothing |
| CacheProperties.QueryReachesConnection | functions/sql.php:272-300 | the query path returns the connection's answer and sends the statement last |
| CacheProperties.QueryExtends | functions/sql.php:242-300 | the query path only grows the history |
| CacheProperties.StoreExtends | functions/sql.php:272-295 | storing only grows the history |
| CacheProperties.QueryKeepsSettings | functions/sql.php:242-300 | without select rows to store, the query path changes no cache setting except the clear on a write |
| CacheProperties.QueryStoresSelect | functions/sql.php:286-295 | returned select rows go into both tiers and a pause (paused with caching disabled) ends |
| CacheProperties.ExecEffect | functions/sql.php:387-429 | m_sql_exec's whole effect: its reply, the statement sent last with its mode, settings unchanged, and the runtime cache emptied exactly for an enabled write with autoclear |
| CacheProperties.RuntimeHitServes | functions/sql.php:214-228 | an enabled select with a non-empty runtime entry returns it without reaching the connection and increments only select and runcached |
| CacheProperties.PersistentHitServes | functions/sql.php:230-239 | after a runtime miss, a persistent entry is returned, counted as cached, and not copied into the runtime cache |
| CacheProperties.EmptyRuntimeEntryIsNotServed | functions/sql.php:222-228 | an empty stored result is falsy, so without a persistent entry the select goes to the connection |
| CacheProperties.MissIsSentAndStored | functions/sql.php:245-295 | an unanswered select is sent and its rows are stored in both tiers, whether or not caching is enabled |
| CacheProperties.RepeatedSelectIsServedFromCache | functions/sql.php:214-295 | once an enabled select has returned rows, asking again returns the same rows and sends nothing |
| CacheProperties.NoCacheBypassesOneRead | functions/sql.php:95-99 | after m_sql_no_cache the next select reaches the connection, its rows are stored, and caching is back on |
| CacheProperties.NoCacheThenCacheServes | functions/sql.php:286-295 | the read after that bypass is served from the runtime cache |
| CacheProperties.PauseOutlastsOtherStatements | functions/sql.php:291-294 | a failed read or a non-select does not end the pause |
| CacheProperties.EnabledWriteClearsRuntime | functions/sql.php:242-425 | through m_sql_objects or m_sql_exec, an enabled UPDATE/DELETE with autoclear empties the runtime cache |
| CacheProperties.DisabledExecKeepsRuntime | functions/sql.php:422-425 | with caching disabled m_sql_exec never clears the runtime cache |
| CacheProperties.HelperWritesClearRuntime | functions/sql.php:452-571 | m_sql_delete, m_sql_update and m_sql_insert_update empty the runtime cache whenever autoclear is set |
| CacheProperties.InsertAndCreateKeepRuntime | functions/sql.php:464-481 | m_sql_insert and m_create_table never change the runtime cache |
| CacheProperties.ClearCacheEmpties | functions/sql.php:70-79 | after m_sql_clear_cache no key hits either tier, the tiers that existed still exist, and counters are unchanged |
| CacheProperties.SessionOrder | functions/sql.php:247-269 | with both due, SET time_zone is sent before SET NAMES |
| CacheProperties.SessionAppliedOnce | functions/sql.php:247-269 | once applied without a throw, the session statements are not sent again |
| CacheProperties.ThrowingTimezoneIsRetried | functions/sql.php:248-256 | a SET time_zone that throws keeps the old shadow, so the next call sends it again |
| CacheProperties.ExecAppliesSession | functions/sql.php:398-419 | after m_sql_exec with no throw the time zone is applied and no session statement is due |
| CacheProperties.TimezoneChangeIsSent | functions/sql.php:586-590 | naming the applied time zone again sends nothing; naming another sends it on the next statement |
| CacheProperties.FalsySettingsOnlyRead | functions/sql.php:586-599 | a null, "" or "0" argument to m_sql_timezone or m_sql_names changes nothing and returns the setting |
| CacheProperties.LoggingIsSticky | functions/sql.php:578-582 | logging can be turned on but never off |
| CacheProperties.ObjectsExtends | functions/sql.php:203-301 | m_sql_objects only grows counters, logs and the history |
| CacheProperties.ExecExtends | functions/sql.php:387-429 | m_sql_exec only grows counters, logs and the history |
| CacheProperties.NoLoggingKeepsLogs | functions/sql.php:225-413 | with logging off, no log is appended by m_sql_objects or m_sql_exec |
| CacheProperties.StatsAddUp | functions/sql.php:604-626 | sql_total is non-cached plus cached, which is cache + nocache + cached + runcached; cached splits into disk and runtime; cached never exceeds selects; logs appear exactly when logging |
| CacheProperties.SetCacheThenSelectIsCached | functions/sql.php:51-65 | after m_sql_set_cache from any reachable state the invariant holds, and a select that returned rows is answered again with the same rows without reaching the connection |
| CacheProperties.SetCacheStartsCold | functions/sql.php:51-65 | m_sql_set_cache empties the runtime cache, so the next select reaches the connection and returns its answer unless the persistent tier in force holds it |
| CacheProperties.RepeatedCountIsCached | functions/sql.php:354-374 | m_sql_count builds a select, so with caching enabled a count that came back with a row gives the same total again without reaching the connection |
| CacheProperties.CountMissReadsConnection | functions/sql.php:354-376 | a count no cache tier answers is sent to the connection last, and its total is the first returned row's total field, present exactly when there is such a row and field |
| Files.Sanitize | functions/files.php:21 | every maximal run of characters outside [a-zA-Z0-9_~.-] replaced by one "-" (Files.SanitizeMaximalRun) |
| Files.MatchName | functions/files.php:24 | the groups of the rename pattern; no match for the empty name (Files.MatchNameShape) |
| Files.Renamed | functions/files.php:25 | the callback's replacement: base, "_", the number plus one (none reads as 0), extension |
| Files.NextName | functions/files.php:24-26 | the rename step as written; the empty name comes back unchanged (Files.NextNumber, Files.FirstNumber, Files.EmptyNameLoops) |
| Files.Rename | functions/files.php:24-26 | the corrected rename step: "_1" for the empty name, otherwise as written (Files.RenameProgress) |
| Files.LetToNumValue | functions/files.php:59-82 | the value m_let_to_num returns; the multiplied string is read as PHP arithmetic reads it, skipping the leading form feeds trim leaves (Files.ReadsSuffixedNumber, Files.UnsuffixedIsUnchanged) |
| Files.SanitizeAllowed | functions/files.php:21 | the sanitised name holds only [a-zA-Z0-9_~.-] and is never longer |
| Files.SanitizeKeepsAllowed | functions/files.php:21 | a name of allowed characters is unchanged |
| Files.SanitizeIdempotent | functions/files.php:21 | sanitising twice is sanitising once |
| Files.SanitizeAppend | functions/files.php:21 | the replacement over a + b is the replacement over a, then over b continuing a's run |
| Files.SanitizeStep | functions/files.php:21 | one character is written, or its run's single "-", then the rest is scanned |
| Files.SanitizeBadRun | functions/files.php:21 | a run of disallowed characters becomes one "-" |
| Files.SanitizeMaximalRun | functions/files.php:21 | every maximal run of disallowed characters between allowed ones or the ends becomes exactly one "-" |
| Files.IsExtFromIff | functions/files.php:24 | the extension test at a position is the (\.[^.]+) group on the rest of the name |
| Files.UnderscoreEnd | functions/files.php:24 | the (_?) group ends within the name, no earlier than it starts; that it holds "_" or nothing is stated by Files.GroupsAtCaptured |
| Files.DigitsEnd | functions/files.php:24 | the (\d*) group ends within the name, no earlier than it starts; that it is the longest digit run is stated by Files.DigitsEndShape |
| Files.DigitsEndShape | functions/files.php:24 | what (\d*) takes is all digits and is followed by a non-digit or the end |
| Files.ExtStart | functions/files.php:24 | the extension is looked for after the optional underscore and the digits |
| Files.TailStart | functions/files.php:24 | the lazy (.+?) group ends at a position where the rest of the pattern matches to the end; that it is the first such position is stated by Files.TailStartIs |
| Files.GroupsAtWhole | functions/files.php:24 | the four groups put back together are the whole name |
| Files.GroupsAtCaptured | functions/files.php:24 | at a matching position the groups have the shapes the pattern requires |
| Files.MatchNameShape | functions/files.php:24 | every non-empty name matches, with a non-empty first group, and the groups rebuild the name |
| Files.TailShape | functions/files.php:24 | where the rest of the pattern matches, the optional extension is the last "." with no later dot |
| Files.NoTailBefore | functions/files.php:24 | no earlier position lets the rest of the pattern match |
| Files.TailStartIs | functions/files.php:24 | the lazy group ends exactly at the first matching position |
| Files.NumberedGroups | functions/files.php:24 | "b_N.ext" splits into base b, underscore, N and .ext |
| Files.NextNumber | functions/files.php:24-26 | a rename turns "b_N.ext" into "b_(N+1).ext", so "a_3.txt" becomes "a_4.txt" |
| Files.PlainGroups | functions/files.php:24 | a name with no counter splits into its base and extension with empty underscore and digits |
| Files.FirstNumber | functions/files.php:24-26 | a name without a counter gets "_1" before its extension, so "a.txt" becomes "a_1.txt" |
| Files.UnderscoresAppend | functions/files.php:24-26 | underscores of a concatenation add up |
| Files.DigitSumAppend | functions/files.php:24-26 | the digit-run sum of a concatenation adds up across a non-digit boundary |
| Files.RenamedAdvances | functions/files.php:25 | the replacement adds an underscore, or keeps them and raises the digit-run sum by one |
| Files.NextNameProgress | functions/files.php:24-26 | each rename of a non-empty name moves strictly up the order the loop climbs |
| Files.RenameProgress | functions/files.php:22-27 | the same for the corrected step, empty name included |
| Files.MaxUnderscores | functions/files.php:23 | no listed name has more underscores than the maximum |
| Files.MaxDigitSum | functions/files.php:23 | no listed name has a larger digit-run sum than the maximum |
| Files.FreeName | functions/files.php:22-27 | the loop's result is not listed, and an unlisted name is kept as it is |
| Files.AllowedAppend | functions/files.php:21 | a concatenation is sanitised exactly when both parts are |
| Files.RenamedAllowed | functions/files.php:25 | the replacement of sanitised text is sanitised |
| Files.RenameKeepsAllowed | functions/files.php:24-26 | a rename keeps a sanitised name sanitised |
| Files.FreeNameAllowed | functions/files.php:22-27 | the free name found from a sanitised name is sanitised |
| Files.CheckFilename | functions/files.php:19-37 | with the empty-name step corrected (see Findings), the loop ends and the result is always sanitised; with no directory it is the sanitised name; with a listing it is unlisted and is the first free name along the renames |
| Files.EmptyNameLoops | functions/files.php:22-27 | as written, the empty name is never renamed, so with "" listed the loop condition holds after any number of rounds |
| Files.EmptyNameRenamed | functions/files.php:22-27 | with the corrected step the empty name leaves a listing of "" as "_1" |
| Files.LetToNum | functions/files.php:59-82 | the fall-through multiplies the trimmed value by 1024 once per case from the suffix's down to k, and returns the trimmed string when no case applies |
| Files.CaseStep | functions/files.php:62-79 | each case the switch runs multiplies the value the case above left by 1024, so after the case of power c the value is the number times 1024^(k-c+1) |
| Files.SuffixMultipliers | functions/files.php:62-79 | k multiplies by 1024, m by 1024^2, and so on up to y by 1024^8 |
| Files.ReadsSuffixedNumber | functions/files.php:60-79 | a number followed by a suffix letter in either case, and preceded by any number of form feeds, is the number times that suffix's multiplier |
| Files.UnsuffixedIsUnchanged | functions/files.php:62-81 | a value whose last trimmed character is no suffix comes back as the trimmed string |
| Files.PlainNumberIsUnchanged | functions/files.php:62-81 | a plain number comes back as its own text |
| Files.TrimOfNonBlankEnds | functions/files.php:60 | text with non-blank ends is its own trim |
| Files.TrimIdempotent | functions/files.php:60 | trimming twice is trimming once |
| Files.LetToNumTrims | functions/files.php:60 | a pre-trimmed argument gives the same value |
| Files.UploadErrorString | functions/files.php:43-53 | the name is "" exactly when the code is not one of the eight UPLOAD_ERR_* codes |
| Files.UploadErrorRoundTrip | functions/files.php:43-53 | each of the eight codes has a name that reads back as the code, and any other code reads back as none |
| Files.UploadErrorNamesDistinct | functions/files.php:43-53 | different codes have different names |

## Left out

- The database connection, the `mMySQL`/`mSQL` classes and the persistent cache library are not part of this model.
  - What they answer is a parameter (`Answers`, and the map held by the chosen backend).
  - `md5` and `escape` are uninterpreted functions.
  - `serialize`/`unserialize` are the identity.
  - Persistent-tier TTL expiry is not modelled; `ttl` is only recorded.
- `m_sql_set_database`, `m_sql_open`, `m_sql_close`, `m_sql_escape` and `m_sql_error` are connection plumbing. Whether the connection opens is `Answers.opens`.
- Exceptions from the statement itself are not modelled. Only the session statements' swallowed exceptions are (`timezoneThrows`, `namesThrows`).
- QueryCache.Database.List: the (int) cast reads the integer at the front of a string and saturates it at 64 bits. Not modelled: float arguments, which PHP truncates toward zero; strings holding a fraction or an exponent (such as "1e3", which newer PHP casts to 1000); arrays and objects. An integer argument is taken to be within 64 bits already.
- QueryCache.Link: one `escape` function stands for both `m_sql_escape` (sql.php:126-133) and the connection's `escape`. Before the connection is open, `m_sql_escape` falls back to the static escaper, and `m_sql_list` and `m_sql_count` escape their where-maps before `m_sql_objects` opens the connection, so they use the static escaper unless an earlier call opened it. `m_sql_delete` and `m_sql_update` open the connection first (sql.php:438, 493) and escape afterwards. The model does not tell the two escapers apart.
- QueryCache.FetchAll: rows are materialised as maps from field to string; the caller-named class of `m_sql_objects` is not modelled.
- QueryCache.Database.Count: the answer is the first row's `total` field as text, or none; PHP's notice on a missing row is not modelled.
- QueryCache.Database.Stats and `QueryCache.StatsOf`: the statistics are a record rather than an associative array; their properties are in `CacheProperties.StatsAddUp`.
- PHP's loose comparisons (`in_array`, `switch`, `==` on the upload codes, the truthiness of a loaded row) are modelled as exact comparisons on the values the code receives. Only strings count as setting values, and `m_sql_timezone`/`m_sql_names` take a string or null.
- Files.CheckFilename: does not model the `is_dir`/`file_exists` branch, which reads the file system. The listing is checked by exact membership, whereas PHP's `in_array` also treats numeric strings such as "10" and "1e1" as equal.
- Files.NextName: counters above PHP_INT_MAX become floats in PHP and are not modelled. The step is modelled for sanitised names, which hold no newline: PCRE's `.` not matching a newline, and its `$` matching before a final newline, are not modelled, so `Files.MatchName` matches every non-empty name.
- Files.LetToNum: does not model integers beyond 64 bits turning into floats (the z and y suffixes always overflow), fractions and exponents in the number, or PHP 8's error on non-numeric strings; PHP 7 arithmetic reads the leading integer after leading blanks.
- Strings are sequences of characters, one character per byte of the original; no multi-byte encoding is modelled, so `strlen` and `substr` count characters that stand for bytes.
- QueryCache.Reply: `m_sql_exec` returns what `query()` gives in the requested mode (sql.php:421, 428); a result set for a select sent in mode '' is not a case of `Reply`, which holds only false, true and a number.
- Files.NextNumber: the concrete renames "a.txt" to "a_1.txt" and "a_3.txt" to "a_4.txt" are instances of this lemma and of `Files.FirstNumber`, not lemmas of their own.
- `m_num_to_let` (floating-point `log`, `pow`, `sprintf`), the file-system and network helpers, and the HTML views are outside the modelled core.

## Findings

| source | as written | input that shows it | evidently intended | confidence | as-written member | corrected member |
|---|---|---|---|---|---|---|
| functions/files.php:22-27 | the rename pattern needs at least one character, so the empty name is left as it is and the loop repeats forever | `m_check_filename('', array(''))`: the name sanitises to "", which is listed, and every rename returns "" | the loop ends with a name not in the listing, "_1" here | not executed | Files.EmptyNameLoops | Files.CheckFilename |
