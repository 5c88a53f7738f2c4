/**
 * The pure half of functions/sql.php: the lexical statement classifier, the
 * cache key, and the text of every statement the helpers build. Values are
 * escaped by the connection's escape function, which this model does not see
 * and so takes as a parameter.
 */
module SqlText {
  import opened PhpText

  // ---------------------------------------------------------------------------
  // Classification

  /**
   * The test of sql.php: take the first |w| characters after ltrim, rtrim
   * them, lower-case them, and compare with w.
   */
  predicate PrefixIs(sql: string, w: string) {
    Lower(RTrim(Take(LTrim(sql), |w|))) == w
  }

  /** t begins with w when ASCII case is ignored. */
  predicate StartsWithWord(t: string, w: string) {
    |w| == 0 || (|t| > 0 && LowerChar(t[0]) == w[0] && StartsWithWord(t[1..], w[1..]))
  }

  /** The recursive test is the comparison of the lower-cased prefix with the word. */
  lemma {:induction false} StartsWithWordIff(t: string, w: string)
    ensures StartsWithWord(t, w) <==> |t| >= |w| && Lower(t[..|w|]) == w
  {
    if |w| > 0 && |t| > 0 {
      StartsWithWordIff(t[1..], w[1..]);
      if |t| >= |w| {
        var l := Lower(t[..|w|]);
        assert t[1..][..|w| - 1] == t[1..|w|];
        assert l == [LowerChar(t[0])] + Lower(t[1..|w|]);
      }
    }
  }

  /**
   * A statement that may be served from and stored into the caches: after
   * leading blanks it begins with "select" or "show" in any case. SelectIff
   * shows this is the prefix test of sql.php.
   */
  predicate IsSelect(sql: string) {
    StartsWithWord(LTrim(sql), "select") || StartsWithWord(LTrim(sql), "show")
  }

  /** A statement after which the runtime cache is cleared: it begins with "update" or "delete". */
  predicate IsUpdate(sql: string) {
    StartsWithWord(LTrim(sql), "update") || StartsWithWord(LTrim(sql), "delete")
  }

  /**
   * The rtrim in the prefix test never matters for a keyword that does not end
   * in a blank: the test holds exactly when the statement, left-trimmed,
   * begins with the keyword in any case. Nothing is required after it, so
   * "SELECTFOO" is a select.
   */
  lemma PrefixIsIff(sql: string, w: string)
    requires |w| > 0 && !IsBlank(w[|w| - 1])
    ensures PrefixIs(sql, w) <==> StartsWithWord(LTrim(sql), w)
  {
    var t := LTrim(sql);
    var x := Take(t, |w|);
    StartsWithWordIff(t, w);
    if PrefixIs(sql, w) {
      assert |RTrim(x)| == |w|;
      assert |x| == |w|;
      assert x == t[..|w|];
      assert RTrim(x) == x;
    }
    if StartsWithWord(t, w) {
      assert x == t[..|w|];
      var last := x[|x| - 1];
      assert LowerChar(last) == w[|w| - 1];
      assert !IsBlank(last);
      assert RTrim(x) == x;
    }
  }

  /** The classifier is exactly the test sql.php writes out. */
  lemma SelectIff(sql: string)
    ensures IsSelect(sql) <==> PrefixIs(sql, "select") || PrefixIs(sql, "show")
  {
    PrefixIsIff(sql, "select");
    PrefixIsIff(sql, "show");
  }

  lemma UpdateIff(sql: string)
    ensures IsUpdate(sql) <==> PrefixIs(sql, "update") || PrefixIs(sql, "delete")
  {
    PrefixIsIff(sql, "update");
    PrefixIsIff(sql, "delete");
  }

  /** No statement is both a cacheable read and a cache-clearing write. */
  lemma SelectIsNotUpdate(sql: string)
    ensures IsSelect(sql) ==> !IsUpdate(sql)
  {
    var t := LTrim(sql);
    if IsSelect(sql) {
      assert LowerChar(t[0]) == 's';
    }
  }

  /** Leading blanks are skipped and case is ignored. */
  lemma ClassifiesIndentedSelect(a: string)
    requires a == "  select * from t"
    ensures IsSelect(a)
  {
    var b := a[1..];
    var c := b[1..];
    assert a[0] == ' ' && b[0] == ' ' && c[0] == 's';
    assert LTrim(a) == LTrim(b);
    assert LTrim(b) == LTrim(c);
    LowerSelect("select");
    assert c[..6] == "select";
    StartsWithKeyword(c, "select", "select");
  }

  /** No word boundary is required after the keyword: "SELECTFOO" is a select. */
  lemma ClassifiesSelectFoo(a: string)
    requires a == "SELECTFOO"
    ensures IsSelect(a)
  {
    LowerSelect("SELECT");
    assert a[..6] == "SELECT";
    StartsWithKeyword(a, "SELECT", "select");
  }

  lemma ClassifiesUpdate(a: string)
    requires a == "UPDATE t SET x=1"
    ensures IsUpdate(a) && !IsSelect(a)
  {
    assert Lower("UPDATE") == "update";
    assert a[..6] == "UPDATE";
    StartsWithKeyword(a, "UPDATE", "update");
    SelectIsNotUpdate(a);
  }

  lemma ClassifiesInsertAsOther(a: string)
    requires a == "INSERT INTO t VALUES (1)"
    ensures !IsSelect(a) && !IsUpdate(a)
  {
    OtherKeyword(a);
  }

  lemma LowerSelect(kw: string)
    requires kw == "SELECT" || kw == "select"
    ensures Lower(kw) == "select"
  {
  }

  /** A statement that starts with a non-blank character is its own ltrim. */
  lemma LTrimNonBlank(s: string)
    requires |s| > 0 && !IsBlank(s[0])
    ensures LTrim(s) == s
  {
  }

  // ---------------------------------------------------------------------------
  // Cache key

  /** 'm_sql-' . token . '-' . md5(sql): the connection token and the digest of the text. */
  function CacheKey(token: string, digest: string): string {
    "m_sql-" + token + "-" + digest
  }

  /** On one connection, keys of different digests differ. */
  lemma CacheKeyInjective(token: string, d1: string, d2: string)
    requires CacheKey(token, d1) == CacheKey(token, d2)
    ensures d1 == d2
  {
    var p := "m_sql-" + token + "-";
    assert CacheKey(token, d1) == p + d1;
    assert CacheKey(token, d2) == p + d2;
    assert d1 == (p + d1)[|p|..];
    assert d2 == (p + d2)[|p|..];
  }

  // ---------------------------------------------------------------------------
  // Statement builders

  /** A PHP argument that is either a literal SQL fragment or an ordered array of field => value pairs. */
  datatype Fields = Text(text: string) | Pairs(pairs: seq<(string, string)>) {
    /** PHP truthiness of the argument: "" and "0" and the empty array are falsy. */
    predicate Given() {
      match this
      case Text(s) => Truthy(s)
      case Pairs(ps) => |ps| > 0
    }
  }

  /** A column-name argument of m_create_table: one name or an array of names. */
  datatype Names = Name(name: string) | NameList(names: seq<string>) {
    /** !empty($arg). */
    predicate Given() {
      match this
      case Name(s) => Truthy(s)
      case NameList(ns) => |ns| > 0
    }
  }

  /** "`k` = 'escaped v'": one equality of a where-map, and one escaped assignment. */
  function EqualsItem(esc: string -> string, k: string, v: string): string {
    "`" + k + "` = '" + esc(v) + "'"
  }

  function EqualsItems(esc: string -> string, ps: seq<(string, string)>): (r: seq<string>)
    ensures |r| == |ps|
    ensures forall i :: 0 <= i < |ps| ==> r[i] == EqualsItem(esc, ps[i].0, ps[i].1)
  {
    seq(|ps|, i requires 0 <= i < |ps| => EqualsItem(esc, ps[i].0, ps[i].1))
  }

  /** A where-map rendered as its equalities joined with " AND ". */
  function Conjunction(esc: string -> string, ps: seq<(string, string)>): string {
    Join(" AND ", EqualsItems(esc, ps))
  }

  /** The where-map of two maps laid end to end is the AND of their where-maps. */
  lemma ConjunctionAppend(esc: string -> string, a: seq<(string, string)>, b: seq<(string, string)>)
    requires |a| > 0 && |b| > 0
    ensures Conjunction(esc, a + b) == Conjunction(esc, a) + " AND " + Conjunction(esc, b)
  {
    assert EqualsItems(esc, a + b) == EqualsItems(esc, a) + EqualsItems(esc, b);
    JoinAppend(" AND ", EqualsItems(esc, a), EqualsItems(esc, b));
  }

  /** A where-map of one pair is that single equality. */
  lemma ConjunctionSingle(esc: string -> string, k: string, v: string)
    ensures Conjunction(esc, [(k, v)]) == "`" + k + "` = '" + esc(v) + "'"
  {
  }

  /** " WHERE ..." when the where argument is given, nothing otherwise. */
  function WhereClause(esc: string -> string, where: Fields): string {
    if !where.Given() then ""
    else
      match where
      case Text(s) => " WHERE " + s
      case Pairs(ps) => " WHERE " + Conjunction(esc, ps)
  }

  function LimitClause(offset: int, limit: int): string {
    " LIMIT " + IntToString(offset) + ", " + IntToString(limit)
  }

  /** The number of characters a signed decimal occupies at the front of s. */
  function NumberLength(s: string): (n: nat)
    ensures n <= |s|
  {
    if |s| > 0 && (s[0] == '-' || s[0] == '+') then 1 + DigitPrefixLength(s[1..])
    else DigitPrefixLength(s)
  }

  /** Reads offset and limit back out of a LIMIT clause. */
  function ReadLimit(c: string): (int, int) {
    if |c| < 7 then (0, 0)
    else
      var rest := c[7..];
      var n := NumberLength(rest);
      if n + 2 <= |rest| then (LeadingInt(rest), LeadingInt(rest[n + 2..])) else (LeadingInt(rest), 0)
  }

  lemma NumberLengthOfInt(n: int, rest: string)
    requires rest == [] || !IsDigit(rest[0])
    ensures NumberLength(IntToString(n) + rest) == |IntToString(n)|
  {
    var d := NatToDigits(if n < 0 then -n else n);
    if n < 0 {
      assert (IntToString(n) + rest)[1..] == d + rest;
    } else {
      assert IntToString(n) + rest == d + rest;
    }
    DigitPrefixOfDigits(d, rest);
  }

  /** The two numbers of a LIMIT clause, separated by sep, read back one after the other. */
  lemma ReadsTwoNumbers(x: int, y: int)
    ensures var rest := IntToString(x) + ", " + IntToString(y);
            var n := NumberLength(rest);
            && n == |IntToString(x)| && n + 2 <= |rest|
            && LeadingInt(rest) == x && LeadingInt(rest[n + 2..]) == y
  {
    var a, b := IntToString(x), IntToString(y);
    var sep := ", ";
    var rest := a + sep + b;
    assert rest == a + (sep + b);
    NumberLengthOfInt(x, sep + b);
    IntToStringRoundTrip(x, sep + b);
    assert rest[|a| + 2..] == b + [];
    IntToStringRoundTrip(y, []);
  }

  /** The LIMIT clause carries offset and limit exactly: reading it back gives them. */
  lemma LimitClauseRoundTrip(offset: int, limit: int)
    ensures ReadLimit(LimitClause(offset, limit)) == (offset, limit)
  {
    var sep := ", ";
    var rest := IntToString(offset) + sep + IntToString(limit);
    assert LimitClause(offset, limit)[7..] == rest;
    ReadsTwoNumbers(offset, limit);
  }

  /** m_sql_list: SELECT fields FROM table [WHERE ...] [ORDER BY ...] LIMIT offset, limit. */
  function ListSql(esc: string -> string, table: string, offset: int, limit: int,
                   fields: string, where: Fields, order: string): string
  {
    "SELECT " + fields + " FROM " + table + WhereClause(esc, where)
      + (if Truthy(order) then " ORDER BY " + order else "")
      + LimitClause(offset, limit)
  }

  /** m_sql_count. */
  function CountSql(esc: string -> string, table: string, where: Fields, fields: string): string {
    "SELECT COUNT(" + fields + ") AS total FROM " + table + WhereClause(esc, where)
  }

  /** m_sql_delete. */
  function DeleteSql(esc: string -> string, table: string, where: Fields): string {
    "DELETE FROM `" + table + "`" + WhereClause(esc, where)
  }

  /** The column list of an insert: `k` when escaping, the raw key otherwise. */
  function InsertKeys(ps: seq<(string, string)>, escape: bool): (r: seq<string>)
    ensures |r| == |ps|
    ensures forall i :: 0 <= i < |ps| ==> r[i] == if escape then "`" + ps[i].0 + "`" else ps[i].0
  {
    seq(|ps|, i requires 0 <= i < |ps| => if escape then "`" + ps[i].0 + "`" else ps[i].0)
  }

  /** The value list of an insert: 'escaped v' when escaping, the raw value otherwise. */
  function InsertValues(esc: string -> string, ps: seq<(string, string)>, escape: bool): (r: seq<string>)
    ensures |r| == |ps|
    ensures forall i :: 0 <= i < |ps| ==> r[i] == if escape then "'" + esc(ps[i].1) + "'" else ps[i].1
  {
    seq(|ps|, i requires 0 <= i < |ps| => if escape then "'" + esc(ps[i].1) + "'" else ps[i].1)
  }

  /** The assignments of an update: `k` = 'escaped v' when escaping, k = v otherwise. */
  function Assignments(esc: string -> string, ps: seq<(string, string)>, escape: bool): (r: seq<string>)
    ensures |r| == |ps|
    ensures escape ==> forall i :: 0 <= i < |ps| ==> r[i] == EqualsItem(esc, ps[i].0, ps[i].1)
    ensures !escape ==> forall i :: 0 <= i < |ps| ==> r[i] == ps[i].0 + " = " + ps[i].1
  {
    if escape then EqualsItems(esc, ps)
    else seq(|ps|, i requires 0 <= i < |ps| => ps[i].0 + " = " + ps[i].1)
  }

  function InsertHead(esc: string -> string, table: string, ps: seq<(string, string)>, escape: bool): string {
    "INSERT INTO `" + table + "`\n\t(" + Join(",", InsertKeys(ps, escape))
      + ") VALUES (" + Join(",", InsertValues(esc, ps, escape)) + ")"
  }

  /** m_sql_insert. */
  function InsertSql(esc: string -> string, table: string, ps: seq<(string, string)>, escape: bool): string {
    InsertHead(esc, table, ps, escape)
  }

  /** m_sql_update: an array of assignments or a literal SET fragment, then the where clause. */
  function UpdateSql(esc: string -> string, table: string, assign: Fields, where: Fields, escape: bool): string {
    var head :=
      match assign
      case Pairs(ps) => "UPDATE `" + table + "` SET\n\t\t\t" + Join(",", Assignments(esc, ps, escape))
      case Text(s) => "UPDATE `" + table + "` SET " + s;
    head + WhereClause(esc, where)
  }

  /**
   * The text after ON DUPLICATE KEY UPDATE in m_sql_insert_update: a given
   * array of custom assignments replaces the inserted pairs, a given custom
   * fragment is used verbatim, and otherwise the inserted pairs are assigned.
   */
  function OnDuplicate(esc: string -> string, ps: seq<(string, string)>, escape: bool, custom: Fields): string {
    match custom
    case Pairs(cs) => Join(",", Assignments(esc, if |cs| > 0 then cs else ps, escape))
    case Text(s) => if Truthy(s) then s else Join(",", Assignments(esc, ps, escape))
  }

  /** m_sql_insert_update. */
  function InsertUpdateSql(esc: string -> string, table: string, ps: seq<(string, string)>,
                           escape: bool, custom: Fields): string
  {
    InsertHead(esc, table, ps, escape) + "\n\tON DUPLICATE KEY UPDATE\n\t\t"
      + OnDuplicate(esc, ps, escape, custom)
  }

  /** ",\nKIND (`a`,`b`)\n" for a given index argument, nothing otherwise. */
  function IndexClause(kind: string, n: Names): string {
    if !n.Given() then ""
    else
      match n
      case NameList(ns) => ",\n" + kind + " (`" + Join("`,`", ns) + "`)\n"
      case Name(s) => ",\n" + kind + " (`" + s + "`)\n"
  }

  /** One "`name` type" definition per column, in order. */
  function ColumnDefs(columns: seq<(string, string)>): (r: seq<string>)
    ensures |r| == |columns|
    ensures forall i :: 0 <= i < |columns| ==> r[i] == "`" + columns[i].0 + "` " + columns[i].1
  {
    seq(|columns|, i requires 0 <= i < |columns| => "`" + columns[i].0 + "` " + columns[i].1)
  }

  /** m_create_table. */
  function CreateTableSql(table: string, columns: seq<(string, string)>, pk: Names, unique: Names,
                          fulltext: Names, charset: string, engine: string): string
  {
    "CREATE TABLE `" + table + "` (" + Join(",\n", ColumnDefs(columns))
      + IndexClause("PRIMARY KEY", pk) + IndexClause("UNIQUE KEY", unique)
      + IndexClause("FULLTEXT KEY", fulltext) + ")"
      + (if Truthy(engine) then " ENGINE=" + engine else "")
      + (if Truthy(charset) then " DEFAULT CHARSET=" + charset else "")
  }

  /** A sample value of m_auto_create_table: a PHP string, a PHP integer, or anything else. */
  datatype Sample = StringSample(s: string) | IntSample(i: int) | OtherSample

  /** The column type guessed from one sample value. */
  function ColumnType(v: Sample): (t: string)
    ensures t == "TEXT" <==> v.StringSample? && |v.s| > 100
    ensures t == "CHAR(255)" <==> v.StringSample? && |v.s| <= 100
    ensures t == "INT" <==> v.IntSample?
    ensures t == "" <==> v.OtherSample?
  {
    match v
    case StringSample(s) => if |s| > 100 then "TEXT" else "CHAR(255)"
    case IntSample(_) => "INT"
    case OtherSample => ""
  }

  function AutoColumns(samples: seq<(string, Sample)>): (r: seq<(string, string)>)
    ensures |r| == |samples|
    ensures forall i :: 0 <= i < |r| ==> r[i] == (samples[i].0, ColumnType(samples[i].1))
  {
    seq(|samples|, i requires 0 <= i < |samples| => (samples[i].0, ColumnType(samples[i].1)))
  }

  /** m_auto_create_table: no index clauses, engine unset, charset utf8. */
  function AutoCreateTableSql(table: string, samples: seq<(string, Sample)>): string {
    CreateTableSql(table, AutoColumns(samples), NameList([]), NameList([]), NameList([]), "utf8", "")
  }

  /** Every column of an automatically created table is named and typed after its sample, in order. */
  lemma AutoCreateTableColumns(table: string, samples: seq<(string, Sample)>)
    ensures AutoCreateTableSql(table, samples)
         == "CREATE TABLE `" + table + "` (" + Join(",\n", ColumnDefs(AutoColumns(samples))) + ") DEFAULT CHARSET=utf8"
    ensures forall i :: 0 <= i < |samples| ==>
              ColumnDefs(AutoColumns(samples))[i] == "`" + samples[i].0 + "` " + ColumnType(samples[i].1)
  {
  }

  // ---------------------------------------------------------------------------
  // Session statements

  /** The statement that applies a time zone; quotes are removed from the value, not escaped. */
  function TimezoneSql(tz: string): string {
    "SET time_zone = '" + StripQuotes(tz) + "'"
  }

  /** The statement that applies a connection charset. */
  function NamesSql(names: string): string {
    "SET NAMES " + StripQuotes(names)
  }

  /** The two session statements never coincide, and each determines its (quote-free) value. */
  lemma SessionSqlDistinct(tz: string, tz2: string, names: string)
    ensures TimezoneSql(tz) != NamesSql(names)
    ensures TimezoneSql(tz) == TimezoneSql(tz2) ==> StripQuotes(tz) == StripQuotes(tz2)
  {
    assert TimezoneSql(tz)[4] == 't';
    assert NamesSql(names)[4] == 'N';
    if TimezoneSql(tz) == TimezoneSql(tz2) {
      var p := "SET time_zone = '";
      assert TimezoneSql(tz) == p + StripQuotes(tz) + "'";
      assert StripQuotes(tz) == TimezoneSql(tz)[|p|..|TimezoneSql(tz)| - 1];
      assert StripQuotes(tz2) == TimezoneSql(tz2)[|p|..|TimezoneSql(tz2)| - 1];
    }
  }

  // ---------------------------------------------------------------------------
  // How the built statements classify

  lemma StartsWithKeyword(sql: string, kw: string, w: string)
    requires |sql| >= |kw| == |w| > 0 && sql[..|kw|] == kw && Lower(kw) == w && !IsBlank(kw[0])
    ensures StartsWithWord(LTrim(sql), w)
  {
    LTrimNonBlank(sql);
    assert sql[..|w|] == kw;
    StartsWithWordIff(sql, w);
  }

  lemma DoesNotStartWith(sql: string, kw: string, w: string)
    requires |sql| >= |kw| == |w| > 0 && sql[..|kw|] == kw && Lower(kw) != w && !IsBlank(kw[0])
    ensures !StartsWithWord(LTrim(sql), w)
  {
    LTrimNonBlank(sql);
    assert sql[..|w|] == kw;
    StartsWithWordIff(sql, w);
  }

  /** Listing and counting build reads, so their results are cached. */
  lemma ListAndCountAreSelects(esc: string -> string, table: string, offset: int, limit: int,
                               fields: string, where: Fields, order: string)
    ensures IsSelect(ListSql(esc, table, offset, limit, fields, where, order))
    ensures IsSelect(CountSql(esc, table, where, fields))
    ensures !IsUpdate(ListSql(esc, table, offset, limit, fields, where, order))
  {
    ListIsSelect(esc, table, offset, limit, fields, where, order);
    SelectIsNotUpdate(ListSql(esc, table, offset, limit, fields, where, order));
    var c := CountSql(esc, table, where, fields);
    assert c[..6] == "SELECT";
    StartsWithKeyword(c, "SELECT", "select");
  }

  lemma ListIsSelect(esc: string -> string, table: string, offset: int, limit: int,
                     fields: string, where: Fields, order: string)
    ensures IsSelect(ListSql(esc, table, offset, limit, fields, where, order))
  {
    var l := ListSql(esc, table, offset, limit, fields, where, order);
    assert l[..6] == "SELECT";
    StartsWithKeyword(l, "SELECT", "select");
  }

  /** The text of m_sql_list always ends with its LIMIT clause, which reads back as offset and limit. */
  lemma ListSqlPaging(esc: string -> string, table: string, offset: int, limit: int,
                      fields: string, where: Fields, order: string)
    ensures var s := ListSql(esc, table, offset, limit, fields, where, order);
            var c := LimitClause(offset, limit);
            |s| >= |c| && s[|s| - |c|..] == c && ReadLimit(c) == (offset, limit)
  {
    LimitClauseRoundTrip(offset, limit);
  }

  /** Deletes and updates built by the helpers are the writes that clear the runtime cache. */
  lemma DeleteAndUpdateAreWrites(esc: string -> string, table: string, assign: Fields, where: Fields, escape: bool)
    ensures IsUpdate(DeleteSql(esc, table, where)) && !IsSelect(DeleteSql(esc, table, where))
    ensures IsUpdate(UpdateSql(esc, table, assign, where, escape)) && !IsSelect(UpdateSql(esc, table, assign, where, escape))
  {
    var d := DeleteSql(esc, table, where);
    assert d[..6] == "DELETE";
    StartsWithKeyword(d, "DELETE", "delete");
    SelectIsNotUpdate(d);
    var u := UpdateSql(esc, table, assign, where, escape);
    assert u[..6] == "UPDATE";
    StartsWithKeyword(u, "UPDATE", "update");
    SelectIsNotUpdate(u);
  }

  /** A statement opening with INSERT or CREATE is neither a read nor a cache-clearing write. */
  lemma OtherKeyword(s: string)
    requires |s| >= 6 && (s[..6] == "INSERT" || s[..6] == "CREATE")
    ensures !IsSelect(s) && !IsUpdate(s)
  {
    var kw := s[..6];
    assert Lower(kw)[0] == LowerChar(kw[0]) && (kw[0] == 'I' || kw[0] == 'C');
    DoesNotStartWith(s, kw, "select");
    DoesNotStartWith(s, kw, "update");
    DoesNotStartWith(s, kw, "delete");
    assert s[..4] == kw[..4];
    assert Lower(kw[..4])[0] == LowerChar(kw[0]);
    DoesNotStartWith(s, kw[..4], "show");
  }

  /** Inserts, upserts and table creation are neither reads nor cache-clearing writes. */
  lemma InsertsAndDdlAreOther(esc: string -> string, table: string, ps: seq<(string, string)>, escape: bool,
                              custom: Fields, columns: seq<(string, string)>, pk: Names, unique: Names,
                              fulltext: Names, charset: string, engine: string)
    ensures var s := InsertSql(esc, table, ps, escape); !IsSelect(s) && !IsUpdate(s)
    ensures var s := InsertUpdateSql(esc, table, ps, escape, custom); !IsSelect(s) && !IsUpdate(s)
    ensures var s := CreateTableSql(table, columns, pk, unique, fulltext, charset, engine); !IsSelect(s) && !IsUpdate(s)
  {
    var i := InsertSql(esc, table, ps, escape);
    assert i[..6] == "INSERT";
    OtherKeyword(i);
    var u := InsertUpdateSql(esc, table, ps, escape, custom);
    assert u[..6] == "INSERT";
    OtherKeyword(u);
    var c := CreateTableSql(table, columns, pk, unique, fulltext, charset, engine);
    assert c[..6] == "CREATE";
    OtherKeyword(c);
  }
}
