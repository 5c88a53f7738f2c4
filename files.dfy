/**
 * The string and number helpers of functions/files.php: the file-name
 * sanitiser and the search for an unused name in a listing
 * (m_check_filename), the php.ini size notation reader (m_let_to_num), and
 * the names of the upload error codes (m_get_string_for_upload_error).
 */
module Files {
  import opened PhpText

  // ---------------------------------------------------------------------------
  // Sanitising: preg_replace('/[^a-z0-9_~\.-]+/i', '-', $name)

  /** The characters the pattern leaves alone, either case of a letter included. */
  predicate Allowed(c: char) {
    ('a' <= c <= 'z') || ('A' <= c <= 'Z') || ('0' <= c <= '9') || c == '_' || c == '~' || c == '.' || c == '-'
  }

  predicate AllAllowed(s: string) {
    forall i :: 0 <= i < |s| ==> Allowed(s[i])
  }

  /**
   * The replacement scanned left to right; `inRun` says the previous
   * character was already part of a replaced run, whose "-" has been written.
   */
  function SanitizeFrom(s: string, inRun: bool): string {
    if s == [] then [] else Written(s[0], inRun) + SanitizeFrom(s[1..], !Allowed(s[0]))
  }

  /** What the scan writes for one character: the character itself, or "-" for the first of a run. */
  function Written(c: char, inRun: bool): string {
    if Allowed(c) then [c] else if inRun then [] else ['-']
  }

  /** The name with every maximal run of other characters replaced by one "-". */
  function Sanitize(s: string): string {
    SanitizeFrom(s, false)
  }

  /** The result holds only allowed characters and is never longer than the name. */
  lemma {:induction false} SanitizeAllowed(s: string, inRun: bool)
    ensures AllAllowed(SanitizeFrom(s, inRun)) && |SanitizeFrom(s, inRun)| <= |s|
  {
    if s != [] {
      SanitizeAllowed(s[1..], !Allowed(s[0]));
      AllowedAppend(Written(s[0], inRun), SanitizeFrom(s[1..], !Allowed(s[0])));
    }
  }

  /** A name made of allowed characters comes through unchanged. */
  lemma {:induction false} SanitizeKeepsAllowed(s: string, inRun: bool)
    requires AllAllowed(s)
    ensures SanitizeFrom(s, inRun) == s
  {
    if s != [] {
      SanitizeKeepsAllowed(s[1..], false);
    }
  }

  /** Sanitising twice is sanitising once. */
  lemma SanitizeIdempotent(s: string)
    ensures Sanitize(Sanitize(s)) == Sanitize(s)
  {
    SanitizeAllowed(s, false);
    SanitizeKeepsAllowed(Sanitize(s), false);
  }

  /** Whether the scan is inside a replaced run after reading a. */
  function EndsInRun(a: string, inRun: bool): bool {
    if a == [] then inRun else !Allowed(a[|a| - 1])
  }

  /** The scan over a + b is the scan over a, then the scan over b in the state a left. */
  lemma {:induction false} SanitizeAppend(a: string, b: string, inRun: bool)
    ensures SanitizeFrom(a + b, inRun) == SanitizeFrom(a, inRun) + SanitizeFrom(b, EndsInRun(a, inRun))
  {
    if a != [] {
      var c := a[0];
      var t := a[1..];
      assert a == [c] + t && a + b == [c] + (t + b);
      SanitizeStep(c, t, inRun);
      SanitizeStep(c, t + b, inRun);
      SanitizeAppend(t, b, !Allowed(c));
      assert EndsInRun(t, !Allowed(c)) == EndsInRun(a, inRun) by {
        if t != [] {
          assert t[|t| - 1] == a[|a| - 1];
        }
      }
      var x := SanitizeFrom(t, !Allowed(c));
      var y := SanitizeFrom(b, EndsInRun(a, inRun));
      var w := Written(c, inRun);
      assert w + (x + y) == (w + x) + y;
    } else {
      assert a + b == b;
    }
  }

  lemma SanitizeStep(c: char, t: string, inRun: bool)
    ensures SanitizeFrom([c] + t, inRun) == Written(c, inRun) + SanitizeFrom(t, !Allowed(c))
  {
    assert ([c] + t)[0] == c && ([c] + t)[1..] == t;
  }

  /** A run of replaced characters alone becomes one "-", or nothing inside a run. */
  lemma {:induction false} SanitizeBadRun(r: string, inRun: bool)
    requires forall i :: 0 <= i < |r| ==> !Allowed(r[i])
    ensures SanitizeFrom(r, inRun) == if r == [] || inRun then [] else ['-']
  {
    if r != [] {
      SanitizeBadRun(r[1..], true);
    }
  }

  /**
   * The pattern replaces each maximal run: whatever stands between two
   * allowed characters (or the ends of the name) and is made only of other
   * characters becomes a single "-".
   */
  lemma SanitizeMaximalRun(a: string, r: string, b: string)
    requires r != [] && forall i :: 0 <= i < |r| ==> !Allowed(r[i])
    requires a == [] || Allowed(a[|a| - 1])
    requires b == [] || Allowed(b[0])
    ensures Sanitize(a + r + b) == Sanitize(a) + "-" + Sanitize(b)
  {
    SanitizeAppend(a + r, b, false);
    SanitizeAppend(a, r, false);
    SanitizeBadRun(r, false);
    assert EndsInRun(a + r, false);
    if b != [] {
      assert SanitizeFrom(b, true) == [b[0]] + SanitizeFrom(b[1..], false);
    }
  }

  // ---------------------------------------------------------------------------
  // The rename step: preg_replace_callback('/^(.+?)(_?)(\d*)(\.[^.]+)?$/', ...)

  /** "." followed by at least one character, none of them a dot: the group (\.[^.]+). */
  predicate IsExt(e: string) {
    |e| >= 2 && e[0] == '.' && forall i :: 1 <= i < |e| ==> e[i] != '.'
  }

  /** The same, for the rest of s from position k on. */
  predicate IsExtFrom(s: string, k: nat)
    requires k <= |s|
  {
    |s| - k >= 2 && s[k] == '.' && forall i :: k < i < |s| ==> s[i] != '.'
  }

  lemma IsExtFromIff(s: string, k: nat)
    requires k <= |s|
    ensures IsExtFrom(s, k) <==> IsExt(s[k..])
  {
    assert forall i :: k <= i < |s| ==> s[k..][i - k] == s[i];
  }

  /** Where the group (_?) ends when the tail starts at j; being greedy it takes an underscore when there is one. */
  function UnderscoreEnd(s: string, j: nat): (u: nat)
    requires j <= |s|
    ensures j <= u <= |s|
  {
    if j < |s| && s[j] == '_' then j + 1 else j
  }

  /** Where (\d*), greedy, stops when it starts at p. */
  function DigitsEnd(s: string, p: nat): (q: nat)
    requires p <= |s|
    ensures p <= q <= |s|
    decreases |s| - p
  {
    if p < |s| && IsDigit(s[p]) then DigitsEnd(s, p + 1) else p
  }

  /** DigitsEnd stops at the first non-digit. */
  lemma {:induction false} DigitsEndIs(s: string, p: nat, q: nat)
    requires p <= q <= |s| && (forall i :: p <= i < q ==> IsDigit(s[i])) && (q == |s| || !IsDigit(s[q]))
    ensures DigitsEnd(s, p) == q
    decreases q - p
  {
    if p < q {
      DigitsEndIs(s, p + 1, q);
    }
  }

  /** DigitsEnd passes only digits and stops before a non-digit. */
  lemma {:induction false} DigitsEndShape(s: string, p: nat)
    requires p <= |s|
    ensures forall i :: p <= i < DigitsEnd(s, p) ==> IsDigit(s[i])
    ensures DigitsEnd(s, p) == |s| || !IsDigit(s[DigitsEnd(s, p)])
    decreases |s| - p
  {
    if p < |s| && IsDigit(s[p]) {
      DigitsEndShape(s, p + 1);
    }
  }

  /** Where the extension group must start when the tail starts at j. */
  function ExtStart(s: string, j: nat): (k: nat)
    requires j <= |s|
    ensures UnderscoreEnd(s, j) <= k <= |s|
  {
    DigitsEnd(s, UnderscoreEnd(s, j))
  }

  /**
   * The rest of s from j is what (_?)(\d*)(\.[^.]+)?$ can match in full. A
   * shorter choice for either greedy group leaves an underscore or a digit
   * where only a dot or the end may stand, so the greedy choice is the only
   * one that can succeed.
   */
  predicate IsTailAt(s: string, j: nat)
    requires j <= |s|
  {
    ExtStart(s, j) == |s| || IsExtFrom(s, ExtStart(s, j))
  }

  /**
   * The lazy (.+?) stops at the first position, from k on, where a tail
   * starts; the end of the name is one, so the search always ends.
   */
  function TailStart(s: string, k: nat): (j: nat)
    requires 1 <= k <= |s|
    ensures k <= j <= |s| && IsTailAt(s, j)
    decreases |s| - k
  {
    if IsTailAt(s, k) then k else TailStart(s, k + 1)
  }

  /** The four groups of a match. */
  datatype Groups = Groups(base: string, underscore: string, digits: string, ext: string)

  /** What each group can hold: a non-empty base, "_" or nothing, digits, and an extension or nothing. */
  predicate Captured(g: Groups) {
    && |g.base| >= 1
    && (g.underscore == [] || g.underscore == "_")
    && AllDigits(g.digits)
    && (g.ext == [] || IsExt(g.ext))
  }

  /** The text the four groups cover. */
  function Whole(g: Groups): string {
    g.base + (g.underscore + (g.digits + g.ext))
  }

  /** The groups the pattern captures when the tail starts at j. */
  function GroupsAt(s: string, j: nat): Groups
    requires j <= |s|
  {
    var u := UnderscoreEnd(s, j);
    var k := ExtStart(s, j);
    Groups(s[..j], s[j..u], s[u..k], s[k..])
  }

  /** The groups at any position cover the name. */
  lemma GroupsAtWhole(s: string, j: nat)
    requires j <= |s|
    ensures Whole(GroupsAt(s, j)) == s
  {
    var u := UnderscoreEnd(s, j);
    var k := ExtStart(s, j);
    assert s[u..k] + s[k..] == s[u..];
    assert s[j..u] + s[u..] == s[j..];
    assert s[..j] + s[j..] == s;
  }

  /** Where a tail starts, each group holds what the pattern allows it. */
  lemma GroupsAtCaptured(s: string, j: nat)
    requires 1 <= j <= |s| && IsTailAt(s, j)
    ensures Captured(GroupsAt(s, j))
  {
    var u := UnderscoreEnd(s, j);
    var k := ExtStart(s, j);
    assert u == j + 1 ==> s[j..u] == "_";
    DigitsEndShape(s, u);
    assert forall i :: 0 <= i < k - u ==> s[u..k][i] == s[u + i];
    IsExtFromIff(s, k);
  }

  /** Split where a tail starts, the name falls into the four groups. */
  lemma GroupsAtShape(s: string, j: nat)
    requires 1 <= j <= |s| && IsTailAt(s, j)
    ensures Captured(GroupsAt(s, j)) && Whole(GroupsAt(s, j)) == s
  {
    GroupsAtWhole(s, j);
    GroupsAtCaptured(s, j);
  }

  /** The match of the pattern on s; none on the empty name, as (.+?) needs a character. */
  function MatchName(s: string): Option<Groups> {
    if s == [] then None else Some(GroupsAt(s, TailStart(s, 1)))
  }

  /** A match covers the whole name, each group holding what the pattern allows it. */
  lemma MatchNameShape(s: string)
    requires s != []
    ensures Captured(MatchName(s).value) && Whole(MatchName(s).value) == s
  {
    GroupsAtShape(s, TailStart(s, 1));
  }

  /** The replacement the callback builds from the groups: base, "_", the number plus one (no number reads as 0), extension. */
  function Renamed(g: Groups): string
    requires Captured(g)
  {
    g.base + ("_" + (NatToDigits(DigitsValue(g.digits) + 1) + g.ext))
  }

  /** One rename as written; a name the pattern does not match (among newline-free names, only the empty one) is returned unchanged. */
  function NextName(s: string): string {
    if s == [] then s
    else
      MatchNameShape(s);
      Renamed(MatchName(s).value)
  }

  /** The rename step with the empty name given the empty base, so that it too becomes "_1". */
  function Rename(s: string): string {
    if s == [] then "_1" else NextName(s)
  }

  /**
   * In a tail starting at j, a character that is neither a digit nor a dot,
   * and is not the tail's leading underscore, lies inside the extension:
   * after its only dot.
   */
  lemma TailShape(s: string, j: nat, i: nat)
    requires j <= i < |s| && !IsDigit(s[i]) && s[i] != '.' && (i == j ==> s[i] != '_')
    ensures IsTailAt(s, j) ==> && ExtStart(s, j) < i && s[ExtStart(s, j)] == '.'
                               && forall m :: i < m < |s| ==> s[m] != '.'
  {
    DigitsEndShape(s, UnderscoreEnd(s, j));
  }

  /**
   * No position from 1 up to (not including) k starts a tail when a
   * non-digit, non-dot marker follows and either a dot comes after the
   * marker or no dot comes before it.
   */
  lemma NoTailBefore(s: string, marker: nat, k: nat, dot: nat)
    requires 1 <= k <= marker + 1 && marker < |s| && !IsDigit(s[marker]) && s[marker] != '.'
    requires k == marker + 1 ==> s[marker] != '_'
    requires (marker < dot < |s| && s[dot] == '.') || (forall p :: 1 <= p < marker ==> s[p] != '.')
    ensures forall j :: 1 <= j < k ==> !IsTailAt(s, j)
  {
    forall j | 1 <= j < k
      ensures !IsTailAt(s, j)
    {
      TailShape(s, j, marker);
    }
  }

  /** The search for the tail stops at j when no earlier position from k on starts one. */
  lemma {:induction false} TailStartIs(s: string, k: nat, j: nat)
    requires 1 <= k <= j <= |s| && IsTailAt(s, j)
    requires forall i :: k <= i < j ==> !IsTailAt(s, i)
    ensures TailStart(s, k) == j
    decreases j - k
  {
    if k < j {
      TailStartIs(s, k + 1, j);
    }
  }

  /** When the extension is absent no dot may follow the first character of the base. */
  predicate BaseFits(b: string, e: string) {
    |b| >= 1 && (IsExt(e) || (e == [] && forall i :: 1 <= i < |b| ==> b[i] != '.'))
  }

  /** In base_n.ext the tail starts at the underscore and its groups are "_", n and .ext. */
  lemma NumberedGroups(b: string, d: string, e: string)
    requires BaseFits(b, e) && AllDigits(d) && |d| >= 1
    ensures var s := b + ("_" + (d + e));
            TailStart(s, 1) == |b| && GroupsAt(s, |b|) == Groups(b, "_", d, e)
  {
    var s := b + ("_" + (d + e));
    var x := |b| + 1 + |d|;
    assert forall i :: |b| < i < x ==> s[i] == d[i - |b| - 1];
    assert x < |s| ==> s[x] == e[0];
    DigitsEndIs(s, |b| + 1, x);
    assert s[x..] == e;
    IsExtFromIff(s, x);
    NoTailBefore(s, |b|, |b|, x);
    TailStartIs(s, 1, |b|);
    assert s[..|b|] == b && s[|b|..|b| + 1] == "_" && s[|b| + 1..x] == d;
  }

  /** A numbered name gets the next number: base_n.ext becomes base_(n+1).ext. */
  lemma NextNumber(b: string, n: nat, e: string)
    requires BaseFits(b, e)
    ensures NextName(b + ("_" + (NatToDigits(n) + e))) == b + ("_" + (NatToDigits(n + 1) + e))
  {
    NumberedGroups(b, NatToDigits(n), e);
  }

  /** In base.ext, with a base not ending in a digit, "_" or ".", the tail is the extension alone. */
  lemma PlainGroups(b: string, e: string)
    requires BaseFits(b, e)
    requires var c := b[|b| - 1]; c != '_' && c != '.' && !IsDigit(c)
    ensures TailStart(b + e, 1) == |b| && GroupsAt(b + e, |b|) == Groups(b, [], [], e)
  {
    var s := b + e;
    assert |b| < |s| ==> s[|b|] == e[0];
    DigitsEndIs(s, |b|, |b|);
    assert s[|b|..] == e;
    IsExtFromIff(s, |b|);
    NoTailBefore(s, |b| - 1, |b|, |b|);
    TailStartIs(s, 1, |b|);
    assert s[..|b|] == b;
  }

  /** A name without a number gets "_1" before its extension: base.ext becomes base_1.ext. */
  lemma FirstNumber(b: string, e: string)
    requires BaseFits(b, e)
    requires var c := b[|b| - 1]; c != '_' && c != '.' && !IsDigit(c)
    ensures NextName(b + e) == b + ("_" + ("1" + e))
  {
    PlainGroups(b, e);
    assert NatToDigits(1) == "1";
  }

  // ---------------------------------------------------------------------------
  // Why the search ends

  /** The number of underscores in s. */
  function Underscores(s: string): nat {
    if s == [] then 0 else (if s[0] == '_' then 1 else 0) + Underscores(s[1..])
  }

  lemma {:induction false} UnderscoresAppend(a: string, b: string)
    ensures Underscores(a + b) == Underscores(a) + Underscores(b)
  {
    if a != [] {
      assert (a + b)[0] == a[0];
      assert (a + b)[1..] == a[1..] + b;
      UnderscoresAppend(a[1..], b);
    } else {
      assert a + b == b;
    }
  }

  lemma {:induction false} NoUnderscoreInDigits(d: string)
    requires AllDigits(d)
    ensures Underscores(d) == 0
  {
    if d != [] {
      assert IsDigit(d[0]);
      NoUnderscoreInDigits(d[1..]);
    }
  }

  /** Underscores of base, an optional underscore, digits and an extension. */
  lemma UnderscoresOfParts(a: string, u: string, d: string, e: string)
    requires AllDigits(d)
    ensures Underscores(a + (u + (d + e))) == Underscores(a) + Underscores(u) + Underscores(e)
  {
    UnderscoresAppend(a, u + (d + e));
    UnderscoresAppend(u, d + e);
    UnderscoresAppend(d, e);
    NoUnderscoreInDigits(d);
  }

  /** The sum of the values of the maximal runs of digits in s. */
  function DigitSum(s: string): nat {
    if s == [] then 0
    else if IsDigit(s[0]) then
      var n := DigitPrefixLength(s);
      DigitsValue(s[..n]) + DigitSum(s[n..])
    else DigitSum(s[1..])
  }

  /** Runs do not cross a boundary followed by a non-digit, so their sums add up. */
  lemma {:induction false} DigitSumAppend(a: string, b: string)
    requires b == [] || !IsDigit(b[0])
    ensures DigitSum(a + b) == DigitSum(a) + DigitSum(b)
    decreases |a|
  {
    if a == [] {
      assert a + b == b;
    } else if IsDigit(a[0]) {
      var n := DigitPrefixLength(a);
      var d := a[..n];
      assert a == d + a[n..];
      assert a + b == d + (a[n..] + b);
      DigitPrefixOfDigits(d, a[n..] + b);
      assert (a + b)[..n] == d && (a + b)[n..] == a[n..] + b;
      DigitSumAppend(a[n..], b);
    } else {
      assert (a + b)[0] == a[0];
      assert (a + b)[1..] == a[1..] + b;
      DigitSumAppend(a[1..], b);
    }
  }

  /** Base, an underscore, a run of digits and an extension: the run adds its value. */
  lemma DigitSumOfParts(a: string, d: string, e: string)
    requires AllDigits(d) && (e == [] || IsExt(e))
    ensures DigitSum(a + ("_" + (d + e))) == DigitSum(a) + DigitsValue(d) + DigitSum(e)
  {
    DigitSumAppend(a, "_" + (d + e));
    assert ("_" + (d + e))[1..] == d + e;
    DigitPrefixOfDigits(d, e);
    if d != [] {
      assert (d + e)[..|d|] == d && (d + e)[|d|..] == e;
    } else {
      assert d + e == e;
    }
  }

  /** t is past s in the order the renames climb: one more underscore, or as many and a digit sum one higher. */
  predicate Advances(s: string, t: string) {
    || Underscores(t) == Underscores(s) + 1
    || (Underscores(t) == Underscores(s) && DigitSum(t) == DigitSum(s) + 1)
  }

  /** The replacement is past the text it replaces. */
  lemma RenamedAdvances(g: Groups)
    requires Captured(g)
    ensures Advances(Whole(g), Renamed(g))
  {
    var d1 := NatToDigits(DigitsValue(g.digits) + 1);
    UnderscoresOfParts(g.base, g.underscore, g.digits, g.ext);
    UnderscoresOfParts(g.base, "_", d1, g.ext);
    assert Underscores("_") == 1;
    if g.underscore == "_" {
      DigitSumOfParts(g.base, g.digits, g.ext);
      DigitSumOfParts(g.base, d1, g.ext);
    } else {
      assert Underscores(g.underscore) == 0;
    }
  }

  /**
   * Each rename of a non-empty name either adds an underscore, or keeps the
   * underscores and raises the number after the last one by exactly one, so
   * the sum of the digit runs grows by one.
   */
  lemma NextNameProgress(s: string)
    requires s != []
    ensures Advances(s, NextName(s))
  {
    MatchNameShape(s);
    RenamedAdvances(MatchName(s).value);
  }

  /** The same for the corrected step, whose "_1" for the empty name adds an underscore. */
  lemma RenameProgress(s: string)
    ensures Advances(s, Rename(s))
  {
    if s == [] {
      assert Underscores("_1") == 1 + Underscores("1");
    } else {
      NextNameProgress(s);
    }
  }

  /** The most underscores any listed name has. */
  function MaxUnderscores(dir: seq<string>): (m: nat)
    ensures forall i :: 0 <= i < |dir| ==> Underscores(dir[i]) <= m
  {
    if dir == [] then 0
    else
      var m := MaxUnderscores(dir[1..]);
      assert forall i :: 1 <= i < |dir| ==> dir[i] == dir[1..][i - 1];
      if Underscores(dir[0]) > m then Underscores(dir[0]) else m
  }

  /** The largest digit-run sum of any listed name. */
  function MaxDigitSum(dir: seq<string>): (m: nat)
    ensures forall i :: 0 <= i < |dir| ==> DigitSum(dir[i]) <= m
  {
    if dir == [] then 0
    else
      var m := MaxDigitSum(dir[1..]);
      assert forall i :: 1 <= i < |dir| ==> dir[i] == dir[1..][i - 1];
      if DigitSum(dir[0]) > m then DigitSum(dir[0]) else m
  }

  /**
   * The first name along the renames of s that is not listed. It exists: a
   * listed name has no more underscores, and no larger digit sum, than the
   * listing's maximum, and every rename moves past one of them.
   */
  function FreeName(s: string, dir: seq<string>): (r: string)
    ensures r !in dir
    ensures s !in dir ==> r == s
    decreases MaxUnderscores(dir) - Underscores(s), MaxDigitSum(dir) - DigitSum(s)
  {
    if s !in dir then s
    else
      RenameProgress(s);
      FreeName(Rename(s), dir)
  }

  lemma AllowedAppend(a: string, b: string)
    ensures AllAllowed(a + b) <==> AllAllowed(a) && AllAllowed(b)
  {
    assert forall i :: 0 <= i < |a| ==> (a + b)[i] == a[i];
    assert forall i :: 0 <= i < |b| ==> (a + b)[|a| + i] == b[i];
  }

  /** The replacement of sanitised text is sanitised. */
  lemma RenamedAllowed(g: Groups)
    requires Captured(g) && AllAllowed(Whole(g))
    ensures AllAllowed(Renamed(g))
  {
    var d := NatToDigits(DigitsValue(g.digits) + 1);
    AllowedAppend(g.base, g.underscore + (g.digits + g.ext));
    AllowedAppend(g.underscore, g.digits + g.ext);
    AllowedAppend(g.digits, g.ext);
    assert AllAllowed(d);
    AllowedAppend(d, g.ext);
    AllowedAppend("_", d + g.ext);
    AllowedAppend(g.base, "_" + (d + g.ext));
  }

  /** Renaming keeps a sanitised name sanitised. */
  lemma RenameKeepsAllowed(s: string)
    requires AllAllowed(s)
    ensures AllAllowed(Rename(s))
  {
    if s == [] {
      assert AllAllowed("_1");
    } else {
      MatchNameShape(s);
      RenamedAllowed(MatchName(s).value);
    }
  }

  /** Every name FreeName returns is sanitised when it starts from a sanitised one. */
  lemma {:induction false} FreeNameAllowed(s: string, dir: seq<string>)
    requires AllAllowed(s)
    ensures AllAllowed(FreeName(s, dir))
    decreases MaxUnderscores(dir) - Underscores(s), MaxDigitSum(dir) - DigitSum(s)
  {
    if s in dir {
      RenameProgress(s);
      RenameKeepsAllowed(s);
      FreeNameAllowed(Rename(s), dir);
    }
  }

  /**
   * m_check_filename with a listing or with no directory: the sanitised
   * name, renamed until the listing does not hold it.
   */
  method CheckFilename(name: string, dir: Option<seq<string>>) returns (r: string)
    ensures AllAllowed(r)
    ensures dir.None? ==> r == Sanitize(name)
    ensures dir.Some? ==> r !in dir.value && r == FreeName(Sanitize(name), dir.value)
  {
    r := Sanitize(name);
    SanitizeAllowed(name, false);
    if dir.Some? {
      FreeNameAllowed(r, dir.value);
      while r in dir.value
        invariant FreeName(r, dir.value) == FreeName(Sanitize(name), dir.value)
        decreases MaxUnderscores(dir.value) - Underscores(r), MaxDigitSum(dir.value) - DigitSum(r)
      {
        RenameProgress(r);
        r := Rename(r);
      }
    }
  }

  /** The loop as written, run n times. */
  function LoopAsWritten(s: string, n: nat): string
    decreases n
  {
    if n == 0 then s else LoopAsWritten(NextName(s), n - 1)
  }

  /**
   * As written, the empty name is never renamed: if the listing holds "",
   * the loop condition still holds after any number of rounds.
   */
  lemma {:induction false} EmptyNameLoops(dir: seq<string>, n: nat)
    requires "" in dir
    ensures LoopAsWritten(Sanitize(""), n) == "" && LoopAsWritten(Sanitize(""), n) in dir
  {
    if n > 0 {
      assert NextName("") == "";
      EmptyNameLoops(dir, n - 1);
    }
  }

  /** With the empty base allowed, the empty name leaves a listing that holds only "". */
  lemma EmptyNameRenamed(dir: seq<string>)
    requires dir == [""]
    ensures FreeName(Sanitize(""), dir) == "_1"
  {
    assert Rename("") == "_1" && "_1" != "";
  }

  // ---------------------------------------------------------------------------
  // m_let_to_num

  /** Where the switch is entered: the number of multiplications by 1024 the fall-through performs. */
  function SuffixPower(c: char): nat {
    if c == 'k' then 1 else if c == 'm' then 2 else if c == 'g' then 3 else if c == 't' then 4
    else if c == 'p' then 5 else if c == 'e' then 6 else if c == 'z' then 7 else if c == 'y' then 8
    else 0
  }

  function Pow1024(k: nat): nat {
    if k == 0 then 1 else 1024 * Pow1024(k - 1)
  }

  /** A PHP value as m_let_to_num returns it: the trimmed string, or a number once multiplied. */
  datatype PhpValue = Str(s: string) | Int(n: int)

  /** $val in arithmetic: a string reads as its leading integer, after the blanks PHP skips (\f among them, which trim leaves). */
  function NumberOf(v: PhpValue): int {
    match v
    case Str(s) => NumericPrefix(s)
    case Int(n) => n
  }

  /** The lower-cased last character of a string; none for the empty string. */
  function LastLower(t: string): Option<char> {
    if |t| > 0 then Some(LowerChar(t[|t| - 1])) else None
  }

  /** How many times the switch multiplies the trimmed value. */
  function Multiplications(t: string): nat {
    if LastLower(t).Some? then SuffixPower(LastLower(t).value) else 0
  }

  /** The value m_let_to_num returns for val. */
  function LetToNumValue(val: string): PhpValue {
    var t := Trim(val);
    var k := Multiplications(t);
    if k == 0 then Str(t) else Int(NumericPrefix(t) * Pow1024(k))
  }

  /** The value after the switch has run from the case of suffix power k down to the case of power c. */
  function AfterCase(t: string, k: nat, c: nat): PhpValue
    requires c >= 1
  {
    if k < c then Str(t) else Int(NumericPrefix(t) * Pow1024(k - c + 1))
  }

  /** One case body, `$val *= 1024`, taken from where the previous case left the value. */
  lemma CaseStep(t: string, k: nat, c: nat, v: PhpValue)
    requires c >= 1 && v == (if k < c + 1 then Str(t) else AfterCase(t, k, c + 1))
    ensures (if k >= c then Int(NumberOf(v) * 1024) else v) == AfterCase(t, k, c)
  {
    if k > c {
      var l := NumericPrefix(t);
      var p := Pow1024(k - c);
      assert Pow1024(k - c + 1) == 1024 * p;
      assert l * p * 1024 == l * (1024 * p);
    }
  }

  /**
   * m_let_to_num: trim, read the suffix, and enter the switch at its case;
   * every case from there down to k multiplies by 1024 and falls through.
   */
  method LetToNum(val: string) returns (r: PhpValue)
    ensures r == LetToNumValue(val)
  {
    var t := Trim(val);
    r := Str(t);
    var k := Multiplications(t);
    CaseStep(t, k, 8, r);
    if k >= 8 { r := Int(NumberOf(r) * 1024); }  // case 'y'
    CaseStep(t, k, 7, r);
    if k >= 7 { r := Int(NumberOf(r) * 1024); }  // case 'z'
    CaseStep(t, k, 6, r);
    if k >= 6 { r := Int(NumberOf(r) * 1024); }  // case 'e'
    CaseStep(t, k, 5, r);
    if k >= 5 { r := Int(NumberOf(r) * 1024); }  // case 'p'
    CaseStep(t, k, 4, r);
    if k >= 4 { r := Int(NumberOf(r) * 1024); }  // case 't'
    CaseStep(t, k, 3, r);
    if k >= 3 { r := Int(NumberOf(r) * 1024); }  // case 'g'
    CaseStep(t, k, 2, r);
    if k >= 2 { r := Int(NumberOf(r) * 1024); }  // case 'm'
    CaseStep(t, k, 1, r);
    if k >= 1 { r := Int(NumberOf(r) * 1024); }  // case 'k'
  }

  /** The multiplier of each suffix, either case: k is 1024, m 1024^2, ... y 1024^8. */
  lemma SuffixMultipliers()
    ensures Pow1024(SuffixPower('k')) == 1024
    ensures Pow1024(SuffixPower('m')) == 1048576
    ensures Pow1024(SuffixPower('g')) == 1073741824
    ensures Pow1024(SuffixPower('t')) == 1099511627776
    ensures Pow1024(SuffixPower('p')) == 1125899906842624
    ensures Pow1024(SuffixPower('e')) == 1152921504606846976
    ensures Pow1024(SuffixPower('z')) == 1180591620717411303424
    ensures Pow1024(SuffixPower('y')) == 1208925819614629174706176
  {
  }

  /**
   * A number followed by a recognised suffix, in either case, is the number
   * times the suffix's multiplier; form feeds before it, which trim keeps,
   * are skipped when the number is read.
   */
  lemma ReadsSuffixedNumber(pad: string, n: int, c: char)
    requires forall i :: 0 <= i < |pad| ==> pad[i] == '\U{C}'
    requires SuffixPower(LowerChar(c)) > 0
    ensures LetToNumValue(pad + IntToString(n) + [c]) == Int(n * Pow1024(SuffixPower(LowerChar(c))))
  {
    var s := pad + IntToString(n) + [c];
    assert !IsBlank(c) && !IsDigit(c);
    assert s[|s| - 1] == c;
    assert !IsBlank(s[0]) by {
      if pad == [] {
        assert s[0] == IntToString(n)[0];
        if n >= 0 {
          assert IsDigit(IntToString(n)[0]);
        }
      } else {
        assert s[0] == pad[0];
      }
    }
    TrimOfNonBlankEnds(s);
    NumericPrefixOfText(pad, n, [c]);
  }

  /** Without a recognised suffix the trimmed text comes back as it is, a string. */
  lemma UnsuffixedIsUnchanged(val: string)
    requires var t := Trim(val); t == [] || LowerChar(t[|t| - 1]) !in "kmgtpezy"
    ensures LetToNumValue(val) == Str(Trim(val))
  {
  }

  /** So a plain number, with no suffix, comes back as its own text. */
  lemma PlainNumberIsUnchanged(n: int)
    ensures LetToNumValue(IntToString(n)) == Str(IntToString(n))
  {
    var s := IntToString(n);
    var d := if n < 0 then NatToDigits(-n) else NatToDigits(n);
    assert s[|s| - 1] == d[|d| - 1];
    DigitIsNoSuffix(d[|d| - 1]);
    TrimOfNonBlankEnds(s);
  }

  lemma DigitIsNoSuffix(c: char)
    requires IsDigit(c)
    ensures !IsBlank(c) && LowerChar(c) == c && SuffixPower(c) == 0
  {
  }

  /** A string that neither starts nor ends with a blank is its own trim. */
  lemma TrimOfNonBlankEnds(s: string)
    requires |s| > 0 && !IsBlank(s[0]) && !IsBlank(s[|s| - 1])
    ensures Trim(s) == s
  {
  }

  /** Trimming is idempotent, so m_let_to_num gives a trimmed argument the same value. */
  lemma TrimIdempotent(s: string)
    ensures Trim(Trim(s)) == Trim(s)
  {
    var l := LTrim(s);
    LTrimShape(s);
    var t := RTrim(l);
    if t != [] {
      assert t[0] == l[0];
      assert RTrim(t) == t;
    }
  }

  lemma LetToNumTrims(val: string)
    ensures LetToNumValue(Trim(val)) == LetToNumValue(val)
  {
    TrimIdempotent(val);
  }

  // ---------------------------------------------------------------------------
  // m_get_string_for_upload_error

  const UploadErrOk := 0
  const UploadErrIniSize := 1
  const UploadErrFormSize := 2
  const UploadErrPartial := 3
  const UploadErrNoFile := 4
  const UploadErrNoTmpDir := 6
  const UploadErrCantWrite := 7
  const UploadErrExtension := 8

  predicate IsUploadError(err: int) {
    err == UploadErrOk || err == UploadErrIniSize || err == UploadErrFormSize || err == UploadErrPartial
    || err == UploadErrNoFile || err == UploadErrNoTmpDir || err == UploadErrCantWrite || err == UploadErrExtension
  }

  /** m_get_string_for_upload_error. */
  function UploadErrorString(err: int): (r: string)
    ensures r == "" <==> !IsUploadError(err)
  {
    if err == UploadErrOk then "upload_err_ok"
    else if err == UploadErrIniSize then "upload_err_ini_size"
    else if err == UploadErrFormSize then "upload_err_form_size"
    else if err == UploadErrPartial then "upload_err_partial"
    else if err == UploadErrNoFile then "upload_err_no_file"
    else if err == UploadErrNoTmpDir then "upload_err_no_tmp_dir"
    else if err == UploadErrCantWrite then "upload_err_cant_write"
    else if err == UploadErrExtension then "upload_err_extension"
    else ""
  }

  /** The code a name stands for. */
  function UploadErrorCode(name: string): Option<int> {
    if name == "upload_err_ok" then Some(UploadErrOk)
    else if name == "upload_err_ini_size" then Some(UploadErrIniSize)
    else if name == "upload_err_form_size" then Some(UploadErrFormSize)
    else if name == "upload_err_partial" then Some(UploadErrPartial)
    else if name == "upload_err_no_file" then Some(UploadErrNoFile)
    else if name == "upload_err_no_tmp_dir" then Some(UploadErrNoTmpDir)
    else if name == "upload_err_cant_write" then Some(UploadErrCantWrite)
    else if name == "upload_err_extension" then Some(UploadErrExtension)
    else None
  }

  /** Each of the eight codes has its own name, which reads back as the code; "" stands for none. */
  lemma UploadErrorRoundTrip(err: int)
    ensures IsUploadError(err) ==> UploadErrorCode(UploadErrorString(err)) == Some(err)
    ensures !IsUploadError(err) ==> UploadErrorCode(UploadErrorString(err)) == None
  {
  }

  /** So different codes never share a name. */
  lemma UploadErrorNamesDistinct(a: int, b: int)
    requires IsUploadError(a) && IsUploadError(b) && a != b
    ensures UploadErrorString(a) != UploadErrorString(b)
  {
    UploadErrorRoundTrip(a);
    UploadErrorRoundTrip(b);
  }
}
