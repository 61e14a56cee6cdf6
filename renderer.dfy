/**
 * The document side: `appendBillingRows` adds one placeholder row per
 * billing day to the second table, and `populateTemplate` replaces every
 * `{{KEY}}` placeholder of the header and the body (table cells included)
 * by its value, the template variables first and then each billing record.
 */
module Renderer {
  import opened Objects
  import opened Strings
  import opened BillingSchedule
  import opened SnakeCase
  import opened TemplateVariables

  /** The placeholder `{{key}}`. */
  function Token(key: string): (t: string)
    ensures |t| == |key| + 4
  {
    "{{" + key + "}}"
  }

  predicate BraceFree(s: string)
  {
    forall i :: 0 <= i < |s| ==> s[i] != '{' && s[i] != '}'
  }

  /**
   * Literal replace-all: scanning from the left, each occurrence of `p` is
   * replaced by `r` and the scan resumes after it, so replacements never
   * overlap and the inserted text is not scanned again.
   */
  function ReplaceAll(s: string, p: string, r: string): string
    requires |p| > 0
    decreases |s|
  {
    match IndexFrom(s, p, 0)
    case None => s
    case Some(i) => s[..i] + r + ReplaceAll(s[i + |p|..], p, r)
  }

  /** `IndexFrom` finds an occurrence exactly when there is one. */
  lemma IndexFromContains(s: string, p: string)
    ensures IndexFrom(s, p, 0).Some? <==> Contains(s, p)
  {
    if IndexFrom(s, p, 0).Some? {
      assert MatchAt(s, p, IndexFrom(s, p, 0).value);
    }
  }

  /** Text without the pattern is left as it is. */
  lemma ReplaceAllAbsent(s: string, p: string, r: string)
    requires |p| > 0 && !Contains(s, p)
    ensures ReplaceAll(s, p, r) == s
  {
    IndexFromContains(s, p);
  }

  /** A text that is exactly the pattern becomes exactly the replacement. */
  lemma ReplaceAllWhole(p: string, r: string)
    requires |p| > 0
    ensures ReplaceAll(p, p, r) == r
  {
    assert MatchAt(p, p, 0);
    assert IndexFrom(p, p, 0) == Some(0);
    assert p[|p|..] == [];
    assert p[..0] + r + [] == r;
  }

  /**
   * A replacement that cannot start or end an occurrence and is not part of
   * the pattern: then a new occurrence cannot begin in it, end in it, or
   * cover it.
   */
  predicate Safe(p: string, r: string)
  {
    |p| > 0 && p[0] !in r && p[|p| - 1] !in r && !Contains(p, r)
  }

  /** A slice inside the left part of a concatenation. */
  lemma SliceLeft(a: string, b: string, i: nat, k: nat)
    requires i <= k <= |a|
    ensures (a + b)[i..k] == a[i..k]
  {
    forall m | 0 <= m < k - i
      ensures (a + b)[i..k][m] == a[i..k][m]
    {
      assert (a + b)[i..k][m] == (a + b)[i + m];
    }
  }

  /** A slice inside the right part of a concatenation. */
  lemma SliceRight(a: string, b: string, i: nat, k: nat)
    requires |a| <= i <= k <= |a| + |b|
    ensures (a + b)[i..k] == b[i - |a|..k - |a|]
  {
    forall m | 0 <= m < k - i
      ensures (a + b)[i..k][m] == b[i - |a|..k - |a|][m]
    {
      assert (a + b)[i..k][m] == (a + b)[i + m];
    }
  }

  /** Putting a safe replacement between two texts without the pattern creates no occurrence. */
  lemma NoOccurrenceAcross(x: string, r: string, t: string, p: string)
    requires Safe(p, r) && !Contains(x, p) && !Contains(t, p)
    ensures !Contains(x + r + t, p)
  {
    var xr := x + r;
    var u := xr + t;
    forall j | 0 <= j <= |u| - |p|
      ensures !MatchAt(u, p, j)
    {
      var e := j + |p|;
      var w := u[j..e];
      if e <= |x| {
        SliceLeft(xr, t, j, e);
        SliceLeft(x, r, j, e);
        assert !MatchAt(x, p, j);
      } else if j >= |x| + |r| {
        var j' := j - |x| - |r|;
        SliceRight(xr, t, j, e);
        assert !MatchAt(t, p, j');
      } else if j >= |x| {
        assert w[0] == u[j] == xr[j] == r[j - |x|];
        assert r[j - |x|] in r;
      } else if e <= |x| + |r| {
        assert w[|p| - 1] == u[e - 1] == xr[e - 1] == r[e - 1 - |x|];
        assert r[e - 1 - |x|] in r;
      } else {
        var q := |x| - j;
        forall m | 0 <= m < |r|
          ensures w[q + m] == r[m]
        {
          assert w[q + m] == u[|x| + m] == xr[|x| + m];
        }
        assert w[q..q + |r|] == r;
        assert !MatchAt(p, r, q);
      }
    }
  }

  /** Before the first occurrence there is none. */
  lemma PrefixBeforeMatch(s: string, p: string)
    requires |p| > 0 && IndexFrom(s, p, 0).Some?
    ensures !Contains(s[..IndexFrom(s, p, 0).value], p)
  {
    var i := IndexFrom(s, p, 0).value;
    var x := s[..i];
    forall j | 0 <= j <= |x| - |p|
      ensures !MatchAt(x, p, j)
    {
      assert x[j..j + |p|] == s[j..j + |p|];
      assert !MatchAt(s, p, j);
    }
  }

  /**
   * After replacing every occurrence of `p` by a safe text, no occurrence of
   * `p` remains.
   */
  lemma {:induction false} ReplaceAllNoneRemain(s: string, p: string, r: string)
    requires Safe(p, r)
    ensures !Contains(ReplaceAll(s, p, r), p)
    decreases |s|
  {
    IndexFromContains(s, p);
    match IndexFrom(s, p, 0)
    case None =>
    case Some(i) =>
      var rest := s[i + |p|..];
      ReplaceAllNoneRemain(rest, p, r);
      PrefixBeforeMatch(s, p);
      NoOccurrenceAcross(s[..i], r, ReplaceAll(rest, p, r), p);
  }

  /**
   * A value without the placeholder does not guarantee that none is left:
   * removing `{{A}}` from `{{{{A}}A}}` joins the text around it into a new `{{A}}`.
   */
  lemma ReplaceAllLeavesToken()
    ensures !Contains("", Token("A"))
    ensures ReplaceAll("{{{{A}}A}}", Token("A"), "") == Token("A")
    ensures Contains(ReplaceAll("{{{{A}}A}}", Token("A"), ""), Token("A"))
  {
    var s, p := "{{{{A}}A}}", Token("A");
    assert p == "{{A}}";
    assert s[0..5][2] != p[2] && s[1..6][2] != p[2];
    assert s[2..7] == p;
    assert IndexFrom(s, p, 0) == IndexFrom(s, p, 1) == IndexFrom(s, p, 2) == Some(2);
    var rest := s[7..];
    assert rest == "A}}";
    assert IndexFrom(rest, p, 0) == None;
    assert ReplaceAll(rest, p, "") == rest;
    assert s[..2] + "" + rest == p;
    assert MatchAt(p, p, 0);
  }

  /** The braces of a placeholder are its first two and last two characters. */
  lemma TokenBraces(k: string)
    requires BraceFree(k)
    ensures forall i :: 0 <= i < |Token(k)| ==> (Token(k)[i] == '{' <==> i < 2)
    ensures forall i :: 0 <= i < |Token(k)| ==> (Token(k)[i] == '}' <==> i >= |k| + 2)
  {
    forall i | 2 <= i < |k| + 2
      ensures Token(k)[i] == k[i - 2]
    {
    }
  }

  /**
   * Because a placeholder includes its closing braces, the placeholder of
   * one key never occurs inside the placeholder of another.
   */
  lemma TokenNotInOtherToken(k1: string, k2: string)
    requires BraceFree(k1) && BraceFree(k2) && k1 != k2
    ensures !Contains(Token(k2), Token(k1))
  {
    TokenBraces(k1);
    TokenBraces(k2);
    var t1 := Token(k1);
    var t2 := Token(k2);
    forall j | 0 <= j <= |t2| - |t1|
      ensures !MatchAt(t2, t1, j)
    {
      var w := t2[j..j + |t1|];
      if j > 0 {
        assert w[1] == t2[j + 1] != '{';
      } else if |k1| < |k2| {
        assert w[|k1| + 2] == t2[|k1| + 2] != '}';
      } else {
        assert w == t2;
        assert k2 == t2[2..|k2| + 2];
        assert k1 == t1[2..|k1| + 2];
      }
    }
  }

  /** Replacing one key's placeholder leaves another key's placeholder intact. */
  lemma OtherTokenUntouched(k1: string, k2: string, r: string)
    requires BraceFree(k1) && BraceFree(k2) && k1 != k2
    ensures ReplaceAll(Token(k2), Token(k1), r) == Token(k2)
  {
    TokenNotInOtherToken(k1, k2);
    ReplaceAllAbsent(Token(k2), Token(k1), r);
  }

  /** Text without braces contains no placeholder. */
  lemma BraceFreeNoToken(s: string, k: string)
    requires BraceFree(s)
    ensures !Contains(s, Token(k))
  {
    forall j | 0 <= j <= |s| - |Token(k)|
      ensures !MatchAt(s, Token(k), j)
    {
      assert s[j..j + |Token(k)|][0] == s[j];
    }
  }

  /** A replacement containing a character the pattern lacks is no part of the pattern. */
  lemma ForeignCharNotContained(p: string, r: string, c: char)
    requires c in r && c !in p
    ensures !Contains(p, r)
  {
    var m :| 0 <= m < |r| && r[m] == c;
    forall j | 0 <= j <= |p| - |r|
      ensures !MatchAt(p, r, j)
    {
      assert p[j..j + |r|][m] == p[j + m];
    }
  }

  /** No occurrence begins inside a prefix without the pattern's first character. */
  lemma NoMatchInPrefix(x: string, t: string, p: string)
    requires |p| > 0 && p[0] !in x
    ensures forall j :: 0 <= j < |x| ==> !MatchAt(x + t, p, j)
  {
    forall j | 0 <= j < |x|
      ensures !MatchAt(x + t, p, j)
    {
      if j + |p| <= |x + t| {
        assert (x + t)[j..j + |p|][0] == x[j];
      }
    }
  }

  /** The first occurrence is the one with none before it. */
  lemma IndexFromFirst(s: string, p: string, v: nat)
    requires MatchAt(s, p, v) && forall j :: 0 <= j < v ==> !MatchAt(s, p, j)
    ensures IndexFrom(s, p, 0) == Some(v)
  {
  }

  /** Replacing at the first occurrence. */
  lemma ReplaceAllAt(s: string, p: string, r: string)
    requires |p| > 0 && IndexFrom(s, p, 0).Some?
    ensures var i := IndexFrom(s, p, 0).value;
      ReplaceAll(s, p, r) == s[..i] + r + ReplaceAll(s[i + |p|..], p, r)
  {
  }

  /** When the pattern ends the text and no occurrence begins before it, only that one is replaced. */
  lemma ReplaceAllSuffix(x: string, p: string, r: string)
    requires |p| > 0 && p[0] !in x
    ensures ReplaceAll(x + p, p, r) == x + r
  {
    var u := x + p;
    NoMatchInPrefix(x, p, p);
    assert u[|x|..|x| + |p|] == p;
    IndexFromFirst(u, p, |x|);
    ReplaceAllAt(u, p, r);
    assert u[..|x|] == x;
    assert u[|x| + |p|..] == [];
  }

  /** A text that starts with the pattern begins with the replacement. */
  lemma ReplaceAllFront(p: string, t: string, r: string)
    requires |p| > 0
    ensures ReplaceAll(p + t, p, r) == r + ReplaceAll(t, p, r)
  {
    assert (p + t)[0..|p|] == p;
    assert MatchAt(p + t, p, 0);
    assert IndexFrom(p + t, p, 0) == Some(0);
    assert (p + t)[|p|..] == t;
  }

  // The placeholders of a billing day's row.

  /** Characters that can occur in a placeholder name: neither braces nor the row's `/`. */
  predicate PlainKey(k: string)
  {
    forall i :: 0 <= i < |k| ==> k[i] != '{' && k[i] != '}' && k[i] != '/'
  }

  /** Every ALL_CAPS_SNAKE_CASE name is a plain key. */
  lemma SnakeIsPlain(k: string)
    requires IsSnake(k)
    ensures PlainKey(k)
  {
  }

  /** The three keys of a billing record are plain. */
  lemma RecordKeysPlain(n: nat)
    ensures PlainKey(DayKey(n)) && PlainKey(PriceKey(n)) && PlainKey(HoursKey(n))
  {
    NatTextDigits(n);
    assert IsSnake("BILLING_DAY_") && IsSnake("_PRICE") && IsSnake("_HOURS");
    assert IsSnake(DayKey(n)) && IsSnake(PriceKey(n)) && IsSnake(HoursKey(n));
  }

  /** A placeholder with a plain name has no `/`. */
  lemma TokenNoSlash(k: string)
    requires PlainKey(k)
    ensures '/' !in Token(k)
  {
    forall i | 2 <= i < |k| + 2
      ensures Token(k)[i] == k[i - 2]
    {
    }
  }

  /** The separator between two placeholders never joins them into a third. */
  lemma SlashSafe(k: string)
    requires PlainKey(k)
    ensures Safe(Token(k), "/")
  {
    TokenNoSlash(k);
    ForeignCharNotContained(Token(k), "/", '/');
  }

  /** `{{BILLING_DAY_n}}`, then `{{BILLING_DAY_n_PRICE}}/{{BILLING_DAY_n_HOURS}}`: the two cells of row `n`. */
  function BillingRow(n: nat): seq<string>
  {
    [Token(DayKey(n)), Token(PriceKey(n)) + "/" + Token(HoursKey(n))]
  }

  /** The placeholders of a billing day: among the keys of its own record, and no other. */
  lemma BillingRowTokens(n: nat, k: string)
    requires PlainKey(k) && k != DayKey(n) && k != PriceKey(n) && k != HoursKey(n)
    ensures forall c :: c in BillingRow(n) ==> !Contains(c, Token(k))
  {
    RecordKeysPlain(n);
    TokenNotInOtherToken(k, DayKey(n));
    TokenNotInOtherToken(k, PriceKey(n));
    TokenNotInOtherToken(k, HoursKey(n));
    SlashSafe(k);
    NoOccurrenceAcross(Token(PriceKey(n)), "/", Token(HoursKey(n)), Token(k));
  }

  /** Replacing `{{BILLING_DAY_1}}` leaves `{{BILLING_DAY_10}}` and `{{BILLING_DAY_1_PRICE}}` as they are. */
  lemma FirstDayTokenSeparate(r: string)
    ensures ReplaceAll(Token(DayKey(10)), Token(DayKey(1)), r) == Token(DayKey(10))
    ensures ReplaceAll(Token(PriceKey(1)), Token(DayKey(1)), r) == Token(PriceKey(1))
  {
    RecordKeysPlain(1);
    RecordKeysPlain(10);
    RecordKeysUnique(1, 10);
    RecordKeysDistinct(1);
    OtherTokenUntouched(DayKey(1), DayKey(10), r);
    OtherTokenUntouched(DayKey(1), PriceKey(1), r);
  }

  // One `replaceText` pass after another.

  /**
   * The text after the placeholder of each key of `subs`, in order, has been
   * replaced by the value paired with it.
   */
  function ApplyAll(s: string, subs: seq<(string, string)>): string
  {
    if subs == [] then s
    else ReplaceAll(ApplyAll(s, subs[..|subs| - 1]), Token(subs[|subs| - 1].0), subs[|subs| - 1].1)
  }

  lemma ApplyAllStep(s: string, subs: seq<(string, string)>, key: string, value: string)
    ensures ApplyAll(s, subs + [(key, value)]) == ReplaceAll(ApplyAll(s, subs), Token(key), value)
  {
    assert (subs + [(key, value)])[..|subs|] == subs;
  }

  /** Two runs of passes are one run of all of them. */
  lemma {:induction false} ApplyAllConcat(s: string, a: seq<(string, string)>, b: seq<(string, string)>)
    ensures ApplyAll(s, a + b) == ApplyAll(ApplyAll(s, a), b)
    decreases |b|
  {
    if b == [] {
      assert a + b == a;
    } else {
      var last := b[|b| - 1];
      assert a + b == (a + b[..|b| - 1]) + [last];
      assert b == b[..|b| - 1] + [last];
      ApplyAllConcat(s, a, b[..|b| - 1]);
      ApplyAllStep(s, a + b[..|b| - 1], last.0, last.1);
      ApplyAllStep(ApplyAll(s, a), b[..|b| - 1], last.0, last.1);
    }
  }

  /** Passes whose placeholders do not occur leave the text unchanged. */
  lemma {:induction false} ApplyAllUntouched(s: string, subs: seq<(string, string)>)
    requires forall i :: 0 <= i < |subs| ==> !Contains(s, Token(subs[i].0))
    ensures ApplyAll(s, subs) == s
  {
    if subs != [] {
      ApplyAllUntouched(s, subs[..|subs| - 1]);
      ReplaceAllAbsent(s, Token(subs[|subs| - 1].0), subs[|subs| - 1].1);
    }
  }

  /** A text without braces is left as it is by any passes. */
  lemma ApplyAllBraceFree(s: string, subs: seq<(string, string)>)
    requires BraceFree(s)
    ensures ApplyAll(s, subs) == s
  {
    forall i | 0 <= i < |subs|
      ensures !Contains(s, Token(subs[i].0))
    {
      BraceFreeNoToken(s, subs[i].0);
    }
    ApplyAllUntouched(s, subs);
  }

  /** A table is a sequence of rows, a row a sequence of cell texts. */
  type Table = seq<seq<string>>

  /** `replaceText` on the cells of every table. */
  function ReplaceTables(ts: seq<Table>, p: string, r: string): (u: seq<Table>)
    requires |p| > 0
  {
    seq(|ts|, t requires 0 <= t < |ts| =>
      seq(|ts[t]|, i requires 0 <= i < |ts[t]| =>
        seq(|ts[t][i]|, j requires 0 <= j < |ts[t][i]| => ReplaceAll(ts[t][i][j], p, r))))
  }

  /** The passes `subs` on the cells of every table. */
  function ApplyTables(ts: seq<Table>, subs: seq<(string, string)>): (u: seq<Table>)
  {
    seq(|ts|, t requires 0 <= t < |ts| =>
      seq(|ts[t]|, i requires 0 <= i < |ts[t]| =>
        seq(|ts[t][i]|, j requires 0 <= j < |ts[t][i]| => ApplyAll(ts[t][i][j], subs))))
  }

  /** Tables keep their shape, and each cell is the cell with the passes applied. */
  lemma ApplyTablesCells(ts: seq<Table>, subs: seq<(string, string)>)
    ensures var u := ApplyTables(ts, subs);
      && |u| == |ts|
      && (forall t :: 0 <= t < |ts| ==> |u[t]| == |ts[t]|)
      && (forall t, i :: 0 <= t < |ts| && 0 <= i < |ts[t]| ==> |u[t][i]| == |ts[t][i]|)
      && (forall t, i, j :: 0 <= t < |ts| && 0 <= i < |ts[t]| && 0 <= j < |ts[t][i]| ==> u[t][i][j] == ApplyAll(ts[t][i][j], subs))
  {
  }

  /** Passes keep every table's rows, so tables with a row keep one. */
  lemma ApplyTablesNonEmpty(ts: seq<Table>, subs: seq<(string, string)>)
    requires forall t :: 0 <= t < |ts| ==> |ts[t]| > 0
    ensures |ApplyTables(ts, subs)| == |ts|
    ensures forall t :: 0 <= t < |ts| ==> |ApplyTables(ts, subs)[t]| > 0
  {
  }

  lemma ApplyTablesStep(ts: seq<Table>, subs: seq<(string, string)>, key: string, value: string)
    ensures ReplaceTables(ApplyTables(ts, subs), Token(key), value) == ApplyTables(ts, subs + [(key, value)])
  {
    var a := ReplaceTables(ApplyTables(ts, subs), Token(key), value);
    var b := ApplyTables(ts, subs + [(key, value)]);
    forall t, i, j | 0 <= t < |ts| && 0 <= i < |ts[t]| && 0 <= j < |ts[t][i]|
      ensures a[t][i][j] == b[t][i][j]
    {
      ApplyAllStep(ts[t][i][j], subs, key, value);
    }
    forall t | 0 <= t < |ts|
      ensures a[t] == b[t]
    {
      forall i | 0 <= i < |ts[t]|
        ensures a[t][i] == b[t][i]
      {
      }
    }
  }

  lemma ApplyTablesConcat(ts: seq<Table>, a: seq<(string, string)>, b: seq<(string, string)>)
    ensures ApplyTables(ts, a + b) == ApplyTables(ApplyTables(ts, a), b)
  {
    var x := ApplyTables(ts, a + b);
    var y := ApplyTables(ApplyTables(ts, a), b);
    forall t, i, j | 0 <= t < |ts| && 0 <= i < |ts[t]| && 0 <= j < |ts[t][i]|
      ensures x[t][i][j] == y[t][i][j]
    {
      ApplyAllConcat(ts[t][i][j], a, b);
    }
    forall t | 0 <= t < |ts|
      ensures x[t] == y[t]
    {
      forall i | 0 <= i < |ts[t]|
        ensures x[t][i] == y[t][i]
      {
      }
    }
  }

  lemma ApplyTablesNone(ts: seq<Table>)
    ensures ApplyTables(ts, []) == ts
  {
    var x := ApplyTables(ts, []);
    forall t | 0 <= t < |ts|
      ensures x[t] == ts[t]
    {
      forall i | 0 <= i < |ts[t]|
        ensures x[t][i] == ts[t][i]
      {
      }
    }
  }

  /** The passes of billing day `n` with its date, price and hours texts. */
  function DaySubs(n: nat, dateText: string, dayPrice: string, hours: string): seq<(string, string)>
  {
    [(DayKey(n), dateText), (PriceKey(n), dayPrice), (HoursKey(n), hours)]
  }

  lemma BraceFreeConcat(a: string, b: string)
    requires BraceFree(a) && BraceFree(b)
    ensures BraceFree(a + b)
  {
    forall i | 0 <= i < |a + b|
      ensures (a + b)[i] != '{' && (a + b)[i] != '}'
    {
      if i >= |a| {
        assert (a + b)[i] == b[i - |a|];
      }
    }
  }

  /** The date cell of row `n` becomes the date. */
  lemma DateCellFilled(n: nat, dateText: string, dayPrice: string, hours: string)
    requires BraceFree(dateText)
    ensures ApplyAll(BillingRow(n)[0], DaySubs(n, dateText, dayPrice, hours)) == dateText
  {
    var subs := DaySubs(n, dateText, dayPrice, hours);
    assert subs[..2][..1] == [(DayKey(n), dateText)] && subs[..2] == subs[..2][..1] + [(PriceKey(n), dayPrice)];
    assert subs == subs[..2] + [(HoursKey(n), hours)];
    ReplaceAllWhole(Token(DayKey(n)), dateText);
    ApplyAllStep(BillingRow(n)[0], [], DayKey(n), dateText);
    BraceFreeNoToken(dateText, PriceKey(n));
    ReplaceAllAbsent(dateText, Token(PriceKey(n)), dayPrice);
    ApplyAllStep(BillingRow(n)[0], subs[..1], PriceKey(n), dayPrice);
    BraceFreeNoToken(dateText, HoursKey(n));
    ReplaceAllAbsent(dateText, Token(HoursKey(n)), hours);
    ApplyAllStep(BillingRow(n)[0], subs[..2], HoursKey(n), hours);
  }

  /** The day's own placeholder is not in the amount cell. */
  lemma AmountCellNoDay(n: nat, dateText: string)
    ensures ReplaceAll(BillingRow(n)[1], Token(DayKey(n)), dateText) == BillingRow(n)[1]
  {
    RecordKeysPlain(n);
    RecordKeysDistinct(n);
    TokenNotInOtherToken(DayKey(n), PriceKey(n));
    TokenNotInOtherToken(DayKey(n), HoursKey(n));
    SlashSafe(DayKey(n));
    NoOccurrenceAcross(Token(PriceKey(n)), "/", Token(HoursKey(n)), Token(DayKey(n)));
    ReplaceAllAbsent(BillingRow(n)[1], Token(DayKey(n)), dateText);
  }

  /** The price placeholder is not in the rest of the amount cell. */
  lemma AmountCellTail(n: nat)
    ensures !Contains("/" + Token(HoursKey(n)), Token(PriceKey(n)))
  {
    var tp := Token(PriceKey(n));
    var th := Token(HoursKey(n));
    RecordKeysPlain(n);
    RecordKeysDistinct(n);
    SlashSafe(PriceKey(n));
    TokenNotInOtherToken(PriceKey(n), HoursKey(n));
    NoOccurrenceAcross("", "/", th, tp);
    assert "" + "/" + th == "/" + th;
  }

  /** The price placeholder starts the amount cell and occurs nowhere else in it. */
  lemma AmountCellPrice(n: nat, dayPrice: string)
    ensures ReplaceAll(BillingRow(n)[1], Token(PriceKey(n)), dayPrice) == dayPrice + "/" + Token(HoursKey(n))
  {
    var tp := Token(PriceKey(n));
    var th := Token(HoursKey(n));
    assert BillingRow(n)[1] == tp + ("/" + th);
    ReplaceAllFront(tp, "/" + th, dayPrice);
    AmountCellTail(n);
    ReplaceAllAbsent("/" + th, tp, dayPrice);
  }

  /** The hours placeholder ends the amount cell. */
  lemma AmountCellHours(n: nat, dayPrice: string, hours: string)
    requires BraceFree(dayPrice)
    ensures ReplaceAll(dayPrice + "/" + Token(HoursKey(n)), Token(HoursKey(n)), hours) == dayPrice + "/" + hours
  {
    BraceFreeConcat(dayPrice, "/");
    ReplaceAllSuffix(dayPrice + "/", Token(HoursKey(n)), hours);
  }

  /** The amount cell of row `n` becomes the price, a slash and the hours. */
  lemma AmountCellFilled(n: nat, dateText: string, dayPrice: string, hours: string)
    requires BraceFree(dayPrice)
    ensures ApplyAll(BillingRow(n)[1], DaySubs(n, dateText, dayPrice, hours)) == dayPrice + "/" + hours
  {
    var subs := DaySubs(n, dateText, dayPrice, hours);
    var cell := BillingRow(n)[1];
    assert subs[..2][..1] == [(DayKey(n), dateText)] && subs[..2] == subs[..2][..1] + [(PriceKey(n), dayPrice)];
    assert subs == subs[..2] + [(HoursKey(n), hours)];
    AmountCellNoDay(n, dateText);
    ApplyAllStep(cell, [], DayKey(n), dateText);
    AmountCellPrice(n, dayPrice);
    ApplyAllStep(cell, subs[..1], PriceKey(n), dayPrice);
    AmountCellHours(n, dayPrice, hours);
    ApplyAllStep(cell, subs[..2], HoursKey(n), hours);
  }

  /** The passes of a billing record are its key in order with the texts of its values. */
  lemma DayRecordSubs(n: nat, dateText: string, dayPrice: string, render: Entry -> string)
    ensures Wf(DayRecord(n, dateText, dayPrice))
    ensures RecordSubs(DayRecord(n, dateText, dayPrice), render)
      == DaySubs(n, dateText, dayPrice, render(Plain(Num(HOURS_PER_DAY))))
  {
    DayRecordFields(n, dateText, dayPrice);
  }

  /**
   * Row `n` is filled by its own record: the passes before it have plain keys
   * other than the row's, and the texts put in have no braces, so the row
   * ends up as the date and the price over the hours whatever passes follow.
   */
  lemma BillingRowFilled(n: nat, pre: seq<(string, string)>, dateText: string, dayPrice: string, hours: string, post: seq<(string, string)>)
    requires forall i :: 0 <= i < |pre| ==> PlainKey(pre[i].0) && pre[i].0 !in [DayKey(n), PriceKey(n), HoursKey(n)]
    requires BraceFree(dateText) && BraceFree(dayPrice) && BraceFree(hours)
    ensures var subs := pre + DaySubs(n, dateText, dayPrice, hours) + post;
      && ApplyAll(BillingRow(n)[0], subs) == dateText
      && ApplyAll(BillingRow(n)[1], subs) == dayPrice + "/" + hours
  {
    var own := DaySubs(n, dateText, dayPrice, hours);
    forall i | 0 <= i < |pre|
      ensures forall c :: c in BillingRow(n) ==> !Contains(c, Token(pre[i].0))
    {
      BillingRowTokens(n, pre[i].0);
    }
    ApplyAllUntouched(BillingRow(n)[0], pre);
    ApplyAllUntouched(BillingRow(n)[1], pre);
    ApplyAllConcat(BillingRow(n)[0], pre, own);
    ApplyAllConcat(BillingRow(n)[1], pre, own);
    ApplyAllConcat(BillingRow(n)[0], pre + own, post);
    ApplyAllConcat(BillingRow(n)[1], pre + own, post);
    DateCellFilled(n, dateText, dayPrice, hours);
    AmountCellFilled(n, dateText, dayPrice, hours);
    ApplyAllBraceFree(dateText, post);
    BraceFreeConcat(dayPrice, "/");
    BraceFreeConcat(dayPrice + "/", hours);
    ApplyAllBraceFree(dayPrice + "/" + hours, post);
  }

  // The document and the passes of `populateTemplate`.

  /**
   * The replacement text of a value: a text is itself; how `replaceText`
   * turns a number or the list of billing days into text is the parameter
   * `render`.
   */
  function Show(e: Entry, render: Entry -> string): string
  {
    if e.Plain? && e.value.Text? then e.value.s else render(e)
  }

  /** The passes of `replaceTemplateText(data)`: each key of `data` in order, with the text of its value. */
  function Subs<V>(data: Obj<V>, show: V -> string): (subs: seq<(string, string)>)
    requires Wf(data)
    ensures |subs| == |data.keys|
    ensures forall i :: 0 <= i < |subs| ==> subs[i] == (data.keys[i], show(data.vals[data.keys[i]]))
  {
    seq(|data.keys|, i requires 0 <= i < |data.keys| => (data.keys[i], show(data.vals[data.keys[i]])))
  }

  /** The text of a template variable. */
  function ShowEntry(render: Entry -> string): Entry -> string
  {
    e => Show(e, render)
  }

  /** The text of a billing record's value. */
  function ShowValue(render: Entry -> string): Value -> string
  {
    v => Show(Plain(v), render)
  }

  /** The passes over the template variables. */
  function RootSubs(templateData: Obj<Entry>, render: Entry -> string): seq<(string, string)>
    requires Wf(templateData)
  {
    Subs(templateData, ShowEntry(render))
  }

  /** The passes over one billing record. */
  function RecordSubs(record: Obj<Value>, render: Entry -> string): seq<(string, string)>
    requires Wf(record)
  {
    Subs(record, ShowValue(render))
  }

  /** The passes over the billing records, first to last. */
  function AllRecordSubs(days: seq<Obj<Value>>, render: Entry -> string): seq<(string, string)>
    requires forall i :: 0 <= i < |days| ==> Wf(days[i])
  {
    if days == [] then [] else AllRecordSubs(days[..|days| - 1], render) + RecordSubs(days[|days| - 1], render)
  }

  lemma AllRecordSubsStep(days: seq<Obj<Value>>, render: Entry -> string, index: nat)
    requires index < |days| && forall i :: 0 <= i < |days| ==> Wf(days[i])
    ensures AllRecordSubs(days[..index + 1], render) == AllRecordSubs(days[..index], render) + RecordSubs(days[index], render)
  {
    assert days[..index + 1][..index] == days[..index];
  }

  /**
   * Concatenating passes is associative. Stated once and called, so the
   * proofs that regroup runs of passes do not reason about sequence
   * concatenation in their own context.
   */
  lemma SubsAssociative(a: seq<(string, string)>, b: seq<(string, string)>, c: seq<(string, string)>)
    ensures (a + b) + c == a + (b + c)
  {
  }

  /** The billing days the template variables carry, when `BILLING_DAYS` is a list of records. */
  predicate BillingRecordsWf(templateData: Obj<Entry>)
  {
    var billing := Find(templateData, BILLING_DAYS_KEY);
    billing.Some? && billing.value.Days? ==> forall i :: 0 <= i < |billing.value.days| ==> Wf(billing.value.days[i])
  }

  /** Every pass `populateTemplate` makes: the template variables, then each billing record. */
  function PopulateSubs(templateData: Obj<Entry>, render: Entry -> string): seq<(string, string)>
    requires Wf(templateData) && BillingRecordsWf(templateData)
  {
    var billing := Find(templateData, BILLING_DAYS_KEY);
    RootSubs(templateData, render) + if billing.Some? && billing.value.Days? then AllRecordSubs(billing.value.days, render) else []
  }

  /** `table.insertTableRow(i)` followed by appending the cells of `row`. */
  function InsertRow(table: Table, i: nat, row: seq<string>): Table
    requires i <= |table|
  {
    table[..i] + [row] + table[i..]
  }

  /** The second table after `appendBillingRows` for `n` billing days. */
  function WithBillingRows(table: Table, n: nat): Table
    requires |table| > 0
  {
    table[..1] + seq(n, i requires 0 <= i < n => BillingRow(i + 1)) + table[1..]
  }

  /** The first row stays first, rows 1 to `n` are the placeholders of days 1 to `n`, and the old rows follow in their order. */
  lemma WithBillingRowsShape(table: Table, n: nat)
    requires |table| > 0
    ensures var u := WithBillingRows(table, n);
      && |u| == |table| + n
      && u[0] == table[0]
      && (forall i :: 1 <= i <= n ==> u[i] == BillingRow(i))
      && (forall i :: n < i < |u| ==> u[i] == table[i - n])
  {
  }

  lemma WithBillingRowsStep(table: Table, n: nat)
    requires |table| > 0
    ensures InsertRow(WithBillingRows(table, n), 1 + n, BillingRow(n + 1)) == WithBillingRows(table, n + 1)
  {
    var u := WithBillingRows(table, n);
    var w := WithBillingRows(table, n + 1);
    WithBillingRowsShape(table, n);
    WithBillingRowsShape(table, n + 1);
    var v := InsertRow(u, 1 + n, BillingRow(n + 1));
    assert |v| == |w|;
    forall i | 0 <= i < |w|
      ensures v[i] == w[i]
    {
      if i < 1 + n {
        assert v[i] == u[i];
      } else if i > 1 + n {
        assert v[i] == u[i - 1];
      }
    }
  }

  /** What the passes read and rewrite: the header text, if any, the body text and the table cells. */
  datatype DocText = DocText(header: Option<string>, body: string, tables: seq<Table>)

  /** The passes `subs` over the header, the body and every cell. */
  function ApplyDoc(d: DocText, subs: seq<(string, string)>): DocText
  {
    DocText(if d.header.Some? then Some(ApplyAll(d.header.value, subs)) else None,
            ApplyAll(d.body, subs), ApplyTables(d.tables, subs))
  }
  lemma ApplyDocConcat(d: DocText, a: seq<(string, string)>, b: seq<(string, string)>)
    ensures ApplyDoc(d, a + b) == ApplyDoc(ApplyDoc(d, a), b)
  {
    if d.header.Some? {
      ApplyAllConcat(d.header.value, a, b);
    }
    ApplyAllConcat(d.body, a, b);
    ApplyTablesConcat(d.tables, a, b);
  }

  /**
   * A Google Docs document as the script sees it: the header text, if the
   * document has a header, the body text outside tables, and the body's
   * tables.
   */
  class Document {
    var header: Option<string>
    var body: string
    var tables: seq<Table>

    constructor (header: Option<string>, body: string, tables: seq<Table>)
      requires forall t :: 0 <= t < |tables| ==> |tables[t]| > 0
      ensures Valid()
      ensures this.header == header && this.body == body && this.tables == tables
    {
      this.header := header;
      this.body := body;
      this.tables := tables;
    }

    function Contents(): DocText
      reads this
    {
      DocText(header, body, tables)
    }

    /** A Docs table has at least one row. */
    predicate Valid()
      reads this
    {
      forall t :: 0 <= t < |tables| ==> |tables[t]| > 0
    }

    /**
     * `appendBillingRows(document, billingData)`: fails when the body has
     * fewer than two tables, and otherwise inserts the placeholder row of
     * each billing day into the second table, after its first row.
     */
    method AppendBillingRows(billingData: seq<Obj<Value>>) returns (ok: bool)
      requires Valid()
      modifies this
      ensures Valid()
      ensures ok <==> |old(tables)| >= 2
      ensures header == old(header) && body == old(body)
      ensures !ok ==> tables == old(tables)
      ensures ok ==> tables == old(tables)[1 := WithBillingRows(old(tables)[1], |billingData|)]
    {
      if |tables| < 2 {
        return false;
      }
      var rowOffsetIndex := 1;
      assert WithBillingRows(tables[1], 0) == tables[1];
      assert tables[1 := tables[1]] == tables;
      for index := 0 to |billingData|
        invariant tables == old(tables)[1 := WithBillingRows(old(tables)[1], index)]
        invariant header == old(header) && body == old(body)
      {
        WithBillingRowsShape(old(tables)[1], index);
        WithBillingRowsStep(old(tables)[1], index);
        tables := tables[1 := InsertRow(tables[1], rowOffsetIndex + index, BillingRow(index + 1))];
      }
      WithBillingRowsShape(old(tables)[1], |billingData|);
      ok := true;
    }

    /** `replaceTemplateText(data)`: for each key of `data` in order, its placeholder is replaced in the header and in the body. */
    method ReplaceTemplateText<V>(data: Obj<V>, show: V -> string)
      requires Wf(data) && header.Some?
      modifies this
      ensures Contents() == ApplyDoc(old(Contents()), Subs(data, show))
      ensures old(Valid()) ==> Valid()
    {
      ghost var subs := Subs(data, show);
      ApplyTablesNone(tables);
      for i := 0 to |data.keys|
        invariant header == Some(ApplyAll(old(header).value, subs[..i]))
        invariant body == ApplyAll(old(body), subs[..i])
        invariant tables == ApplyTables(old(tables), subs[..i])
      {
        var key := data.keys[i];
        var matchText := Token(key);
        var value := show(data.vals[key]);
        header := Some(ReplaceAll(header.value, matchText, value));
        body := ReplaceAll(body, matchText, value);
        tables := ReplaceTables(tables, matchText, value);
        assert subs[..i + 1] == subs[..i] + [(key, value)];
        ApplyAllStep(old(header).value, subs[..i], key, value);
        ApplyAllStep(old(body), subs[..i], key, value);
        ApplyTablesStep(old(tables), subs[..i], key, value);
      }
      assert subs[..|data.keys|] == subs;
      if old(Valid()) {
        ApplyTablesNonEmpty(old(tables), subs);
      }
    }

    /**
     * `populateTemplate(document, templateData)`: the template variables are
     * replaced, then the variables of each billing record. Without a header
     * the first replacement fails; without a list under `BILLING_DAYS` the
     * second phase fails after the first.
     */
    method PopulateTemplate(templateData: Obj<Entry>, render: Entry -> string) returns (ok: bool)
      requires Wf(templateData) && BillingRecordsWf(templateData)
      modifies this
      ensures ok <==> old(header).Some? && Find(templateData, BILLING_DAYS_KEY).Some? && Find(templateData, BILLING_DAYS_KEY).value.Days?
      ensures old(header).None? ==> Contents() == old(Contents())
      ensures old(header).Some? ==> Contents() == ApplyDoc(old(Contents()), PopulateSubs(templateData, render))
      ensures old(Valid()) ==> Valid()
    {
      if header.None? {
        return false;
      }
      ghost var start := Contents();
      var root := RootSubs(templateData, render);
      ReplaceTemplateText(templateData, ShowEntry(render));
      var billing := Find(templateData, BILLING_DAYS_KEY);
      assert root + [] == root;
      if !(billing.Some? && billing.value.Days?) {
        return false;
      }
      var days := billing.value.days;
      assert days[..0] == [];
      for index := 0 to |days|
        invariant Contents() == ApplyDoc(start, root + AllRecordSubs(days[..index], render))
        invariant old(Valid()) ==> Valid()
      {
        ghost var before := root + AllRecordSubs(days[..index], render);
        var billingDetails := days[index];
        ghost var next := RecordSubs(billingDetails, render);
        ReplaceTemplateText(billingDetails, ShowValue(render));
        AllRecordSubsStep(days, render, index);
        SubsAssociative(root, AllRecordSubs(days[..index], render), next);
        ApplyDocConcat(start, before, next);
      }
      assert days[..|days|] == days;
      ok := true;
    }
  }
}
