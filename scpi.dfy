/** The remote-control command parser (Core/Src/scpi.c): keyword matching
  * with SCPI long and short forms, the short form of a keyword, the
  * splitting of a command line into commands, path elements and channel
  * numbers, and the dispatch of `*IDN?`, `*RST` and `SENSe:FUNCtion`.
  * The UART, the receive buffer and the drawing done by `*RST` are not
  * modelled. */
module Scpi {
  import opened Common
  import opened Scales

  const NUL: char := '\0'

  // ---------------------------------------------------------------------
  // Character classes of <ctype.h> in the "C" locale

  predicate IsUpper(c: char) { 'A' <= c <= 'Z' }
  predicate IsLower(c: char) { 'a' <= c <= 'z' }
  predicate IsAlpha(c: char) { IsUpper(c) || IsLower(c) }
  predicate IsDigit(c: char) { '0' <= c <= '9' }
  predicate IsSpace(c: char) { c == ' ' || '\t' <= c <= '\r' }

  /** `toupper`. */
  function Upper(c: char): (u: char)
    ensures IsLower(c) ==> IsUpper(u) && u as int == c as int - 32
    ensures !IsLower(c) ==> u == c
  {
    if IsLower(c) then (c as int - 32) as char else c
  }

  /** `*p` for a character position `i` in a C string: its terminator past
    * the end. */
  function At(s: string, i: nat): char
  {
    if i < |s| then s[i] else NUL
  }

  // ---------------------------------------------------------------------
  // The keyword table

  /** `scpi_keywords` as the programmer meant it: one string per member of
    * the `SCPI_STRINGS` enum, in the order of the enum. Two entries differ
    * from the source beyond the missing commas: four-wire resistance is
    * spelt `FRESistance` (see `FresShortFormAsWritten`) and `DBM` comes
    * before `DB` (see `DbmShadowedAsWritten`). */
  const KEYWORDS: seq<string> := [
    "*IDN", "*RST", "SENSe", "CONFigure", "CALCulate", "SYSTem", "AUTO", "RANGe",
    "RATE", "MEAS", "FUNCtion", "VOLTage DC", "CURRent DC", "VOLTage AC", "CURRent AC",
    "VOLTage", "CURRent", "FREQuency", "PERiod", "CAPacitance", "CONTinuity", "DIODe",
    "FRESistance", "RESistance", "TEMPerature", "RTD", "TYPe", "UNIT", "SHOW",
    "THREshold", "SCALar", "AVERage", "ALL", "MAXimum", "MINimum", "DBM", "DB",
    "REFerence", "NULL", "OFFSet", "STATe", "BEEPer", "DATE", "TIME", "LOCal",
    "REMote", "DEFault"]

  /** `scpi_keywords` as written: the commas after "SHOW" and "SCALar" are
    * missing, so C joins each with the literal after it and the table has
    * 45 entries for an enum of 47. */
  const KEYWORDS_AS_WRITTEN: seq<string> := [
    "*IDN", "*RST", "SENSe", "CONFigure", "CALCulate", "SYSTem", "AUTO", "RANGe",
    "RATE", "MEAS", "FUNCtion", "VOLTage DC", "CURRent DC", "VOLTage AC", "CURRent AC",
    "VOLTage", "CURRent", "FREQuency", "PERiod", "CAPacitance", "CONTinuity", "DIODe",
    "FourwireRESistance", "RESistance", "TEMPerature", "RTD", "TYPe", "UNIT",
    "SHOWTHREshold", "SCALarAVERage", "ALL", "MAXimum", "MINimum", "DB", "DBM",
    "REFerence", "NULL", "OFFSet", "STATe", "BEEPer", "DATE", "TIME", "LOCal",
    "REMote", "DEFault"]

  /** Members of the `SCPI_STRINGS` enum (in the corrected order, which
    * swaps `DB` and `DBM`). */
  const SCPI_DOT_IDN: int := 0
  const SCPI_DOT_RST: int := 1
  const SCPI_SENS: int := 2
  const SCPI_FUNC: int := 10
  const SCPI_VOLT_DC: int := 11
  const SCPI_CURR_DC: int := 12
  const SCPI_VOLT_AC: int := 13
  const SCPI_CURR_AC: int := 14
  const SCPI_VOLT: int := 15
  const SCPI_FREQ: int := 17
  const SCPI_CAP: int := 19
  const SCPI_CONT: int := 20
  const SCPI_DIOD: int := 21
  const SCPI_FRES: int := 22
  const SCPI_RES: int := 23
  const SCPI_TEMP: int := 24
  const SCPI_SHOW: int := 28
  const SCPI_THRE: int := 29
  const SCPI_SCAL: int := 30
  const SCPI_AVER: int := 31
  const SCPI_ALL: int := 32
  const SCPI_DBM: int := 35
  const SCPI_DB: int := 36
  const SCPI_REM: int := 45
  const SCPI_DEF: int := 46
  const SCPI_NUM_STRINGS: int := 47

  /** The table has one keyword per enum member, and the members from
    * `SCPI_SHOW` on, which the missing commas displace, index their own
    * keywords. */
  lemma TableMatchesEnum()
    ensures |KEYWORDS| == SCPI_NUM_STRINGS
    ensures KEYWORDS[SCPI_SHOW] == "SHOW" && KEYWORDS[SCPI_THRE] == "THREshold"
    ensures KEYWORDS[SCPI_SCAL] == "SCALar" && KEYWORDS[SCPI_ALL] == "ALL"
    ensures KEYWORDS[SCPI_DBM] == "DBM" && KEYWORDS[SCPI_DB] == "DB"
    ensures KEYWORDS[SCPI_REM] == "REMote" && KEYWORDS[SCPI_DEF] == "DEFault"
  {
  }

  /** As written the table is two entries short: from `SCPI_SHOW` on every
    * member indexes the wrong keyword, and the last two index past the end
    * of the array, which `SCPI_Match` reads when nothing earlier matches. */
  lemma TableShortAsWritten()
    ensures |KEYWORDS_AS_WRITTEN| == SCPI_NUM_STRINGS - 2
    ensures KEYWORDS_AS_WRITTEN[SCPI_SHOW] == "SHOWTHREshold"
    ensures KEYWORDS_AS_WRITTEN[SCPI_THRE] == "SCALarAVERage"
    ensures KEYWORDS_AS_WRITTEN[SCPI_SCAL] == "ALL"
    ensures SCPI_REM >= |KEYWORDS_AS_WRITTEN| && SCPI_DEF >= |KEYWORDS_AS_WRITTEN|
  {
  }

  // ---------------------------------------------------------------------
  // Keyword matching

  /** The position of the first character at or after `j` that is not
    * white space (the terminator at the latest). */
  function SkipSpace(cmd: string, j: nat): (r: nat)
    ensures j <= r && (j <= |cmd| ==> r <= |cmd|)
    ensures !IsSpace(At(cmd, r))
    ensures forall k :: j <= k < r ==> k < |cmd| && IsSpace(cmd[k])
    decreases |cmd| - j
  {
    if j < |cmd| && IsSpace(cmd[j]) then SkipSpace(cmd, j + 1) else j
  }

  /** The first character of a keyword at or after `i` that is not a
    * lower-case letter: the upper-case letter that ends a run of optional
    * letters. */
  function NextUpper(kw: string, i: nat): (c: char)
    ensures !IsLower(c)
    decreases |kw| - i
  {
    if i >= |kw| then NUL
    else if IsLower(kw[i]) then NextUpper(kw, i + 1)
    else kw[i]
  }

  /** Whether command `cmd` from position `j` matches keyword `kw` from
    * position `i`, as the inner loop of `SCPI_Match` decides it: upper-case
    * letters and `*` must be present (in either case), a space needs white
    * space in the command, a lower-case letter is taken when the command has
    * it and skipped when the command has a non-letter or the upper-case
    * letter that follows. What the command has after the keyword does not
    * matter. */
  function Accepts(kw: string, i: nat, cmd: string, j: nat): bool
    decreases |kw| - i
  {
    if i >= |kw| || kw[i] == NUL then true
    else
      var t, c := kw[i], At(cmd, j);
      var ch := Upper(c);
      if t == ' ' then
        c != NUL && IsSpace(c) && Accepts(kw, i + 1, cmd, SkipSpace(cmd, j))
      else if IsUpper(t) || t == '*' then
        ch == t && Accepts(kw, i + 1, cmd, j + 1)
      else if c != NUL && Upper(t) == ch then
        Accepts(kw, i + 1, cmd, j + 1)
      else if !IsAlpha(ch) then
        Accepts(kw, i + 1, cmd, j)
      else
        ch == NextUpper(kw, i) && Accepts(kw, i + 1, cmd, j)
  }

  /** Whether the whole command matches the whole keyword. */
  predicate Matches(kw: string, cmd: string)
  {
    Accepts(kw, 0, cmd, 0)
  }

  /** The index of the first keyword of `table` from `from` on that the
    * command matches, or -1. */
  function FirstMatch(table: seq<string>, cmd: string, from: nat): (r: int)
    ensures r == -1 || (from <= r < |table| && Matches(table[r], cmd))
    decreases |table| - from
  {
    if from >= |table| then -1
    else if Matches(table[from], cmd) then from
    else FirstMatch(table, cmd, from + 1)
  }

  /** No keyword before the one found matches, and none at all when the
    * search finds nothing. */
  lemma {:induction false} FirstMatchFirst(table: seq<string>, cmd: string, from: nat, k: nat)
    requires from <= k < |table|
    requires FirstMatch(table, cmd, from) == -1 || k < FirstMatch(table, cmd, from)
    ensures !Matches(table[k], cmd)
    decreases k - from
  {
    if from < k {
      FirstMatchFirst(table, cmd, from + 1, k);
    }
  }

  function UpperAll(s: string): (r: string)
    ensures |r| == |s| && forall i :: 0 <= i < |s| ==> r[i] == Upper(s[i])
  {
    seq(|s|, i requires 0 <= i < |s| => Upper(s[i]))
  }

  lemma UpperFacts(c: char)
    ensures Upper(Upper(c)) == Upper(c)
    ensures IsSpace(Upper(c)) == IsSpace(c) && IsAlpha(Upper(c)) == IsAlpha(c)
    ensures (Upper(c) == NUL) == (c == NUL)
  {
  }

  lemma {:induction false} SkipSpaceUpper(s: string, j: nat)
    ensures SkipSpace(UpperAll(s), j) == SkipSpace(s, j)
    decreases |s| - j
  {
    if j < |s| {
      UpperFacts(s[j]);
      if IsSpace(s[j]) {
        SkipSpaceUpper(s, j + 1);
      }
    }
  }

  /** Matching is case-insensitive: a command and its upper-case spelling
    * match the same keywords. */
  lemma {:induction false} AcceptsIgnoresCase(kw: string, i: nat, cmd: string, j: nat)
    ensures Accepts(kw, i, cmd, j) == Accepts(kw, i, UpperAll(cmd), j)
    decreases |kw| - i
  {
    if i < |kw| && kw[i] != NUL {
      var u := UpperAll(cmd);
      UpperFacts(At(cmd, j));
      assert At(u, j) == Upper(At(cmd, j));
      var t := kw[i];
      if t == ' ' {
        SkipSpaceUpper(cmd, j);
        AcceptsIgnoresCase(kw, i + 1, cmd, SkipSpace(cmd, j));
      } else if At(cmd, j) != NUL && (IsUpper(t) || t == '*' || Upper(t) == Upper(cmd[j])) {
        AcceptsIgnoresCase(kw, i + 1, cmd, j + 1);
      } else if !(IsUpper(t) || t == '*') {
        AcceptsIgnoresCase(kw, i + 1, cmd, j);
      }
    }
  }

  /** The matching keyword found is the first: none before it matches, and
    * none at all matches when the search returns -1. */
  lemma FirstMatchMeaning(table: seq<string>, cmd: string)
    ensures var r := FirstMatch(table, cmd, 0);
      (r == -1 <==> forall k :: 0 <= k < |table| ==> !Matches(table[k], cmd))
      && (r != -1 ==> Matches(table[r], cmd) && forall k :: 0 <= k < r ==> !Matches(table[k], cmd))
  {
    var r := FirstMatch(table, cmd, 0);
    forall k | 0 <= k < |table| && (r == -1 || k < r)
      ensures !Matches(table[k], cmd)
    {
      FirstMatchFirst(table, cmd, 0, k);
    }
  }

  /** The inner loop of `SCPI_Match`: one index walks the keyword, one the
    * command. */
  method MatchKeyword(kw: string, cmd: string) returns (ok: bool)
    ensures ok == Matches(kw, cmd)
  {
    var t, c := 0, 0;
    while t < |kw| && kw[t] != NUL
      invariant t <= |kw| && c <= |cmd|
      invariant Accepts(kw, t, cmd, c) == Matches(kw, cmd)
      decreases |kw| - t
    {
      var ch := Upper(At(cmd, c));
      if kw[t] == ' ' {
        if At(cmd, c) == NUL || !IsSpace(At(cmd, c)) {
          return false;
        }
        ghost var c0 := c;
        while c < |cmd| && IsSpace(cmd[c])
          invariant c0 <= c <= |cmd| && SkipSpace(cmd, c) == SkipSpace(cmd, c0)
        {
          c := c + 1;
        }
      } else if IsUpper(kw[t]) || kw[t] == '*' {
        if ch != kw[t] {
          return false;
        }
        c := c + 1;
      } else if At(cmd, c) != NUL && Upper(kw[t]) == ch {
        c := c + 1;
      } else if !IsAlpha(ch) {
      } else {
        var p := t;
        while p < |kw| && IsLower(kw[p])
          invariant t <= p <= |kw| && NextUpper(kw, p) == NextUpper(kw, t)
        {
          p := p + 1;
        }
        if ch != At(kw, p) {
          return false;
        }
      }
      t := t + 1;
    }
    return true;
  }

  /** The outer loop of `SCPI_Match` over a keyword table. */
  method FindFirst(table: seq<string>, cmd: string) returns (r: int)
    requires |table| < 256
    ensures r == FirstMatch(table, cmd, 0)
  {
    var i := 0;
    while i < |table|
      invariant 0 <= i <= |table|
      invariant FirstMatch(table, cmd, i) == FirstMatch(table, cmd, 0)
    {
      var ok := MatchKeyword(table[i], cmd);
      if ok {
        return i;
      }
      i := i + 1;
    }
    return -1;
  }

  /** `SCPI_Match`: the index of the first keyword of the table the
    * command matches, or -1. */
  method Match(cmd: string) returns (r: int)
    ensures r == FirstMatch(KEYWORDS, cmd, 0)
  {
    r := FindFirst(KEYWORDS, cmd);
  }

  // ---------------------------------------------------------------------
  // Long and short forms

  /** A keyword as the table spells them: each word is upper-case letters
    * (or `*`) followed by optional lower-case letters, and words are
    * separated by single spaces. */
  predicate WellFormed(kw: string)
  {
    (forall k :: 0 <= k < |kw| ==> IsAlpha(kw[k]) || kw[k] == '*' || kw[k] == ' ')
    && (forall k :: 0 <= k < |kw| && kw[k] == ' ' ==> k + 1 < |kw| && IsUpper(kw[k + 1]))
  }

  /** A well-formed keyword whose optional letters only end words, so that
    * its short form leaves out whole runs: `VOLTage DC`, but not
    * `FourwireRESistance`, and no `*`. */
  predicate Regular(kw: string)
  {
    WellFormed(kw)
    && (forall k :: 0 <= k < |kw| ==> kw[k] != '*')
    && (forall k :: 0 < k < |kw| && IsLower(kw[k - 1]) ==> IsLower(kw[k]) || kw[k] == ' ')
  }

  /** The characters `SCPI_Short` keeps: upper-case letters and spaces. */
  function Abbrev(kw: string): (r: string)
    ensures |r| <= |kw|
    ensures forall k :: 0 <= k < |r| ==> IsUpper(r[k]) || r[k] == ' '
  {
    if kw == [] then ""
    else (if IsUpper(kw[0]) || kw[0] == ' ' then [kw[0]] else "") + Abbrev(kw[1..])
  }

  /** The reply of `SCPI_Short`: the kept characters, at most 9 of them. */
  function ShortForm(kw: string): (r: string)
    ensures |r| <= 9 && |r| <= |kw|
    ensures forall k :: 0 <= k < |r| ==> IsUpper(r[k]) || r[k] == ' '
  {
    var a := Abbrev(kw);
    if |a| <= 9 then a else a[..9]
  }

  /** The long form, followed by anything, matches. */
  lemma {:induction false} LongFormAccepted(kw: string, i: nat, cmd: string, j: nat)
    requires WellFormed(kw) && i <= |kw| && j <= |cmd|
    requires |kw| - i <= |cmd| - j && kw[i..] == cmd[j..j + |kw| - i]
    ensures Accepts(kw, i, cmd, j)
    decreases |kw| - i
  {
    if i < |kw| {
      assert cmd[j] == kw[i];
      if kw[i] == ' ' {
        assert cmd[j + 1] == kw[i + 1];
        assert SkipSpace(cmd, j + 1) == j + 1;
      }
      assert kw[i + 1..] == cmd[j..j + |kw| - i][1..];
      LongFormAccepted(kw, i + 1, cmd, j + 1);
    }
  }

  /** The short form of the words from `i` on, after an optional letter. */
  lemma {:induction false} AbbrevAfterLower(kw: string, i: nat)
    requires Regular(kw) && 0 < i <= |kw| && IsLower(kw[i - 1])
    ensures Abbrev(kw[i..]) == [] || Abbrev(kw[i..])[0] == ' '
    decreases |kw| - i
  {
    if i < |kw| && kw[i] != ' ' {
      assert kw[i..][1..] == kw[i + 1..];
      AbbrevAfterLower(kw, i + 1);
    }
  }

  /** One step of the matcher over a character of the keyword the short
    * form keeps. */
  lemma AcceptsKept(kw: string, i: nat, cmd: string, j: nat)
    requires i < |kw| && (IsUpper(kw[i]) || kw[i] == ' ') && j < |cmd| && cmd[j] == kw[i]
    requires kw[i] == ' ' ==> j + 1 < |cmd| && IsUpper(cmd[j + 1])
    requires Accepts(kw, i + 1, cmd, j + 1)
    ensures Accepts(kw, i, cmd, j)
  {
    if kw[i] == ' ' {
      assert SkipSpace(cmd, j + 1) == j + 1;
    }
  }

  /** One step of the matcher over an optional letter the command left out. */
  lemma AcceptsSkipped(kw: string, i: nat, cmd: string, j: nat)
    requires i < |kw| && IsLower(kw[i]) && !IsAlpha(At(cmd, j))
    requires Accepts(kw, i + 1, cmd, j)
    ensures Accepts(kw, i, cmd, j)
  {
  }

  /** The short form of `kw` from character `i` on stands at position `j`
    * of `cmd`, followed by nothing or by a character that is not a letter. */
  predicate ShortFormAt(kw: string, i: nat, cmd: string, j: nat)
  {
    i <= |kw| && j <= |cmd| &&
    var a := Abbrev(kw[i..]); |a| <= |cmd| - j && a == cmd[j..j + |a|] && !IsAlpha(At(cmd, j + |a|))
  }

  /** The short form, followed by nothing or by a character that is not a
    * letter (`?`, a space, a digit), matches a regular keyword. */
  lemma {:induction false} ShortFormAccepted(kw: string, i: nat, cmd: string, j: nat)
    requires Regular(kw) && ShortFormAt(kw, i, cmd, j)
    ensures Accepts(kw, i, cmd, j)
    decreases |kw| - i
  {
    if i < |kw| {
      var t := kw[i];
      if IsUpper(t) || t == ' ' {
        ShortFormKeeps(kw, i, cmd, j);
        ShortFormAccepted(kw, i + 1, cmd, j + 1);
        AcceptsKept(kw, i, cmd, j);
      } else {
        ShortFormSkips(kw, i, cmd, j);
        ShortFormAccepted(kw, i + 1, cmd, j);
        AcceptsSkipped(kw, i, cmd, j);
      }
    }
  }

  /** A capital or a space of the keyword is the next character of the
    * short form. */
  lemma ShortFormKeeps(kw: string, i: nat, cmd: string, j: nat)
    requires ShortFormAt(kw, i, cmd, j) && i < |kw| && (IsUpper(kw[i]) || kw[i] == ' ')
    ensures j < |cmd| && cmd[j] == kw[i] && ShortFormAt(kw, i + 1, cmd, j + 1)
  {
    var a := Abbrev(kw[i..]);
    var b := Abbrev(kw[i + 1..]);
    assert kw[i..][1..] == kw[i + 1..];
    assert a == [kw[i]] + b;
    assert cmd[j + 1..j + 1 + |b|] == cmd[j..j + |a|][1..];
  }

  /** A small letter of a regular keyword is left out of the short form. */
  lemma ShortFormSkips(kw: string, i: nat, cmd: string, j: nat)
    requires Regular(kw) && ShortFormAt(kw, i, cmd, j) && i < |kw| && !(IsUpper(kw[i]) || kw[i] == ' ')
    ensures IsLower(kw[i]) && !IsAlpha(At(cmd, j)) && ShortFormAt(kw, i + 1, cmd, j)
  {
    assert kw[i..][1..] == kw[i + 1..];
    assert Abbrev(kw[i..]) == Abbrev(kw[i + 1..]);
    AbbrevAfterLower(kw, i + 1);
  }

  /** A short form of at most nine characters is the full reply of
    * `SCPI_Short`, and the matcher accepts it back. */
  lemma ShortFormRoundTrip(kw: string)
    requires Regular(kw) && |Abbrev(kw)| <= 9
    ensures Matches(kw, ShortForm(kw))
  {
    ShortFormAccepted(kw, 0, ShortForm(kw), 0);
  }

  /** A keyword that matches shadows every later keyword: the search stops
    * at or before it. */
  lemma EarlierWins(table: seq<string>, cmd: string, a: int, b: int)
    requires 0 <= a < b < |table| && Matches(table[a], cmd)
    ensures var r := FirstMatch(table, cmd, 0); 0 <= r <= a && r != b
  {
    var r := FirstMatch(table, cmd, 0);
    if r == -1 || a < r {
      FirstMatchFirst(table, cmd, 0, a);
    }
  }

  /** As written, four-wire resistance is spelt `FourwireRESistance`, whose
    * short form is `FRES`; the lower-case `r` of `wire` takes the `R` of
    * the command, so `FRES` is not accepted. */
  lemma FresShortFormAsWritten()
    ensures KEYWORDS_AS_WRITTEN[SCPI_FRES] == "FourwireRESistance"
    ensures !Matches(KEYWORDS_AS_WRITTEN[SCPI_FRES], "FRES")
  {
  }

  /** Spelt `FRESistance`, the keyword accepts its short form `FRES`. */
  lemma FresShortFormAccepted()
    ensures KEYWORDS[SCPI_FRES] == "FRESistance"
    ensures Matches(KEYWORDS[SCPI_FRES], "FRES")
  {
  }

  /** As written, `DB` comes before `DBM` and matches the command `DBM`, so
    * the command `DBM` never resolves to the `DBM` keyword. */
  lemma DbmShadowedAsWritten()
    ensures KEYWORDS_AS_WRITTEN[33] == "DB" && KEYWORDS_AS_WRITTEN[34] == "DBM"
    ensures var r := FirstMatch(KEYWORDS_AS_WRITTEN, "DBM", 0); 0 <= r <= 33
  {
    assert Matches("DB", "DBM");
    EarlierWins(KEYWORDS_AS_WRITTEN, "DBM", 33, 34);
  }

  /** With `DBM` before `DB`, the command `DBM` does not resolve to `DB`, and
    * the command `DB` does not resolve to `DBM`. */
  lemma DbmBeforeDb()
    ensures var r := FirstMatch(KEYWORDS, "DBM", 0); 0 <= r <= SCPI_DBM
    ensures FirstMatch(KEYWORDS, "DB", 0) != SCPI_DBM
  {
    TableMatchesEnum();
    assert Matches(KEYWORDS[SCPI_DBM], "DBM");
    EarlierWins(KEYWORDS, "DBM", SCPI_DBM, SCPI_DB);
    assert !Matches(KEYWORDS[SCPI_DBM], "DB");
  }

  /** `VOLTage DC` comes before `VOLTage`, so the command `VOLT DC` never
    * selects the bare voltage keyword. */
  lemma VoltDcBeforeVolt()
    ensures var r := FirstMatch(KEYWORDS, "VOLT DC", 0); 0 <= r <= SCPI_VOLT_DC
  {
    assert Matches(KEYWORDS[SCPI_VOLT_DC], "VOLT DC");
    EarlierWins(KEYWORDS, "VOLT DC", SCPI_VOLT_DC, SCPI_VOLT);
  }

  /** Dropping characters commutes with concatenation. */
  lemma {:induction false} AbbrevAppend(x: string, y: string)
    ensures Abbrev(x + y) == Abbrev(x) + Abbrev(y)
  {
    if x != [] {
      assert (x + y)[0] == x[0] && (x + y)[1..] == x[1..] + y;
      AbbrevAppend(x[1..], y);
      var h := if IsUpper(x[0]) || x[0] == ' ' then [x[0]] else "";
      assert Abbrev(x + y) == h + Abbrev(x[1..] + y);
      assert Abbrev(x) == h + Abbrev(x[1..]);
    } else {
      assert x + y == y;
    }
  }

  /** The copy loop of `SCPI_Short` over one keyword, into a 10-byte buffer
    * that keeps room for the terminating NUL. */
  method ShortOf(s: string) returns (r: string)
    ensures r == ShortForm(s)
  {
    var response := new char[10];
    var x, i := 0, 0;
    while i < |s| && x < 9
      invariant 0 <= i <= |s| && 0 <= x <= 9
      invariant response[..x] == Abbrev(s[..i])
    {
      AbbrevAppend(s[..i], [s[i]]);
      assert s[..i + 1] == s[..i] + [s[i]];
      if IsUpper(s[i]) || s[i] == ' ' {
        response[x] := s[i];
        x := x + 1;
      }
      i := i + 1;
    }
    response[x] := NUL;
    r := response[..x];
    AbbrevAppend(s[..i], s[i..]);
    assert s == s[..i] + s[i..];
  }

  /** `SCPI_Short`: the short form of keyword number `kw`; a number past the
    * table gives the empty string. */
  method Short(kw: Byte) returns (r: string)
    ensures kw as int < SCPI_NUM_STRINGS ==> r == ShortForm(KEYWORDS[kw])
    ensures kw as int >= SCPI_NUM_STRINGS ==> r == ""
  {
    if kw as int >= SCPI_NUM_STRINGS {
      return "";
    }
    r := ShortOf(KEYWORDS[kw]);
  }

  // ---------------------------------------------------------------------
  // Splitting a command line

  /** The end of the `;`-free run starting at `i`. */
  function TokenEnd(s: string, i: nat): (e: nat)
    requires i <= |s|
    ensures i <= e <= |s| && (e < |s| ==> s[e] == ';')
    ensures forall k :: i <= k < e ==> s[k] != ';'
    decreases |s| - i
  {
    if i == |s| || s[i] == ';' then i else TokenEnd(s, i + 1)
  }

  /** The commands `strtok(s, ";")` returns from position `i` on: the
    * maximal runs without `;`, empty runs skipped. */
  function TokensFrom(s: string, i: nat): (ts: seq<string>)
    requires i <= |s|
    ensures |ts| <= |s| - i
    decreases |s| - i
  {
    if i == |s| then []
    else if s[i] == ';' then TokensFrom(s, i + 1)
    else
      var e := TokenEnd(s, i);
      [s[i..e]] + TokensFrom(s, e)
  }

  function Tokens(s: string): (ts: seq<string>)
    ensures Commands(ts)
  {
    TokensNonEmpty(s, 0);
    TokensFrom(s, 0)
  }

  /** Commands joined with `;`. */
  function Join(ts: seq<string>): string
  {
    if ts == [] then ""
    else if |ts| == 1 then ts[0]
    else ts[0] + ";" + Join(ts[1..])
  }

  /** Commands as `strtok` delivers them: non-empty and without `;`. */
  predicate Commands(ts: seq<string>)
  {
    forall k :: 0 <= k < |ts| ==> |ts[k]| > 0 && ';' !in ts[k]
  }

  /** Splitting recovers the commands joined with `;`. */
  lemma TokensJoin(ts: seq<string>)
    requires Commands(ts)
    ensures Tokens(Join(ts)) == ts
  {
    TokensJoinFrom(ts, Join(ts), 0);
  }

  lemma {:induction false} TokensJoinFrom(ts: seq<string>, s: string, i: nat)
    requires Commands(ts)
    requires i <= |s| && s[i..] == Join(ts)
    ensures TokensFrom(s, i) == ts
    decreases |ts|
  {
    if ts == [] {
      assert |s[i..]| == 0;
    } else if |ts| == 1 {
      TokensJoinOne(ts, s, i);
    } else {
      JoinSplits(ts, s, i);
      TokensJoinFrom(ts[1..], s, i + |ts[0]| + 1);
      TokensJoinFirst(ts, s, i);
    }
  }

  /** The text of one command is split into that command. */
  lemma TokensJoinOne(ts: seq<string>, s: string, i: nat)
    requires Commands(ts) && |ts| == 1
    requires i <= |s| && s[i..] == Join(ts)
    ensures TokensFrom(s, i) == ts
  {
    var t := ts[0];
    var e := i + |t|;
    assert s[i..] == t && e == |s|;
    assert s[i] == t[0] && s[i] != ';';
    TokenEndRun(s, i, t);
    TokensFromStep(s, i);
    assert s[i..e] == t && TokensFrom(s, e) == [];
  }

  /** The first of several joined commands is split off, then the rest as
    * they split on their own. */
  lemma TokensJoinFirst(ts: seq<string>, s: string, i: nat)
    requires Commands(ts) && |ts| > 1
    requires i <= |s| && s[i..] == Join(ts)
    requires i + |ts[0]| < |s| && TokensFrom(s, i + |ts[0]| + 1) == ts[1..]
    ensures TokensFrom(s, i) == ts
  {
    var t := ts[0];
    var e := i + |t|;
    JoinSplits(ts, s, i);
    assert s[i] == t[0] && s[i] != ';' by {
      assert s[i..e][0] == t[0];
    }
    TokenEndRun(s, i, t);
    TokensFromFirst(s, i, e, t, ts[1..]);
    assert ts == [t] + ts[1..];
  }

  /** A command `t` ending in `;` at `e`, followed by the commands `rest`. */
  lemma TokensFromFirst(s: string, i: nat, e: nat, t: string, rest: seq<string>)
    requires i < |s| && s[i] != ';' && TokenEnd(s, i) == e && e < |s| && s[i..e] == t
    requires TokensFrom(s, e + 1) == rest
    ensures TokensFrom(s, i) == [t] + rest
  {
    TokensFromStep(s, i);
    TokensFromSkip(s, e);
  }

  /** A command starts at `i`: it is split off up to the next `;`. */
  lemma TokensFromStep(s: string, i: nat)
    requires i < |s| && s[i] != ';'
    ensures TokensFrom(s, i) == [s[i..TokenEnd(s, i)]] + TokensFrom(s, TokenEnd(s, i))
  {
  }

  /** A `;` is skipped. */
  lemma TokensFromSkip(s: string, e: nat)
    requires e < |s| && s[e] == ';'
    ensures TokensFrom(s, e) == TokensFrom(s, e + 1)
  {
  }

  /** Text that reads as two or more joined commands holds the first one,
    * then `;`, then the others joined. */
  lemma JoinSplits(ts: seq<string>, s: string, i: nat)
    requires |ts| > 1 && i <= |s| && s[i..] == Join(ts)
    ensures var e := i + |ts[0]|; e < |s| && s[i..e] == ts[0] && s[e] == ';' && s[e + 1..] == Join(ts[1..])
  {
    var t := ts[0];
    var rest := Join(ts[1..]);
    assert s[i..] == t + (";" + rest);
    assert s[i..][..|t|] == t;
    assert s[i..][|t|..] == ";" + rest;
  }

  /** A `;`-free run followed by `;` or the end is one command. */
  lemma {:induction false} TokenEndRun(s: string, i: nat, t: string)
    requires i + |t| <= |s| && s[i..i + |t|] == t && ';' !in t
    requires i + |t| == |s| || s[i + |t|] == ';'
    ensures TokenEnd(s, i) == i + |t|
    decreases |t|
  {
    if t != [] {
      assert s[i] == t[0];
      assert s[i + 1..i + |t|] == t[1..];
      TokenEndRun(s, i + 1, t[1..]);
    }
  }

  /** Every command `strtok` returns is non-empty and holds no `;`. */
  lemma {:induction false} TokensNonEmpty(s: string, i: nat)
    requires i <= |s|
    ensures Commands(TokensFrom(s, i))
    decreases |s| - i
  {
    if i < |s| {
      if s[i] == ';' {
        TokensNonEmpty(s, i + 1);
        assert TokensFrom(s, i) == TokensFrom(s, i + 1);
      } else {
        var e := TokenEnd(s, i);
        TokensNonEmpty(s, e);
        assert forall k :: 0 <= k < e - i ==> s[i..e][k] == s[i + k];
        assert ';' !in s[i..e];
        var ts, tail := TokensFrom(s, i), TokensFrom(s, e);
        assert ts == [s[i..e]] + tail;

      }
    }
  }

  // ---------------------------------------------------------------------
  // Path elements and channel numbers

  predicate IsKeywordChar(c: char) { IsAlpha(c) || c == '*' }

  /** The end of the run of letters and `*` starting at `i`. */
  function KeywordEnd(s: string, i: nat): (e: nat)
    requires i <= |s|
    ensures i <= e <= |s| && !IsKeywordChar(At(s, e))
    ensures forall k :: i <= k < e ==> IsKeywordChar(s[k])
    decreases |s| - i
  {
    if i < |s| && IsKeywordChar(s[i]) then KeywordEnd(s, i + 1) else i
  }

  /** The end of the run of digits starting at `i`. */
  function DigitEnd(s: string, i: nat): (e: nat)
    requires i <= |s|
    ensures i <= e <= |s| && !IsDigit(At(s, e))
    ensures forall k :: i <= k < e ==> IsDigit(s[k])
    decreases |s| - i
  {
    if i < |s| && IsDigit(s[i]) then DigitEnd(s, i + 1) else i
  }

  predicate AllDigits(s: string)
  {
    forall k :: 0 <= k < |s| ==> IsDigit(s[k])
  }

  /** The value of a run of decimal digits, as `atoi` reads it. */
  function Decimal(s: string): nat
    requires AllDigits(s)
  {
    if s == [] then 0
    else Decimal(s[..|s| - 1]) * 10 + (s[|s| - 1] as int - '0' as int)
  }

  /** The decimal digits of a number, without leading zeros. */
  function Render(n: nat): (s: string)
    ensures |s| > 0 && AllDigits(s)
  {
    if n < 10 then [('0' as int + n) as char]
    else Render(n / 10) + [('0' as int + n % 10) as char]
  }

  /** Reading back the digits of a number gives the number. */
  lemma {:induction false} DecimalRender(n: nat)
    ensures Decimal(Render(n)) == n
  {
    if n >= 10 {
      var r := Render(n);
      assert r[..|r| - 1] == Render(n / 10);
      DecimalRender(n / 10);
    }
  }

  /** A path element: its keyword and its channel number (-1 for none). */
  datatype Node = Node(keyword: string, channel: int)

  /** One path element read at position `i`, the delimiter after it and
    * the position after the delimiter. */
  datatype Step = Step(node: Node, delimiter: char, next: nat)

  /** One pass of the path loop of `SCPI_Execute`: the keyword is the run of
    * letters and `*`; digits right after it are its channel number; the
    * character after that is the delimiter, replaced by the terminator. */
  function ParseNode(s: string, i: nat): (r: Step)
    requires i <= |s|
    ensures i < r.next <= |s| || (r.next == i == |s|)
    ensures r.next <= |s| && (r.delimiter != NUL ==> r.next > i)
    ensures forall k :: 0 <= k < |r.node.keyword| ==> IsKeywordChar(r.node.keyword[k])
    ensures r.node.channel >= -1
  {
    var e := KeywordEnd(s, i);
    var d := DigitEnd(s, e);
    var channel := if d > e then Decimal(s[e..d]) else -1;
    Step(Node(s[i..e], channel), At(s, d), if d < |s| then d + 1 else d)
  }

  /** The path read from position `i` of a command, after `n` elements:
    * elements follow each other while the delimiter is `:`, the command
    * goes on and fewer than `MAX_SCPI_PATH` elements were read. */
  datatype Path = Path(nodes: seq<Node>, delimiter: char, rest: nat)

  const MAX_SCPI_PATH: int := 5

  function PathFrom(s: string, i: nat, n: nat): (p: Path)
    requires i < |s| && n < MAX_SCPI_PATH
    ensures 1 <= |p.nodes| <= MAX_SCPI_PATH - n && p.rest <= |s|
    decreases MAX_SCPI_PATH - n
  {
    var r := ParseNode(s, i);
    if r.delimiter != ':' || n + 1 == MAX_SCPI_PATH || r.next == |s| then Path([r.node], r.delimiter, r.next)
    else
      var p := PathFrom(s, r.next, n + 1);
      Path([r.node] + p.nodes, p.delimiter, p.rest)
  }

  /** The parameters left after the path: past the whitespace when the
    * delimiter is whitespace, the text after `?` for a query, nothing
    * otherwise. */
  function Params(s: string, p: Path): (r: string)
    requires p.rest <= |s|
    ensures |r| <= |s| - p.rest && r == s[|s| - |r|..]
  {
    if IsSpace(p.delimiter) then s[SkipSpace(s, p.rest)..]
    else if p.delimiter != '?' then ""
    else s[p.rest..]
  }

  /** A path element as a command spells it: a non-empty keyword of letters
    * and `*`, and a channel number or -1 for none. */
  predicate NodeText(n: Node)
  {
    |n.keyword| > 0 && n.channel >= -1
    && forall k :: 0 <= k < |n.keyword| ==> IsKeywordChar(n.keyword[k])
  }

  /** A path element written out: its keyword, then its channel number. */
  function Unparse(n: Node): string
  {
    n.keyword + (if n.channel >= 0 then Render(n.channel) else "")
  }

  /** A run of keyword characters followed by something else is one keyword. */
  lemma {:induction false} KeywordEndRun(s: string, i: nat, w: string)
    requires i + |w| <= |s| && s[i..i + |w|] == w && !IsKeywordChar(At(s, i + |w|))
    requires forall k :: 0 <= k < |w| ==> IsKeywordChar(w[k])
    ensures KeywordEnd(s, i) == i + |w|
    decreases |w|
  {
    if w != [] {
      assert s[i] == w[0];
      assert s[i + 1..i + |w|] == w[1..];
      KeywordEndRun(s, i + 1, w[1..]);
    }
  }

  /** A run of digits followed by something else is one number. */
  lemma {:induction false} DigitEndRun(s: string, i: nat, w: string)
    requires i + |w| <= |s| && s[i..i + |w|] == w && !IsDigit(At(s, i + |w|)) && AllDigits(w)
    ensures DigitEnd(s, i) == i + |w|
    decreases |w|
  {
    if w != [] {
      assert s[i] == w[0];
      assert s[i + 1..i + |w|] == w[1..];
      DigitEndRun(s, i + 1, w[1..]);
    }
  }

  /** Reading a written-out path element gives it back, with the character
    * after it as delimiter. */
  lemma ParseNodeUnparse(s: string, i: nat, n: Node)
    requires NodeText(n)
    requires var u := Unparse(n); i + |u| <= |s| && s[i..i + |u|] == u
    requires var c := At(s, i + |Unparse(n)|); !IsKeywordChar(c) && !IsDigit(c)
    ensures var j := i + |Unparse(n)|; ParseNode(s, i) == Step(n, At(s, j), if j < |s| then j + 1 else j)
  {
    if n.channel >= 0 {
      ParseChannelUnparse(s, i, n);
    } else {
      ParseBareUnparse(s, i, n);
    }
  }

  /** An element without a channel number: the keyword alone. */
  lemma ParseBareUnparse(s: string, i: nat, n: Node)
    requires NodeText(n) && n.channel == -1
    requires var u := Unparse(n); i + |u| <= |s| && s[i..i + |u|] == u
    requires var c := At(s, i + |Unparse(n)|); !IsKeywordChar(c) && !IsDigit(c)
    ensures var j := i + |Unparse(n)|; ParseNode(s, i) == Step(n, At(s, j), if j < |s| then j + 1 else j)
  {
    var w := n.keyword;
    var e := i + |w|;
    assert Unparse(n) == w;
    KeywordEndRun(s, i, w);
    assert DigitEnd(s, e) == e;
    ParseNodeParts(s, i, e, e);
  }

  /** An element with a channel number: the digits after the keyword are
    * its rendering, and `atoi` reads the number back. */
  lemma ParseChannelUnparse(s: string, i: nat, n: Node)
    requires NodeText(n) && n.channel >= 0
    requires var u := Unparse(n); i + |u| <= |s| && s[i..i + |u|] == u
    requires var c := At(s, i + |Unparse(n)|); !IsKeywordChar(c) && !IsDigit(c)
    ensures var j := i + |Unparse(n)|; ParseNode(s, i) == Step(n, At(s, j), if j < |s| then j + 1 else j)
  {
    var u := Unparse(n);
    var w := n.keyword;
    var e := i + |w|;
    var digits := Render(n.channel);
    assert u == w + digits;
    assert s[i..e] == w by {
      assert u[..|w|] == w;
    }
    assert s[e..e + |digits|] == digits by {
      assert u[|w|..] == digits;
    }
    assert At(s, e) == digits[0];
    KeywordEndRun(s, i, w);
    DigitEndRun(s, e, digits);
    DecimalRender(n.channel);
    ParseNodeParts(s, i, e, i + |u|);
  }

  /** `ParseNode` in terms of where the keyword and the digits end. */
  lemma ParseNodeParts(s: string, i: nat, e: nat, d: nat)
    requires i <= |s| && KeywordEnd(s, i) == e && DigitEnd(s, e) == d
    ensures e <= d <= |s|
    ensures ParseNode(s, i) == Step(Node(s[i..e], if d > e then Decimal(s[e..d]) else -1), At(s, d), if d < |s| then d + 1 else d)
  {
  }

  /** A path whose first elements are already read. */
  function Extend(nodes: seq<Node>, p: Path): Path
  {
    Path(nodes + p.nodes, p.delimiter, p.rest)
  }

  /** The keyword numbers of path elements in `table`. */
  function Numbers(table: seq<string>, nodes: seq<Node>): (r: seq<int>)
    ensures |r| == |nodes|
  {
    if nodes == [] then []
    else Numbers(table, nodes[..|nodes| - 1]) + [FirstMatch(table, nodes[|nodes| - 1].keyword, 0)]
  }

  /** The channel numbers of path elements. */
  function Channels(nodes: seq<Node>): (r: seq<int>)
    ensures |r| == |nodes|
  {
    if nodes == [] then [] else Channels(nodes[..|nodes| - 1]) + [nodes[|nodes| - 1].channel]
  }

  /** `nodes` are the first elements of the path `whole` of `s`, read up
    * to `i`: the loop either goes on at `i` or has stopped with `delimiter`. */
  predicate PathSoFar(s: string, nodes: seq<Node>, delimiter: char, i: nat, whole: Path)
  {
    |nodes| <= MAX_SCPI_PATH && i <= |s| &&
    (|nodes| < MAX_SCPI_PATH && i < |s| ==> Extend(nodes, PathFrom(s, i, |nodes|)) == whole) &&
    (!(|nodes| < MAX_SCPI_PATH && i < |s|) ==> Path(nodes, delimiter, i) == whole)
  }

  /** One turn of the path loop: the element at `i` joins the elements
    * already read, and the loop either stops there or goes on after it. */
  lemma PathAdvance(s: string, nodes: seq<Node>, delimiter: char, i: nat, whole: Path)
    requires PathSoFar(s, nodes, delimiter, i, whole) && |nodes| < MAX_SCPI_PATH && i < |s|
    ensures var r := ParseNode(s, i);
      if r.delimiter != ':' || |nodes| + 1 == MAX_SCPI_PATH || r.next == |s| then
        Path(nodes + [r.node], r.delimiter, r.next) == whole
      else
        PathSoFar(s, nodes + [r.node], r.delimiter, r.next, whole)
  {
    var r := ParseNode(s, i);
    var n := |nodes|;
    if !(r.delimiter != ':' || n + 1 == MAX_SCPI_PATH || r.next == |s|) {
      var p := PathFrom(s, r.next, n + 1);
      PathFromGoesOn(s, i, n);
      ExtendOneMore(nodes, r.node, p, whole);
    }
  }

  /** `PathFrom` past an element followed by `:`. */
  lemma PathFromGoesOn(s: string, i: nat, n: nat)
    requires i < |s| && n < MAX_SCPI_PATH
    requires var r := ParseNode(s, i); !(r.delimiter != ':' || n + 1 == MAX_SCPI_PATH || r.next == |s|)
    ensures var r := ParseNode(s, i); var p := PathFrom(s, r.next, n + 1);
      PathFrom(s, i, n) == Path([r.node] + p.nodes, p.delimiter, p.rest)
  {
  }

  lemma ExtendOneMore(nodes: seq<Node>, node: Node, p: Path, whole: Path)
    requires Extend(nodes, Path([node] + p.nodes, p.delimiter, p.rest)) == whole
    ensures Extend(nodes + [node], p) == whole
  {
    assert nodes + ([node] + p.nodes) == (nodes + [node]) + p.nodes;
  }

  /** One path element of `SCPI_Execute`: the keyword run, the digits of
    * the channel number read by `atoi`, and the delimiter after them. */
  method ReadNode(cmd: string, i: nat) returns (node: Node, delimiter: char, next: nat)
    requires i < |cmd|
    ensures Step(node, delimiter, next) == ParseNode(cmd, i)
  {
    var e := i;
    while e < |cmd| && IsKeywordChar(cmd[e])
      invariant i <= e <= |cmd| && KeywordEnd(cmd, e) == KeywordEnd(cmd, i)
    {
      e := e + 1;
    }
    var d := e;
    var channel: int := -1;
    if e < |cmd| && IsDigit(cmd[e]) {
      channel := Decimal(cmd[e..DigitEnd(cmd, e)]);
      d := d + 1;
      while d < |cmd| && IsDigit(cmd[d])
        invariant e < d <= |cmd| && DigitEnd(cmd, d) == DigitEnd(cmd, e)
      {
        d := d + 1;
      }
    }
    node := Node(cmd[i..e], channel);
    delimiter := At(cmd, d);
    next := if d < |cmd| then d + 1 else d;
  }

  // ---------------------------------------------------------------------
  // Dispatch

  const IDN_REPLY: string := "VoltCraft,VC-7055BT,2038274,V1.9.0"

  /** The scale a `SENSe:FUNCtion` parameter selects; `SCALE_ILLEGAL` for a
    * keyword that names no function ("Bad FUNC"). */
  function FuncScale(k: int): (scale: int)
    ensures scale == SCALE_ILLEGAL || ValidIndex(scale)
  {
    if k == SCPI_RES then SCALE_500_Ohm
    else if k == SCPI_FRES then SCALE_4W_500_Ohm
    else if k == SCPI_VOLT_DC then SCALE_DC_50V
    else if k == SCPI_VOLT_AC then SCALE_AC_50V
    else if k == SCPI_CURR_DC then SCALE_DC_50mA
    else if k == SCPI_CURR_AC then SCALE_AC_50mA
    else if k == SCPI_CAP then SCALE_5_uF
    else if k == SCPI_FREQ then SCALE_FREQ
    else if k == SCPI_TEMP then SCALE_TEMP
    else if k == SCPI_CONT then SCALE_CONT
    else if k == SCPI_DIOD then SCALE_DIODE
    else SCALE_ILLEGAL
  }

  /** The keyword whose short form names a mode in the `SENSe:FUNCtion`
    * reply. */
  function FuncKeyword(m: Mode): (k: int)
    ensures 0 <= k < SCPI_NUM_STRINGS
  {
    match m
    case Resistance => SCPI_RES
    case Resistance4W => SCPI_FRES
    case DCVoltage => SCPI_VOLT_DC
    case ACVoltage => SCPI_VOLT_AC
    case DCCurrent => SCPI_CURR_DC
    case ACCurrent => SCPI_CURR_AC
    case Capacitance => SCPI_CAP
    case Frequency => SCPI_FREQ
    case Temperature => SCPI_TEMP
    case Continuity => SCPI_CONT
    case Diode => SCPI_DIOD
  }

  /** Every mode is named in the reply by a keyword that, given back as the
    * parameter, selects a scale of that mode. */
  lemma FuncKeywordSelectsMode(m: Mode)
    ensures var scale := FuncScale(FuncKeyword(m));
      0 <= scale < DMM_CNTSCALES && Modes[scale] == m
  {
  }

  /** A parameter that selects a scale is the keyword the reply uses for
    * that scale's mode. */
  lemma FuncScaleNamedBack(k: int)
    requires FuncScale(k) != SCALE_ILLEGAL
    ensures 0 <= FuncScale(k) < DMM_CNTSCALES && FuncKeyword(Modes[FuncScale(k)]) == k
  {
  }

  /** The channel of `SENSe:FUNCtion`: 1, 2 or 3, and 1 for any other number
    * (or none). */
  function Channel(ch: int): (c: int)
    ensures 1 <= c <= 3
    ensures c == ch <==> 1 <= ch <= 3
    ensures c != ch ==> c == 1
  {
    if ch < 1 || ch > 3 then 1 else ch
  }

  /** The reply to `SENSe:FUNCtion`: the short form of the keyword of the
    * scale's mode, or "Error" for no valid scale. */
  function FuncReply(scale: int): (r: string)
    ensures r == "Error" <==> !ValidIndex(scale)
    ensures ValidIndex(scale) ==> r == ShortForm(KEYWORDS[FuncKeyword(Modes[scale])])
  {
    match ModeOfCode(GetMode(scale))
    case None => "Error"
    case Some(m) =>
      var r := ShortForm(KEYWORDS[FuncKeyword(m)]);
      assert r != "Error" by {
        if |r| == 5 {
          assert IsUpper(r[1]) || r[1] == ' ';
        }
      }
      r
  }

  /** What a command asks of the rest of the firmware besides its reply. */
  datatype Action = NoAction | ResetMeter | SelectScale(channel: int, scale: int) | BadFunc

  /** The outcome of `SCPI_Execute`: the reply (`NULL` when none) and the
    * action taken. */
  datatype Response = Response(reply: Option<string>, action: Action)

  /** One command once its path is read: `k0` and `k1` are the first two
    * keyword numbers, `ch1` the channel of the second element, `scales`
    * what `DMM_GetScale` returns for each channel when the reply is made,
    * after this command's own selection. `None` means the command is
    * ignored and the next one is read. */
  function Dispatch(k0: int, k1: int, ch1: int, params: string, scales: seq<int>): (r: Option<Response>)
    requires |scales| == 3
    ensures r.Some? <==> k0 == SCPI_DOT_IDN || k0 == SCPI_DOT_RST || (k0 == SCPI_SENS && k1 == SCPI_FUNC)
  {
    if k0 == SCPI_DOT_IDN then Some(Response(Some(IDN_REPLY), NoAction))
    else if k0 == SCPI_DOT_RST then Some(Response(None, ResetMeter))
    else if k0 == SCPI_SENS && k1 == SCPI_FUNC then
      var ch := Channel(ch1);
      var action :=
        if params == "" then NoAction
        else if FuncScale(FirstMatch(KEYWORDS, params, 0)) == SCALE_ILLEGAL then BadFunc
        else SelectScale(ch, FuncScale(FirstMatch(KEYWORDS, params, 0)));
      Some(Response(Some(FuncReply(scales[ch - 1])), action))
    else None
  }

  /** A `SENSe:FUNCtion` command that selects a scale does so on a channel
    * between 1 and 3, and when the selection has taken effect on that
    * channel the reply names the mode of the scale selected, by the very
    * keyword the parameter gave. */
  lemma FuncReplyNamesSelection(k1: int, ch1: int, params: string, scales: seq<int>)
    requires |scales| == 3 && k1 == SCPI_FUNC
    requires Dispatch(SCPI_SENS, k1, ch1, params, scales).value.action.SelectScale?
    requires var a := Dispatch(SCPI_SENS, k1, ch1, params, scales).value.action;
      scales[Channel(ch1) - 1] == a.scale
    ensures var r := Dispatch(SCPI_SENS, k1, ch1, params, scales).value;
      1 <= r.action.channel <= 3 && r.action.channel == Channel(ch1) && ValidIndex(r.action.scale)
      && r.reply == Some(ShortForm(KEYWORDS[FuncKeyword(Modes[r.action.scale])]))
      && FirstMatch(KEYWORDS, params, 0) == FuncKeyword(Modes[r.action.scale])
  {
    var k := FirstMatch(KEYWORDS, params, 0);
    FuncScaleNamedBack(k);
  }

  /** The number of a command's first keyword. */
  function FirstKeyword(cmd: string): int
    requires |cmd| > 0
  {
    FirstMatch(KEYWORDS, PathFrom(cmd, 0, 0).nodes[0].keyword, 0)
  }

  /** What one command leaves: the response if it answers or acts, and
    * the second keyword number and channel the next command inherits. */
  datatype Outcome = Outcome(result: Option<Response>, kw1: int, ch1: int)

  /** One command of `SCPI_Execute`, with `kw1` and `ch1` the second
    * keyword number and channel left by the commands before. */
  function RunCommand(cmd: string, kw1: int, ch1: int, scales: seq<int>): (o: Outcome)
    requires |cmd| > 0 && |scales| == 3
    ensures o.result.Some? <==> var k0 := FirstKeyword(cmd);
      k0 == SCPI_DOT_IDN || k0 == SCPI_DOT_RST || (k0 == SCPI_SENS && o.kw1 == SCPI_FUNC)
    ensures |PathFrom(cmd, 0, 0).nodes| == 1 ==> o.kw1 == kw1 && o.ch1 == ch1
  {
    var p := PathFrom(cmd, 0, 0);
    var k1 := if |p.nodes| >= 2 then FirstMatch(KEYWORDS, p.nodes[1].keyword, 0) else kw1;
    var c1 := if |p.nodes| >= 2 then p.nodes[1].channel else ch1;
    Outcome(Dispatch(FirstKeyword(cmd), k1, c1, Params(cmd, p), scales), k1, c1)
  }

  /** `SCPI_Execute` over the commands from number `t` on. */
  function RunFrom(ts: seq<string>, t: nat, kw1: int, ch1: int, scales: seq<int>): Response
    requires Commands(ts) && t <= |ts| && |scales| == 3
    decreases |ts| - t
  {
    if t == |ts| then Response(None, NoAction)
    else
      var o := RunCommand(ts[t], kw1, ch1, scales);
      match o.result
      case Some(r) => r
      case None => RunFrom(ts, t + 1, o.kw1, o.ch1, scales)
  }

  /** One step of `RunFrom`: the first command's outcome, or the rest. */
  lemma RunFromStep(ts: seq<string>, t: nat, kw1: int, ch1: int, scales: seq<int>)
    requires Commands(ts) && t < |ts| && |scales| == 3
    ensures var o := RunCommand(ts[t], kw1, ch1, scales);
      RunFrom(ts, t, kw1, ch1, scales)
        == if o.result.Some? then o.result.value else RunFrom(ts, t + 1, o.kw1, o.ch1, scales)
  {
  }

  /** Records path element `num`: its keyword's number in `table` and its
    * channel number. */
  method Store(table: seq<string>, node: Node, num: nat, kwIndex: array<int>, chIndex: array<int>)
    requires |table| < 256 && num < kwIndex.Length == chIndex.Length && kwIndex != chIndex
    modifies kwIndex, chIndex
    ensures kwIndex[..num + 1] == old(kwIndex[..num]) + [FirstMatch(table, node.keyword, 0)]
    ensures chIndex[..num + 1] == old(chIndex[..num]) + [node.channel]
    ensures forall k :: num < k < kwIndex.Length ==> kwIndex[k] == old(kwIndex[k]) && chIndex[k] == old(chIndex[k])
  {
    var k := FindFirst(table, node.keyword);
    kwIndex[num] := k;
    chIndex[num] := node.channel;
  }

  /** The path loop of `SCPI_Execute` over one command: up to
    * `MAX_SCPI_PATH` elements, each keyword's number in `table` (the
    * keyword list, `KEYWORDS` when executing) stored in `kwIndex` and
    * each channel number in `chIndex`; entries past the path keep what
    * they held. */
  method ReadPath(table: seq<string>, cmd: string, kwIndex: array<int>, chIndex: array<int>) returns (p: Path)
    requires |table| < 256 && |cmd| > 0 && kwIndex != chIndex
    requires kwIndex.Length == MAX_SCPI_PATH && chIndex.Length == MAX_SCPI_PATH
    modifies kwIndex, chIndex
    ensures p == PathFrom(cmd, 0, 0)
    ensures kwIndex[..|p.nodes|] == Numbers(table, p.nodes) && chIndex[..|p.nodes|] == Channels(p.nodes)
    ensures forall k :: |p.nodes| <= k < MAX_SCPI_PATH ==> kwIndex[k] == old(kwIndex[k]) && chIndex[k] == old(chIndex[k])
  {
    ghost var whole := PathFrom(cmd, 0, 0);
    var nodes: seq<Node> := [];
    var i: nat, num: nat := 0, 0;
    var delimiter := NUL;
    while num < MAX_SCPI_PATH && i < |cmd|
      invariant num == |nodes| && (num == 0 ==> i == 0)
      invariant PathSoFar(cmd, nodes, delimiter, i, whole)
      invariant kwIndex[..num] == Numbers(table, nodes) && chIndex[..num] == Channels(nodes)
      invariant forall k :: num <= k < MAX_SCPI_PATH ==> kwIndex[k] == old(kwIndex[k]) && chIndex[k] == old(chIndex[k])
      decreases MAX_SCPI_PATH - num
    {
      PathAdvance(cmd, nodes, delimiter, i, whole);
      var node, next;
      node, delimiter, next := ReadNode(cmd, i);
      Store(table, node, num, kwIndex, chIndex);
      nodes := nodes + [node];
      num := num + 1;
      i := next;
      if delimiter != ':' || num == MAX_SCPI_PATH || i == |cmd| {
        break;
      }
    }
    p := Path(nodes, delimiter, i);
  }

  /** Entry `k` of `Numbers` is the number of keyword `k`. */
  lemma {:induction false} NumbersAt(table: seq<string>, nodes: seq<Node>, k: nat)
    requires k < |nodes|
    ensures Numbers(table, nodes)[k] == FirstMatch(table, nodes[k].keyword, 0)
  {
    var n := |nodes| - 1;
    if k < n {
      NumbersAt(table, nodes[..n], k);
    }
  }

  /** Entry `k` of `Channels` is the channel of element `k`. */
  lemma {:induction false} ChannelsAt(nodes: seq<Node>, k: nat)
    requires k < |nodes|
    ensures Channels(nodes)[k] == nodes[k].channel
  {
    var n := |nodes| - 1;
    if k < n {
      ChannelsAt(nodes[..n], k);
    }
  }

  /** The parameter text after a path, as `SCPI_Execute` leaves it. */
  method ReadParams(cmd: string, p: Path) returns (params: string)
    requires p.rest <= |cmd|
    ensures params == Params(cmd, p)
  {
    var j := p.rest;
    if IsSpace(p.delimiter) {
      while j < |cmd| && IsSpace(cmd[j])
        invariant p.rest <= j <= |cmd| && SkipSpace(cmd, j) == SkipSpace(cmd, p.rest)
      {
        j := j + 1;
      }
    } else if p.delimiter != '?' {
      j := |cmd|;
    }
    params := cmd[j..];
  }

  /** The `SENSe:FUNCtion` reply for the scale now selected. */
  method FuncReplyOf(scale: int) returns (r: string)
    ensures r == FuncReply(scale)
  {
    match ModeOfCode(GetMode(scale)) {
      case None => r := "Error";
      case Some(m) => r := Short(FuncKeyword(m));
    }
  }

  /** The `switch` of `SCPI_Execute` on a command's first keyword. */
  method DispatchCommand(k0: int, k1: int, ch1: int, params: string, scales: seq<int>) returns (r: Option<Response>)
    requires |scales| == 3
    ensures r == Dispatch(k0, k1, ch1, params, scales)
  {
    if k0 == SCPI_DOT_IDN {
      return Some(Response(Some(IDN_REPLY), NoAction));
    } else if k0 == SCPI_DOT_RST {
      return Some(Response(None, ResetMeter));
    } else if k0 == SCPI_SENS && k1 == SCPI_FUNC {
      var ch := ch1;
      if ch < 1 || ch > 3 {
        ch := 1;
      }
      var action := NoAction;
      if params != "" {
        var s := Match(params);
        var selected := FuncScale(s);
        if selected == SCALE_ILLEGAL {
          action := BadFunc;
        } else {
          action := SelectScale(ch, selected);
        }
      }
      var reply := FuncReplyOf(scales[ch - 1]);
      return Some(Response(Some(reply), action));
    }
    return None;
  }

  /** One turn of the command loop of `SCPI_Execute`. */
  method ExecuteCommand(cmd: string, kwIndex: array<int>, chIndex: array<int>, scales: seq<int>)
    returns (d: Option<Response>)
    requires |cmd| > 0 && |scales| == 3 && kwIndex != chIndex
    requires kwIndex.Length == MAX_SCPI_PATH && chIndex.Length == MAX_SCPI_PATH
    modifies kwIndex, chIndex
    ensures var o := RunCommand(cmd, old(kwIndex[1]), old(chIndex[1]), scales);
      d == o.result && kwIndex[1] == o.kw1 && chIndex[1] == o.ch1
  {
    var p := ReadPath(KEYWORDS, cmd, kwIndex, chIndex);
    var params := ReadParams(cmd, p);
    NumbersAt(KEYWORDS, p.nodes, 0);
    if |p.nodes| >= 2 {
      NumbersAt(KEYWORDS, p.nodes, 1);
      ChannelsAt(p.nodes, 1);
    }
    d := DispatchCommand(kwIndex[0], kwIndex[1], chIndex[1], params, scales);
  }

  /** `SCPI_Execute`: the commands of `command`, split at `;`, are read in
    * turn until one of them answers or acts; `staleKw` and `staleCh` stand
    * for what the second entries of the uninitialised keyword and channel
    * arrays hold at the call. */
  method Execute(command: string, scales: seq<int>, staleKw: int, staleCh: int) returns (r: Response)
    requires |scales| == 3
    ensures r == RunFrom(Tokens(command), 0, staleKw, staleCh, scales)
  {
    var kwIndex := new int[MAX_SCPI_PATH](_ => staleKw);
    var chIndex := new int[MAX_SCPI_PATH](_ => staleCh);
    var ts := Tokens(command);
    ghost var goal := RunFrom(ts, 0, staleKw, staleCh, scales);
    assert kwIndex[1] == staleKw && chIndex[1] == staleCh;
    var t := 0;
    while t < |ts|
      invariant t <= |ts|
      invariant RunFrom(ts, t, kwIndex[1], chIndex[1], scales) == goal
    {
      assert |ts[t]| > 0;
      ghost var o := RunCommand(ts[t], kwIndex[1], chIndex[1], scales);
      RunFromStep(ts, t, kwIndex[1], chIndex[1], scales);
      var d := ExecuteCommand(ts[t], kwIndex, chIndex, scales);
      assert d == o.result && kwIndex[1] == o.kw1 && chIndex[1] == o.ch1;
      if d.Some? {
        return d.value;
      }
      t := t + 1;
    }
    r := Response(None, NoAction);
  }

  /** Commands that are neither `*IDN?`, `*RST` nor under `SENSe` are
    * skipped: a string of them has no reply and no effect. */
  lemma {:induction false} OthersIgnored(ts: seq<string>, t: nat, kw1: int, ch1: int, scales: seq<int>)
    requires Commands(ts) && t <= |ts| && |scales| == 3
    requires forall u :: t <= u < |ts| ==>
      FirstKeyword(ts[u]) != SCPI_DOT_IDN && FirstKeyword(ts[u]) != SCPI_DOT_RST && FirstKeyword(ts[u]) != SCPI_SENS
    ensures RunFrom(ts, t, kw1, ch1, scales) == Response(None, NoAction)
    decreases |ts| - t
  {
    if t < |ts| {
      var o := RunCommand(ts[t], kw1, ch1, scales);
      OthersIgnored(ts, t + 1, o.kw1, o.ch1, scales);
    }
  }
}
