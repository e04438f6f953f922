/** The built-in slot converters (flask_ask/convert.py): Alexa date tokens (`to_date`),
    day parts and ISO times (`to_time`) and durations (`to_timedelta`).
    The ISO-8601 parsers of the aniso8601 package are oracles passed in by the caller. */
module Convert {
  import opened Outcomes
  import opened PyJson
  import opened Text
  import opened TimeFormat

  /** A date as `strptime(...).date()` produces it. `WeekOf` is the date that `strptime`
      computes from a year, a `%U` week number (weeks start on Sunday) and a `%w` weekday
      (0 is Sunday); the day arithmetic behind it is not modelled. */
  datatype Date =
    | Calendar(year: int, month: int, day: int)
    | WeekOf(year: int, week: int, weekday: int)

  /** The five regular expressions of the date-pattern table, in table order. */
  datatype DatePattern = DayPattern | WeekPattern | WeekendPattern | MonthPattern | YearPattern

  /** The pattern table: each regular expression with the `strptime` format used for it. */
  const DATE_PATTERNS: seq<(DatePattern, string)> := [
    (DayPattern, "%Y-%m-%d"),        // "today", "november twenty-fifth": 2015-11-25
    (WeekPattern, "%Y-W%U-%w"),      // "this week": 2015-W48
    (WeekendPattern, "%Y-W%U-WE-%w"), // "this weekend": 2015-W48-WE
    (MonthPattern, "%Y-%m"),         // "this month": 2015-11
    (YearPattern, "%Y")              // "next year": 2016
  ]

  /** The text a pattern accepts between `^` and `$`. */
  predicate Shape(p: DatePattern, s: string) {
    match p
    case DayPattern =>     |s| == 10 && DigitsAt(s, 0, 4) && s[4] == '-' && DigitsAt(s, 5, 2) && s[7] == '-' && DigitsAt(s, 8, 2)
    case WeekPattern =>    |s| == 8 && DigitsAt(s, 0, 4) && s[4..6] == "-W" && DigitsAt(s, 6, 2)
    case WeekendPattern => |s| == 11 && DigitsAt(s, 0, 4) && s[4..6] == "-W" && DigitsAt(s, 6, 2) && s[8..] == "-WE"
    case MonthPattern =>   |s| == 7 && DigitsAt(s, 0, 4) && s[4] == '-' && DigitsAt(s, 5, 2)
    case YearPattern =>    |s| == 4 && DigitsAt(s, 0, 4)
  }

  /** `re.match` of the anchored pattern: Python's `$` also matches just before a final newline. */
  predicate Matches(p: DatePattern, s: string) {
    Shape(p, s) || (EndsWith(s, "\n") && Shape(p, s[..|s| - 1]))
  }

  /** `re.sub('X$', '0', s)`: a final `X` (or one just before a final newline) becomes `0`,
      so that decade tokens such as `201X` match the year pattern. */
  function SubTrailingX(s: string): (r: string)
    ensures |r| == |s|
    ensures EndsWith(s, "X") ==> r == s[..|s| - 1] + "0"
    ensures !EndsWith(s, "X") && !EndsWith(s, "X\n") ==> r == s
  {
    if EndsWith(s, "X") then s[..|s| - 1] + "0"
    else if EndsWith(s, "X\n") then s[..|s| - 2] + "0\n"
    else s
  }

  /** The first row of the table whose pattern matches `s`. */
  function FirstMatch(table: seq<(DatePattern, string)>, s: string): (r: Option<(DatePattern, string)>)
    ensures r.Some? ==> r.value in table && Matches(r.value.0, s)
    ensures r.None? ==> forall i :: 0 <= i < |table| ==> !Matches(table[i].0, s)
  {
    if table == [] then None
    else if Matches(table[0].0, s) then Some(table[0])
    else FirstMatch(table[1..], s)
  }

  /** `datetime.strptime(s, fmt).date()` for formats built from `%Y %m %d %U %w` and literal
      characters. A missing month or day defaults to 1; a week and a weekday give `WeekOf`. */
  function StrptimeDate(s: string, fmt: string): (r: Outcome<Date>)
    ensures r.Ok? ==> MatchItems(Tokenize(fmt), s, 0, map[]).Some?
    ensures r.Raise? ==> r.error == ValueError
  {
    match MatchItems(Tokenize(fmt), s, 0, map[])
    case None => Raise(ValueError)
    case Some(f) =>
      var y := if 'Y' in f then f['Y'] else 1900;
      var m := if 'm' in f then f['m'] else 1;
      var d := if 'd' in f then f['d'] else 1;
      if 'U' in f && 'w' in f then
        (if ValidYear(y) then Ok(WeekOf(y, f['U'], f['w'])) else Raise(ValueError))
      else if ValidDate(y, m, d) then Ok(Calendar(y, m, d))
      else Raise(ValueError)
  }

  /** to_date: rewrite a trailing `X`, take the first matching pattern, append `-0` (Sunday)
      when its format has a `%U` week, and parse. No match gives `None`; a match whose fields
      are out of range raises `ValueError` from `strptime`. */
  function ToDate(amazonDate: string): (r: Outcome<Option<Date>>)
    ensures r == Ok(None) <==> forall i :: 0 <= i < |DATE_PATTERNS| ==> !Matches(DATE_PATTERNS[i].0, SubTrailingX(amazonDate))
    ensures r.Raise? ==> r.error == ValueError
  {
    var s := SubTrailingX(amazonDate);
    match FirstMatch(DATE_PATTERNS, s)
    case None => Ok(None)
    case Some(row) => ParseWith(row.1, s)
  }

  /** The parse once a row has matched. */
  function ParseWith(fmt: string, s: string): (r: Outcome<Option<Date>>)
    ensures r != Ok(None)
    ensures r.Raise? ==> r.error == ValueError
  {
    var t := if Contains(fmt, "%U") then s + "-0" else s;
    match StrptimeDate(t, fmt)
    case Ok(d) => Ok(Some(d))
    case Raise(e) => Raise(e)
  }

  // ---- facts about to_date ----

  /** `FirstMatch` picks row `i` when no earlier row matches. */
  lemma {:induction false} FirstMatchIs(table: seq<(DatePattern, string)>, s: string, i: nat)
    requires i < |table| && Matches(table[i].0, s)
    requires forall j :: 0 <= j < i ==> !Matches(table[j].0, s)
    ensures FirstMatch(table, s) == Some(table[i])
    decreases i
  {
    if i > 0 {
      assert forall j :: 0 <= j < i - 1 ==> table[1..][j] == table[j + 1];
      FirstMatchIs(table[1..], s, i - 1);
    }
  }

  lemma NoWeekDirective(fmt: string)
    requires forall i :: 0 <= i < |fmt| - 1 && fmt[i] == '%' ==> fmt[i + 1] != 'U'
    ensures !Contains(fmt, "%U")
  {
    ContainsIff(fmt, "%U");
    forall i | 0 <= i && i + 2 <= |fmt| ensures !OccursAt(fmt, "%U", i) {
      assert fmt[i..i + 2][0] == fmt[i] && fmt[i..i + 2][1] == fmt[i + 1];
    }
  }

  lemma WeekDirective(fmt: string)
    requires |fmt| >= 6 && fmt[4..6] == "%U"
    ensures Contains(fmt, "%U")
  {
    assert OccursAt(fmt, "%U", 4);
    ContainsIff(fmt, "%U");
  }

  lemma TokenizeDay()
    ensures Tokenize("%Y-%m-%d") == [Directive('Y'), Literal('-'), Directive('m'), Literal('-'), Directive('d')]
  {
    var a, b := "%Y-%m", "-%d";
    assert "%Y-%m-%d" == a + b;
    TokenizeConcat(a, b);
  }

  lemma MatchDayItems(s: string, items: seq<FormatItem>)
    requires Shape(DayPattern, s)
    requires |items| == 5 && items[0] == Directive('Y') && items[1] == Literal('-') && items[2] == Directive('m')
    requires items[3] == Literal('-') && items[4] == Directive('d')
    ensures var y, m, d := NumAt(s, 0, 4), NumAt(s, 5, 2), NumAt(s, 8, 2);
            MatchItems(items, s, 0, map[]) == if 1 <= m <= 12 && 1 <= d <= 31 then Some(map['Y' := y, 'm' := m, 'd' := d]) else None
  {
    var y, m := NumAt(s, 0, 4), NumAt(s, 5, 2);
    FieldThenLiteral(items, s, 0, map[], 4);
    FieldThenLiteral(items[2..], s, 5, map['Y' := y], 2);
    assert items[2..][2..] == items[4..];
    FinalField(items[4..], s, 8, map['Y' := y, 'm' := m], 2);
  }

  lemma StrptimeDay(s: string, fmt: string)
    requires Shape(DayPattern, s) && fmt == "%Y-%m-%d"
    ensures var y, m, d := NumAt(s, 0, 4), NumAt(s, 5, 2), NumAt(s, 8, 2);
            StrptimeDate(s, fmt) == if ValidDate(y, m, d) then Ok(Calendar(y, m, d)) else Raise(ValueError)
  {
    TokenizeDay();
    MatchDayItems(s, Tokenize(fmt));
  }

  lemma TokenizeMonth()
    ensures Tokenize("%Y-%m") == [Directive('Y'), Literal('-'), Directive('m')]
  {
  }

  lemma MatchMonthItems(s: string, items: seq<FormatItem>)
    requires Shape(MonthPattern, s)
    requires |items| == 3 && items[0] == Directive('Y') && items[1] == Literal('-') && items[2] == Directive('m')
    ensures var y, m := NumAt(s, 0, 4), NumAt(s, 5, 2);
            MatchItems(items, s, 0, map[]) == if 1 <= m <= 12 then Some(map['Y' := y, 'm' := m]) else None
  {
    FieldThenLiteral(items, s, 0, map[], 4);
    FinalField(items[2..], s, 5, map['Y' := NumAt(s, 0, 4)], 2);
  }

  lemma StrptimeMonth(s: string, fmt: string)
    requires Shape(MonthPattern, s) && fmt == "%Y-%m"
    ensures var y, m := NumAt(s, 0, 4), NumAt(s, 5, 2);
            StrptimeDate(s, fmt) == if ValidDate(y, m, 1) then Ok(Calendar(y, m, 1)) else Raise(ValueError)
  {
    TokenizeMonth();
    MatchMonthItems(s, Tokenize(fmt));
  }

  lemma {:induction false} MatchYearItems(s: string, items: seq<FormatItem>)
    requires Shape(YearPattern, s) || (|s| == 5 && Shape(YearPattern, s[..4]) && s[4] == '\n')
    requires |items| == 1 && items[0] == Directive('Y')
    ensures MatchItems(items, s, 0, map[]) == if |s| == 4 then Some(map['Y' := NumAt(s, 0, 4)]) else None
  {
    if |s| == 5 {
      assert s[..4][0..4] == s[0..4];
    }
    DigitRunExact(s, 0, 4);
    DirectiveStep(items, s, 0, map[], 4);
    assert items[1..] == [];
  }

  lemma StrptimeYear(s: string, fmt: string)
    requires Shape(YearPattern, s) || (|s| == 5 && Shape(YearPattern, s[..4]) && s[4] == '\n')
    requires fmt == "%Y"
    ensures var y := NumAt(s, 0, 4);
            StrptimeDate(s, fmt) == if |s| == 4 && ValidYear(y) then Ok(Calendar(y, 1, 1)) else Raise(ValueError)
  {
    assert Tokenize(fmt) == [Directive('Y')];
    MatchYearItems(s, Tokenize(fmt));
  }

  lemma TokenizeWeek(fmt: string)
    requires fmt == "%Y-W%U-%w"
    ensures Tokenize(fmt) == [Directive('Y'), Literal('-'), Literal('W'), Directive('U'), Literal('-'), Directive('w')]
  {
    var a, b := "%Y-W", "%U-%w";
    assert fmt == a + b;
    TokenizeConcat(a, b);
  }

  /** The text `strptime` sees for a week token: `YYYY-Www-0`. */
  lemma MatchWeekItems(t: string, items: seq<FormatItem>)
    requires |t| == 10 && DigitsAt(t, 0, 4) && t[4] == '-' && t[5] == 'W' && DigitsAt(t, 6, 2) && t[8] == '-' && t[9] == '0'
    requires |items| == 6 && items[0] == Directive('Y') && items[1] == Literal('-') && items[2] == Literal('W')
    requires items[3] == Directive('U') && items[4] == Literal('-') && items[5] == Directive('w')
    ensures var y, w := NumAt(t, 0, 4), NumAt(t, 6, 2);
            MatchItems(items, t, 0, map[]) == if w <= 53 then Some(map['Y' := y, 'U' := w, 'w' := 0]) else None
  {
    var y, w := NumAt(t, 0, 4), NumAt(t, 6, 2);
    FieldThenLiteral(items, t, 0, map[], 4);
    LiteralStep(items[2..], t, 5, map['Y' := y]);
    assert items[2..][1..] == items[3..];
    FieldThenLiteral(items[3..], t, 6, map['Y' := y], 2);
    assert items[3..][2..] == items[5..];
    FinalField(items[5..], t, 9, map['Y' := y, 'U' := w], 1);
    assert t[9..10] == "0" && DigitsValue("0") == 0;
  }

  lemma StrptimeWeek(s: string, fmt: string)
    requires Shape(WeekPattern, s) && fmt == "%Y-W%U-%w"
    ensures var y, w := NumAt(s, 0, 4), NumAt(s, 6, 2);
            StrptimeDate(s + "-0", fmt) == if ValidYear(y) && w <= 53 then Ok(WeekOf(y, w, 0)) else Raise(ValueError)
  {
    var t := s + "-0";
    assert t[0..4] == s[0..4] && t[6..8] == s[6..8];
    assert s[4..6][0] == s[4] && s[4..6][1] == s[5];
    TokenizeWeek(fmt);
    MatchWeekItems(t, Tokenize(fmt));
  }

  lemma TokenizeWeekend(fmt: string)
    requires fmt == "%Y-W%U-WE-%w"
    ensures Tokenize(fmt) == [Directive('Y'), Literal('-'), Literal('W'), Directive('U'), Literal('-'), Literal('W'), Literal('E'), Literal('-'), Directive('w')]
  {
    var a, b := "%Y-W%U", "-WE-%w";
    assert fmt == a + b;
    TokenizeYearWeek(a);
    TokenizeWeekendTail(b);
    TokenizeConcat(a, b);
  }

  lemma TokenizeYearWeek(a: string)
    requires a == "%Y-W%U"
    ensures Complete(a) && Tokenize(a) == [Directive('Y'), Literal('-'), Literal('W'), Directive('U')]
  {
    assert a[0] == '%' && a[2..] == "-W%U";
    var u := "%U";
    assert u[0] == '%' && u[2..] == "";
    assert Tokenize(u) == [Directive('U')] && Complete(u);
    var w := "W%U";
    assert w[0] == 'W' && w[1..] == u;
    var d := "-W%U";
    assert d[0] == '-' && d[1..] == w;
  }

  lemma TokenizeWeekendTail(b: string)
    requires b == "-WE-%w"
    ensures Tokenize(b) == [Literal('-'), Literal('W'), Literal('E'), Literal('-'), Directive('w')]
  {
    var w := "%w";
    assert w[0] == '%' && w[2..] == "";
    assert Tokenize(w) == [Directive('w')];
    var t3 := "-%w";
    assert t3[0] == '-' && t3[1..] == w;
    var t2 := "E-%w";
    assert t2[0] == 'E' && t2[1..] == t3;
    var t1 := "WE-%w";
    assert t1[0] == 'W' && t1[1..] == t2;
    assert b[0] == '-' && b[1..] == t1;
  }

  /** The text `strptime` sees for a weekend token: `YYYY-Www-WE-0`. */
  lemma MatchWeekendItems(t: string, items: seq<FormatItem>)
    requires |t| == 13 && DigitsAt(t, 0, 4) && t[4] == '-' && t[5] == 'W' && DigitsAt(t, 6, 2)
    requires t[8] == '-' && t[9] == 'W' && t[10] == 'E' && t[11] == '-' && t[12] == '0'
    requires |items| == 9 && items[0] == Directive('Y') && items[1] == Literal('-') && items[2] == Literal('W')
    requires items[3] == Directive('U') && items[4] == Literal('-') && items[5] == Literal('W')
    requires items[6] == Literal('E') && items[7] == Literal('-') && items[8] == Directive('w')
    ensures var y, w := NumAt(t, 0, 4), NumAt(t, 6, 2);
            MatchItems(items, t, 0, map[]) == if w <= 53 then Some(map['Y' := y, 'U' := w, 'w' := 0]) else None
  {
    var y, w := NumAt(t, 0, 4), NumAt(t, 6, 2);
    FieldThenLiteral(items, t, 0, map[], 4);
    LiteralStep(items[2..], t, 5, map['Y' := y]);
    assert items[2..][1..] == items[3..];
    FieldThenLiteral(items[3..], t, 6, map['Y' := y], 2);
    assert items[3..][2..] == items[5..];
    var f := map['Y' := y, 'U' := w];
    LiteralStep(items[5..], t, 9, f);
    assert items[5..][1..] == items[6..];
    LiteralStep(items[6..], t, 10, f);
    assert items[6..][1..] == items[7..];
    LiteralStep(items[7..], t, 11, f);
    assert items[7..][1..] == items[8..];
    FinalField(items[8..], t, 12, f, 1);
    assert t[12..13] == "0" && DigitsValue("0") == 0;
  }

  lemma StrptimeWeekend(s: string, fmt: string)
    requires Shape(WeekendPattern, s) && fmt == "%Y-W%U-WE-%w"
    ensures var y, w := NumAt(s, 0, 4), NumAt(s, 6, 2);
            StrptimeDate(s + "-0", fmt) == if ValidYear(y) && w <= 53 then Ok(WeekOf(y, w, 0)) else Raise(ValueError)
  {
    var t := s + "-0";
    assert t[0..4] == s[0..4] && t[6..8] == s[6..8];
    assert s[4..6][0] == s[4] && s[4..6][1] == s[5];
    assert s[8..][0] == s[8] && s[8..][1] == s[9] && s[8..][2] == s[10];
    assert t[8] == '-' && t[9] == 'W' && t[10] == 'E' && t[11] == '-' && t[12] == '0';
    TokenizeWeekend(fmt);
    MatchWeekendItems(t, Tokenize(fmt));
  }

  /** `YYYY-MM-DD` gives that calendar date when it exists, and raises otherwise. */
  lemma DayToken(s: string)
    requires Shape(DayPattern, s)
    ensures var y, m, d := NumAt(s, 0, 4), NumAt(s, 5, 2), NumAt(s, 8, 2);
            ToDate(s) == if ValidDate(y, m, d) then Ok(Some(Calendar(y, m, d))) else Raise(ValueError)
  {
    assert SubTrailingX(s) == s;
    FirstMatchIs(DATE_PATTERNS, s, 0);
    NoWeekDirective("%Y-%m-%d");
    StrptimeDay(s, "%Y-%m-%d");
  }

  /** `YYYY-MM` gives the first of that month. */
  lemma MonthToken(s: string)
    requires Shape(MonthPattern, s)
    ensures var y, m := NumAt(s, 0, 4), NumAt(s, 5, 2);
            ToDate(s) == if ValidDate(y, m, 1) then Ok(Some(Calendar(y, m, 1))) else Raise(ValueError)
  {
    assert SubTrailingX(s) == s;
    assert !Matches(DayPattern, s) && !Matches(WeekPattern, s) && !Matches(WeekendPattern, s);
    FirstMatchIs(DATE_PATTERNS, s, 3);
    NoWeekDirective("%Y-%m");
    StrptimeMonth(s, "%Y-%m");
  }

  /** `YYYY` gives 1 January of that year. */
  lemma YearToken(s: string)
    requires Shape(YearPattern, s)
    ensures var y := NumAt(s, 0, 4);
            ToDate(s) == if ValidYear(y) then Ok(Some(Calendar(y, 1, 1))) else Raise(ValueError)
  {
    assert SubTrailingX(s) == s;
    assert !Matches(DayPattern, s) && !Matches(WeekPattern, s) && !Matches(WeekendPattern, s) && !Matches(MonthPattern, s);
    FirstMatchIs(DATE_PATTERNS, s, 4);
    NoWeekDirective("%Y");
    StrptimeYear(s, "%Y");
  }

  /** A decade token `YYYX` is read as the year `YYY0`. */
  lemma DecadeToken(s: string)
    requires |s| == 4 && DigitsAt(s, 0, 3) && s[3] == 'X'
    ensures var y := NumAt(s[..3] + "0", 0, 4);
            y % 10 == 0 &&
            ToDate(s) == if ValidYear(y) then Ok(Some(Calendar(y, 1, 1))) else Raise(ValueError)
  {
    var t := s[..3] + "0";
    DecadeRewrite(s, t);
    SameRewrite(s, t);
    YearToken(t);
  }

  /** The rewritten decade token: a year token whose year is a multiple of ten. */
  lemma DecadeRewrite(s: string, t: string)
    requires |s| == 4 && DigitsAt(s, 0, 3) && s[3] == 'X' && t == s[..3] + "0"
    ensures SubTrailingX(s) == t && SubTrailingX(t) == t
    ensures Shape(YearPattern, t) && NumAt(t, 0, 4) % 10 == 0
  {
    assert t[0..4] == t;
    FourDigitsValue(t);
  }

  /** Two strings with the same rewrite read as the same date. */
  lemma SameRewrite(s: string, t: string)
    requires SubTrailingX(s) == SubTrailingX(t)
    ensures ToDate(s) == ToDate(t)
  {
  }

  /** A week token `YYYY-Www` resolves to the Sunday (`%w` = 0) of `%U` week `ww`;
      week numbers above 53 raise. */
  lemma WeekToken(s: string)
    requires Shape(WeekPattern, s)
    ensures var y, w := NumAt(s, 0, 4), NumAt(s, 6, 2);
            ToDate(s) == if ValidYear(y) && w <= 53 then Ok(Some(WeekOf(y, w, 0))) else Raise(ValueError)
  {
    assert SubTrailingX(s) == s;
    assert !Matches(DayPattern, s);
    FirstMatchIs(DATE_PATTERNS, s, 1);
    WeekDirective("%Y-W%U-%w");
    StrptimeWeek(s, "%Y-W%U-%w");
  }

  /** A weekend token `YYYY-Www-WE` resolves to the same Sunday as the week token. */
  lemma WeekendToken(s: string)
    requires Shape(WeekendPattern, s)
    ensures var y, w := NumAt(s, 0, 4), NumAt(s, 6, 2);
            ToDate(s) == if ValidYear(y) && w <= 53 then Ok(Some(WeekOf(y, w, 0))) else Raise(ValueError)
  {
    assert SubTrailingX(s) == s;
    assert !Matches(DayPattern, s) && !Matches(WeekPattern, s);
    FirstMatchIs(DATE_PATTERNS, s, 2);
    WeekDirective("%Y-W%U-WE-%w");
    StrptimeWeekend(s, "%Y-W%U-WE-%w");
  }

  /** At most one pattern matches any string. The source keeps the table in a dictionary,
      whose iteration order is not fixed under Python 2; because of this lemma, the order
      chosen for `DATE_PATTERNS` does not change what `to_date` returns. */
  lemma PatternsExclusive(s: string, i: nat, j: nat)
    requires i < |DATE_PATTERNS| && j < |DATE_PATTERNS|
    requires Matches(DATE_PATTERNS[i].0, s) && Matches(DATE_PATTERNS[j].0, s)
    ensures i == j
  {
    var p, q := DATE_PATTERNS[i].0, DATE_PATTERNS[j].0;
    if |s| > 0 && s[|s| - 1] == '\n' {
      assert !Shape(p, s) && !Shape(q, s) by {
        assert !IsDigit(s[|s| - 1]) && s[|s| - 1] != 'E';
      }
    }
  }

  /** A string that matches no pattern (after the `X` rewrite) gives `None`; one that does
      never gives `None`: it gives a date or raises. */
  lemma NoneIffNoPatternMatches(amazonDate: string)
    ensures ToDate(amazonDate) == Ok(None) <==>
            forall i :: 0 <= i < |DATE_PATTERNS| ==> !Matches(DATE_PATTERNS[i].0, SubTrailingX(amazonDate))
  {
  }

  /** Month 13 raises `ValueError` instead of giving `None`, in any year. */
  lemma MonthThirteenRaises(a: string)
    requires Shape(MonthPattern, a) && a[5..7] == "13"
    ensures ToDate(a) == Raise(ValueError)
  {
    MonthToken(a);
    TwoDigitsValue("13");
  }

  /** So does 30 February. */
  lemma FebruaryThirtiethRaises(b: string)
    requires Shape(DayPattern, b) && b[5..7] == "02" && b[8..10] == "30"
    ensures ToDate(b) == Raise(ValueError)
  {
    DayToken(b);
    TwoDigitsValue("02");
    TwoDigitsValue("30");
  }

  /** A trailing newline slips past `$` and then fails in `strptime`. */
  lemma TrailingNewlineRaises(s: string)
    requires |s| == 5 && Shape(YearPattern, s[..4]) && s[4] == '\n'
    ensures ToDate(s) == Raise(ValueError)
  {
    assert s[..4][3] == s[3];
    assert SubTrailingX(s) == s;
    assert s[..|s| - 1] == s[..4];
    assert Matches(YearPattern, s);
    assert !Matches(DayPattern, s) && !Matches(WeekPattern, s) && !Matches(WeekendPattern, s) && !Matches(MonthPattern, s);
    FirstMatchIs(DATE_PATTERNS, s, 4);
    NoWeekDirective("%Y");
    StrptimeYear(s, "%Y");
  }

  // ---- to_time ----

  /** A time of day as `datetime.time` holds it (microseconds and time zones left out). */
  datatype Time = Time(hour: nat, minute: nat, second: nat)

  /** The coarse day-part tokens, checked before any ISO parsing. */
  function DayPart(s: Json): (r: Option<Time>)
    ensures r.Some? ==> r.value.minute == 0 && r.value.second == 0 && s.JStr?
  {
    if s == JStr("AM") then Some(Time(0, 0, 0))
    else if s == JStr("PM") then Some(Time(12, 0, 0))
    else if s == JStr("MO") then Some(Time(5, 0, 0))
    else if s == JStr("AF") then Some(Time(12, 0, 0))
    else if s == JStr("EV") then Some(Time(17, 0, 0))
    else if s == JStr("NI") then Some(Time(21, 0, 0))
    else None
  }

  /** to_time, under Python 2: a day part, else ISO parsing; a `ValueError` from the parser is
      logged and gives `None`, any other exception propagates. */
  function ToTime(amazonTime: Json, parseTime: Json -> Outcome<Time>): (r: Outcome<Option<Time>>)
    ensures DayPart(amazonTime).Some? ==> r == Ok(DayPart(amazonTime))
    ensures DayPart(amazonTime).None? && parseTime(amazonTime) == Raise(ValueError) ==> r == Ok(None)
  {
    match DayPart(amazonTime)
    case Some(t) => Ok(Some(t))
    case None =>
      match parseTime(amazonTime)
      case Ok(t) => Ok(Some(t))
      case Raise(ValueError) => Ok(None)
      case Raise(e) => Raise(e)
  }

  /** to_time as written, run under Python 3: the handler of the `ValueError` reads
      `e.message`, which Python 3 exceptions do not have, so it raises `AttributeError`. */
  function ToTimePython3(amazonTime: Json, parseTime: Json -> Outcome<Time>): Outcome<Option<Time>> {
    match DayPart(amazonTime)
    case Some(t) => Ok(Some(t))
    case None =>
      match parseTime(amazonTime)
      case Ok(t) => Ok(Some(t))
      case Raise(ValueError) => Raise(AttributeError)
      case Raise(e) => Raise(e)
  }

  /** The day-part table, exactly. */
  lemma DayPartTable(parseTime: Json -> Outcome<Time>)
    ensures ToTime(JStr("AM"), parseTime) == Ok(Some(Time(0, 0, 0)))
    ensures ToTime(JStr("PM"), parseTime) == Ok(Some(Time(12, 0, 0)))
    ensures ToTime(JStr("MO"), parseTime) == Ok(Some(Time(5, 0, 0)))
    ensures ToTime(JStr("AF"), parseTime) == Ok(Some(Time(12, 0, 0)))
    ensures ToTime(JStr("EV"), parseTime) == Ok(Some(Time(17, 0, 0)))
    ensures ToTime(JStr("NI"), parseTime) == Ok(Some(Time(21, 0, 0)))
  {
  }

  /** The two versions agree except where the ISO parser raises `ValueError`: there the
      written code raises `AttributeError` under Python 3 instead of returning `None`. */
  lemma ToTimePython3Differs(amazonTime: Json, parseTime: Json -> Outcome<Time>)
    ensures parseTime(amazonTime) != Raise(ValueError) || DayPart(amazonTime).Some? ==>
              ToTimePython3(amazonTime, parseTime) == ToTime(amazonTime, parseTime)
    ensures parseTime(amazonTime) == Raise(ValueError) && DayPart(amazonTime).None? ==>
              ToTimePython3(amazonTime, parseTime) == Raise(AttributeError) &&
              ToTime(amazonTime, parseTime) == Ok(None)
  {
  }

  /** The duration aniso8601 returns, kept abstract. */
  datatype Duration = Duration(seconds: int)

  /** to_timedelta: the ISO-8601 duration parser, unchanged. */
  function ToTimedelta(amazonDuration: Json, parseDuration: Json -> Outcome<Duration>): (r: Outcome<Duration>)
    ensures r == parseDuration(amazonDuration)
  {
    parseDuration(amazonDuration)
  }
}
