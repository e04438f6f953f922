/** The part of Python 2's `time.strptime` that the modelled formats use: a format is read
    as `%` directives and literal characters; each directive accepts a run of decimal digits
    by the regular expression `_strptime` compiles for it; literals match case-insensitively;
    and the whole string must be consumed. */
module TimeFormat {
  import opened Outcomes
  import opened Text

  predicate DigitsAt(s: string, from: nat, count: nat) {
    from + count <= |s| && forall i :: from <= i < from + count ==> IsDigit(s[i])
  }


  /** One item of a `strptime` format: a `%` directive or a literal character. */
  datatype FormatItem = Directive(code: char) | Literal(c: char)

  function Tokenize(fmt: string): seq<FormatItem> {
    if fmt == [] then []
    else if fmt[0] == '%' && |fmt| >= 2 then [Directive(fmt[1])] + Tokenize(fmt[2..])
    else [Literal(fmt[0])] + Tokenize(fmt[1..])
  }

  /** A format that does not end in a lone `%`: tokenizing it uses up every character. */
  predicate Complete(fmt: string)
    decreases |fmt|
  {
    if fmt == [] then true
    else if fmt[0] == '%' then |fmt| >= 2 && Complete(fmt[2..])
    else Complete(fmt[1..])
  }

  /** Tokenizing a complete format followed by more text tokenizes the two apart. */
  lemma {:induction false} TokenizeConcat(a: string, b: string)
    requires Complete(a)
    ensures Tokenize(a + b) == Tokenize(a) + Tokenize(b)
    ensures Complete(b) ==> Complete(a + b)
    decreases |a|
  {
    if a == [] {
      assert a + b == b;
    } else if a[0] == '%' {
      assert (a + b)[2..] == a[2..] + b;
      TokenizeConcat(a[2..], b);
    } else {
      assert (a + b)[1..] == a[1..] + b;
      TokenizeConcat(a[1..], b);
    }
  }

  /** The length of the run of digits that starts at `i`. */
  function DigitRun(s: string, i: nat): (n: nat)
    requires i <= |s|
    ensures i + n <= |s| && DigitsAt(s, i, n)
    ensures i + n < |s| ==> !IsDigit(s[i + n])
    decreases |s| - i
  {
    if i < |s| && IsDigit(s[i]) then 1 + DigitRun(s, i + 1) else 0
  }

  /** Whether a digit run is accepted by the regular expression `strptime` uses for a directive:
      `%Y` is `\d\d\d\d`, `%m` is `1[0-2]|0[1-9]|[1-9]`, `%d` is `3[01]|[12]\d|0[1-9]|[1-9]` (its further
      alternative ` [1-9]`, a space and one digit, is `PaddedDay`),
      `%U` is `5[0-3]|[0-4]\d|\d`, `%w` is `[0-6]`, `%H` is `2[0-3]|[0-1]\d|\d`,
      `%M` is `[0-5]\d|\d` and `%S` is `6[0-1]|[0-5]\d|\d`. In these formats a directive is always
      followed by a literal or by the end, so it must consume the whole digit run. */
  predicate AcceptedField(code: char, run: string)
    requires AllDigits(run)
  {
    match code
    case 'Y' => |run| == 4
    case 'm' => 1 <= |run| <= 2 && 1 <= DigitsValue(run) <= 12
    case 'd' => 1 <= |run| <= 2 && 1 <= DigitsValue(run) <= 31
    case 'U' => 1 <= |run| <= 2 && DigitsValue(run) <= 53
    case 'w' => |run| == 1 && DigitsValue(run) <= 6
    case 'H' => 1 <= |run| <= 2 && DigitsValue(run) <= 23
    case 'M' => 1 <= |run| <= 2 && DigitsValue(run) <= 59
    case 'S' => 1 <= |run| <= 2 && DigitsValue(run) <= 61
    case _ => false
  }

  /** The day directive at a space: its only alternative that can match there is ` [1-9]`,
      a space and then one digit other than zero. */
  predicate PaddedDay(code: char, s: string, i: nat) {
    code == 'd' && i < |s| && s[i] == ' '
  }

  /** The fields `strptime` has read, by directive. */
  type Fields = map<char, nat>

  function UpperChar(c: char): char {
    if 'a' <= c <= 'z' then (c as int - 32) as char else c
  }

  /** Match `s[i..]` against the format items; literals compare case-insensitively (the
      format regular expression is compiled with IGNORECASE) and the whole string must be
      consumed ("unconverted data remains" otherwise). */
  function MatchItems(items: seq<FormatItem>, s: string, i: nat, fields: Fields): Option<Fields>
    requires i <= |s|
    decreases |items|
  {
    if items == [] then (if i == |s| then Some(fields) else None)
    else match items[0]
      case Literal(c) =>
        if i < |s| && UpperChar(s[i]) == UpperChar(c) then MatchItems(items[1..], s, i + 1, fields) else None
      case Directive(code) =>
        if PaddedDay(code, s, i) then
          if i + 1 < |s| && IsDigit(s[i + 1]) && s[i + 1] != '0' && DigitRun(s, i + 2) == 0
          then MatchItems(items[1..], s, i + 2, fields[code := DigitValue(s[i + 1])])
          else None
        else
          var n := DigitRun(s, i);
          var run := s[i..i + n];
          if AcceptedField(code, run) then MatchItems(items[1..], s, i + n, fields[code := DigitsValue(run)])
          else None
  }

  predicate IsLeapYear(y: int) {
    (y % 4 == 0 && y % 100 != 0) || y % 400 == 0
  }

  function DaysInMonth(y: int, m: int): int
    requires 1 <= m <= 12
  {
    if m == 2 then (if IsLeapYear(y) then 29 else 28)
    else if m == 4 || m == 6 || m == 9 || m == 11 then 30
    else 31
  }

  /** `datetime.date(y, m, d)` succeeds exactly for these arguments. */
  predicate ValidYear(y: int) { 1 <= y <= 9999 }

  predicate ValidDate(y: int, m: int, d: int) {
    ValidYear(y) && 1 <= m <= 12 && 1 <= d <= DaysInMonth(y, m)
  }

  /** The value of the `n` digits at `from`. */
  function NumAt(s: string, from: nat, n: nat): nat
    requires DigitsAt(s, from, n)
  {
    DigitsValue(s[from..from + n])
  }

  lemma TwoDigitsValue(s: string)
    requires |s| == 2 && AllDigits(s)
    ensures DigitsValue(s) == 10 * DigitValue(s[0]) + DigitValue(s[1])
  {
    var c := s[..1];
    assert c[..0] == [] && c[0] == s[0];
    assert DigitsValue(c) == DigitValue(s[0]);
  }

  lemma FourDigitsValue(s: string)
    requires |s| == 4 && AllDigits(s)
    ensures DigitsValue(s) == 1000 * DigitValue(s[0]) + 100 * DigitValue(s[1]) + 10 * DigitValue(s[2]) + DigitValue(s[3])
  {
    var a, b, c := s[..3], s[..2], s[..1];
    assert a[..2] == b && b[..1] == c && c[..0] == [];
    assert a[2] == s[2] && b[1] == s[1] && c[0] == s[0];
    assert DigitsValue(c) == DigitValue(s[0]);
    assert DigitsValue(b) == 10 * DigitValue(s[0]) + DigitValue(s[1]);
    assert DigitsValue(a) == 100 * DigitValue(s[0]) + 10 * DigitValue(s[1]) + DigitValue(s[2]);
  }

  /** A run of exactly `n` digits, ended by a non-digit or by the end of the string. */
  lemma {:induction false} DigitRunExact(s: string, i: nat, n: nat)
    requires DigitsAt(s, i, n) && (i + n == |s| || !IsDigit(s[i + n]))
    ensures DigitRun(s, i) == n
    decreases n
  {
    if n > 0 {
      DigitRunExact(s, i + 1, n - 1);
    }
  }

  lemma LiteralStep(items: seq<FormatItem>, s: string, i: nat, f: Fields)
    requires |items| > 0 && items[0].Literal? && i < |s| && UpperChar(s[i]) == UpperChar(items[0].c)
    ensures MatchItems(items, s, i, f) == MatchItems(items[1..], s, i + 1, f)
  {
  }

  /** A directive over a run of exactly `n` digits, followed by the literal that comes next. */
  lemma FieldThenLiteral(items: seq<FormatItem>, s: string, i: nat, f: Fields, n: nat)
    requires |items| >= 2 && items[0].Directive? && items[1].Literal?
    requires DigitsAt(s, i, n) && i + n < |s| && !IsDigit(s[i + n]) && UpperChar(s[i + n]) == UpperChar(items[1].c)
    requires !PaddedDay(items[0].code, s, i)
    ensures MatchItems(items, s, i, f) ==
              if AcceptedField(items[0].code, s[i..i + n])
              then MatchItems(items[2..], s, i + n + 1, f[items[0].code := DigitsValue(s[i..i + n])])
              else None
  {
    DigitRunExact(s, i, n);
    assert items[1..][1..] == items[2..];
  }

  /** A directive over the last `n` characters, all digits, as the format's last item. */
  lemma FinalField(items: seq<FormatItem>, s: string, i: nat, f: Fields, n: nat)
    requires |items| == 1 && items[0].Directive? && DigitsAt(s, i, n) && i + n == |s|
    requires !PaddedDay(items[0].code, s, i)
    ensures MatchItems(items, s, i, f) ==
              if AcceptedField(items[0].code, s[i..i + n]) then Some(f[items[0].code := DigitsValue(s[i..i + n])]) else None
  {
    DigitRunExact(s, i, n);
    assert items[1..] == [];
  }

  lemma DirectiveStep(items: seq<FormatItem>, s: string, i: nat, f: Fields, n: nat)
    requires |items| > 0 && items[0].Directive? && i <= |s| && DigitRun(s, i) == n
    requires !PaddedDay(items[0].code, s, i)
    ensures var run := s[i..i + n];
            MatchItems(items, s, i, f) ==
              if AcceptedField(items[0].code, run) then MatchItems(items[1..], s, i + n, f[items[0].code := DigitsValue(run)])
              else None
  {
  }

  /** A day written as a space and one digit, followed by the literal that comes next: the
      digit is the day, and a zero matches no alternative. */
  lemma PaddedDayThenLiteral(items: seq<FormatItem>, s: string, i: nat, f: Fields)
    requires |items| >= 2 && items[0] == Directive('d') && items[1].Literal?
    requires i + 2 < |s| && s[i] == ' ' && IsDigit(s[i + 1]) && !IsDigit(s[i + 2])
    requires UpperChar(s[i + 2]) == UpperChar(items[1].c)
    ensures MatchItems(items, s, i, f) ==
              if s[i + 1] != '0' then MatchItems(items[2..], s, i + 3, f['d' := DigitValue(s[i + 1])]) else None
  {
    DigitRunExact(s, i + 2, 0);
    assert items[1..][1..] == items[2..];
  }

  /** A space-padded day accepted where a zero-padded one would be: `" 5"` reads as day 5. */
  lemma PaddedDayExample()
    ensures MatchItems([Directive('d')], " 5", 0, map[]) == Some(map['d' := 5])
    ensures MatchItems([Directive('d')], " 0", 0, map[]) == None
    ensures MatchItems([Directive('d')], " 15", 0, map[]) == None
  {
    DigitRunExact(" 5", 2, 0);
    DigitRunExact(" 0", 2, 0);
    DigitRunExact(" 15", 2, 1);
  }
}
