/** Request verification (flask_ask/verifier.py): the signing-certificate URL, the signature
    header, the request timestamp, the certificate validity window, and their combination.
    Downloading and decoding the certificate, importing the RSA key and checking the PKCS#1
    v1.5 signature, parsing the body as JSON and reading the clock are parameters. Instants
    are microseconds counted from 0001-01-01T00:00:00, as `datetime` counts them. */
module Verifier {
  import opened Outcomes
  import opened PyJson
  import opened Text
  import opened Urls
  import opened Base64
  import opened TimeFormat

  // ---- the signing-certificate URL ----

  const CERT_HOSTS: seq<string> := ["s3.amazonaws.com", "s3.amazonaws.com:443"]

  /** The top-level directory every certificate lives in. */
  const CERT_DIR := "echo.api"

  /** `/echo.api/` */
  const CERT_PREFIX := "/" + CERT_DIR + "/"

  /** _check_signature_cert_url(cert_url): the scheme is `https`, the lower-cased authority is
      one of the two hosts, and the normalised path starts with `/echo.api/`. An authority
      with an unmatched bracket makes `urlparse` raise `ValueError`, which is not caught. */
  function CheckSignatureCertUrl(certUrl: string): (r: Outcome<bool>)
    ensures r.Raise? <==> UrlParse(certUrl).Raise?
    ensures r.Raise? ==> r.error == ValueError
    ensures r == Ok(true) <==> UrlParse(certUrl).Ok? && AcceptedParts(UrlParse(certUrl).value)
  {
    match UrlParse(certUrl)
    case Raise(e) => Raise(e)
    case Ok(u) =>
      var host := Lower(u.netloc);
      var path := NormPath(u.path);
      Ok(!(u.scheme != "https" || host !in CERT_HOSTS || !StartsWith(path, CERT_PREFIX)))
  }

  /** The three conditions on the parts of an accepted location. */
  predicate AcceptedParts(u: ParseResult) {
    u.scheme == "https" && Lower(u.netloc) in CERT_HOSTS && StartsWith(NormPath(u.path), CERT_PREFIX)
  }

  /** An accepted location is an `https` URL on one of the two hosts whose path, once
      normalised, is `/echo.api/` followed by segments none of which is `.` or `..`: no path
      leads outside the directory. */
  lemma AcceptedCertUrlStaysInDirectory(certUrl: string)
    requires CheckSignatureCertUrl(certUrl) == Ok(true)
    ensures var u := UrlParse(certUrl).value;
            var segs := NormSegments(Split(u.path, '/'), true, []);
            u.scheme == "https" && Lower(u.netloc) in CERT_HOSTS &&
            NormPath(u.path) == "/" + Join(segs, "/") && |segs| >= 2 && segs[0] == CERT_DIR &&
            forall i :: 0 <= i < |segs| ==> Clean(segs[i])
  {
    PathUnderCertDir(UrlParse(certUrl).value.path);
  }

  lemma PathUnderCertDir(path: string)
    requires StartsWith(NormPath(path), CERT_PREFIX)
    ensures var segs := NormSegments(Split(path, '/'), true, []);
            NormPath(path) == "/" + Join(segs, "/") && |segs| >= 2 && segs[0] == CERT_DIR &&
            forall i :: 0 <= i < |segs| ==> Clean(segs[i])
  {
    assert Segment(CERT_DIR);
    NormalisedUnder(path, CERT_DIR);
  }

  /** A location with no colon and no leading `//` has no scheme, so it is rejected. */
  lemma NoSchemeRejected(certUrl: string)
    requires ':' !in certUrl && !StartsWith(certUrl, "//")
    ensures CheckSignatureCertUrl(certUrl) == Ok(false)
  {
    assert UrlSplit(certUrl) == SplitRest("", certUrl);
  }

  /** The stand-in used when the certificate header is absent. */
  const NO_CERT_URL := "No CertChainUrl in Header"

  /** The stand-in for a missing header is always rejected. */
  lemma MissingCertUrlRejected(certUrl: string)
    requires certUrl == NO_CERT_URL
    ensures CheckSignatureCertUrl(certUrl) == Ok(false)
  {
    assert certUrl[0] == 'N';
    assert forall i :: 0 <= i < |certUrl| ==> certUrl[i] != ':';
    NoSchemeRejected(certUrl);
  }

  // ---- the signature header ----

  /** _get_signature(signature): an absent or empty header gives `None`; anything else is
      base64-decoded, and a decoding error is a `TypeError` that is not caught. */
  function GetSignature(header: Option<string>): (r: Outcome<Option<seq<byte>>>)
    ensures header.None? || header == Some("") ==> r == Ok(None)
    ensures r.Raise? ==> r.error == TypeError
  {
    match header
    case None => Ok(None)
    case Some(s) =>
      if s == "" then Ok(None)
      else match A2bOutcome(s)
        case Raise(e) => Raise(e)
        case Ok(b) => Ok(Some(b))
  }

  function A2bOutcome(s: string): (r: Outcome<seq<byte>>)
    ensures r.Raise? ==> r.error == TypeError
    ensures r == B64Decode(s)
  {
    A2bErrors(s, 0, 0, 0, []);
    B64Decode(s)
  }

  /** The decoding loop raises nothing but `TypeError`. */
  lemma {:induction false} A2bErrors(s: string, quadPos: nat, leftchar: nat, leftbits: nat, out: seq<byte>)
    ensures A2b(s, quadPos, leftchar, leftbits, out).Raise? ==> A2b(s, quadPos, leftchar, leftbits, out).error == TypeError
    decreases |s|
  {
    if s != [] {
      var c := s[0];
      var v := SextetOf(c);
      var acc := leftchar * 64 + v;
      var bits := leftbits + 6;
      A2bErrors(s[1..], quadPos, leftchar, leftbits, out);
      if v != -1 {
        if bits >= 8 {
          A2bErrors(s[1..], (quadPos + 1) % 4, acc % Pow2(bits - 8), bits - 8, out + [(acc / Pow2(bits - 8)) % 256]);
        } else {
          A2bErrors(s[1..], (quadPos + 1) % 4, acc, bits, out);
        }
      }
    }
  }

  /** A header holding the padded encoding of some bytes gives those bytes back. */
  lemma SignatureOfEncoding(b: seq<byte>)
    requires b != []
    ensures GetSignature(Some(Encode(b))) == Ok(Some(b))
  {
    B64DecodeEncode(b);
  }

  // ---- the request timestamp ----

  /** The days before 1 January of year `y`, as `datetime` counts them. */
  function DaysBeforeYear(y: int): int
    requires y >= 1
  {
    var p := y - 1;
    p * 365 + p / 4 - p / 100 + p / 400
  }

  /** The days of year `y` before the first of month `m`. */
  function DaysBeforeMonth(y: int, m: int): (r: nat)
    requires 1 <= m <= 12
    decreases m
  {
    if m == 1 then 0 else DaysBeforeMonth(y, m - 1) + DaysInMonth(y, m - 1)
  }

  /** The day number of a date, 1 January of year 1 being day 1. */
  function Ordinal(y: int, m: int, d: int): int
    requires ValidDate(y, m, d)
  {
    DaysBeforeYear(y) + DaysBeforeMonth(y, m) + d
  }

  /** The instant of a naive date and time, in microseconds. */
  function Instant(y: int, m: int, d: int, hh: nat, mm: nat, ss: nat): int
    requires ValidDate(y, m, d)
  {
    (((Ordinal(y, m, d) - 1) * 86400) + hh * 3600 + mm * 60 + ss) * 1000000
  }

  /** The last day of a month is followed by the first of the next, and 31 December by 1 January:
      consecutive dates give consecutive day numbers. */
  lemma OrdinalNextDay(y: int, m: int, d: int)
    requires ValidDate(y, m, d)
    ensures d < DaysInMonth(y, m) ==> Ordinal(y, m, d + 1) == Ordinal(y, m, d) + 1
    ensures d == DaysInMonth(y, m) && m < 12 ==> Ordinal(y, m + 1, 1) == Ordinal(y, m, d) + 1
    ensures d == DaysInMonth(y, m) && m == 12 && y < 9999 ==> Ordinal(y + 1, 1, 1) == Ordinal(y, m, d) + 1
  {
    if d == DaysInMonth(y, m) && m == 12 && y < 9999 {
      DaysInYear(y);
    }
  }

  /** A year has 365 days, 366 when it is a leap year. */
  lemma DaysInYear(y: int)
    requires y >= 1
    ensures DaysBeforeYear(y + 1) - DaysBeforeYear(y) == if IsLeapYear(y) then 366 else 365
    ensures DaysBeforeMonth(y, 12) + 31 == if IsLeapYear(y) then 366 else 365
  {
    YearLength(y, y / 4 - (y - 1) / 4, y / 100 - (y - 1) / 100, y / 400 - (y - 1) / 400);
    DaysBeforeDecember(y);
  }

  /** The year count, with the three multiple counts named. */
  lemma YearLength(y: int, fours: int, hundreds: int, fourHundreds: int)
    requires y >= 1
    requires fours == y / 4 - (y - 1) / 4 && hundreds == y / 100 - (y - 1) / 100
    requires fourHundreds == y / 400 - (y - 1) / 400
    ensures DaysBeforeYear(y + 1) - DaysBeforeYear(y) == if IsLeapYear(y) then 366 else 365
  {
    MultipleStep(y, 4);
    MultipleStep(y, 100);
    MultipleStep(y, 400);
    assert DaysBeforeYear(y + 1) - DaysBeforeYear(y) == 365 + fours - hundreds + fourHundreds;
  }

  /** Going from `y - 1` to `y` adds one multiple of `k` exactly when `k` divides `y`. */
  lemma MultipleStep(y: int, k: int)
    requires k == 4 || k == 100 || k == 400
    ensures y / k - (y - 1) / k == if y % k == 0 then 1 else 0
  {
    if k == 4 {
      assert y / 4 - (y - 1) / 4 == if y % 4 == 0 then 1 else 0;
    } else if k == 100 {
      assert y / 100 - (y - 1) / 100 == if y % 100 == 0 then 1 else 0;
    } else {
      assert y / 400 - (y - 1) / 400 == if y % 400 == 0 then 1 else 0;
    }
  }

  lemma DaysBeforeDecember(y: int)
    ensures DaysBeforeMonth(y, 12) == if IsLeapYear(y) then 335 else 334
  {
  }

  const TIMESTAMP_FORMAT := "%Y-%m-%dT%H:%M:%SZ"

  /** The largest accepted difference between the clock and the request, in seconds. */
  const MAX_DIFF := 150

  /** datetime.strptime(s, "%Y-%m-%dT%H:%M:%SZ") as an instant; `None` when it raises
      `ValueError` (no match, or a date or time `datetime` refuses, such as second 60). */
  function ParseTimestamp(s: string): (r: Option<int>)
    ensures r.Some? ==> MatchItems(Tokenize(TIMESTAMP_FORMAT), s, 0, map[]).Some?
  {
    ParseTimestampWith(s, Tokenize(TIMESTAMP_FORMAT))
  }

  function ParseTimestampWith(s: string, items: seq<FormatItem>): (r: Option<int>)
    ensures r.Some? ==> MatchItems(items, s, 0, map[]).Some?
  {
    match MatchItems(items, s, 0, map[])
    case None => None
    case Some(f) => InstantOf(f)
  }

  /** The `datetime` built from the fields `strptime` read, missing ones defaulting to
      1900-01-01T00:00:00; `None` when `datetime` refuses them. */
  function InstantOf(f: Fields): Option<int> {
    var y := if 'Y' in f then f['Y'] else 1900;
    var m := if 'm' in f then f['m'] else 1;
    var d := if 'd' in f then f['d'] else 1;
    var hh := if 'H' in f then f['H'] else 0;
    var mm := if 'M' in f then f['M'] else 0;
    var ss := if 'S' in f then f['S'] else 0;
    if ValidDate(y, m, d) && hh <= 23 && mm <= 59 && ss <= 59 then Some(Instant(y, m, d, hh, mm, ss))
    else None
  }

  /** _check_timestamp(body_json): `body_json['request']['timestamp']` must exist and be truthy,
      parse by the format, and lie within 150 seconds of the clock `now`, either side. Every
      exception on the way (a missing key, a body that cannot be indexed, a timestamp that is
      not a string, a parse error) is caught and gives `False`. */
  function CheckTimestamp(bodyJson: Json, now: int): (ok: bool)
    ensures ok ==> bodyJson.JDict? && "request" in bodyJson.fields && bodyJson.fields["request"].JDict? &&
                   "timestamp" in bodyJson.fields["request"].fields &&
                   bodyJson.fields["request"].fields["timestamp"].JStr?
  {
    match Index(bodyJson, "request")
    case Raise(_) => false
    case Ok(req) =>
      match Index(req, "timestamp")
      case Raise(_) => false
      case Ok(t) =>
        if !Truthy(t) then false
        else match t
          case JStr(s) =>
            (match ParseTimestamp(s)
             case None => false
             case Some(ts) =>
               var diff := now - ts;
               !(diff > MAX_DIFF * 1000000 || -diff > MAX_DIFF * 1000000))
          case _ => false
  }

  /** The timestamp the check reads, when there is one. */
  function TimestampOf(bodyJson: Json): Option<string> {
    if bodyJson.JDict? && "request" in bodyJson.fields && bodyJson.fields["request"].JDict? &&
       "timestamp" in bodyJson.fields["request"].fields && bodyJson.fields["request"].fields["timestamp"].JStr?
    then Some(bodyJson.fields["request"].fields["timestamp"].s)
    else None
  }

  /** The check accepts exactly a parsable timestamp within 150 seconds of the clock, on either
      side, both ends included. */
  lemma TimestampWindow(bodyJson: Json, now: int)
    ensures CheckTimestamp(bodyJson, now) <==>
              TimestampOf(bodyJson).Some? && ParseTimestamp(TimestampOf(bodyJson).value).Some? &&
              var ts := ParseTimestamp(TimestampOf(bodyJson).value).value;
              ts - 150000000 <= now <= ts + 150000000
  {
  }

  /** The shape the format accepts: `YYYY-MM-DDTHH:MM:SSZ` with two-digit fields; the `T` and
      the `Z` in either case. */
  predicate TimestampShape(s: string) {
    |s| == 20 && DigitsAt(s, 0, 4) && s[4] == '-' && DigitsAt(s, 5, 2) && s[7] == '-' && DigitsAt(s, 8, 2) &&
    UpperChar(s[10]) == 'T' && DigitsAt(s, 11, 2) && s[13] == ':' && DigitsAt(s, 14, 2) && s[16] == ':' &&
    DigitsAt(s, 17, 2) && UpperChar(s[19]) == 'Z'
  }

  const TIMESTAMP_ITEMS: seq<FormatItem> :=
    [Directive('Y'), Literal('-'), Directive('m'), Literal('-'), Directive('d'), Literal('T'),
     Directive('H'), Literal(':'), Directive('M'), Literal(':'), Directive('S'), Literal('Z')]

  lemma TokenizeDatePart(fmt: string)
    requires fmt == "%Y-%m-%dT"
    ensures Complete(fmt) && Tokenize(fmt) == TIMESTAMP_ITEMS[..6]
  {
    var a, b := "%Y-%m", "-%dT";
    assert fmt == a + b;
    TokenizeConcat(a, b);
  }

  lemma TokenizeTimePart(fmt: string)
    requires fmt == "%H:%M:%SZ"
    ensures Tokenize(fmt) == TIMESTAMP_ITEMS[6..]
  {
    var a, b := "%H:%M", ":%SZ";
    assert fmt == a + b;
    TokenizeConcat(a, b);
  }

  lemma TokenizeTimestamp()
    ensures Tokenize(TIMESTAMP_FORMAT) == TIMESTAMP_ITEMS
  {
    var date, time := "%Y-%m-%dT", "%H:%M:%SZ";
    assert TIMESTAMP_FORMAT == date + time;
    TokenizeDatePart(date);
    TokenizeTimePart(time);
    TokenizeConcat(date, time);
  }

  /** The date part of a timestamp, field by field. */
  lemma MatchTimestampDate(s: string, items: seq<FormatItem>)
    requires |s| >= 11 && DigitsAt(s, 0, 4) && s[4] == '-' && DigitsAt(s, 5, 2) && s[7] == '-' &&
             DigitsAt(s, 8, 2) && UpperChar(s[10]) == 'T'
    requires |items| >= 6 && items[0] == Directive('Y') && items[1] == Literal('-') && items[2] == Directive('m')
    requires items[3] == Literal('-') && items[4] == Directive('d') && items[5] == Literal('T')
    ensures var y, m, d := NumAt(s, 0, 4), NumAt(s, 5, 2), NumAt(s, 8, 2);
            MatchItems(items, s, 0, map[]) ==
              if 1 <= m <= 12 && 1 <= d <= 31 then MatchItems(items[6..], s, 11, map['Y' := y, 'm' := m, 'd' := d]) else None
  {
    var y, m := NumAt(s, 0, 4), NumAt(s, 5, 2);
    FieldThenLiteral(items, s, 0, map[], 4);
    FieldThenLiteral(items[2..], s, 5, map['Y' := y], 2);
    assert items[2..][2..] == items[4..];
    FieldThenLiteral(items[4..], s, 8, map['Y' := y, 'm' := m], 2);
    assert items[4..][2..] == items[6..];
  }

  /** The time part of a timestamp, field by field. */
  lemma MatchTimestampTime(s: string, items: seq<FormatItem>, f: Fields)
    requires |s| == 20 && DigitsAt(s, 11, 2) && s[13] == ':' && DigitsAt(s, 14, 2) && s[16] == ':' &&
             DigitsAt(s, 17, 2) && UpperChar(s[19]) == 'Z'
    requires |items| == 6 && items[0] == Directive('H') && items[1] == Literal(':') && items[2] == Directive('M')
    requires items[3] == Literal(':') && items[4] == Directive('S') && items[5] == Literal('Z')
    ensures var hh, mm, ss := NumAt(s, 11, 2), NumAt(s, 14, 2), NumAt(s, 17, 2);
            MatchItems(items, s, 11, f) ==
              if hh <= 23 && mm <= 59 && ss <= 61 then Some(f['H' := hh]['M' := mm]['S' := ss]) else None
  {
    var hh, mm := NumAt(s, 11, 2), NumAt(s, 14, 2);
    FieldThenLiteral(items, s, 11, f, 2);
    FieldThenLiteral(items[2..], s, 14, f['H' := hh], 2);
    assert items[2..][2..] == items[4..];
    FieldThenLiteral(items[4..], s, 17, f['H' := hh]['M' := mm], 2);
    assert items[4..][2..] == [];
  }

  /** The fields a well-shaped timestamp yields, when each is within its directive's range. */
  lemma MatchWellShaped(s: string)
    requires TimestampShape(s)
    ensures var y, m, d := NumAt(s, 0, 4), NumAt(s, 5, 2), NumAt(s, 8, 2);
            var hh, mm, ss := NumAt(s, 11, 2), NumAt(s, 14, 2), NumAt(s, 17, 2);
            MatchItems(TIMESTAMP_ITEMS, s, 0, map[]) ==
              if 1 <= m <= 12 && 1 <= d <= 31 && hh <= 23 && mm <= 59 && ss <= 61
              then Some(map['Y' := y, 'm' := m, 'd' := d, 'H' := hh, 'M' := mm, 'S' := ss]) else None
  {
    var y, m, d := NumAt(s, 0, 4), NumAt(s, 5, 2), NumAt(s, 8, 2);
    var hh, mm, ss := NumAt(s, 11, 2), NumAt(s, 14, 2), NumAt(s, 17, 2);
    MatchTimestampDate(s, TIMESTAMP_ITEMS);
    MatchTimestampTime(s, TIMESTAMP_ITEMS[6..], map['Y' := y, 'm' := m, 'd' := d]);
    SixFields(y, m, d, hh, mm, ss);
  }

  lemma SixFields(y: nat, m: nat, d: nat, hh: nat, mm: nat, ss: nat)
    ensures map['Y' := y, 'm' := m, 'd' := d]['H' := hh]['M' := mm]['S' := ss] ==
            map['Y' := y, 'm' := m, 'd' := d, 'H' := hh, 'M' := mm, 'S' := ss]
  {
  }

  /** A well-shaped timestamp parses to the instant of its fields exactly when they form a
      date and a time of day, seconds 60 and 61 excluded. */
  lemma ParseWellShaped(s: string)
    requires TimestampShape(s)
    ensures var y, m, d := NumAt(s, 0, 4), NumAt(s, 5, 2), NumAt(s, 8, 2);
            var hh, mm, ss := NumAt(s, 11, 2), NumAt(s, 14, 2), NumAt(s, 17, 2);
            ParseTimestamp(s) ==
              if ValidDate(y, m, d) && hh <= 23 && mm <= 59 && ss <= 59 then Some(Instant(y, m, d, hh, mm, ss)) else None
  {
    TokenizeTimestamp();
    MatchWellShaped(s);
    FieldsToInstant(s, Tokenize(TIMESTAMP_FORMAT), NumAt(s, 0, 4), NumAt(s, 5, 2), NumAt(s, 8, 2),
                    NumAt(s, 11, 2), NumAt(s, 14, 2), NumAt(s, 17, 2));
  }

  /** The shape with the day written as a space and one digit, which the `%d` expression also
      accepts. */
  predicate PaddedTimestampShape(s: string) {
    |s| == 20 && DigitsAt(s, 0, 4) && s[4] == '-' && DigitsAt(s, 5, 2) && s[7] == '-' && s[8] == ' ' &&
    DigitsAt(s, 9, 1) && UpperChar(s[10]) == 'T' && DigitsAt(s, 11, 2) && s[13] == ':' && DigitsAt(s, 14, 2) &&
    s[16] == ':' && DigitsAt(s, 17, 2) && UpperChar(s[19]) == 'Z'
  }

  /** The date part of a timestamp whose day is space-padded. */
  lemma MatchPaddedDate(s: string, items: seq<FormatItem>)
    requires |s| >= 11 && DigitsAt(s, 0, 4) && s[4] == '-' && DigitsAt(s, 5, 2) && s[7] == '-' &&
             s[8] == ' ' && DigitsAt(s, 9, 1) && UpperChar(s[10]) == 'T'
    requires |items| >= 6 && items[0] == Directive('Y') && items[1] == Literal('-') && items[2] == Directive('m')
    requires items[3] == Literal('-') && items[4] == Directive('d') && items[5] == Literal('T')
    ensures var y, m, d := NumAt(s, 0, 4), NumAt(s, 5, 2), DigitValue(s[9]);
            MatchItems(items, s, 0, map[]) ==
              if 1 <= m <= 12 && 1 <= d then MatchItems(items[6..], s, 11, map['Y' := y, 'm' := m, 'd' := d]) else None
  {
    var y, m := NumAt(s, 0, 4), NumAt(s, 5, 2);
    FieldThenLiteral(items, s, 0, map[], 4);
    FieldThenLiteral(items[2..], s, 5, map['Y' := y], 2);
    assert items[2..][2..] == items[4..];
    PaddedDayThenLiteral(items[4..], s, 8, map['Y' := y, 'm' := m]);
    assert items[4..][2..] == items[6..];
  }

  /** A timestamp with a space-padded day yields its six fields when each is within its
      directive's range, the day being the single digit after the space. */
  lemma MatchPaddedDay(s: string)
    requires PaddedTimestampShape(s)
    ensures var y, m, d := NumAt(s, 0, 4), NumAt(s, 5, 2), DigitValue(s[9]);
            var hh, mm, ss := NumAt(s, 11, 2), NumAt(s, 14, 2), NumAt(s, 17, 2);
            MatchItems(TIMESTAMP_ITEMS, s, 0, map[]) ==
              if 1 <= m <= 12 && 1 <= d <= 31 && hh <= 23 && mm <= 59 && ss <= 61
              then Some(map['Y' := y, 'm' := m, 'd' := d, 'H' := hh, 'M' := mm, 'S' := ss]) else None
  {
    var y, m, d := NumAt(s, 0, 4), NumAt(s, 5, 2), DigitValue(s[9]);
    var hh, mm, ss := NumAt(s, 11, 2), NumAt(s, 14, 2), NumAt(s, 17, 2);
    MatchPaddedDate(s, TIMESTAMP_ITEMS);
    MatchTimestampTime(s, TIMESTAMP_ITEMS[6..], map['Y' := y, 'm' := m, 'd' := d]);
    SixFields(y, m, d, hh, mm, ss);
  }

  /** A timestamp with a space-padded day parses to the instant of its fields exactly when
      they form a date and a time of day: `2015-11- 5T10:00:00Z` is 5 November. */
  lemma ParsePaddedDay(s: string)
    requires PaddedTimestampShape(s)
    ensures var y, m, d := NumAt(s, 0, 4), NumAt(s, 5, 2), DigitValue(s[9]);
            var hh, mm, ss := NumAt(s, 11, 2), NumAt(s, 14, 2), NumAt(s, 17, 2);
            ParseTimestamp(s) ==
              if ValidDate(y, m, d) && hh <= 23 && mm <= 59 && ss <= 59 then Some(Instant(y, m, d, hh, mm, ss)) else None
  {
    TokenizeTimestamp();
    MatchPaddedDay(s);
    FieldsToInstant(s, Tokenize(TIMESTAMP_FORMAT), NumAt(s, 0, 4), NumAt(s, 5, 2), DigitValue(s[9]),
                    NumAt(s, 11, 2), NumAt(s, 14, 2), NumAt(s, 17, 2));
  }

  lemma PaddedDayTimestamp()
    ensures ParseTimestamp("2015-11- 5T10:00:00Z") == Some(Instant(2015, 11, 5, 10, 0, 0))
  {
    var s := "2015-11- 5T10:00:00Z";
    assert PaddedTimestampShape(s);
    FourDigitsValue(s[0..4]);
    assert NumAt(s, 0, 4) == 2015;
    TwoDigitsValue(s[5..7]);
    assert NumAt(s, 5, 2) == 11;
    TwoDigitsValue(s[11..13]);
    assert NumAt(s, 11, 2) == 10;
    TwoDigitsValue(s[14..16]);
    assert NumAt(s, 14, 2) == 0;
    TwoDigitsValue(s[17..19]);
    assert NumAt(s, 17, 2) == 0;
    assert DigitValue(s[9]) == 5;
    assert ValidDate(2015, 11, 5);
    ParsePaddedDay(s);
  }

  lemma FieldsToInstant(s: string, items: seq<FormatItem>, y: nat, m: nat, d: nat, hh: nat, mm: nat, ss: nat)
    requires MatchItems(items, s, 0, map[]) ==
               if 1 <= m <= 12 && 1 <= d <= 31 && hh <= 23 && mm <= 59 && ss <= 61
               then Some(map['Y' := y, 'm' := m, 'd' := d, 'H' := hh, 'M' := mm, 'S' := ss]) else None
    ensures ParseTimestampWith(s, items) ==
              if ValidDate(y, m, d) && hh <= 23 && mm <= 59 && ss <= 59 then Some(Instant(y, m, d, hh, mm, ss)) else None
  {
    InstantOfAllFields(y, m, d, hh, mm, ss);
  }

  /** With every field present, the `datetime` is built from exactly those fields. */
  lemma InstantOfAllFields(y: nat, m: nat, d: nat, hh: nat, mm: nat, ss: nat)
    ensures InstantOf(map['Y' := y, 'm' := m, 'd' := d, 'H' := hh, 'M' := mm, 'S' := ss]) ==
              if ValidDate(y, m, d) && hh <= 23 && mm <= 59 && ss <= 59 then Some(Instant(y, m, d, hh, mm, ss)) else None
  {
    var f := map['Y' := y, 'm' := m, 'd' := d, 'H' := hh, 'M' := mm, 'S' := ss];
    assert f['Y'] == y && f['m'] == m && f['d'] == d && f['H'] == hh && f['M'] == mm && f['S'] == ss;
  }

  // ---- the certificate validity window and the payload ----

  /** The validity test of _verify_payload: the clock must not be before the start of the
      certificate nor at or after its end. */
  predicate CertValidAt(certStart: int, certEnd: int, now: int) {
    !(now < certStart || now >= certEnd)
  }

  /** _verify_payload: outside the validity window it is `False` and the key is not used;
      inside, the outcome of importing the key and checking the PKCS#1 v1.5 signature of the
      SHA-1 digest of the body, given as `rsaVerify`. */
  function VerifyPayload(pubKey: seq<byte>, certStart: int, certEnd: int, data: string, signature: Option<seq<byte>>,
                         now: int, rsaVerify: (seq<byte>, string, Option<seq<byte>>) -> Outcome<bool>): (r: Outcome<bool>)
    ensures !(certStart <= now < certEnd) ==> r == Ok(false)
    ensures certStart <= now < certEnd ==> r == rsaVerify(pubKey, data, signature)
  {
    if !CertValidAt(certStart, certEnd, now) then Ok(false) else rsaVerify(pubKey, data, signature)
  }

  // ---- isValidAlexaRequest ----

  /** What _get_signature_cert gives back: `(None, None, None)` when the download fails or
      no certificate decodes, otherwise the first certificate's public key (as octets) and
      validity window. */
  datatype CertInfo = NoCert | Cert(pubKey: seq<byte>, notBefore: int, notAfter: int)

  /** The collaborators of isValidAlexaRequest: the JSON parser, the certificate download,
      the signature check, and the clock as read by the timestamp check and by the payload
      check. */
  datatype Env = Env(
    loads: string -> Outcome<Json>,
    fetchCert: string -> Outcome<CertInfo>,
    rsaVerify: (seq<byte>, string, Option<seq<byte>>) -> Outcome<bool>,
    nowTimestamp: int,
    nowCert: int)

  /** The certificate location the request names, or the stand-in. */
  function CertUrlOf(headers: string -> Option<string>): string {
    match headers("SignatureCertChainUrl")
    case Some(u) => u
    case None => NO_CERT_URL
  }

  /** isValidAlexaRequest(r): the signature header is decoded and the certificate URL and the
      timestamp are checked first, all three always; the body is parsed outside any handler,
      so a malformed body raises. Only when both checks pass is the certificate fetched; a
      missing or empty key is `False`, and otherwise the payload check decides. */
  function IsValidAlexaRequest(headers: string -> Option<string>, body: string, env: Env): (r: Outcome<bool>)
    ensures GetSignature(headers("Signature")).Raise? ==> r == Raise(GetSignature(headers("Signature")).error)
    ensures GetSignature(headers("Signature")).Ok? && CheckSignatureCertUrl(CertUrlOf(headers)).Ok? && env.loads(body).Raise? ==>
              r == Raise(env.loads(body).error)
    ensures r == Ok(true) ==>
              CheckSignatureCertUrl(CertUrlOf(headers)) == Ok(true) && env.loads(body).Ok? &&
              CheckTimestamp(env.loads(body).value, env.nowTimestamp) && env.fetchCert(CertUrlOf(headers)).Ok?
  {
    match GetSignature(headers("Signature"))
    case Raise(e) => Raise(e)
    case Ok(signature) =>
      var certUrl := CertUrlOf(headers);
      match CheckSignatureCertUrl(certUrl)
      case Raise(e) => Raise(e)
      case Ok(urlOk) =>
        match env.loads(body)
        case Raise(e) => Raise(e)
        case Ok(bodyJson) =>
          var timestampOk := CheckTimestamp(bodyJson, env.nowTimestamp);
          if urlOk && timestampOk then CheckCertificate(certUrl, body, signature, env) else Ok(false)
  }

  /** The second half of isValidAlexaRequest: fetch the certificate, refuse a missing or empty
      key, then check the payload. */
  function CheckCertificate(certUrl: string, body: string, signature: Option<seq<byte>>, env: Env): (r: Outcome<bool>)
    ensures r == Ok(true) <==>
              env.fetchCert(certUrl).Ok? && env.fetchCert(certUrl).value.Cert? &&
              var cert := env.fetchCert(certUrl).value;
              cert.pubKey != [] && cert.notBefore <= env.nowCert < cert.notAfter &&
              env.rsaVerify(cert.pubKey, body, signature) == Ok(true)
  {
    match env.fetchCert(certUrl)
    case Raise(e) => Raise(e)
    case Ok(cert) =>
      if cert.NoCert? || cert.pubKey == [] then Ok(false)
      else VerifyPayload(cert.pubKey, cert.notBefore, cert.notAfter, body, signature, env.nowCert, env.rsaVerify)
  }

  /** A request is valid exactly when every check passes: the signature header decodes, the
      certificate URL is acceptable, the body parses with a timestamp within the window, a
      non-empty key is fetched, the clock lies in the certificate's window and the signature
      verifies. */
  lemma ValidExactly(headers: string -> Option<string>, body: string, env: Env)
    ensures IsValidAlexaRequest(headers, body, env) == Ok(true) <==>
              GetSignature(headers("Signature")).Ok? &&
              CheckSignatureCertUrl(CertUrlOf(headers)) == Ok(true) &&
              env.loads(body).Ok? && CheckTimestamp(env.loads(body).value, env.nowTimestamp) &&
              env.fetchCert(CertUrlOf(headers)).Ok? &&
              var cert := env.fetchCert(CertUrlOf(headers)).value;
              cert.Cert? && cert.pubKey != [] &&
              cert.notBefore <= env.nowCert < cert.notAfter &&
              env.rsaVerify(cert.pubKey, body, GetSignature(headers("Signature")).value) == Ok(true)
  {
  }

  /** The certificate is fetched and the signature checked only after the location and the
      timestamp pass: when either fails, the answer is `False` whatever the download, the
      signature check and the second clock reading would have done. */
  lemma NoFetchBeforeChecks(headers: string -> Option<string>, body: string, e1: Env, e2: Env)
    requires e1.loads == e2.loads && e1.nowTimestamp == e2.nowTimestamp
    requires GetSignature(headers("Signature")).Ok? && e1.loads(body).Ok?
    requires CheckSignatureCertUrl(CertUrlOf(headers)).Ok?
    requires !CheckSignatureCertUrl(CertUrlOf(headers)).value || !CheckTimestamp(e1.loads(body).value, e1.nowTimestamp)
    ensures IsValidAlexaRequest(headers, body, e1) == IsValidAlexaRequest(headers, body, e2) == Ok(false)
  {
  }

  /** A request without the certificate header is never valid. */
  lemma MissingCertHeaderNeverValid(headers: string -> Option<string>, body: string, env: Env)
    requires headers("SignatureCertChainUrl").None?
    ensures IsValidAlexaRequest(headers, body, env) != Ok(true)
  {
    MissingCertUrlRejected(CertUrlOf(headers));
  }

  /** A valid request names its certificate inside the `echo.api` directory of the host. */
  lemma ValidRequestCertInDirectory(headers: string -> Option<string>, body: string, env: Env)
    requires IsValidAlexaRequest(headers, body, env) == Ok(true)
    ensures var u := UrlParse(CertUrlOf(headers)).value;
            var segs := NormSegments(Split(u.path, '/'), true, []);
            u.scheme == "https" && Lower(u.netloc) in CERT_HOSTS && |segs| >= 2 && segs[0] == CERT_DIR &&
            forall i :: 0 <= i < |segs| ==> Clean(segs[i])
  {
    ValidExactly(headers, body, env);
    AcceptedCertUrlStaysInDirectory(CertUrlOf(headers));
  }
}
