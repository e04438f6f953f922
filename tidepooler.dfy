/** The Tide Pooler sample: from NOAA's list of water-level predictions for a day it picks the
    first high tide, the low tide after it and the second high tide, in one pass that follows the
    rises and falls of the predicted height; and it words a time of day for speech.

    A prediction is a JSON object with a time `t` and a height `v`. The heights are compared with
    Python's `<` on whatever `v` holds; NOAA sends them as strings. The scan is stated for any
    comparison, and `PyLess` is the one the sample uses. Python's `None` is `JNull`: the scan's
    variables start out as `None` and are tested with `is None`. */
module Tidepooler {
  import opened Outcomes
  import opened PyJson
  import opened Text

  // ---------------------------------------------------------------------------------------------
  // Comparing heights

  /** Python's `<` on two strings: code-point order, a proper prefix first. */
  predicate StrLess(a: string, b: string) {
    if a == [] then b != []
    else if b == [] then false
    else if a[0] != b[0] then a[0] < b[0]
    else StrLess(a[1..], b[1..])
  }

  /** `a < b` on two JSON values where both are strings (by code point) or both integers (by
      value); every other pair is modelled as a `TypeError`. */
  function PyLess(a: Json, b: Json): (r: Outcome<bool>)
    ensures a.JStr? && b.JStr? ==> r == Ok(StrLess(a.s, b.s))
    ensures a.JInt? && b.JInt? ==> r == Ok(a.i < b.i)
    ensures !(a.JStr? && b.JStr?) && !(a.JInt? && b.JInt?) ==> r == Raise(TypeError)
  {
    if a.JStr? && b.JStr? then Ok(StrLess(a.s, b.s))
    else if a.JInt? && b.JInt? then Ok(a.i < b.i)
    else Raise(TypeError)
  }

  lemma {:induction false} StrLessIrreflexive(a: string)
    ensures !StrLess(a, a)
  {
    if a != [] {
      StrLessIrreflexive(a[1..]);
    }
  }

  lemma {:induction false} StrLessAsymmetric(a: string, b: string)
    requires StrLess(a, b)
    ensures !StrLess(b, a)
  {
    if a != [] && b != [] && a[0] == b[0] {
      StrLessAsymmetric(a[1..], b[1..]);
    }
  }

  /** Equal heights never count as a rise. */
  lemma EqualIsNotLess(v: Json)
    requires v.JStr? || v.JInt?
    ensures PyLess(v, v) == Ok(false)
  {
    if v.JStr? {
      StrLessIrreflexive(v.s);
    }
  }

  // ---------------------------------------------------------------------------------------------
  // The scan of `_find_tide_info`

  datatype ScanState = ScanState(last: Json, firstHigh: Json, secondHigh: Json, low: Json, firstDone: bool)

  const INITIAL: ScanState := ScanState(JNull, JNull, JNull, JNull, false)

  /** `last['v'] < cur['v']`, the left operand's lookup first. */
  function Rising(last: Json, cur: Json, less: (Json, Json) -> Outcome<bool>): Outcome<bool> {
    match Index(last, "v")
    case Raise(e) => Raise(e)
    case Ok(a) =>
      match Index(cur, "v")
      case Raise(e) => Raise(e)
      case Ok(b) => less(a, b)
  }

  /** One turn of the loop: go on with a new state, or `break`. */
  datatype Turn = Go(state: ScanState) | Stop(state: ScanState)

  function ScanStep(s: ScanState, p: Json, less: (Json, Json) -> Outcome<bool>): (r: Outcome<Turn>)
    ensures r.Ok? && r.value.Go? ==> r.value.state.last == p
    ensures r.Ok? && r.value.Stop? ==> r.value.state == s && s.secondHigh != JNull
    ensures r.Ok? && s.last != JNull ==> p.JDict? && "v" in p.fields
    ensures r.Ok? && s.firstDone ==> r.value.state.firstDone && r.value.state.firstHigh == s.firstHigh
    ensures r.Ok? && !s.firstDone ==> r.value.state.secondHigh == s.secondHigh
  {
    if s.last == JNull then Ok(Go(s.(last := p)))
    else
      match Rising(s.last, p, less)
      case Raise(e) => Raise(e)
      case Ok(true) =>
        if !s.firstDone then Ok(Go(s.(firstHigh := p, last := p)))
        else Ok(Go(s.(secondHigh := p, last := p)))
      case Ok(false) =>
        if !s.firstDone && s.firstHigh != JNull then Ok(Go(s.(firstDone := true, low := p, last := p)))
        else if s.secondHigh != JNull then Ok(Stop(s))
        else if s.firstDone then Ok(Go(s.(low := p, last := p)))
        else Ok(Go(s.(last := p)))
  }

  /** The loop over the predictions from a given state. */
  function Scan(predictions: seq<Json>, s: ScanState, less: (Json, Json) -> Outcome<bool>): (r: Outcome<ScanState>)
    ensures predictions == [] ==> r == Ok(s)
    ensures r.Ok? && s.firstDone ==> r.value.firstDone && r.value.firstHigh == s.firstHigh
    ensures r.Ok? && r.value.secondHigh != s.secondHigh ==> r.value.firstDone
    decreases |predictions|
  {
    if predictions == [] then Ok(s)
    else
      match ScanStep(s, predictions[0], less)
      case Raise(e) => Raise(e)
      case Ok(Stop(t)) => Ok(t)
      case Ok(Go(t)) => Scan(predictions[1..], t, less)
  }

  // ---------------------------------------------------------------------------------------------
  // Building the answer

  /** A parsed prediction time; `strptime` itself is an oracle. */
  datatype DateTime = DateTime(year: int, month: nat, day: nat, hour: nat, minute: nat)

  datatype TideInfo = TideInfo(
    firstHighTime: DateTime, firstHighHeight: real,
    secondHighTime: DateTime, secondHighHeight: real,
    lowTime: DateTime, lowHeight: real)

  /** `parse(tide['t'], fmt)` and `float(tide['v'])` for one tide; a tide never found is `None`,
      and indexing it raises `TypeError`. */
  function TimeOf(tide: Json, parse: Json -> Outcome<DateTime>): Outcome<DateTime> {
    match Index(tide, "t")
    case Raise(e) => Raise(e)
    case Ok(t) => parse(t)
  }

  function HeightOf(tide: Json, toFloat: Json -> Outcome<real>): Outcome<real> {
    match Index(tide, "v")
    case Raise(e) => Raise(e)
    case Ok(v) => toFloat(v)
  }

  /** The six attribute assignments, in the order the sample makes them. */
  function Assemble(s: ScanState, parse: Json -> Outcome<DateTime>, toFloat: Json -> Outcome<real>): Outcome<TideInfo> {
    match TimeOf(s.firstHigh, parse)
    case Raise(e) => Raise(e)
    case Ok(t1) =>
      match HeightOf(s.firstHigh, toFloat)
      case Raise(e) => Raise(e)
      case Ok(h1) =>
        match TimeOf(s.secondHigh, parse)
        case Raise(e) => Raise(e)
        case Ok(t2) =>
          match HeightOf(s.secondHigh, toFloat)
          case Raise(e) => Raise(e)
          case Ok(h2) =>
            match TimeOf(s.low, parse)
            case Raise(e) => Raise(e)
            case Ok(t3) =>
              match HeightOf(s.low, toFloat)
              case Raise(e) => Raise(e)
              case Ok(h3) => Ok(TideInfo(t1, h1, t2, h2, t3, h3))
  }

  function TideInfoOf(predictions: seq<Json>, less: (Json, Json) -> Outcome<bool>,
                      parse: Json -> Outcome<DateTime>, toFloat: Json -> Outcome<real>): (r: Outcome<TideInfo>)
    ensures Scan(predictions, INITIAL, less).Raise? ==> r == Raise(Scan(predictions, INITIAL, less).error)
    ensures r.Ok? ==>
              var s := Scan(predictions, INITIAL, less).value;
              s.firstHigh.JDict? && s.secondHigh.JDict? && s.low.JDict? &&
              "t" in s.firstHigh.fields && parse(s.firstHigh.fields["t"]) == Ok(r.value.firstHighTime) &&
              "v" in s.low.fields && toFloat(s.low.fields["v"]) == Ok(r.value.lowHeight)
  {
    match Scan(predictions, INITIAL, less)
    case Raise(e) => Raise(e)
    case Ok(s) => Assemble(s, parse, toFloat)
  }

  /** `_find_tide_info`: the scanning loop, then the `TideInfo` built from what it found. */
  method FindTideInfo(predictions: seq<Json>, less: (Json, Json) -> Outcome<bool>,
                      parse: Json -> Outcome<DateTime>, toFloat: Json -> Outcome<real>)
    returns (r: Outcome<TideInfo>)
    ensures r == TideInfoOf(predictions, less, parse, toFloat)
  {
    var s := INITIAL;
    var i := 0;
    while i < |predictions|
      invariant i <= |predictions|
      invariant Scan(predictions, INITIAL, less) == Scan(predictions[i..], s, less)
    {
      assert predictions[i..][1..] == predictions[i + 1..];
      var prediction := predictions[i];
      if s.last == JNull {
        s := s.(last := prediction);
        i := i + 1;
        continue;
      }
      var rising := Rising(s.last, prediction, less);
      if rising.Raise? {
        return Raise(rising.error);
      }
      if rising.value {
        if !s.firstDone {
          s := s.(firstHigh := prediction);
        } else {
          s := s.(secondHigh := prediction);
        }
      } else {
        if !s.firstDone && s.firstHigh != JNull {
          s := s.(firstDone := true);
        } else if s.secondHigh != JNull {
          break;
        }
        if s.firstDone {
          s := s.(low := prediction);
        }
      }
      s := s.(last := prediction);
      i := i + 1;
    }
    r := Assemble(s, parse, toFloat);
  }

  // ---------------------------------------------------------------------------------------------
  // The scan against a reference definition

  /** The first position at or after `from` whose flag is `value`. */
  function FirstFrom(flags: seq<bool>, from: nat, value: bool): (r: Option<nat>)
    ensures r.Some? ==> from <= r.value < |flags| && flags[r.value] == value
    ensures r.Some? ==> forall k :: from <= k < r.value ==> flags[k] != value
    ensures r.None? ==> forall k :: from <= k < |flags| ==> flags[k] != value
    decreases |flags| - from
  {
    if from >= |flags| then None
    else if flags[from] == value then Some(from)
    else FirstFrom(flags, from + 1, value)
  }

  /** The three tides the scan is after. */
  datatype Tides = Tides(firstHigh: Json, secondHigh: Json, low: Json)

  function TidesOf(s: ScanState): Tides {
    Tides(s.firstHigh, s.secondHigh, s.low)
  }

  /** `rises` is what the comparison says of every pair of neighbours: `rises[k]` compares
      prediction `k` with prediction `k + 1`. */
  predicate Compared(predictions: seq<Json>, rises: seq<bool>, less: (Json, Json) -> Outcome<bool>) {
    |predictions| == |rises| + 1
    && forall k :: 0 <= k < |rises| ==> Rising(predictions[k], predictions[k + 1], less) == Ok(rises[k])
  }

  /** The reference definition, phase by phase, each reading the flags from step `k` on.
      The first high tide is the prediction that ends the first rising run; the low tide is the
      last prediction before the second rising run begins; the second high tide ends that run.
      Where a phase never ends, the last prediction stands in, and tides never reached are `None`. */
  function FromSecondRun(predictions: seq<Json>, rises: seq<bool>, k: nat, firstHigh: Json, low: Json): Tides
    requires |predictions| == |rises| + 1 && k < |predictions|
  {
    match FirstFrom(rises, k, false)
    case None => Tides(firstHigh, predictions[|predictions| - 1], low)
    case Some(d) => Tides(firstHigh, predictions[d], low)
  }

  function FromBetween(predictions: seq<Json>, rises: seq<bool>, k: nat, firstHigh: Json): Tides
    requires |predictions| == |rises| + 1 && k < |predictions|
  {
    match FirstFrom(rises, k, true)
    case None => Tides(firstHigh, JNull, predictions[|predictions| - 1])
    case Some(c) => FromSecondRun(predictions, rises, c + 1, firstHigh, predictions[c])
  }

  function FromFirstRun(predictions: seq<Json>, rises: seq<bool>, k: nat): Tides
    requires |predictions| == |rises| + 1 && k < |predictions|
  {
    match FirstFrom(rises, k, false)
    case None => Tides(predictions[|predictions| - 1], JNull, JNull)
    case Some(b) => FromBetween(predictions, rises, b + 1, predictions[b])
  }

  function FromBefore(predictions: seq<Json>, rises: seq<bool>, k: nat): Tides
    requires |predictions| == |rises| + 1 && k < |predictions|
  {
    match FirstFrom(rises, k, true)
    case None => Tides(JNull, JNull, JNull)
    case Some(a) => FromFirstRun(predictions, rises, a + 1)
  }

  function Reference(predictions: seq<Json>, rises: seq<bool>): Tides
    requires |predictions| == |rises| + 1
  {
    FromBefore(predictions, rises, 0)
  }

  /** The reference definition read one flag further on. */
  lemma ReferenceSteps(predictions: seq<Json>, rises: seq<bool>, k: nat, firstHigh: Json, low: Json)
    requires |predictions| == |rises| + 1 && k + 1 < |predictions|
    ensures rises[k] ==> FromBefore(predictions, rises, k) == FromFirstRun(predictions, rises, k + 1)
    ensures !rises[k] ==> FromBefore(predictions, rises, k) == FromBefore(predictions, rises, k + 1)
    ensures rises[k] ==> FromFirstRun(predictions, rises, k) == FromFirstRun(predictions, rises, k + 1)
    ensures !rises[k] ==> FromFirstRun(predictions, rises, k) == FromBetween(predictions, rises, k + 1, predictions[k])
    ensures rises[k] ==> FromBetween(predictions, rises, k, firstHigh) == FromSecondRun(predictions, rises, k + 1, firstHigh, predictions[k])
    ensures !rises[k] ==> FromBetween(predictions, rises, k, firstHigh) == FromBetween(predictions, rises, k + 1, firstHigh)
    ensures rises[k] ==> FromSecondRun(predictions, rises, k, firstHigh, low) == FromSecondRun(predictions, rises, k + 1, firstHigh, low)
    ensures !rises[k] ==> FromSecondRun(predictions, rises, k, firstHigh, low) == Tides(firstHigh, predictions[k], low)
  {
  }

  /** One step of the scan once a previous prediction is held: the comparison succeeds, so that
      prediction is an object and not `None`. */
  lemma ComparedStep(predictions: seq<Json>, rises: seq<bool>, less: (Json, Json) -> Outcome<bool>, k: nat, s: ScanState)
    requires Compared(predictions, rises, less) && k + 1 < |predictions| && s.last == predictions[k]
    ensures s.last != JNull
    ensures Scan(predictions[k + 1..], s, less) ==
      match ScanStep(s, predictions[k + 1], less)
      case Raise(e) => Raise(e)
      case Ok(Stop(t)) => Ok(t)
      case Ok(Go(t)) => Scan(predictions[k + 2..], t, less)
    ensures Rising(s.last, predictions[k + 1], less) == Ok(rises[k])
  {
    assert Rising(predictions[k], predictions[k + 1], less) == Ok(rises[k]);
    assert predictions[k + 1..][1..] == predictions[k + 2..];
  }

  lemma {:induction false} SecondRunScan(predictions: seq<Json>, rises: seq<bool>, less: (Json, Json) -> Outcome<bool>,
                                         k: nat, firstHigh: Json, low: Json)
    requires Compared(predictions, rises, less) && k < |predictions|
    ensures var r := Scan(predictions[k + 1..], ScanState(predictions[k], firstHigh, predictions[k], low, true), less);
      r.Ok? && TidesOf(r.value) == FromSecondRun(predictions, rises, k, firstHigh, low)
    decreases |predictions| - k
  {
    var s := ScanState(predictions[k], firstHigh, predictions[k], low, true);
    if k + 1 < |predictions| {
      ComparedStep(predictions, rises, less, k, s);
      ReferenceSteps(predictions, rises, k, firstHigh, low);
      if rises[k] {
        SecondRunScan(predictions, rises, less, k + 1, firstHigh, low);
      }
    }
  }

  lemma {:induction false} BetweenScan(predictions: seq<Json>, rises: seq<bool>, less: (Json, Json) -> Outcome<bool>,
                                       k: nat, firstHigh: Json)
    requires Compared(predictions, rises, less) && k < |predictions|
    ensures var r := Scan(predictions[k + 1..], ScanState(predictions[k], firstHigh, JNull, predictions[k], true), less);
      r.Ok? && TidesOf(r.value) == FromBetween(predictions, rises, k, firstHigh)
    decreases |predictions| - k
  {
    var s := ScanState(predictions[k], firstHigh, JNull, predictions[k], true);
    if k + 1 < |predictions| {
      ComparedStep(predictions, rises, less, k, s);
      ReferenceSteps(predictions, rises, k, firstHigh, JNull);
      if rises[k] {
        SecondRunScan(predictions, rises, less, k + 1, firstHigh, predictions[k]);
      } else {
        BetweenScan(predictions, rises, less, k + 1, firstHigh);
      }
    }
  }

  lemma {:induction false} FirstRunScan(predictions: seq<Json>, rises: seq<bool>, less: (Json, Json) -> Outcome<bool>, k: nat)
    requires Compared(predictions, rises, less) && k < |predictions|
    ensures var r := Scan(predictions[k + 1..], ScanState(predictions[k], predictions[k], JNull, JNull, false), less);
      r.Ok? && TidesOf(r.value) == FromFirstRun(predictions, rises, k)
    decreases |predictions| - k
  {
    var s := ScanState(predictions[k], predictions[k], JNull, JNull, false);
    if k + 1 < |predictions| {
      ComparedStep(predictions, rises, less, k, s);
      ReferenceSteps(predictions, rises, k, JNull, JNull);
      if rises[k] {
        FirstRunScan(predictions, rises, less, k + 1);
      } else {
        BetweenScan(predictions, rises, less, k + 1, predictions[k]);
      }
    }
  }

  lemma {:induction false} BeforeScan(predictions: seq<Json>, rises: seq<bool>, less: (Json, Json) -> Outcome<bool>, k: nat)
    requires Compared(predictions, rises, less) && k < |predictions|
    ensures var r := Scan(predictions[k + 1..], ScanState(predictions[k], JNull, JNull, JNull, false), less);
      r.Ok? && TidesOf(r.value) == FromBefore(predictions, rises, k)
    decreases |predictions| - k
  {
    var s := ScanState(predictions[k], JNull, JNull, JNull, false);
    if k + 1 < |predictions| {
      ComparedStep(predictions, rises, less, k, s);
      ReferenceSteps(predictions, rises, k, JNull, JNull);
      if rises[k] {
        FirstRunScan(predictions, rises, less, k + 1);
      } else {
        BeforeScan(predictions, rises, less, k + 1);
      }
    }
  }

  /** The one-pass scan finds exactly the tides of the reference definition, whenever every
      comparison of neighbours succeeds. */
  lemma ScanMatchesReference(predictions: seq<Json>, rises: seq<bool>, less: (Json, Json) -> Outcome<bool>)
    requires Compared(predictions, rises, less)
    ensures Scan(predictions, INITIAL, less).Ok?
    ensures TidesOf(Scan(predictions, INITIAL, less).value) == Reference(predictions, rises)
  {
    BeforeScan(predictions, rises, less, 0);
  }

  /** With no predictions nothing is found. */
  lemma EmptyDayFindsNothing(less: (Json, Json) -> Outcome<bool>)
    ensures Scan([], INITIAL, less) == Ok(INITIAL) && TidesOf(INITIAL) == Tides(JNull, JNull, JNull)
  {
  }

  /** A tide the scan never found makes building the answer fail; a missing first high tide is
      the `TypeError` of indexing `None`. */
  lemma MissingTideFails(s: ScanState, parse: Json -> Outcome<DateTime>, toFloat: Json -> Outcome<real>)
    requires s.firstHigh == JNull || s.secondHigh == JNull || s.low == JNull
    ensures Assemble(s, parse, toFloat).Raise?
    ensures s.firstHigh == JNull ==> Assemble(s, parse, toFloat) == Raise(TypeError)
  {
  }

  /** With all three tides found as objects whose fields parse, the answer carries their parsed
      times and heights. */
  lemma FoundTidesAssemble(s: ScanState, parse: Json -> Outcome<DateTime>, toFloat: Json -> Outcome<real>)
    requires TimeOf(s.firstHigh, parse).Ok? && HeightOf(s.firstHigh, toFloat).Ok?
    requires TimeOf(s.secondHigh, parse).Ok? && HeightOf(s.secondHigh, toFloat).Ok?
    requires TimeOf(s.low, parse).Ok? && HeightOf(s.low, toFloat).Ok?
    ensures Assemble(s, parse, toFloat) == Ok(TideInfo(
      TimeOf(s.firstHigh, parse).value, HeightOf(s.firstHigh, toFloat).value,
      TimeOf(s.secondHigh, parse).value, HeightOf(s.secondHigh, toFloat).value,
      TimeOf(s.low, parse).value, HeightOf(s.low, toFloat).value))
  {
  }

  /** A day whose heights never rise has no high tide, so the answer fails. */
  lemma NoRiseNoTideInfo(predictions: seq<Json>, rises: seq<bool>, less: (Json, Json) -> Outcome<bool>,
                         parse: Json -> Outcome<DateTime>, toFloat: Json -> Outcome<real>)
    requires Compared(predictions, rises, less)
    requires forall k :: 0 <= k < |rises| ==> !rises[k]
    ensures TideInfoOf(predictions, less, parse, toFloat) == Raise(TypeError)
  {
    ScanMatchesReference(predictions, rises, less);
  }

  // ---------------------------------------------------------------------------------------------
  // Comparing heights as numbers

  function Pow10(n: nat): (r: nat)
    ensures r >= 1
  {
    if n == 0 then 1 else 10 * Pow10(n - 1)
  }

  /** The value of an unsigned decimal numeral, digits with at most one point. */
  function Unsigned(s: string): Option<real> {
    match IndexOf(s, '.')
    case None => if s != [] && AllDigits(s) then Some(DigitsValue(s) as real) else None
    case Some(i) =>
      var whole, fraction := s[..i], s[i + 1..];
      if (whole != [] || fraction != []) && AllDigits(whole) && AllDigits(fraction)
      then Some(DigitsValue(whole) as real + DigitsValue(fraction) as real / Pow10(|fraction|) as real)
      else None
  }

  /** The value of a NOAA height string such as `-0.123`; other spellings `float` accepts
      (exponents, surrounding space, `inf`) are not read. */
  function DecimalValue(s: string): Option<real> {
    if s != [] && s[0] == '-' then
      match Unsigned(s[1..])
      case None => None
      case Some(x) => Some(-x)
    else Unsigned(s)
  }

  /** `float(v)`: integers and booleans by value, NOAA decimal strings as read by
      `DecimalValue`, `ValueError` for any other string and `TypeError` for `None`, lists and
      dictionaries. */
  function FloatOf(v: Json): Outcome<real> {
    match v
    case JInt(i) => Ok(i as real)
    case JBool(b) => Ok(if b then 1.0 else 0.0)
    case JStr(s) => if DecimalValue(s).Some? then Ok(DecimalValue(s).value) else Raise(ValueError)
    case _ => Raise(TypeError)
  }

  /** The comparison the scan evidently means: `float(a) < float(b)`. */
  function NumericLess(a: Json, b: Json): (r: Outcome<bool>)
    ensures FloatOf(a).Ok? && FloatOf(b).Ok? ==> r == Ok(FloatOf(a).value < FloatOf(b).value)
    ensures FloatOf(a).Raise? ==> r == Raise(FloatOf(a).error)
  {
    match FloatOf(a)
    case Raise(e) => Raise(e)
    case Ok(x) =>
      match FloatOf(b)
      case Raise(e) => Raise(e)
      case Ok(y) => Ok(x < y)
  }

  /** A prediction holding only a height. */
  function Height(v: string): Json {
    JDict(map["v" := JStr(v)])
  }

  /** A NOAA height between -1 and 0, written with three decimals: `-0.` and three digits. */
  predicate SmallNegative(s: string) {
    |s| == 6 && s[0] == '-' && s[1] == '0' && s[2] == '.' && AllDigits(s[3..])
  }

  lemma SmallNegativeValue(s: string)
    requires SmallNegative(s)
    ensures DecimalValue(s) == Some(-(DigitsValue(s[3..]) as real / 1000.0))
  {
    var t := s[1..];
    assert t[0] == '0' && t[1] == '.';
    assert IndexOf(t, '.') == Some(1);
    assert t[..1] == "0" && t[2..] == s[3..];
    assert DigitsValue("0") == 0 by {
      assert "0"[..0] == "";
    }
    assert Pow10(3) == 1000;
  }

  lemma {:induction false} StrLessCommonPrefix(s: string, t: string, k: nat)
    requires k <= |s| && k <= |t| && s[..k] == t[..k]
    ensures StrLess(s, t) == StrLess(s[k..], t[k..])
  {
    if k > 0 {
      assert s[0] == t[0];
      assert s[1..][..k - 1] == t[1..][..k - 1];
      StrLessCommonPrefix(s[1..], t[1..], k - 1);
      assert s[1..][k - 1..] == s[k..] && t[1..][k - 1..] == t[k..];
    }
  }

  lemma ThreeDigits(d: string)
    requires |d| == 3 && AllDigits(d)
    ensures DigitsValue(d) == 100 * DigitValue(d[0]) + 10 * DigitValue(d[1]) + DigitValue(d[2])
  {
    assert d[..2][..1] == d[..1] && d[..1][..0] == [];
    assert d[..2][1] == d[1] && d[..1][0] == d[0];
    assert DigitsValue(d[..1]) == DigitValue(d[0]);
    assert DigitsValue(d[..2]) == 10 * DigitValue(d[0]) + DigitValue(d[1]);
  }

  /** As written, heights compare as strings, and between two negative heights the string order
      is the reverse of the numeric one: from `-0.5..` to `-0.3..` the water rises, but the
      comparison says it does not. */
  lemma StringOrderReversesNegatives(s: string, t: string)
    requires SmallNegative(s) && SmallNegative(t) && s[3] > t[3]
    ensures PyLess(JStr(s), JStr(t)) == Ok(false)
    ensures FloatOf(JStr(s)).Ok? && FloatOf(JStr(t)).Ok? && FloatOf(JStr(s)).value < FloatOf(JStr(t)).value
    ensures NumericLess(JStr(s), JStr(t)) == Ok(true)
  {
    assert s[..3] == t[..3];
    StrLessCommonPrefix(s, t, 3);
    SmallNegativeValue(s);
    SmallNegativeValue(t);
    ThreeDigits(s[3..]);
    ThreeDigits(t[3..]);
  }

  lemma RisingHeights(x: string, y: string, less: (Json, Json) -> Outcome<bool>)
    ensures Rising(Height(x), Height(y), less) == less(JStr(x), JStr(y))
  {
  }

  /** A day whose heights go, say, -0.500, -0.300, -0.400. */
  predicate DipDay(a: string, b: string, c: string) {
    SmallNegative(a) && SmallNegative(b) && SmallNegative(c) && b[3] < c[3] < a[3]
  }

  lemma DipDayAsWritten(a: string, b: string, c: string)
    requires DipDay(a, b, c)
    ensures var day := [Height(a), Height(b), Height(c)];
      Scan(day, INITIAL, PyLess).Ok? && TidesOf(Scan(day, INITIAL, PyLess).value) == Tides(day[2], JNull, JNull)
  {
    var day := [Height(a), Height(b), Height(c)];
    StringOrderReversesNegatives(a, b);
    EqualPrefixAndDigit(b, c);
    ThreeHeights(a, b, c, false, true, PyLess);
    ScanMatchesReference(day, [false, true], PyLess);
    ReferenceFallRise(day);
  }

  lemma DipDayNumeric(a: string, b: string, c: string)
    requires DipDay(a, b, c)
    ensures var day := [Height(a), Height(b), Height(c)];
      Scan(day, INITIAL, NumericLess).Ok? && TidesOf(Scan(day, INITIAL, NumericLess).value) == Tides(day[1], JNull, day[2])
  {
    var day := [Height(a), Height(b), Height(c)];
    StringOrderReversesNegatives(a, b);
    StringOrderReversesNegatives(c, b);
    assert NumericLess(JStr(b), JStr(c)) == Ok(false);
    ThreeHeights(a, b, c, true, false, NumericLess);
    ScanMatchesReference(day, [true, false], NumericLess);
    ReferenceRiseFall(day);
  }

  /** Three heights whose two neighbour comparisons are known. */
  lemma ThreeHeights(a: string, b: string, c: string, r0: bool, r1: bool, less: (Json, Json) -> Outcome<bool>)
    requires less(JStr(a), JStr(b)) == Ok(r0) && less(JStr(b), JStr(c)) == Ok(r1)
    ensures Compared([Height(a), Height(b), Height(c)], [r0, r1], less)
  {
    RisingHeights(a, b, less);
    RisingHeights(b, c, less);
  }

  /** The reference tides of three predictions that fall, then rise. */
  lemma ReferenceFallRise(day: seq<Json>)
    requires |day| == 3
    ensures Reference(day, [false, true]) == Tides(day[2], JNull, JNull)
  {
    assert FirstFrom([false, true], 0, true) == Some(1);
  }

  /** The reference tides of three predictions that rise, then fall. */
  lemma ReferenceRiseFall(day: seq<Json>)
    requires |day| == 3
    ensures Reference(day, [true, false]) == Tides(day[1], JNull, day[2])
  {
    assert FirstFrom([true, false], 1, false) == Some(1);
  }

  /** On such a day the sample takes the lowest point for the first high tide; compared as
      numbers, the first high tide is the middle prediction and the low tide the last. */
  lemma StringOrderMisreadsNegativeHeights(a: string, b: string, c: string)
    requires DipDay(a, b, c)
    ensures var day := [Height(a), Height(b), Height(c)];
      Scan(day, INITIAL, PyLess).Ok? && TidesOf(Scan(day, INITIAL, PyLess).value) == Tides(day[2], JNull, JNull)
      && Scan(day, INITIAL, NumericLess).Ok? && TidesOf(Scan(day, INITIAL, NumericLess).value) == Tides(day[1], JNull, day[2])
  {
    DipDayAsWritten(a, b, c);
    DipDayNumeric(a, b, c);
  }

  /** Two strings of equal length that agree up to a differing character are ordered by it. */
  lemma EqualPrefixAndDigit(s: string, t: string)
    requires SmallNegative(s) && SmallNegative(t) && s[3] < t[3]
    ensures StrLess(s, t)
  {
    assert s[..3] == t[..3];
    StrLessCommonPrefix(s, t, 3);
  }

  /** With the numeric comparison a step rises exactly when the height increases, so the scan
      follows the water level; with it the reference definition reads the heights' own order. */
  lemma NumericRisingFollowsHeights(last: Json, cur: Json)
    requires last.JDict? && "v" in last.fields && FloatOf(last.fields["v"]).Ok?
    requires cur.JDict? && "v" in cur.fields && FloatOf(cur.fields["v"]).Ok?
    ensures Rising(last, cur, NumericLess) == Ok(FloatOf(last.fields["v"]).value < FloatOf(cur.fields["v"]).value)
  {
  }

  // ---------------------------------------------------------------------------------------------
  // `humanize_time`

  const MORNING_THRESHOLD: nat := 12
  const AFTERNOON_THRESHOLD: nat := 17
  const EVENING_THRESHOLD: nat := 20

  function PeriodOfDay(hour: nat): (r: string)
    ensures r == "in the morning" <==> hour < MORNING_THRESHOLD
    ensures r == "in the afternoon" <==> MORNING_THRESHOLD <= hour < AFTERNOON_THRESHOLD
    ensures r == "in the evening" <==> AFTERNOON_THRESHOLD <= hour < EVENING_THRESHOLD
    ensures r == " at night" <==> EVENING_THRESHOLD <= hour
  {
    if hour < MORNING_THRESHOLD then "in the morning"
    else if hour < AFTERNOON_THRESHOLD then "in the afternoon"
    else if hour < EVENING_THRESHOLD then "in the evening"
    else " at night"
  }

  /** `%I`: the hour on a 12-hour clock, 12 for midnight and noon. */
  function Clock12(hour: nat): (h: nat)
    ensures 1 <= h <= 12 && h % 12 == hour % 12
  {
    if hour % 12 == 0 then 12 else hour % 12
  }

  /** A zero-padded two-digit field, as `%I` and `%M` print it. */
  function TwoDigits(n: nat): (r: string)
    requires n < 100
    ensures |r| == 2 && AllDigits(r)
  {
    [DigitChar(n / 10), DigitChar(n % 10)]
  }

  lemma TwoDigitsValue(n: nat)
    requires n < 100
    ensures DigitsValue(TwoDigits(n)) == n
  {
    var r := TwoDigits(n);
    assert r[..1][..0] == [];
    assert DigitsValue(r[..1]) == n / 10;
  }

  /** `humanize_time` on a datetime's hour and minute. */
  function HumanizeTime(hour: nat, minute: nat): (r: string)
    requires hour < 24 && minute < 60
    ensures |r| > 6 && AllDigits(r[..2]) && r[2] == ':' && AllDigits(r[3..5]) && r[5] == ' '
    ensures r[6..] == PeriodOfDay(hour)
  {
    TwoDigits(Clock12(hour)) + ":" + TwoDigits(minute) + " " + PeriodOfDay(hour)
  }

  /** The clock reading comes first and can be read back, then a space and the period of day;
      at night the period's own leading space makes two. */
  lemma HumanizeTimeReadsBack(hour: nat, minute: nat)
    requires hour < 24 && minute < 60
    ensures var r := HumanizeTime(hour, minute);
      |r| > 6 && r[2] == ':' && r[5] == ' '
      && DigitsValue(r[..2]) == Clock12(hour) && DigitsValue(r[3..5]) == minute
      && r[6..] == PeriodOfDay(hour)
  {
    var r := HumanizeTime(hour, minute);
    assert r[..2] == TwoDigits(Clock12(hour));
    assert r[3..5] == TwoDigits(minute);
    TwoDigitsValue(Clock12(hour));
    TwoDigitsValue(minute);
  }

  lemma PeriodThresholds(hour: nat)
    ensures hour < 12 ==> PeriodOfDay(hour) == "in the morning"
    ensures 12 <= hour < 17 ==> PeriodOfDay(hour) == "in the afternoon"
    ensures 17 <= hour < 20 ==> PeriodOfDay(hour) == "in the evening"
    ensures 20 <= hour ==> PeriodOfDay(hour) == " at night"
  {
  }
}
