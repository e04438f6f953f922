/** The History Buff sample: it cuts the "Events" section out of a Wikipedia extract, splits it
    into events at each escaped newline, tidies each event, and reads the events out three at a
    time across turns, keeping its place in a session attribute.

    The extract is the raw JSON text, so its newlines are the two characters backslash and `n`,
    and the dash it strips is the six characters of the escape `\u2013`. */
module HistoryBuff {
  import opened Outcomes
  import opened Text

  /** The marker that opens the section, as it appears in the raw JSON text. */
  const EVENTS_MARKER: string := "\\nEvents\\n"
  /** How far past the start of `EVENTS_MARKER` the section begins; the marker's length. */
  const SIZE_OF_EVENTS: nat := 10
  /** The marker that closes the section. */
  const BIRTHS_MARKER: string := "\\n\\n\\nBirths"
  /** An escaped newline, the delimiter between events. */
  const NEWLINE: string := "\\n"
  const DELIMITER_SIZE: nat := 2
  /** The escaped en dash removed from every event. */
  const DASH: string := "\\u2013"
  const PAGINATION_SIZE: nat := 3

  // ---------------------------------------------------------------------------------------------
  // Parsing the extract

  /** Python's `s[i:j]` for `0 <= i` and `j <= |s|`: empty when the bounds cross. */
  function Slice(s: string, i: nat, j: nat): (r: string)
    requires j <= |s|
    ensures i <= j ==> r == s[i..j]
    ensures i > j ==> r == ""
  {
    if i <= j then s[i..j] else ""
  }

  /** The text between the two markers, or `None` when either marker is missing (where `index`
      raises the `ValueError` the parser catches). */
  function Section(text: string): (r: Option<string>)
    ensures r.None? <==> !Contains(text, EVENTS_MARKER) || !Contains(text, BIRTHS_MARKER)
  {
    match FindFrom(text, EVENTS_MARKER, 0)
    case None => None
    case Some(a) =>
      match FindFrom(text, BIRTHS_MARKER, 0)
      case None => None
      case Some(b) => Some(Slice(text, a + SIZE_OF_EVENTS, b))
  }

  /** The pieces of `body` from `start` on: each runs up to the next escaped newline found at or
      after `start + 2`, and the next piece begins just past that newline; the rest of the text is
      the last piece. */
  function Chunks(body: string, start: nat): (r: seq<string>)
    requires start <= |body|
    ensures |r| >= 1
    decreases |body| - start, 1
  {
    match FindFrom(body, NEWLINE, start + DELIMITER_SIZE)
    case None => [body[start..]]
    case Some(e) => [body[start..e]] + Chunks(body, e + DELIMITER_SIZE)
  }

  /** The length of the run of ASCII digits at the front of `s`. */
  function LeadingDigits(s: string): (k: nat)
    ensures k <= |s| && AllDigits(s[..k])
    ensures k < |s| ==> !IsDigit(s[k])
  {
    if s == [] || !IsDigit(s[0]) then 0
    else
      var k := 1 + LeadingDigits(s[1..]);
      assert s[..k] == [s[0]] + s[1..][..k - 1];
      k
  }

  /** `re.sub('^\d+', r'\g<0>,', s)`: a comma after the leading year, if there is one. */
  function AddYearComma(s: string): string {
    var k := LeadingDigits(s);
    if k == 0 then s else s[..k] + "," + s[k..]
  }

  /** The tidying applied to every event: the escaped dash is removed, then the year comma added. */
  function Clean(event: string): string {
    AddYearComma(ReplaceAll(event, DASH, ""))
  }

  function CleanAll(events: seq<string>): (r: seq<string>)
    ensures |r| == |events|
    ensures forall i :: 0 <= i < |events| ==> r[i] == Clean(events[i])
  {
    seq(|events|, i requires 0 <= i < |events| => Clean(events[i]))
  }

  function Reverse<T>(s: seq<T>): (r: seq<T>)
    ensures |r| == |s|
    ensures forall i :: 0 <= i < |s| ==> r[i] == s[|s| - 1 - i]
  {
    if s == [] then [] else Reverse(s[1..]) + [s[0]]
  }

  /** What `_parse_json` returns for a given extract. */
  function Events(text: string): (r: seq<string>)
    ensures r == [] <==> !Contains(text, EVENTS_MARKER) || !Contains(text, BIRTHS_MARKER)
    ensures Section(text).Some? ==> |r| == |Chunks(Section(text).value, 0)|
  {
    match Section(text)
    case None => []
    case Some(body) => Reverse(CleanAll(Chunks(body, 0)))
  }

  /** `_parse_json`. */
  method ParseJson(text: string) returns (events: seq<string>)
    ensures events == Events(text)
  {
    var section := Section(text);
    if section.None? {
      return [];
    }
    events := SplitEvents(section.value);
    events := Reverse(events);
  }

  /** The splitting loop of `_parse_json`, before the final `reverse`. */
  method SplitEvents(body: string) returns (events: seq<string>)
    ensures events == CleanAll(Chunks(body, 0))
  {
    events := [];
    var start: nat := 0;
    var done := false;
    ghost var pieces: seq<string> := [];
    ghost var whole := Chunks(body, 0);
    while !done
      invariant start <= |body|
      invariant events == CleanAll(pieces)
      invariant !done ==> whole == pieces + Chunks(body, start)
      invariant done ==> whole == pieces
      decreases if done then 0 else |body| - start + 1
    {
      var eventText: string;
      match FindFrom(body, NEWLINE, start + DELIMITER_SIZE) {
        case Some(e) =>
          ChunksStep(body, start, e);
          eventText := body[start..e];
          ShiftPiece(pieces, eventText, Chunks(body, e + DELIMITER_SIZE));
          start := e + DELIMITER_SIZE;
        case None =>
          ChunksLast(body, start);
          eventText := body[start..];
          done := true;
      }
      CleanAllSnoc(pieces, eventText);
      pieces := pieces + [eventText];
      events := events + [Clean(eventText)];
    }
  }

  lemma ShiftPiece(pieces: seq<string>, piece: string, rest: seq<string>)
    ensures pieces + ([piece] + rest) == (pieces + [piece]) + rest
  {
  }

  // ---------------------------------------------------------------------------------------------
  // Properties of the parser

  /** No events exactly when a marker is missing: with both present there is always at least one
      (possibly empty) event. */
  lemma NoEventsIffNoMarkers(text: string)
    ensures Events(text) == [] <==> !Contains(text, EVENTS_MARKER) || !Contains(text, BIRTHS_MARKER)
  {
  }

  lemma JoinCons(a: string, rest: seq<string>, sep: string)
    requires |rest| >= 1
    ensures Join([a] + rest, sep) == a + sep + Join(rest, sep)
  {
    assert ([a] + rest)[1..] == rest;
  }

  /** One step of the splitter: the piece up to the next delimiter, then the pieces after it. */
  lemma ChunksStep(body: string, start: nat, e: nat)
    requires start <= |body|
    requires FindFrom(body, NEWLINE, start + DELIMITER_SIZE) == Some(e)
    ensures start <= e && e + DELIMITER_SIZE <= |body| && body[e..e + DELIMITER_SIZE] == NEWLINE
    ensures Chunks(body, start) == [body[start..e]] + Chunks(body, e + DELIMITER_SIZE)
  {
  }

  lemma ChunksLast(body: string, start: nat)
    requires start <= |body|
    requires FindFrom(body, NEWLINE, start + DELIMITER_SIZE).None?
    ensures Chunks(body, start) == [body[start..]]
  {
  }

  lemma CleanAllSnoc(pieces: seq<string>, piece: string)
    ensures CleanAll(pieces + [piece]) == CleanAll(pieces) + [Clean(piece)]
  {
  }

  /** Splitting loses nothing: the pieces joined with the delimiter give the section back. */
  lemma {:induction false} ChunksJoin(body: string, start: nat)
    requires start <= |body|
    ensures Join(Chunks(body, start), NEWLINE) == body[start..]
    decreases |body| - start, 1
  {
    match FindFrom(body, NEWLINE, start + DELIMITER_SIZE)
    case None =>
      JoinChunksLast(body, start);
    case Some(e) =>
      ChunksStep(body, start, e);
      JoinChunksStep(body, start, e);
  }

  lemma JoinChunksLast(body: string, start: nat)
    requires start <= |body|
    requires FindFrom(body, NEWLINE, start + DELIMITER_SIZE).None?
    ensures Join(Chunks(body, start), NEWLINE) == body[start..]
  {
    ChunksLast(body, start);
  }

  /** The inductive step of `ChunksJoin`, stated without the search so that the solver does not
      see it: the first piece, the delimiter, and the joined rest. */
  lemma {:induction false} JoinChunksStep(body: string, start: nat, e: nat)
    requires start <= |body|
    requires start <= e && e + DELIMITER_SIZE <= |body| && body[e..e + DELIMITER_SIZE] == NEWLINE
    requires Chunks(body, start) == [body[start..e]] + Chunks(body, e + DELIMITER_SIZE)
    ensures Join(Chunks(body, start), NEWLINE) == body[start..]
    decreases |body| - start, 0
  {
    ChunksJoin(body, e + DELIMITER_SIZE);
    SliceAround(body, start, e, e + DELIMITER_SIZE, NEWLINE);
    JoinPrepend(Chunks(body, start), body[start..e], Chunks(body, e + DELIMITER_SIZE), body[e + DELIMITER_SIZE..], body[start..]);
  }

  lemma JoinPrepend(parts: seq<string>, piece: string, rest: seq<string>, tail: string, whole: string)
    requires parts == [piece] + rest && |rest| >= 1
    requires Join(rest, NEWLINE) == tail && whole == piece + NEWLINE + tail
    ensures Join(parts, NEWLINE) == whole
  {
    JoinCons(piece, rest, NEWLINE);
  }

  lemma SliceAround(body: string, i: nat, j: nat, k: nat, middle: string)
    requires i <= j <= k <= |body| && body[j..k] == middle
    ensures body[i..] == body[i..j] + middle + body[k..]
  {
    assert body[i..] == body[i..j] + body[j..];
    assert body[j..] == body[j..k] + body[k..];
  }

  /** A piece holds no delimiter beyond its first two characters: the search for the next
      delimiter starts two characters into the piece. */
  lemma {:induction false} ChunksSplitAtDelimiters(body: string, start: nat)
    requires start <= |body|
    ensures forall p, j :: 0 <= p < |Chunks(body, start)| && 2 <= j ==> !OccursAt(Chunks(body, start)[p], NEWLINE, j)
    decreases |body| - start
  {
    var r := Chunks(body, start);
    var found := FindFrom(body, NEWLINE, start + DELIMITER_SIZE);
    if found.None? {
      ChunksLast(body, start);
      forall j | 2 <= j && OccursAt(r[0], NEWLINE, j)
        ensures false
      {
        assert body[start..] == body[start..|body|];
        SliceOccurs(body, start, |body|, j);
      }
    } else {
      var e := found.value;
      ChunksStep(body, start, e);
      ChunksSplitAtDelimiters(body, e + DELIMITER_SIZE);
      forall j | 2 <= j && OccursAt(r[0], NEWLINE, j)
        ensures false
      {
        SliceOccurs(body, start, e, j);
      }
      assert forall p :: 1 <= p < |r| ==> r[p] == Chunks(body, e + DELIMITER_SIZE)[p - 1];
    }
  }

  lemma SliceOccurs(body: string, i: nat, k: nat, j: nat)
    requires i <= k <= |body| && OccursAt(body[i..k], NEWLINE, j)
    ensures OccursAt(body, NEWLINE, i + j)
  {
    var n := |NEWLINE|;
    var a, b := body[i..k][j..j + n], body[i + j..i + j + n];
    forall t | 0 <= t < n
      ensures a[t] == b[t]
    {
      assert a[t] == body[i..k][j + t];
    }
  }

  /** The events come out last piece first: event `i` is the tidied piece `n - 1 - i`. */
  lemma EventsReversed(text: string, body: string)
    requires Section(text) == Some(body)
    ensures |Events(text)| == |Chunks(body, 0)|
    ensures forall i :: 0 <= i < |Events(text)| ==> Events(text)[i] == Clean(Chunks(body, 0)[|Chunks(body, 0)| - 1 - i])
  {
    var pieces := Chunks(body, 0);
    assert Events(text) == Reverse(CleanAll(pieces));
  }

  /** The year comma follows the leading digits and is the only change; text not starting with a
      digit is left alone. */
  lemma YearComma(s: string)
    ensures LeadingDigits(s) == 0 ==> AddYearComma(s) == s
    ensures var k := LeadingDigits(s);
      k > 0 ==>
        AllDigits(AddYearComma(s)[..k]) && AddYearComma(s)[k] == ',' && AddYearComma(s)[..k] + AddYearComma(s)[k + 1..] == s
  {
    var k := LeadingDigits(s);
    if k > 0 {
      var r := AddYearComma(s);
      assert r[..k] == s[..k];
      assert r[k + 1..] == s[k..];
    }
  }

  // ---------------------------------------------------------------------------------------------
  // Paging

  /** `"<p>{}</p>"` per event, concatenated. */
  function Paragraphs(events: seq<string>): string {
    if events == [] then "" else Paragraphs(events[..|events| - 1]) + "<p>" + events[|events| - 1] + "</p>"
  }

  /** `"{}\n"` per event, concatenated. */
  function Lines(events: seq<string>): string {
    if events == [] then "" else Lines(events[..|events| - 1]) + events[|events| - 1] + "\n"
  }

  const DEEPER: string := " Wanna go deeper into history?"
  const NEXT_TITLE: string := "More events on this day in history"
  const NEXT_REPROMPT: string := "Do you want to know more about what happened on this date?"
  const FIRST_REPROMPT: string :=
    "With History Buff, you can get historical events for any day of the year. "
    + "For example, you could say today, or August thirtieth. "
    + "Now, which day do you want?"
  const PROBLEM: string := "There is a problem connecting to Wikipedia at this time. Please try again later."

  function Speak(s: string): string { "<speak>" + s + "</speak>" }

  /** A `question` with a reprompt and a simple card, and the session attributes it leaves. */
  datatype Page = Page(title: string, speech: string, reprompt: string, card: string, index: nat)

  /** How many events `get_next_event` reads from `index`: up to three, none past the end. */
  function PageSize(events: seq<string>, index: nat): (n: nat)
    ensures n <= PAGINATION_SIZE && index + n <= if index <= |events| then |events| else index
    ensures n < PAGINATION_SIZE ==> index + n >= |events|
  {
    if index >= |events| then 0
    else if |events| - index < PAGINATION_SIZE then |events| - index
    else PAGINATION_SIZE
  }

  /** What `get_next_event` answers and the index it stores. */
  function NextPageOf(events: seq<string>, index: nat): (p: Page)
    ensures p.index == index + PageSize(events, index)
    ensures p.title == NEXT_TITLE && p.reprompt == NEXT_REPROMPT
    ensures index < |events| ==> p.card == Lines(events[index..p.index])
    ensures index >= |events| ==> p.card == "" && p.speech == Speak(DEEPER)
  {
    var shown := if index < |events| then events[index..index + PageSize(events, index)] else [];
    Page(NEXT_TITLE, Speak(Paragraphs(shown) + DEEPER), NEXT_REPROMPT, Lines(shown), index + PageSize(events, index))
  }

  /** `get_next_event`: the stored event list and index come from the session attributes. */
  method NextPage(events: seq<string>, index0: nat) returns (page: Page)
    ensures page == NextPageOf(events, index0)
  {
    var speech := "";
    var card := "";
    var i := 0;
    var index := index0;
    while i < PAGINATION_SIZE && index < |events|
      invariant i <= PAGINATION_SIZE && index == index0 + i
      invariant index0 <= |events| ==> index <= |events|
      invariant i > 0 ==> index <= |events|
      invariant i < PAGINATION_SIZE && index < |events| ==> i < PageSize(events, index0)
      invariant !(i < PAGINATION_SIZE && index < |events|) ==> i == PageSize(events, index0)
      invariant index0 < |events| ==> speech == Paragraphs(events[index0..index]) && card == Lines(events[index0..index])
      invariant index0 >= |events| ==> speech == "" && card == ""
    {
      assert events[index0..index + 1][..i] == events[index0..index];
      speech := speech + "<p>" + events[index] + "</p>";
      card := card + events[index] + "\n";
      i := i + 1;
      index := index + 1;
    }
    speech := speech + DEEPER;
    page := Page(NEXT_TITLE, Speak(speech), NEXT_REPROMPT, card, index);
  }

  /** What `get_first_event` answers: a statement when there are no events, otherwise the first
      three events, the event list stored and the index set to three. It indexes the first three
      events unconditionally, so one or two events raise `IndexError`. */
  datatype FirstAnswer = Problem(speech: string) | Opening(page: Page, events: seq<string>)

  function FirstPageOf(month: string, day: nat, events: seq<string>): (r: Outcome<FirstAnswer>)
    ensures r == Ok(Problem(Speak(PROBLEM))) <==> events == []
    ensures r.Raise? <==> 0 < |events| < PAGINATION_SIZE
    ensures r.Raise? ==> r.error == IndexError
    ensures r.Ok? && r.value.Opening? ==>
              r.value.events == events && r.value.page.index == PAGINATION_SIZE &&
              r.value.page.card == Lines(events[..PAGINATION_SIZE]) + DEEPER
  {
    if events == [] then Ok(Problem(Speak(PROBLEM)))
    else if |events| < PAGINATION_SIZE then Raise(IndexError)
    else
      var date := month + " " + NatToString(day);
      var shown := events[..PAGINATION_SIZE];
      Ok(Opening(
        Page("Events on " + date, Speak("<p>For " + date + "</p>" + Paragraphs(shown) + DEEPER),
             FIRST_REPROMPT, Lines(shown) + DEEPER, PAGINATION_SIZE),
        events))
  }

  /** `get_first_event`, given the month name and day the date converter produced and the events
      parsed from the downloaded extract. */
  method FirstPage(month: string, day: nat, events: seq<string>) returns (r: Outcome<FirstAnswer>)
    ensures r == FirstPageOf(month, day, events)
  {
    if events == [] {
      return Ok(Problem(Speak(PROBLEM)));
    }
    var date := month + " " + NatToString(day);
    var speech := "<p>For " + date + "</p>";
    var card := "";
    for i := 0 to PAGINATION_SIZE
      invariant i <= |events|
      invariant speech == "<p>For " + date + "</p>" + Paragraphs(events[..i])
      invariant card == Lines(events[..i])
    {
      if i >= |events| {
        return Raise(IndexError);
      }
      assert events[..i + 1][..i] == events[..i];
      speech := speech + "<p>" + events[i] + "</p>";
      card := card + events[i] + "\n";
    }
    speech := speech + DEEPER;
    card := card + DEEPER;
    return Ok(Opening(Page("Events on " + date, Speak(speech), FIRST_REPROMPT, card, PAGINATION_SIZE), events));
  }

  /** The corrected first page: at most three events, so any non-empty list is shown. */
  function FirstPageClamped(month: string, day: nat, events: seq<string>): (r: FirstAnswer)
    ensures events != [] ==> r.Opening? && r.page.index == PageSize(events, 0)
  {
    if events == [] then Problem(Speak(PROBLEM))
    else
      var date := month + " " + NatToString(day);
      var shown := events[..PageSize(events, 0)];
      Opening(
        Page("Events on " + date, Speak("<p>For " + date + "</p>" + Paragraphs(shown) + DEEPER),
             FIRST_REPROMPT, Lines(shown) + DEEPER, PageSize(events, 0)),
        events)
  }

  // ---------------------------------------------------------------------------------------------
  // Properties of paging

  lemma {:induction false} ParagraphsAppend(a: seq<string>, b: seq<string>)
    ensures Paragraphs(a + b) == Paragraphs(a) + Paragraphs(b)
    decreases |b|
  {
    if b == [] {
      assert a + b == a;
    } else {
      var b' := b[..|b| - 1];
      assert (a + b)[..|a + b| - 1] == a + b';
      assert (a + b)[|a + b| - 1] == b[|b| - 1];
      ParagraphsAppend(a, b');
    }
  }

  lemma {:induction false} LinesAppend(a: seq<string>, b: seq<string>)
    ensures Lines(a + b) == Lines(a) + Lines(b)
    decreases |b|
  {
    if b == [] {
      assert a + b == a;
    } else {
      var b' := b[..|b| - 1];
      assert (a + b)[..|a + b| - 1] == a + b';
      assert (a + b)[|a + b| - 1] == b[|b| - 1];
      LinesAppend(a, b');
    }
  }

  /** The stored index moves on by the number of events read, at most three, and never past the
      end of the list. */
  lemma NextPageAdvances(events: seq<string>, index: nat)
    ensures NextPageOf(events, index).index == index + PageSize(events, index)
    ensures index <= |events| ==> NextPageOf(events, index).index <= |events|
    ensures index < |events| ==> NextPageOf(events, index).index > index
    ensures index >= |events| ==> NextPageOf(events, index).index == index
  {
  }

  /** Two pages in a row read the events in order with nothing skipped or repeated: their cards
      together are the card of the whole stretch. */
  lemma TwoPagesContiguous(events: seq<string>, index: nat)
    requires index <= |events|
    ensures var mid := NextPageOf(events, index).index;
      var end := NextPageOf(events, mid).index;
      index <= mid <= end <= |events|
      && NextPageOf(events, index).card + NextPageOf(events, mid).card == Lines(events[index..end])
  {
    var mid := NextPageOf(events, index).index;
    var end := NextPageOf(events, mid).index;
    assert events[index..end] == events[index..mid] + events[mid..end];
    LinesAppend(events[index..mid], events[mid..end]);
  }

  /** The first page with at least three events shows the first three and stores index three, so
      the next page continues at the fourth. */
  lemma FirstPageThenNext(month: string, day: nat, events: seq<string>)
    requires |events| >= PAGINATION_SIZE
    ensures FirstPageOf(month, day, events).Ok?
    ensures FirstPageOf(month, day, events).value.Opening?
    ensures FirstPageOf(month, day, events).value.page.index == 3
    ensures FirstPageOf(month, day, events).value.page.card == events[0] + "\n" + events[1] + "\n" + events[2] + "\n" + DEEPER
  {
    assert events[..3][..2] == events[..2];
    assert events[..2][..1] == events[..1];
    assert events[..1][..0] == [];
    assert Lines(events[..1]) == events[0] + "\n";
    assert Lines(events[..2]) == events[0] + "\n" + events[1] + "\n";
  }

  /** A day with one or two events makes the first page raise, though the clamped page shows
      them all. */
  lemma FirstPageRaisesOnShortList(month: string, day: nat, e: string)
    ensures FirstPageOf(month, day, [e]) == Raise(IndexError)
    ensures FirstPageClamped(month, day, [e]).page.card == e + "\n" + DEEPER
  {
    assert [e][..1] == [e];
    assert [e][..0] == [];
    assert Lines([e]) == e + "\n";
  }
}
