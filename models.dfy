/** The response builders (flask_ask/models.py): `statement`, `question` and `audio` accumulate
    a response dictionary and, for audio, a directive list; `_audio_item` either reuses the
    current stream or mints a new one and pushes it onto the user's stream stack. XML parsing
    is an oracle, and the random stream token is a parameter. */
module Models {
  import opened Outcomes
  import opened PyJson
  import opened Text
  import opened Cache
  import opened Streams

  /** `ElementTree.fromstring(speech).tag`, or `None` when the text does not parse. */
  type XmlRoot = string -> Option<string>

  /** _output_speech: SSML exactly when the text parses as XML whose root is `speak`. */
  function OutputSpeech(speech: string, xmlRoot: XmlRoot): (r: Json)
    ensures r.JDict? && "type" in r.fields
    ensures r.fields["type"] == JStr("SSML") <==> xmlRoot(speech) == Some("speak")
    ensures r.fields["type"] == JStr("SSML") ==> r.fields == map["type" := JStr("SSML"), "ssml" := JStr(speech)]
    ensures r.fields["type"] != JStr("SSML") ==> r.fields == map["type" := JStr("PlainText"), "text" := JStr(speech)]
  {
    if xmlRoot(speech) == Some("speak") then JDict(map["type" := JStr("SSML"), "ssml" := JStr(speech)])
    else JDict(map["type" := JStr("PlainText"), "text" := JStr(speech)])
  }

  /** The speech text an output-speech value carries. */
  function SpeechText(speech: Json): Json {
    if speech.JDict? && "ssml" in speech.fields then speech.fields["ssml"]
    else if speech.JDict? && "text" in speech.fields then speech.fields["text"]
    else JNull
  }

  /** Whichever type is chosen, the text is kept unchanged. */
  lemma OutputSpeechKeepsText(speech: string, xmlRoot: XmlRoot)
    ensures SpeechText(OutputSpeech(speech, xmlRoot)) == JStr(speech)
  {
  }

  function SimpleCardJson(title: Json, content: Json): Json {
    JDict(map["type" := JStr("Simple"), "title" := title, "content" := content])
  }

  const LINK_ACCOUNT_CARD: Json := JDict(map["type" := JStr("LinkAccount")])

  /** standard_card: the `image` object is created only when some URL is truthy, but each URL
      that is not `None` is written into it, so a falsy non-`None` URL without a truthy
      partner raises `KeyError`. */
  function StandardCardJson(title: Json, text: Json, small: Json, large: Json): (r: Outcome<Json>)
    ensures r.Raise? <==> !Truthy(small) && !Truthy(large) && (small != JNull || large != JNull)
    ensures r.Raise? ==> r.error == KeyError
    ensures r.Ok? ==> r.value.JDict? && {"type", "title", "text"} <= r.value.fields.Keys &&
                      r.value.fields["type"] == JStr("Standard") &&
                      r.value.fields["title"] == title && r.value.fields["text"] == text
    ensures r.Ok? ==> ("image" in r.value.fields <==> Truthy(small) || Truthy(large))
    ensures r.Ok? && "image" in r.value.fields ==>
              var image := r.value.fields["image"];
              image.JDict? &&
              ("smallImageUrl" in image.fields <==> small != JNull) &&
              ("largeImageUrl" in image.fields <==> large != JNull) &&
              (small != JNull ==> image.fields["smallImageUrl"] == small) &&
              (large != JNull ==> image.fields["largeImageUrl"] == large)
  {
    var card := map["type" := JStr("Standard"), "title" := title, "text" := text];
    if Truthy(small) || Truthy(large) then
      var withSmall: map<string, Json> := if small != JNull then map["smallImageUrl" := small] else map[];
      var image := if large != JNull then withSmall["largeImageUrl" := large] else withSmall;
      Ok(JDict(card["image" := JDict(image)]))
    else if small != JNull || large != JNull then Raise(KeyError)
    else Ok(JDict(card))
  }

  /** render_response: the envelope around the response. The session attributes are an input. */
  function RenderResponse(response: map<string, Json>, sessionAttributes: Json): (r: Json)
    ensures r.JDict? && r.fields.Keys == {"version", "response", "sessionAttributes"}
    ensures r.fields["version"] == JStr("1.0")
    ensures r.fields["response"] == JDict(response) && r.fields["sessionAttributes"] == sessionAttributes
  {
    JDict(map["version" := JStr("1.0"), "response" := JDict(response), "sessionAttributes" := sessionAttributes])
  }

  /** A `Play` directive with its audio item. */
  function PlayDirective(behavior: string, audioItem: Json): Json {
    JDict(map["type" := JStr("AudioPlayer.Play"), "playBehavior" := JStr(behavior), "audioItem" := audioItem])
  }

  const STOP_DIRECTIVE: Json := JDict(map["type" := JStr("AudioPlayer.Stop")])

  function ClearQueueDirective(stop: Json): (r: Json)
    ensures r.JDict? && r.fields.Keys == {"type", "clearBehavior"}
    ensures r.fields["type"] == JStr("AudioPlayer.ClearQueue")
    ensures r.fields["clearBehavior"] == JStr(if Truthy(stop) then "CLEAR_ALL" else "CLEAR_ENQUEUED")
  {
    JDict(map["type" := JStr("AudioPlayer.ClearQueue"),
              "clearBehavior" := JStr(if Truthy(stop) then "CLEAR_ALL" else "CLEAR_ENQUEUED")])
  }

  /** Attribute read on the current stream object, a plain attribute object. */
  function StreamAttr(stream: StreamFields, name: string): (r: Outcome<Json>)
    ensures r == if name in stream then Ok(stream[name]) else Raise(AttributeError)
  {
    if name in stream then Ok(stream[name]) else Raise(AttributeError)
  }

  /** The stream object `_audio_item` builds, before it is pushed. */
  function NewStream(m: map<UserId, seq<Json>>, context: Json, url: Json, offset: Json, token: nat): Outcome<StreamFields> {
    if !Truthy(url) then
      match CurrentStream(m, context)
      case Raise(e) => Raise(e)
      case Ok(current) => FromCurrent(current)
    else Ok(map["url" := url, "token" := JStr(NatToString(token)), "offsetInMilliseconds" := offset])
  }

  /** The copy of the current stream's `url`, `token` and offset. */
  function FromCurrent(current: StreamFields): Outcome<StreamFields> {
    match StreamAttr(current, "url")
    case Raise(e) => Raise(e)
    case Ok(u) =>
      match StreamAttr(current, "token")
      case Raise(e) => Raise(e)
      case Ok(t) =>
        match StreamAttr(current, "offsetInMilliseconds")
        case Raise(e) => Raise(e)
        case Ok(o) => Ok(map["url" := u, "token" := t, "offsetInMilliseconds" := o])
  }

  /** What `_audio_item` returns, and the cache after it. */
  datatype AudioStep = AudioStep(item: Outcome<Json>, after: map<UserId, seq<Json>>)

  /** _audio_item: build the stream and push it onto the user's stack (the stream buffer); the
      audio item is `{'stream': stream}`. Pushing needs the user id, so it fails like the
      current-stream lookup does. */
  function AudioItem(m: map<UserId, seq<Json>>, context: Json, url: Json, offset: Json, token: nat): (r: AudioStep)
    ensures r.item.Raise? ==> r.after == m
    ensures r.item.Ok? ==>
              GetUser(context).Ok? && r.item.value.JDict? && r.item.value.fields.Keys == {"stream"} &&
              r.item.value.fields["stream"].JDict? &&
              r.item.value.fields["stream"].fields.Keys == {"url", "token", "offsetInMilliseconds"} &&
              r.after == Pushed(m, GetUser(context).value, r.item.value.fields["stream"])
    ensures Truthy(url) && GetUser(context).Ok? ==>
              r.item.Ok? && r.item.value.fields["stream"].fields["url"] == url &&
              r.item.value.fields["stream"].fields["offsetInMilliseconds"] == offset
  {
    match NewStream(m, context, url, offset, token)
    case Raise(e) => AudioStep(Raise(e), m)
    case Ok(stream) =>
      match GetUser(context)
      case Raise(e) => AudioStep(Raise(e), m)
      case Ok(user) => AudioStep(Ok(JDict(map["stream" := JDict(stream)])), Pushed(m, user, JDict(stream)))
  }

  /** Every successful call pushes its stream: the stack grows by exactly that stream, which is
      the user's new top. */
  lemma AudioItemAlwaysPushes(m: map<UserId, seq<Json>>, context: Json, url: Json, offset: Json, token: nat)
    requires AudioItem(m, context, url, offset, token).item.Ok?
    ensures var step := AudioItem(m, context, url, offset, token);
            var u := GetUser(context).value;
            var stream := step.item.value.fields["stream"];
            GetUser(context).Ok? && Truthy(stream) &&
            step.after == Pushed(m, u, stream) &&
            u in step.after && step.after[u] == (if u in m then m[u] else []) + [stream] &&
            (UserTruthy(u) ==> Top(step.after, u) == Ok(Some(stream)))
  {
    var stream := NewStream(m, context, url, offset, token).value;
    assert "url" in stream;
    assert Truthy(JDict(stream));
  }

  /** With a falsy URL the stream is copied from the current stream: its url, token and offset,
      whatever offset or token the caller passes. */
  lemma AudioItemReusesCurrent(m: map<UserId, seq<Json>>, context: Json, offset1: Json, token1: nat, offset2: Json, token2: nat, url: Json, cur: StreamFields)
    requires !Truthy(url)
    requires CurrentStream(m, context) == Ok(cur) && GetUser(context).Ok?
    requires "url" in cur && "token" in cur && "offsetInMilliseconds" in cur
    ensures AudioItem(m, context, url, offset1, token1) == AudioItem(m, context, url, offset2, token2)
    ensures AudioItem(m, context, url, offset1, token1).item ==
              Ok(JDict(map["stream" := JDict(map["url" := cur["url"], "token" := cur["token"],
                                                 "offsetInMilliseconds" := cur["offsetInMilliseconds"]])]))
  {
  }

  /** With a falsy URL and no current stream to copy from, `_audio_item` raises and pushes nothing. */
  lemma AudioItemWithoutStreamRaises(m: map<UserId, seq<Json>>, context: Json, url: Json, offset: Json, token: nat)
    requires !Truthy(url) && CurrentStream(m, context) == Ok(map[])
    ensures AudioItem(m, context, url, offset, token) == AudioStep(Raise(AttributeError), m)
  {
  }

  /** With a URL, a new stream: that URL and offset, and the token is the decimal text of the
      random number, which reads back as that number and has five or six digits. */
  lemma AudioItemMintsNew(m: map<UserId, seq<Json>>, context: Json, url: Json, offset: Json, token: nat)
    requires Truthy(url) && GetUser(context).Ok?
    requires 10000 <= token <= 100000
    ensures var item := AudioItem(m, context, url, offset, token).item;
            item.Ok? && item.value.fields["stream"].fields == map["url" := url, "token" := JStr(NatToString(token)), "offsetInMilliseconds" := offset]
    ensures DigitsValue(NatToString(token)) == token
    ensures 5 <= |NatToString(token)| <= 6
  {
    DigitsValueOfNatToString(token);
    NatToStringLength(token);
  }

  lemma {:induction false} NatToStringLength(n: nat)
    requires 10000 <= n <= 100000
    ensures 5 <= |NatToString(n)| <= 6
  {
    var m1 := n / 10;
    var m2 := m1 / 10;
    var m3 := m2 / 10;
    var m4 := m3 / 10;
    OneDigitMore(n);
    OneDigitMore(m1);
    OneDigitMore(m2);
    OneDigitMore(m3);
    if m4 >= 10 {
      OneDigitMore(m4);
    }
  }

  /** Every number from 10 on has one digit more than its tenth. */
  lemma OneDigitMore(n: nat)
    requires n >= 10
    ensures |NatToString(n)| == |NatToString(n / 10)| + 1
  {
  }

  /** `current_stream.token` */
  function CurrentToken(m: map<UserId, seq<Json>>, context: Json): Outcome<Json> {
    match CurrentStream(m, context)
    case Raise(e) => Raise(e)
    case Ok(current) => StreamAttr(current, "token")
  }

  /** The audio item `enqueue` builds, as written: `expectedPreviousToken` is read from the
      current stream after `_audio_item` has pushed the new stream. */
  function EnqueueItem(m: map<UserId, seq<Json>>, context: Json, url: Json, offset: Json, token: nat): (r: AudioStep)
    ensures r.after == AudioItem(m, context, url, offset, token).after
    ensures r.item.Ok? ==>
              AudioItem(m, context, url, offset, token).item.Ok? &&
              CurrentToken(r.after, context).Ok? &&
              StreamToken(r.item.value) == StreamToken(AudioItem(m, context, url, offset, token).item.value) &&
              ExpectedPrevious(r.item.value) == CurrentToken(r.after, context).value
  {
    var step := AudioItem(m, context, url, offset, token);
    match step.item
    case Raise(e) => step
    case Ok(item) => LinkToCurrent(item, step.after, context)
  }

  /** The audio item linked to the token of the current stream in `m`. */
  function LinkToCurrent(item: Json, m: map<UserId, seq<Json>>, context: Json): AudioStep {
    match CurrentToken(m, context)
    case Raise(e) => AudioStep(Raise(e), m)
    case Ok(previous) => AudioStep(Ok(WithExpectedPrevious(item, previous)), m)
  }

  /** The audio item with `expectedPreviousToken` added to its stream. */
  function WithExpectedPrevious(item: Json, previous: Json): Json {
    if item.JDict? && "stream" in item.fields && item.fields["stream"].JDict? then
      JDict(item.fields["stream" := JDict(item.fields["stream"].fields["expectedPreviousToken" := previous])])
    else item
  }

  /** The stream's own token and the token it expects to follow. */
  function StreamToken(item: Json): Json {
    if item.JDict? && "stream" in item.fields && item.fields["stream"].JDict? && "token" in item.fields["stream"].fields
    then item.fields["stream"].fields["token"] else JNull
  }

  function ExpectedPrevious(item: Json): Json {
    if item.JDict? && "stream" in item.fields && item.fields["stream"].JDict? && "expectedPreviousToken" in item.fields["stream"].fields
    then item.fields["stream"].fields["expectedPreviousToken"] else JNull
  }

  /** As written, a successful `enqueue` for a known user expects the token of the very stream it
      enqueues, not the token of the stream playing before. */
  lemma EnqueueExpectsItself(m: map<UserId, seq<Json>>, context: Json, url: Json, offset: Json, token: nat)
    requires GetUser(context).Ok? && UserTruthy(GetUser(context).value)
    requires EnqueueItem(m, context, url, offset, token).item.Ok?
    ensures var item := EnqueueItem(m, context, url, offset, token).item.value;
            ExpectedPrevious(item) == StreamToken(item)
  {
    AudioItemAlwaysPushes(m, context, url, offset, token);
    var step := AudioItem(m, context, url, offset, token);
    var stream := step.item.value.fields["stream"];
    CurrentStreamIsTop(step.after, context, stream.fields);
  }

  /** As written, `enqueue` for a request without a user id still pushes the stream (under the
      key `None`) and then raises, since there is no current stream to read a token from. */
  lemma EnqueueWithoutUserRaises(m: map<UserId, seq<Json>>, context: Json, url: Json, offset: Json, token: nat)
    requires GetUser(context) == Ok(JNull) && Truthy(url)
    ensures EnqueueItem(m, context, url, offset, token).item == Raise(AttributeError)
    ensures EnqueueItem(m, context, url, offset, token).after == AudioItem(m, context, url, offset, token).after
  {
  }

  /** enqueue as intended: the expected previous token is the token of the stream that was
      current before this call, read before the new stream is pushed. */
  function EnqueueItemIntended(m: map<UserId, seq<Json>>, context: Json, url: Json, offset: Json, token: nat): AudioStep {
    match CurrentToken(m, context)
    case Raise(e) => AudioStep(Raise(e), m)
    case Ok(previous) =>
      var step := AudioItem(m, context, url, offset, token);
      match step.item
      case Raise(e) => step
      case Ok(item) => AudioStep(Ok(WithExpectedPrevious(item, previous)), step.after)
  }

  /** The intended `enqueue` links the new stream to the one that was on top of the user's stack,
      and leaves the stack as `_audio_item` does. */
  lemma EnqueueIntendedExpectsPrevious(m: map<UserId, seq<Json>>, context: Json, url: Json, offset: Json, token: nat, previous: StreamFields)
    requires GetUser(context).Ok? && UserTruthy(GetUser(context).value)
    requires var u := GetUser(context).value; u in m && m[u] != [] && m[u][|m[u]| - 1] == JDict(previous)
    requires "token" in previous && Truthy(url)
    ensures var step := EnqueueItemIntended(m, context, url, offset, token);
            step.item.Ok? && ExpectedPrevious(step.item.value) == previous["token"] &&
            StreamToken(step.item.value) == JStr(NatToString(token)) &&
            step.after == AudioItem(m, context, url, offset, token).after
  {
    CurrentStreamIsTop(m, context, previous);
  }

  /** The two differ whenever the previous stream's token is not the new one. */
  lemma EnqueueAsWrittenDiffers(m: map<UserId, seq<Json>>, context: Json, url: Json, offset: Json, token: nat, previous: StreamFields)
    requires GetUser(context).Ok? && UserTruthy(GetUser(context).value)
    requires var u := GetUser(context).value; u in m && m[u] != [] && m[u][|m[u]| - 1] == JDict(previous)
    requires "token" in previous && Truthy(url) && previous["token"] != JStr(NatToString(token))
    ensures EnqueueItem(m, context, url, offset, token).item.Ok?
    ensures ExpectedPrevious(EnqueueItem(m, context, url, offset, token).item.value) !=
            ExpectedPrevious(EnqueueItemIntended(m, context, url, offset, token).item.value)
  {
    EnqueueIntendedExpectsPrevious(m, context, url, offset, token, previous);
    AudioItemAlwaysPushes(m, context, url, offset, token);
    var step := AudioItem(m, context, url, offset, token);
    var stream := step.item.value.fields["stream"];
    CurrentStreamIsTop(step.after, context, stream.fields);
    EnqueueExpectsItself(m, context, url, offset, token);
  }

  datatype Kind = StatementKind | QuestionKind | AudioKind

  /** A response under construction: `statement`, `question` or `audio`. */
  class Response {
    const kind: Kind
    /** `self._response` apart from its directive list. */
    var response: map<string, Json>
    /** `self._response['directives']`, present for audio responses. */
    var directives: seq<Json>

    /** The response dictionary as it is rendered. */
    function Body(): map<string, Json>
      reads this
    {
      if kind == AudioKind then response["directives" := JList(directives)] else response
    }

    /** render_response, with the session attributes given. */
    function Rendered(sessionAttributes: Json): Json
      reads this
    {
      RenderResponse(Body(), sessionAttributes)
    }

    /** statement(speech): the session ends. */
    constructor Statement(speech: string, xmlRoot: XmlRoot)
      ensures kind == StatementKind && directives == []
      ensures response == map["outputSpeech" := OutputSpeech(speech, xmlRoot), "shouldEndSession" := JBool(true)]
    {
      kind := StatementKind;
      response := map["outputSpeech" := OutputSpeech(speech, xmlRoot)];
      directives := [];
      new;
      response := response["shouldEndSession" := JBool(true)];
    }

    /** question(speech): the session stays open. */
    constructor Question(speech: string, xmlRoot: XmlRoot)
      ensures kind == QuestionKind && directives == []
      ensures response == map["outputSpeech" := OutputSpeech(speech, xmlRoot), "shouldEndSession" := JBool(false)]
    {
      kind := QuestionKind;
      response := map["outputSpeech" := OutputSpeech(speech, xmlRoot)];
      directives := [];
      new;
      response := response["shouldEndSession" := JBool(false)];
    }

    /** audio(speech): an empty directive list, and no `shouldEndSession` until `play`. The
        speech defaults to the empty string in the source. */
    constructor Audio(speech: string, xmlRoot: XmlRoot)
      ensures kind == AudioKind && directives == []
      ensures response == map["outputSpeech" := OutputSpeech(speech, xmlRoot)]
    {
      kind := AudioKind;
      response := map["outputSpeech" := OutputSpeech(speech, xmlRoot)];
      directives := [];
    }

    method SimpleCard(title: Json, content: Json)
      modifies this
      ensures response == old(response)["card" := SimpleCardJson(title, content)]
      ensures directives == old(directives)
    {
      response := response["card" := SimpleCardJson(title, content)];
    }

    /** standard_card; on `KeyError` the response keeps its old card. */
    method StandardCard(title: Json, text: Json, small: Json, large: Json) returns (r: Outcome<()>)
      modifies this
      ensures StandardCardJson(title, text, small, large).Ok? ==>
                r == Ok(()) && response == old(response)["card" := StandardCardJson(title, text, small, large).value]
      ensures StandardCardJson(title, text, small, large).Raise? ==>
                r == Raise(KeyError) && response == old(response)
      ensures directives == old(directives)
    {
      var card := StandardCardJson(title, text, small, large);
      if card.Raise? {
        return Raise(card.error);
      }
      response := response["card" := card.value];
      return Ok(());
    }

    method LinkAccountCard()
      modifies this
      ensures response == old(response)["card" := LINK_ACCOUNT_CARD]
      ensures directives == old(directives)
    {
      response := response["card" := LINK_ACCOUNT_CARD];
    }

    /** question.reprompt: only questions have it. */
    method Reprompt(speech: string, xmlRoot: XmlRoot)
      requires kind == QuestionKind
      modifies this
      ensures response == old(response)["reprompt" := JDict(map["outputSpeech" := OutputSpeech(speech, xmlRoot)])]
      ensures directives == old(directives)
    {
      response := response["reprompt" := JDict(map["outputSpeech" := OutputSpeech(speech, xmlRoot)])];
    }

    /** The stream `_audio_item` builds, read from the cache. */
    method NewStreamOf(cache: SimpleCache, context: Json, url: Json, offset: Json, token: nat) returns (stream: Outcome<StreamFields>)
      ensures stream == NewStream(cache.entries, context, url, offset, token)
    {
      if Truthy(url) {
        return Ok(map["url" := url, "token" := JStr(NatToString(token)), "offsetInMilliseconds" := offset]);
      }
      var current := CurrentStreamOf(cache, context);
      if current.Raise? {
        return Raise(current.error);
      }
      assert NewStream(cache.entries, context, url, offset, token) == FromCurrent(current.value);
      var u := StreamAttr(current.value, "url");
      if u.Raise? {
        return Raise(u.error);
      }
      var t := StreamAttr(current.value, "token");
      if t.Raise? {
        return Raise(t.error);
      }
      var o := StreamAttr(current.value, "offsetInMilliseconds");
      if o.Raise? {
        return Raise(o.error);
      }
      return Ok(map["url" := u.value, "token" := t.value, "offsetInMilliseconds" := o.value]);
    }

    /** _audio_item, run against the stream cache. */
    method AudioItemOf(cache: SimpleCache, context: Json, url: Json, offset: Json, token: nat) returns (item: Outcome<Json>)
      modifies cache
      ensures item == AudioItem(old(cache.entries), context, url, offset, token).item
      ensures cache.entries == AudioItem(old(cache.entries), context, url, offset, token).after
    {
      var stream := NewStreamOf(cache, context, url, offset, token);
      if stream.Raise? {
        return Raise(stream.error);
      }
      var user := GetUser(context);
      if user.Raise? {
        return Raise(user.error);
      }
      var _ := PushStream(cache, user.value, JDict(stream.value));
      return Ok(JDict(map["stream" := JDict(stream.value)]));
    }

    /** `current_stream.token`, read from the cache. */
    method CurrentTokenOf(cache: SimpleCache, context: Json) returns (t: Outcome<Json>)
      ensures t == CurrentToken(cache.entries, context)
    {
      var current := CurrentStreamOf(cache, context);
      if current.Raise? {
        return Raise(current.error);
      }
      t := StreamAttr(current.value, "token");
    }

    /** play: the session ends (set before the audio item is built, so it stays set if that
        raises), and a `REPLACE_ALL` play directive is appended. */
    method Play(cache: SimpleCache, context: Json, url: Json, offset: Json, token: nat) returns (r: Outcome<()>)
      requires kind == AudioKind
      modifies this, cache
      ensures var step := AudioItem(old(cache.entries), context, url, offset, token);
              cache.entries == step.after &&
              response == old(response)["shouldEndSession" := JBool(true)] &&
              (step.item.Ok? ==> r == Ok(()) && directives == old(directives) + [PlayDirective("REPLACE_ALL", step.item.value)]) &&
              (step.item.Raise? ==> r == Raise(step.item.error) && directives == old(directives))
    {
      response := response["shouldEndSession" := JBool(true)];
      var item := AudioItemOf(cache, context, url, offset, token);
      if item.Raise? {
        return Raise(item.error);
      }
      directives := directives + [PlayDirective("REPLACE_ALL", item.value)];
      return Ok(());
    }

    /** enqueue, as written: an `ENQUEUE` play directive whose stream expects the token read
        from the current stream after the push. */
    method Enqueue(cache: SimpleCache, context: Json, url: Json, offset: Json, token: nat) returns (r: Outcome<()>)
      requires kind == AudioKind
      modifies this, cache
      ensures var step := EnqueueItem(old(cache.entries), context, url, offset, token);
              cache.entries == step.after && response == old(response) &&
              (step.item.Ok? ==> r == Ok(()) && directives == old(directives) + [PlayDirective("ENQUEUE", step.item.value)]) &&
              (step.item.Raise? ==> r == Raise(step.item.error) && directives == old(directives))
    {
      ghost var before := cache.entries;
      var item := AudioItemOf(cache, context, url, offset, token);
      if item.Raise? {
        return Raise(item.error);
      }
      var linked := LinkToCurrentOf(cache, item.value, context);
      assert EnqueueItem(before, context, url, offset, token) == LinkToCurrent(item.value, cache.entries, context);
      if linked.Raise? {
        return Raise(linked.error);
      }
      directives := directives + [PlayDirective("ENQUEUE", linked.value)];
      return Ok(());
    }

    /** The `expectedPreviousToken` step of `enqueue`: the current stream's token, read from
        the cache. */
    method LinkToCurrentOf(cache: SimpleCache, item: Json, context: Json) returns (linked: Outcome<Json>)
      ensures linked == LinkToCurrent(item, cache.entries, context).item
    {
      var previous := CurrentTokenOf(cache, context);
      if previous.Raise? {
        return Raise(previous.error);
      }
      return Ok(WithExpectedPrevious(item, previous.value));
    }

    /** enqueue as intended: the previous token is read before the new stream is pushed. */
    method EnqueueIntended(cache: SimpleCache, context: Json, url: Json, offset: Json, token: nat) returns (r: Outcome<()>)
      requires kind == AudioKind
      modifies this, cache
      ensures var step := EnqueueItemIntended(old(cache.entries), context, url, offset, token);
              cache.entries == step.after && response == old(response) &&
              (step.item.Ok? ==> r == Ok(()) && directives == old(directives) + [PlayDirective("ENQUEUE", step.item.value)]) &&
              (step.item.Raise? ==> r == Raise(step.item.error) && directives == old(directives))
    {
      var previous := CurrentTokenOf(cache, context);
      if previous.Raise? {
        return Raise(previous.error);
      }
      var item := AudioItemOf(cache, context, url, offset, token);
      if item.Raise? {
        return Raise(item.error);
      }
      directives := directives + [PlayDirective("ENQUEUE", WithExpectedPrevious(item.value, previous.value))];
      return Ok(());
    }

    /** play_next: a `REPLACE_ENQUEUED` play directive. */
    method PlayNext(cache: SimpleCache, context: Json, url: Json, offset: Json, token: nat) returns (r: Outcome<()>)
      requires kind == AudioKind
      modifies this, cache
      ensures var step := AudioItem(old(cache.entries), context, url, offset, token);
              cache.entries == step.after && response == old(response) &&
              (step.item.Ok? ==> r == Ok(()) && directives == old(directives) + [PlayDirective("REPLACE_ENQUEUED", step.item.value)]) &&
              (step.item.Raise? ==> r == Raise(step.item.error) && directives == old(directives))
    {
      var item := AudioItemOf(cache, context, url, offset, token);
      if item.Raise? {
        return Raise(item.error);
      }
      directives := directives + [PlayDirective("REPLACE_ENQUEUED", item.value)];
      return Ok(());
    }

    /** resume: a `REPLACE_ALL` play directive for the current stream (no URL, offset 0; the
        token is then not used). */
    method Resume(cache: SimpleCache, context: Json, token: nat) returns (r: Outcome<()>)
      requires kind == AudioKind
      modifies this, cache
      ensures var step := AudioItem(old(cache.entries), context, JNull, JInt(0), token);
              cache.entries == step.after && response == old(response) &&
              (step.item.Ok? ==> r == Ok(()) && directives == old(directives) + [PlayDirective("REPLACE_ALL", step.item.value)]) &&
              (step.item.Raise? ==> r == Raise(step.item.error) && directives == old(directives))
    {
      var item := AudioItemOf(cache, context, JNull, JInt(0), token);
      if item.Raise? {
        return Raise(item.error);
      }
      directives := directives + [PlayDirective("REPLACE_ALL", item.value)];
      return Ok(());
    }

    method Stop()
      requires kind == AudioKind
      modifies this
      ensures directives == old(directives) + [STOP_DIRECTIVE] && response == old(response)
    {
      directives := directives + [STOP_DIRECTIVE];
    }

    /** clear_queue: `CLEAR_ALL` when `stop` is truthy, `CLEAR_ENQUEUED` otherwise. */
    method ClearQueue(stop: Json)
      requires kind == AudioKind
      modifies this
      ensures directives == old(directives) + [ClearQueueDirective(stop)] && response == old(response)
    {
      directives := directives + [ClearQueueDirective(stop)];
    }
  }

  /** The builder chain of the audio tests: `audio().play(url)` then `.stop()` gives two directives
      in call order, and only `play` ends the session. */
  method PlayThenStop(cache: SimpleCache, context: Json, url: Json, token: nat) returns (resp: Response)
    requires Truthy(url) && GetUser(context).Ok?
    modifies cache
    ensures |resp.directives| == 2 && resp.directives[1] == STOP_DIRECTIVE
    ensures resp.directives[0].JDict? && "playBehavior" in resp.directives[0].fields
    ensures resp.directives[0].fields["playBehavior"] == JStr("REPLACE_ALL")
    ensures "shouldEndSession" in resp.response && resp.response["shouldEndSession"] == JBool(true)
  {
    resp := new Response.Audio("", _ => None);
    var r := resp.Play(cache, context, url, JInt(0), token);
    assert r.Ok?;
    resp.Stop();
  }
}
