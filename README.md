# flask-ask, modelled in Dafny

flask-ask is a Flask extension for writing Alexa skills. This project models its core and
proves properties of that model:

- the dispatcher `Ask` (flask_ask/core.py):
  - the decorator registry;
  - the request gate `_alexa_request`;
  - the request envelope and the per-user audio stream state;
  - the routing chain;
  - the parameter binder with its converters;
- the stream stack kept in a key-value cache (flask_ask/cache.py);
- the slot converters `to_date`, `to_time` and `to_timedelta` (flask_ask/convert.py);
- the response builders `statement`, `question` and `audio` with their cards and AudioPlayer
  directives (flask_ask/models.py);
- the JSON-to-attribute wrappers (flask_ask/request.py and `models._Field`);
- request verification (flask_ask/verifier.py):
  - the certificate location check, over Python 2's `urlparse` and `posixpath.normpath`;
  - the signature header, over Python 2's `base64.b64decode`;
  - the timestamp window, over `datetime.strptime`;
  - the certificate validity window and the composition in `isValidAlexaRequest`;
- five samples:
  - the playlist `QueueManager`;
  - the History Buff extract parser and paging;
  - the Tide Pooler tide scan and `humanize_time`;
  - the Amazon Pay error handler;
  - the in-skill purchase product model.

Python values after `json.loads` are the datatype `PyJson.Json`. Python exceptions are the
`Raise` arm of `Outcomes.Outcome`, so every error path of the source is a result of the model
rather than a precondition. Objects that the source updates in place are classes:

| source object | Dafny class |
|---|---|
| werkzeug's `SimpleCache` | `Cache.SimpleCache` |
| `Ask` | `Core.Ask` |
| a response under construction | `Models.Response` |
| the playlist's `QueueManager` | `Playlist.QueueManager` |
| the purchase sample's `Product` | `Purchase.Product` |

Each method is proved against a function of the old state, and the properties are lemmas about
those functions.

Everything the code calls but does not define is a parameter (an "oracle"):

- JSON decoding;
- certificate download and parsing;
- the RSA signature check;
- the aniso8601 parsers;
- XML parsing of SSML;
- the clock;
- the random stream token;
- the view functions themselves;
- the order in which Python walks a dictionary's keys.

Where the code and the library's own documentation disagree, the model follows the code:

- An AudioPlayer request with no registered handler runs `lambda: None`, so the reply is
  `("", 400)`, not a silent success.
- models.py, as shipped, has no `consent_card`, so the payment sample's permission branch raises
  `AttributeError`.
- core.py reads request objects as dictionaries (`.get`, iteration, a missing key reads as
  `None`), although the `_Field` class models.py defines is a plain attribute object. The model
  follows core.py's reading.
- flask_ask/models.py:4 imports `_stream_buffer` from core.py, and core.py does not define it,
  so the package as shipped fails at import. The model reads `_stream_buffer.push(stream)`
  (flask_ask/models.py:211) as `push_stream` onto the current user's stack in the stream
  cache: `Models.AudioItem` pushes through `Cache.Pushed`.

## Model

| member | source | states |
|---|---|---|
| Base64.SextetOf | flask_ask/verifier.py:32 | the decoding table maps every character to a six-bit value or to -1 for a character outside the alphabet |
| Base64.EncodeChar | flask_ask/verifier.py:32 | each of the 64 alphabet characters decodes back to its own value and is neither the pad nor whitespace |
| Base64.Encode | flask_ask/verifier.py:32 | the reference encoding (RFC 4648, section 4) used as the partner of `b64decode`; its length is a multiple of four |
| Base64.FullQuad | flask_ask/verifier.py:32 | four encoded characters decode to their three bytes and return the decoder to its start state |
| Base64.OneByte | flask_ask/verifier.py:32 | a quad of two characters and two pads decodes to its one byte and ends the input |
| Base64.TwoBytes | flask_ask/verifier.py:32 | a quad of three characters and one pad decodes to its two bytes |
| Base64.DecodeEncode | flask_ask/verifier.py:32 | by induction over the bytes, the decoding loop run over an encoding appends exactly the encoded bytes |
| Base64.B64DecodeEncode | flask_ask/verifier.py:32 | `b64decode` inverts the encoding for every byte sequence |
| Base64.SkipsForeign | flask_ask/verifier.py:32 | a character outside the alphabet is skipped wherever it appears, leaving the decoder's state unchanged |
| Base64.LoneCharacterRaises | flask_ask/verifier.py:32 | one alphabet character alone is incorrect padding, a `TypeError` |
| Cache.SimpleCache.constructor | flask_ask/core.py:85-86 | a new cache holds no entries |
| Cache.SimpleCache.Get | flask_ask/cache.py:18 | `get` returns the stored stack for a key and `None` for a missing key; entries do not expire |
| Cache.SimpleCache.Set | flask_ask/cache.py:23 | `set` stores the stack under the key, changes no other key and reports success; no expiry stamp and no pruning |
| Cache.SimpleCache.Delete | flask_ask/cache.py:44 | `delete` removes exactly that key |
| Cache.Pushed | flask_ask/cache.py:6-24 | a truthy stream goes on top of the user's stack, which is created when missing; a falsy stream changes nothing; no other user's stack changes |
| Cache.Popped | flask_ask/cache.py:27-48 | a missing user gives `None`; an empty stack raises `IndexError`; otherwise the top is returned and removed, and the key is deleted when the stack becomes empty |
| Cache.SetTo | flask_ask/cache.py:51-62 | a truthy stream replaces the user's whole stack by a one-element stack; a falsy one changes nothing |
| Cache.Top | flask_ask/cache.py:65-80 | a falsy user or a missing stack gives `None`; otherwise the last stream pushed |
| Cache.PushStream | flask_ask/cache.py:6-24 | the cache after `push_stream` is `Pushed` of the old cache; the result is `True` for a truthy stream and `None` for a falsy one |
| Cache.PopStream | flask_ask/cache.py:27-48 | the result and the new cache are those of `Popped` on the old cache |
| Cache.SetStream | flask_ask/cache.py:51-62 | the cache after `set_stream` is `SetTo` of the old cache |
| Cache.TopStream | flask_ask/cache.py:65-80 | peeking returns `Top` and leaves the stored stack intact, because it pops a copy |
| Cache.PushThenPop | flask_ask/cache.py:6-48 | pushing then popping yields the pushed stream and gives back the whole cache as it was |
| Cache.AddingRemovingStream | tests/test_cache.py:20-29 | a pushed stream is the user's top, another user has none, popping yields it and leaves nothing on top, and a falsy stream is refused |
| Cache.PushPushPopPop | tests/test_cache.py:31-37 | two streams pushed come back out in reverse order, and the cache ends as it began |
| Cache.OperationsKeepNoEmptyStacks | flask_ask/cache.py:43-46 | push, pop and set never leave an empty stack stored; on such a cache pop and top never raise |
| Cache.SetThenPopTwice | tests/test_cache.py:42-49 | after `set_stream` the stream is on top and is the only entry: one pop yields it and a second pop finds nothing |
| Cache.TopIgnoresCacheForFalsyUser | flask_ask/cache.py:74-75 | with a falsy user id, `top_stream` gives `None` whatever the cache holds |
| Convert.SubTrailingX | flask_ask/convert.py:23 | a final `X` becomes `0` (also one before a final newline); other strings are unchanged; the length is kept |
| Convert.FirstMatch | flask_ask/convert.py:24-25 | the row found matches the text; when none is found, no row of the table matches |
| Convert.StrptimeDate | flask_ask/convert.py:29 | a date comes back only when every item of the format matched the text |
| Convert.ParseWith | flask_ask/convert.py:26-29 | once a row has matched the answer is a date or `ValueError`, never `None` |
| Convert.ToDate | flask_ask/convert.py:21-30 | `to_date` gives `None` exactly when no pattern of the table matches the rewritten token, and otherwise a date or `ValueError` |
| Convert.DayToken | flask_ask/convert.py:9 | `YYYY-MM-DD` gives that calendar date when it exists, and `ValueError` otherwise |
| Convert.WeekToken | flask_ask/convert.py:11 | `YYYY-Www` gets `-0` appended and resolves to weekday 0 (Sunday) of `%U` week `ww` of that year; a week number above 53 or a year outside 1..9999 raises `ValueError` |
| Convert.WeekendToken | flask_ask/convert.py:13 | `YYYY-Www-WE` resolves to the same Sunday as the week token |
| Convert.MonthToken | flask_ask/convert.py:15 | `YYYY-MM` gives the first of that month, and month 00 or above 12 raises |
| Convert.YearToken | flask_ask/convert.py:17 | `YYYY` gives 1 January of that year |
| Convert.DecadeToken | flask_ask/convert.py:22-23 | a decade token `YYYX` is read as 1 January of the year `YYY0` |
| Convert.StrptimeWeek | flask_ask/convert.py:26-29 | with `-0` appended, the week format reads year, week and weekday 0 |
| Convert.PatternsExclusive | flask_ask/convert.py:7-18 | at most one pattern of the table matches any string, so the dictionary's iteration order cannot change the result |
| Convert.NoneIffNoPatternMatches | flask_ask/convert.py:24-30 | `to_date` gives `None` exactly when no pattern matches the rewritten text |
| Convert.MonthThirteenRaises | flask_ask/convert.py:29 | a month token for month 13 raises `ValueError` instead of giving `None` |
| Convert.FebruaryThirtiethRaises | flask_ask/convert.py:29 | a day token for 30 February raises `ValueError` |
| Convert.TrailingNewlineRaises | flask_ask/convert.py:25-29 | a year followed by a newline slips past `$`, then fails in `strptime` |
| Convert.DayPart | flask_ask/convert.py:34-45 | a day-part token gives a time on the hour, and only a string can be one |
| Convert.DayPartTable | flask_ask/convert.py:34-45 | AM, PM, MO, AF, EV and NI give 0:00, 12:00, 5:00, 12:00, 17:00 and 21:00 |
| Convert.ToTime | flask_ask/convert.py:33-51 | a day part is answered from the table before any ISO parsing; a `ValueError` from the parser gives `None` |
| Convert.ToTimePython3Differs | flask_ask/convert.py:48-51 | under Python 3 `to_time` agrees with the intended version except where the parser raises `ValueError`: there it raises `AttributeError` instead of giving `None` |
| Convert.ToTimedelta | flask_ask/convert.py:54-55 | definition: `to_timedelta` is the ISO duration parser, its result and errors unchanged |
| PyJson.DictAttr | flask_ask/core.py:594 | an attribute read on a request object succeeds exactly on an object, and a missing attribute reads as `None` |
| PyJson.CallGet | flask_ask/core.py:516 | `.get(key, default)` works only on a dictionary; it gives the value when the key is present and the default otherwise |
| PyJson.Index | flask_ask/core.py:538 | `j[key]` succeeds exactly for a dictionary holding the key; otherwise it raises `KeyError` on a dictionary and `TypeError` on anything else |
| PyJson.StrIn | samples/payment_integration/error_handler.py:13 | `sub in j` is a substring test on a string, a key test on a dictionary and a membership test on a list, and raises on the other kinds |
| PyJson.Wrap | flask_ask/models.py:11-18 | the attribute object has exactly the dictionary's keys as attributes |
| PyJson.UnwrapWrapValue | flask_ask/models.py:13-18 | wrapping one JSON value loses nothing, at any depth |
| PyJson.UnwrapWrap | flask_ask/models.py:11-18 | the attributes of a wrapped dictionary read back as the dictionary |
| PyJson.WrapValueFullyWrapped | flask_ask/request.py:23-27 | every nested dictionary is wrapped at every depth, and other values are kept as they are |
| Text.FindFrom | samples/historybuff/historybuff.py:123 | `find` returns the first occurrence at or after the start, and `None` exactly when there is none |
| Text.ContainsIff | flask_ask/convert.py:26 | `sub in s` holds exactly when `sub` occurs at some position |
| Text.Lower | samples/purchase/model.py:71 | `lower()` keeps the length and lower-cases each character on its own |
| Text.NatToString | flask_ask/models.py:208 | `str(n)` is a non-empty string of digits |
| Text.DigitsValueOfNatToString | flask_ask/models.py:208 | `int(str(n)) == n` |
| Text.Split | flask_ask/verifier.py:19 | splitting on a separator gives pieces free of it that join back to the text |
| Urls.SplitNetloc | flask_ask/verifier.py:17 | the authority runs from after `//` up to the first `/`, `?` or `#`, and authority and rest together are the input |
| Urls.UrlSplit | flask_ask/verifier.py:17 | `urlsplit` raises nothing but `ValueError` |
| Urls.UrlParse | flask_ask/verifier.py:17 | `urlparse` reports a lower-case scheme and raises nothing but `ValueError` |
| Urls.LowerIdempotentScheme | flask_ask/verifier.py:22 | the scheme compared with `https` is already lower-case |
| Urls.NormSegmentsShape | flask_ask/verifier.py:19 | every segment `normpath` keeps is non-empty and free of `/` and `.`; in a rooted path none is `..` |
| Urls.NormalisedUnder | flask_ask/verifier.py:19-24 | a normalised path that starts with `/dir/` is one slash followed by clean segments, the first being `dir` |
| Verifier.CheckSignatureCertUrl | flask_ask/verifier.py:16-27 | the location is accepted exactly when it parses with scheme `https`, a lower-cased host of `s3.amazonaws.com` (with or without `:443`), and a normalised path under `/echo.api/`; only a parse error raises |
| Verifier.AcceptedCertUrlStaysInDirectory | flask_ask/verifier.py:19-24 | an accepted location names a certificate inside `echo.api` on one of the two hosts; no `..` segment can climb out |
| Verifier.PathUnderCertDir | flask_ask/verifier.py:24 | a path that normalises to something under `/echo.api/` consists of clean segments starting with `echo.api` |
| Verifier.NoSchemeRejected | flask_ask/verifier.py:22 | a location without a colon or a leading `//` has no scheme, so it is rejected |
| Verifier.MissingCertUrlRejected | flask_ask/verifier.py:123-126 | the stand-in text used for a missing certificate header is always rejected |
| Verifier.GetSignature | flask_ask/verifier.py:29-32 | an absent or empty header gives `None`; a decoding failure is a `TypeError` |
| Verifier.A2bOutcome | flask_ask/verifier.py:32 | base64 decoding of the header raises nothing but `TypeError` |
| Verifier.A2bErrors | flask_ask/verifier.py:32 | the decoding loop raises nothing but `TypeError`, from any state |
| Verifier.SignatureOfEncoding | flask_ask/verifier.py:29-32 | a header holding the padded encoding of non-empty bytes gives those bytes back |
| Verifier.OrdinalNextDay | flask_ask/verifier.py:103 | consecutive calendar days have consecutive day numbers, across month and year ends |
| Verifier.DaysInYear | flask_ask/verifier.py:103 | a year has 365 days, or 366 in a leap year, both by the year count and by the month table |
| Verifier.ParseTimestamp | flask_ask/verifier.py:102 | a timestamp yields an instant only when it matched the format `%Y-%m-%dT%H:%M:%SZ` |
| Verifier.MatchWellShaped | flask_ask/verifier.py:102 | a well-shaped timestamp yields its six fields when each is within its directive's range |
| Verifier.ParseWellShaped | flask_ask/verifier.py:102 | a well-shaped timestamp parses to the instant of its fields exactly when they form a real date and time |
| Verifier.MatchPaddedDay | flask_ask/verifier.py:102 | a timestamp whose day is a space and one digit (`%d` also accepts ` [1-9]`) yields its six fields, the day being that digit, when each is within range |
| Verifier.ParsePaddedDay | flask_ask/verifier.py:102 | a timestamp with a space-padded day parses to the instant of its fields exactly when they form a real date and time; a space before `0` is refused |
| Verifier.PaddedDayTimestamp | flask_ask/verifier.py:102 | `2015-11- 5T10:00:00Z` parses as 5 November 2015, 10:00:00 |
| TimeFormat.PaddedDayExample | flask_ask/verifier.py:102 | `%d` reads `" 5"` as day 5, and refuses `" 0"` and `" 15"` |
| Verifier.InstantOfAllFields | flask_ask/verifier.py:102 | the `datetime` is built from exactly the six fields `strptime` read |
| Verifier.CheckTimestamp | flask_ask/verifier.py:94-111 | a timestamp is accepted only when the body holds a string under `request.timestamp` |
| Verifier.TimestampWindow | flask_ask/verifier.py:94-111 | the check accepts exactly a parsable timestamp within 150 seconds of the clock, on either side; every failure, raised or not, gives `False` |
| Verifier.VerifyPayload | flask_ask/verifier.py:34-51 | outside the certificate's validity window the result is `False` and the key is never used; inside it, the result is the signature check's |
| Verifier.CheckCertificate | flask_ask/verifier.py:131-137 | the second half accepts exactly a downloaded certificate with a non-empty key, valid now, under which the signature verifies |
| Verifier.ValidExactly | flask_ask/verifier.py:114-141 | a request is valid exactly when the header decodes, the location is accepted, the body parses, the timestamp is fresh, and the certificate and signature pass |
| Verifier.IsValidAlexaRequest | flask_ask/verifier.py:114-141 | an undecodable signature header raises, a body that does not parse raises (outside any handler), and a `True` answer needs an accepted certificate URL, a timestamp within the window and a downloaded certificate |
| Verifier.NoFetchBeforeChecks | flask_ask/verifier.py:126-131 | when the location or the timestamp fails, the request is rejected without any certificate download or signature check |
| Verifier.MissingCertHeaderNeverValid | flask_ask/verifier.py:123 | a request without the certificate header is never valid |
| Verifier.ValidRequestCertInDirectory | flask_ask/verifier.py:114-141 | a valid request names its certificate inside the `echo.api` directory of an allowed host, over `https` |
| RequestFields.RequestFieldOf | flask_ask/request.py:14-27 | `_RequestField` wraps a dictionary fully; the empty string and the empty list give an empty object; anything else raises: `IndexError` when the first element of a list is an index past its end, `TypeError` otherwise |
| RequestFields.ListKeyError | flask_ask/request.py:16-17 | a non-empty list fails on its first element: `IndexError` exactly when that element is an integer or boolean index outside the list, `TypeError` otherwise |
| RequestFields.ListArgumentErrors | flask_ask/request.py:16-17 | `[5]` raises `IndexError`, while `[0]` and `["a", 7]` raise `TypeError` |
| RequestFields.RequestField | flask_ask/request.py:14-27 | the two-pass constructor (copy every key, then rewrap each dictionary value in place) yields `RequestFieldOf` |
| RequestFields.FieldOf | flask_ask/models.py:8-18 | `_Field` wraps a dictionary fully and raises `AttributeError` on anything without `items()` |
| RequestFields.Field | flask_ask/models.py:11-18 | the one-pass constructor yields `FieldOf` |
| RequestFields.WrappersAgreeOnObjects | flask_ask/request.py:14-27 | on a dictionary the two wrappers agree: every key becomes an attribute, every nested dictionary is wrapped, and nothing is lost |
| RequestFields.WrappersDifferOnEmpty | flask_ask/request.py:16-19 | on `""` and `[]` the two wrappers differ: one gives an empty object and the other raises |
| RequestFields.CopyAttr | flask_ask/request.py:6-11 | `_copyattr` copies the value when `attr in src`, converted when a converter is given; it leaves `dest` alone otherwise, propagates the converter's error, and touches no other attribute |
| RequestFields.CopyAttrIdempotent | flask_ask/request.py:6-11 | copying the same attribute twice is the same as copying it once |
| RequestFields.CopyAttrFromList | flask_ask/request.py:7-8 | a list source holding the name passes the membership test, then fails on the string index with `TypeError` |
| RequestFields.ParseRequestBody | flask_ask/request.py:44-50 | `Request` keeps the body and reads its four members with `.get`, `None` when one is absent; only a dictionary body has `.get` |
| RequestFields.ParseModelsRequestBody | flask_ask/models.py:24-30 | `_Request` keeps the body and defaults an absent member to `{}` |
| RequestFields.AccessorsWrapMembers | flask_ask/request.py:61-71 | a member present as an object reads back through its accessor as that object, wrapped, in both request classes |
| RequestFields.AbsentMemberContrast | flask_ask/request.py:61-63 | an absent `context` makes `Request.context` raise `TypeError`, while `_Request.context` is an empty object |
| Streams.GetUser | flask_ask/core.py:514-517 | a falsy context has no user; an attribute read on a value that is not an object raises `AttributeError` |
| Streams.GetUserCases | flask_ask/core.py:514-517 | the user id is read along `System.user.userId`; a missing level gives `None`; a level that is not an object raises |
| Streams.UpdateWith | flask_ask/core.py:549-554 | `__dict__.update` with a dictionary adds its keys, and its values win over the old ones; `[]` and `""` change nothing; a list is applied as a sequence of pairs; a non-empty string raises `ValueError`; `None`, booleans and numbers raise `TypeError` |
| Streams.PairOf | flask_ask/core.py:549-554 | an update element is a pair only when it is a list or string of exactly two elements (`ValueError` for any other length) with a string key; a non-sequence raises `TypeError` |
| Streams.UpdatePairs | flask_ask/core.py:549-554 | the update succeeds exactly when every element is a pair, keeps every old key, and otherwise raises the error of the first element that is not a pair |
| Streams.LastPairWins | flask_ask/core.py:549-554 | the value of a key is that of the last pair naming it |
| Streams.KeysNoPairNames | flask_ask/core.py:549-554 | a key no pair names keeps its old value, or stays absent |
| Streams.UpdateWithSequences | flask_ask/core.py:549-554 | a list of one pair `[["url", "u"]]` sets `url`; `"ab"` raises `ValueError`; `["ab"]` sets `a` to `"b"`; a one-element pair raises `ValueError` |
| Streams.CurrentStream | flask_ask/core.py:494-504 | without a truthy user, or without a cached stack, the current stream is empty |
| Streams.CurrentStreamIsTop | flask_ask/core.py:497-503 | for a truthy user whose cached top is an object, the current stream holds exactly that object's fields |
| Streams.SetCurrentStream | flask_ask/core.py:506-512 | for a truthy user the setter replaces the user's stack by the one stream; a falsy user changes nothing; an error in the user lookup propagates |
| Streams.FromDirective | flask_ask/core.py:562-568 | a non-empty result is the user's cached top, and the request is not a pause intent |
| Streams.FromContext | flask_ask/core.py:559-560 | the device's `AudioPlayer` report from the context, `None` when the key is missing |
| Streams.CurrentStreamOf | flask_ask/core.py:494-504 | the getter, run against the cache, returns `CurrentStream` of its entries |
| Streams.UpdateStream | flask_ask/core.py:547-557 | `_update_stream` stores the reconciled stream when every step succeeds, and changes nothing when one raises |
| Streams.SyncOverlaysContextOnTop | flask_ask/core.py:547-556 | for a known user, the stored stream is the cached top overlaid with the device's report: reported keys from the report, the others from the cache |
| Streams.SyncWithoutUserKeepsCache | flask_ask/core.py:510-512 | without a user id nothing is stored, whatever the request |
| Streams.SyncStartsFromContext | flask_ask/core.py:547-556 | a user with no cached stack gets a stack holding exactly the device's report |
| Models.OutputSpeech | flask_ask/models.py:246-253 | the speech is SSML exactly when it parses as XML with root `speak`, and plain text otherwise |
| Models.OutputSpeechKeepsText | flask_ask/models.py:246-253 | whichever type is chosen, the speech text is carried unchanged |
| Models.StandardCardJson | flask_ask/models.py:70-85 | the card has its type, title and text; an `image` only when some URL is truthy, holding exactly the URLs that are not `None`; a falsy but non-`None` URL with no truthy one raises `KeyError` |
| Models.RenderResponse | flask_ask/models.py:92-105 | the envelope holds exactly the version `1.0`, the response and the session attributes |
| Models.ClearQueueDirective | flask_ask/models.py:219-236 | the clear behaviour is `CLEAR_ALL` exactly when `stop` is truthy |
| Models.StreamAttr | flask_ask/models.py:201-203 | definition: an attribute of the current stream object is its field, and a missing one raises `AttributeError` |
| Models.AudioItem | flask_ask/models.py:193-212 | a failing `_audio_item` leaves the cache alone; a successful one needs a user id, builds `{'stream': …}` with exactly the url, token and offset, and pushes that stream; with a URL and a user id it succeeds with that URL and offset |
| Models.EnqueueItem | flask_ask/models.py:162-170 | `enqueue` leaves the cache as `_audio_item` did; on success the stream keeps its token and expects the token of the current stream as the cache now stands |
| Models.AudioItemAlwaysPushes | flask_ask/models.py:193-212 | every successful `_audio_item` pushes its own stream onto the user's stack, which then has it on top |
| Models.AudioItemReusesCurrent | flask_ask/models.py:199-203 | without a URL the stream copies the current stream's url, token and offset, whatever offset and token were passed |
| Models.AudioItemWithoutStreamRaises | flask_ask/models.py:199-203 | without a URL and without a current stream, `_audio_item` raises `AttributeError` and pushes nothing |
| Models.AudioItemMintsNew | flask_ask/models.py:206-209 | with a URL the stream is new: that URL and offset, and a token that is the decimal text of the drawn number, 5 or 6 digits long |
| Models.EnqueueExpectsItself | flask_ask/models.py:164-166 | as written, a successful `enqueue` for a known user expects the token of the very stream it adds |
| Models.EnqueueWithoutUserRaises | flask_ask/models.py:164-166 | without a user id, `enqueue` pushes the stream and then raises `AttributeError` on reading the current token |
| Models.EnqueueIntendedExpectsPrevious | flask_ask/models.py:162-170 | the corrected `enqueue` links the new stream to the token of the stream that was on top before it, and pushes the same stream |
| Models.EnqueueAsWrittenDiffers | flask_ask/models.py:166 | the two versions differ whenever the previous stream's token is not the new one |
| Models.Response.Statement | flask_ask/models.py:108-112 | a statement carries the output speech and ends the session |
| Models.Response.Question | flask_ask/models.py:115-119 | a question carries the output speech and keeps the session open |
| Models.Response.Audio | flask_ask/models.py:147-149 | an audio response starts with an empty directive list and no `shouldEndSession` |
| Models.Response.SimpleCard | flask_ask/models.py:61-68 | the response gets a simple card, replacing any card, and nothing else changes |
| Models.Response.StandardCard | flask_ask/models.py:70-85 | the standard card replaces any card; on `KeyError` the response keeps its old card |
| Models.Response.LinkAccountCard | flask_ask/models.py:87-90 | the response gets a `LinkAccount` card and nothing else changes |
| Models.Response.Reprompt | flask_ask/models.py:121-124 | a question gets a reprompt with the output speech of its text |
| Models.Response.NewStreamOf | flask_ask/models.py:193-209 | the stream `_audio_item` builds, read from the cache |
| Models.Response.AudioItemOf | flask_ask/models.py:193-212 | `_audio_item` run against the cache returns `AudioItem`'s item and leaves its cache |
| Models.Response.CurrentTokenOf | flask_ask/models.py:166 | `current_stream.token`, read from the cache |
| Models.Response.Play | flask_ask/models.py:152-159 | `play` ends the session first (so it stays set even when the item raises), then appends a `REPLACE_ALL` directive on success |
| Models.Response.Enqueue | flask_ask/models.py:162-170 | as written, `enqueue` appends an `ENQUEUE` directive that expects the token read after the push |
| Models.Response.LinkToCurrentOf | flask_ask/models.py:166 | the `expectedPreviousToken` step: the current stream's token is written into the item |
| Models.Response.EnqueueIntended | flask_ask/models.py:162-170 | the corrected `enqueue`: the previous token is read before the new stream is pushed |
| Models.Response.PlayNext | flask_ask/models.py:172-178 | `play_next` appends a `REPLACE_ENQUEUED` directive |
| Models.Response.Resume | flask_ask/models.py:180-185 | `resume` appends a `REPLACE_ALL` directive for the current stream |
| Models.Response.Stop | flask_ask/models.py:214-217 | `stop` appends exactly the stop directive |
| Models.Response.ClearQueue | flask_ask/models.py:219-236 | `clear_queue` appends exactly the clear-queue directive for `stop` |
| Models.PlayThenStop | flask_ask/models.py:152-217 | `audio().play(url).stop()` gives a `REPLACE_ALL` play directive followed by the stop directive, and ends the session |
| Core.EventKey | flask_ask/core.py:282 | every playback event's table key starts with `AudioPlayer.` |
| Core.RegisterLastWins | flask_ask/core.py:239-243 | registering a key again replaces its handler and all three tables: the last registration wins |
| Core.RegisterKeepsOthers | flask_ask/core.py:239-243 | registering one key changes no other key's handler or tables, nor the single-slot handlers |
| Core.RegisterKeepsAligned | flask_ask/core.py:239-243 | the four intent tables keep the same keys, and the registered key is in all of them |
| Core.ApplicationId | flask_ask/core.py:537-541 | the application id comes from the session when it is there |
| Core.IndexPath | flask_ask/core.py:533 | nested indexing stops at the first missing key or non-dictionary and raises that step's error |
| Core.AlexaRequest | flask_ask/core.py:520-545 | a passed request is the decoded body itself; a decoding error propagates |
| Core.VerifyOffOnlyDecodes | flask_ask/core.py:524 | with verification off the body is only decoded: no header, certificate, signature, clock or id check |
| Core.CertAndSignatureAlwaysChecked | flask_ask/core.py:525-531 | with verification on, a missing header raises `KeyError`, and a certificate or signature failure rejects the request |
| Core.TimestampCheckedUnlessDebugging | flask_ask/core.py:533-535 | the clock is consulted exactly unless `app.debug` is set without ASK_VERIFY_TIMESTAMP_DEBUG, and a stale timestamp then rejects |
| Core.ApplicationIdCheckedOnlyWhenConfigured | flask_ask/core.py:537-543 | the id check runs only when ASK_APPLICATION_ID is set, but the id is looked up in any case, so a missing id raises `KeyError` |
| Core.ApplicationIdMissing | flask_ask/core.py:537-541 | a payload whose session and context both lack the id raises `KeyError` |
| Core.NormaliseSession | flask_ask/core.py:580-583 | the kept session has its keys, and `attributes` is truthy or an empty object; a truthy session that is not an object raises |
| Core.ReadEnvelope | flask_ask/core.py:573-583 | the envelope is read exactly when the payload has `request` and `version` and its session normalises |
| Core.SlotDataPrefixRaises | flask_ask/core.py:654-657 | once a slot read raises, the whole slot walk raises that error |
| Core.SlotDataByName | flask_ask/core.py:654-657 | slot values are keyed by each slot's own `name`: exactly one entry per listed slot, holding its value or `None` |
| Core.FieldsBindByName | flask_ask/core.py:659-661 | outside an intent, every request field binds under its own name |
| Core.BindAllPrefixRaises | flask_ask/core.py:663-683 | once a parameter raises, the whole binding raises that error |
| Core.BindAllOkIff | flask_ask/core.py:663-683 | binding succeeds exactly when every parameter binds |
| Core.BindAllArgs | flask_ask/core.py:663-683 | one argument per declared parameter, in declaration order, each the parameter's own binding |
| Core.BindAllErrors | flask_ask/core.py:679-684 | `convert_errors` holds exactly the parameters whose converter raised, each with its error |
| Core.NoErrorsIffNoConverterRaised | flask_ask/core.py:649-684 | `convert_errors` is empty exactly when no converter raised |
| Core.AbsentTablesBindOnlyWithoutParams | flask_ask/core.py:645-667 | a view name without tables binds only an empty parameter list; any parameter raises `AttributeError` |
| Core.DefaultsNotConverted | flask_ask/core.py:666-671 | a missing or empty value with a literal default binds to the default, and no converter is applied to it |
| Core.ConverterFailureKeepsRawValue | flask_ask/core.py:672-682 | a present value goes through its converter; when the converter raises, the raw value is bound and the error recorded |
| Core.UnknownShorthandRecorded | flask_ask/core.py:674-682 | a converter string other than `date`, `time` or `timedelta` is called, raises `TypeError`, and that error is recorded |
| Core.RouteOf | flask_ask/core.py:594-606 | the launch and session-ended branches are taken only with a registered handler |
| Core.Route | flask_ask/core.py:594-614 | the routing chain: a launch request runs the launch view when one is registered; a session-ended request runs its handler or gives `("{}", 200)`; an intent request with no intent views and any string type without `AudioPlayer` reach no view; a missing, boolean or numeric type raises `TypeError`; `convert_errors` is stored only on the intent and AudioPlayer routes |
| Core.RoutingTable | flask_ask/core.py:596-606 | `LaunchRequest` goes to the launch handler; `SessionEndedRequest` to its handler, or the default; `IntentRequest` to the intent table when it is non-empty; any other type containing `AudioPlayer` to the player table; a type that is not a string raises `TypeError` |
| Core.NoAudioPlayerWithoutY | flask_ask/core.py:605 | no string without a `y` contains `AudioPlayer` |
| Core.NoAudioPlayer | flask_ask/core.py:605 | a string containing `AudioPlayer` is none of the three fixed request types |
| Core.Finish | flask_ask/core.py:610-614 | `None` becomes `("", 400)`; a response object is rendered in its envelope; any other result is returned as it is |
| Core.UnroutedGets400 | flask_ask/core.py:610-614 | a request that reaches no view, or whose view returns `None`, gets `("", 400)` |
| Core.SessionEndedDefaultReply | flask_ask/core.py:598-602 | with no session-ended handler the reply is `("{}", 200)` |
| Core.IntentLookupOrder | flask_ask/core.py:616-623 | intent lookup tries an exact match first, then the default-intent handler, and otherwise raises `NotImplementedError` with the intent's name |
| Core.DefaultIntentBindsOnlyWithoutParams | flask_ask/core.py:620-627 | the default-intent handler is bound under the unmatched name, which has no tables, so it binds only when it declares no parameters |
| Core.UnregisteredPlayerEventGets400 | flask_ask/core.py:631-640 | an AudioPlayer event nobody registered runs `lambda: None`, and the reply is `("", 400)` |
| Core.PlaybackOffsetBinding | flask_ask/core.py:260-285 | with the default playback mapping, an `offset` parameter reads `offsetInMilliseconds`, and for `PlaybackFailed` `offset` itself |
| Core.SessionStartedOnlyWhenNew | flask_ask/core.py:587-591 | the session-started callback runs exactly when `session.new` is truthy and one is registered; an `AttributeError` from it is swallowed |
| Core.CallbackRunsBeforeRouting | flask_ask/core.py:587-606 | when the callback stops the request, no view function is called and the cache is left as it was |
| Core.RejectedRequestChangesNothing | flask_ask/core.py:570-585 | a request the gate rejects leaves the stream cache as it was, stores no binding and calls no view |
| Core.RequestDataOf | flask_ask/core.py:651-661 | the loops that fill `request_data` compute `RequestData` |
| Core.BindArg | flask_ask/core.py:663-683 | one iteration of the binding loop computes that parameter's binding, and raises `AttributeError` when the view has no tables |
| Core.Ask.constructor | flask_ask/core.py:67-88 | a new `Ask` has empty tables, and a fresh empty `SimpleCache` unless a cache is given |
| Core.Ask.Intent | flask_ask/core.py:239-243 | `@ask.intent` writes the handler and its three tables under the name, and keeps the tables aligned |
| Core.Ask.OnPlayback | flask_ask/core.py:281-285 | each `on_playback_*` decorator does the same four writes under its event's key |
| Core.Ask.Launch | flask_ask/core.py:188 | `@ask.launch` sets only the launch handler |
| Core.Ask.SessionEnded | flask_ask/core.py:208 | `@ask.session_ended` sets only the session-ended handler |
| Core.Ask.OnSessionStarted | flask_ask/core.py:171 | `@ask.on_session_started` sets only the callback |
| Core.Ask.DefaultIntent | flask_ask/core.py:253 | `@ask.default_intent` sets only the default-intent handler |
| Core.Ask.MapParamsToViewArgs | flask_ask/core.py:642-685 | the binding loop over the declared parameters computes `MapParams` of the registry |
| Core.BindArgs | flask_ask/core.py:663-683 | the loop over the declared parameters computes `BindAll`: one argument per parameter in order, the first raised error ends it, converter failures are collected |
| Core.Ask.MapIntentToViewFunc | flask_ask/core.py:616-629 | the intent lookup and binding compute `IntentBinding` |
| Core.Ask.MapPlayerRequestToFunc | flask_ask/core.py:631-640 | the player lookup (`lambda: None` when missing) and binding compute `PlayerBinding` |
| Core.Ask.RouteRequest | flask_ask/core.py:593-606 | the routing chain and the call of the chosen view compute `Route` |
| Core.Ask.StartSession | flask_ask/core.py:587-591 | the session-started step computes `SessionStart` |
| Core.Ask.FlaskViewFunc | flask_ask/core.py:570-614 | the reply, the stored `convert_errors` and the stream cache as `_update_stream` leaves it are those of `ViewFunc` on the old cache |
| QueueStates.Queue | samples/audio/playlist_demo/playlist.py:41 | the queue holds the URLs, in order |
| QueueStates.QueueAppend | samples/audio/playlist_demo/playlist.py:92 | queueing two lists one after the other is queueing their concatenation |
| QueueStates.Initial | samples/audio/playlist_demo/playlist.py:39-43 | everything is queued, nothing played, nothing current |
| QueueStates.SetCurrent | samples/audio/playlist_demo/playlist.py:68-71 | the setter makes the URL current, archives the old one exactly when it was truthy (so the position moves on by one), keeps the history's old entries and leaves the queue alone |
| QueueStates.EndCurrent | samples/audio/playlist_demo/playlist.py:98-100 | `end_current` clears the current URL, archiving it exactly when it was truthy, and leaves the queue alone |
| QueueStates.Step | samples/audio/playlist_demo/playlist.py:102-105 | `step` succeeds exactly on a non-empty queue, returning its front, which becomes current; on an empty queue it raises `IndexError` with nothing current; the old current URL is archived either way |
| QueueStates.StepBack | samples/audio/playlist_demo/playlist.py:107-110 | `step_back` always pushes the current URL onto the front of the queue; it succeeds exactly with history, taking the last entry off the history as the new current URL and returning it, and otherwise raises `IndexError` |
| QueueStates.Add | samples/audio/playlist_demo/playlist.py:86-88 | `add` appends the URL to both the URL list and the queue, keeping the rest of the queue, its front included |
| QueueStates.Extend | samples/audio/playlist_demo/playlist.py:90-92 | `extend` appends the URLs to the URL list and behind the queue, in order |
| QueueStates.Reset | samples/audio/playlist_demo/playlist.py:112-114 | `reset` requeues every URL in order and empties the history, keeping the current URL |
| QueueStates.Start | samples/audio/playlist_demo/playlist.py:116-118 | `start` succeeds exactly when there are URLs, then returning the first one, and leaves no history |
| QueueStates.UpNext | samples/audio/playlist_demo/playlist.py:56-63 | the front of the queue, `None` when it is empty |
| QueueStates.Previous | samples/audio/playlist_demo/playlist.py:78-84 | the last history entry, `None` exactly when there is no history |
| QueueStates.CurrentPosition | samples/audio/playlist_demo/playlist.py:120-122 | one more than the number of URLs played |
| QueueStates.StatusOf | samples/audio/playlist_demo/playlist.py:45-54 | the status fields are the position, current URL, next URL, previous URL and history |
| QueueStates.StepBackUndoesStep | samples/audio/playlist_demo/playlist.py:102-110 | a step from a set current URL returns the front of the queue and is undone by a step back |
| QueueStates.StepUndoesStepBack | samples/audio/playlist_demo/playlist.py:102-110 | a step back is undone by a step whenever there is history, whatever was current |
| QueueStates.StepPosition | samples/audio/playlist_demo/playlist.py:94-105 | a step advances the position exactly when the old current URL was set, and that URL becomes the previous one |
| QueueStates.StepOnEmptyQueue | samples/audio/playlist_demo/playlist.py:102-105 | a step on an empty queue raises `IndexError` after archiving the current URL and clearing it |
| QueueStates.StepBackOnEmptyHistory | samples/audio/playlist_demo/playlist.py:107-110 | a step back with no history raises `IndexError` after pushing the current URL onto the queue |
| QueueStates.StepKeepsTimeline | samples/audio/playlist_demo/playlist.py:102-105 | a step neither loses nor invents a URL of the play order, unless it pops an unset entry |
| QueueStates.StepBackKeepsTimeline | samples/audio/playlist_demo/playlist.py:107-110 | a step back from a set current URL keeps the play order |
| QueueStates.OperationsKeepHistory | samples/audio/playlist_demo/playlist.py:94-96 | every operation keeps the history free of empty entries |
| QueueStates.StartPlaysFirst | samples/audio/playlist_demo/playlist.py:116-118 | `start` plays the first URL from a fresh queue at position 1, or raises on an empty playlist |
| QueueStates.ResetRequeues | samples/audio/playlist_demo/playlist.py:112-114 | `reset` puts the first URL back at the front and clears the history, keeping the current URL |
| QueueStates.ExtendQueuesInOrder | samples/audio/playlist_demo/playlist.py:90-92 | appended URLs queue behind everything already queued, in order, and are requeued by a later reset |
| Playlist.QueueManager.constructor | samples/audio/playlist_demo/playlist.py:39-43 | a new manager is in the initial state for its URLs |
| Playlist.QueueManager.UpNext | samples/audio/playlist_demo/playlist.py:56-63 | `up_next` is `QueueStates.UpNext` of the fields |
| Playlist.QueueManager.Previous | samples/audio/playlist_demo/playlist.py:78-84 | `previous` is `QueueStates.Previous` of the fields |
| Playlist.QueueManager.CurrentPosition | samples/audio/playlist_demo/playlist.py:120-122 | `current_position` is `QueueStates.CurrentPosition` of the fields |
| Playlist.QueueManager.Status | samples/audio/playlist_demo/playlist.py:45-54 | `status` is `QueueStates.StatusOf` of the fields |
| Playlist.QueueManager.SaveToHistory | samples/audio/playlist_demo/playlist.py:94-96 | only the history changes: the current URL is appended when it is truthy |
| Playlist.QueueManager.SetCurrent | samples/audio/playlist_demo/playlist.py:69-72 | the setter archives the old URL, then sets the new one |
| Playlist.QueueManager.EndCurrent | samples/audio/playlist_demo/playlist.py:98-100 | the current URL is archived, then cleared |
| Playlist.QueueManager.Add | samples/audio/playlist_demo/playlist.py:86-88 | the URL is added to the playlist and to the back of the queue |
| Playlist.QueueManager.Extend | samples/audio/playlist_demo/playlist.py:90-92 | the URLs are added to the playlist and to the back of the queue |
| Playlist.QueueManager.Step | samples/audio/playlist_demo/playlist.py:102-105 | the new state and the result are those of `QueueStates.Step` |
| Playlist.QueueManager.StepBack | samples/audio/playlist_demo/playlist.py:107-110 | the new state and the result are those of `QueueStates.StepBack` |
| Playlist.QueueManager.Reset | samples/audio/playlist_demo/playlist.py:112-114 | the new state is `QueueStates.Reset` of the old one |
| Playlist.QueueManager.Start | samples/audio/playlist_demo/playlist.py:116-118 | the new state and the result are those of `QueueStates.Start` |
| HistoryBuff.Slice | samples/historybuff/historybuff.py:116 | a Python slice: the characters between the bounds, empty when they cross |
| HistoryBuff.Section | samples/historybuff/historybuff.py:113-118 | no section exactly when either marker is missing |
| HistoryBuff.Chunks | samples/historybuff/historybuff.py:121-128 | the splitter yields at least one piece |
| HistoryBuff.LeadingDigits | samples/historybuff/historybuff.py:132 | the length of the run of digits at the front |
| HistoryBuff.CleanAll | samples/historybuff/historybuff.py:129-133 | every piece is tidied on its own, in order |
| HistoryBuff.Reverse | samples/historybuff/historybuff.py:134 | `reverse()`: element `i` comes from position `n - 1 - i` |
| HistoryBuff.Events | samples/historybuff/historybuff.py:111-135 | `_parse_json` gives no events exactly when a marker is missing, and otherwise one event per piece of the section |
| HistoryBuff.ParseJson | samples/historybuff/historybuff.py:111-135 | `_parse_json` computes `Events` of the extract |
| HistoryBuff.SplitEvents | samples/historybuff/historybuff.py:119-133 | the splitting loop yields the tidied pieces of the section, in order |
| HistoryBuff.NoEventsIffNoMarkers | samples/historybuff/historybuff.py:113-118 | there are no events exactly when a marker is missing; with both there is always at least one |
| HistoryBuff.ChunksJoin | samples/historybuff/historybuff.py:121-128 | splitting loses nothing: the pieces joined with the delimiter give the section back |
| HistoryBuff.ChunksSplitAtDelimiters | samples/historybuff/historybuff.py:123 | no piece holds a delimiter beyond its first two characters |
| HistoryBuff.EventsReversed | samples/historybuff/historybuff.py:133-134 | the events come out last piece first, one per piece, each tidied |
| HistoryBuff.YearComma | samples/historybuff/historybuff.py:132 | a comma is inserted right after the leading year and nothing else changes; text without a leading digit is unchanged |
| HistoryBuff.PageSize | samples/historybuff/historybuff.py:78 | at most three events are read, none past the end, and fewer only at the end |
| HistoryBuff.NextPageOf | samples/historybuff/historybuff.py:71-87 | `get_next_event` stores the index moved on by the page size, and its card lists exactly the events from the old index to the new one; past the end the card is empty and the speech only asks to go deeper |
| HistoryBuff.NextPage | samples/historybuff/historybuff.py:70-87 | the paging loop computes `NextPageOf` |
| HistoryBuff.NextPageAdvances | samples/historybuff/historybuff.py:78-85 | the stored index moves on by the number of events read, never past the end, and strictly while events remain |
| HistoryBuff.TwoPagesContiguous | samples/historybuff/historybuff.py:70-87 | two pages in a row read consecutive events with nothing skipped or repeated |
| HistoryBuff.FirstPage | samples/historybuff/historybuff.py:44-67 | `get_first_event` computes `FirstPageOf` |
| HistoryBuff.FirstPageOf | samples/historybuff/historybuff.py:45-67 | `get_first_event` gives the problem statement exactly when there are no events, raises `IndexError` exactly on one or two events, and otherwise stores the events and index three, with the first three events on the card |
| HistoryBuff.FirstPageThenNext | samples/historybuff/historybuff.py:53-67 | with three events or more, the first page shows the first three and stores index three |
| HistoryBuff.FirstPageRaisesOnShortList | samples/historybuff/historybuff.py:56-58 | as written, a day with one event makes the first page raise `IndexError`, while the corrected page shows it |
| HistoryBuff.FirstPageClamped | samples/historybuff/historybuff.py:56-58 | the corrected first page shows any non-empty list and stores the number of events shown |
| HistoryBuff.ParagraphsAppend | samples/historybuff/historybuff.py:79 | the speech of two runs of events is the concatenation of their speeches |
| HistoryBuff.LinesAppend | samples/historybuff/historybuff.py:80 | the card of two runs of events is the concatenation of their cards |
| Tidepooler.PyLess | samples/tidepooler/tidepooler.py:267 | `<` on str/str by code point and on int/int by value; every other pair is modelled as `TypeError` |
| Tidepooler.StrLessIrreflexive | samples/tidepooler/tidepooler.py:267 | no string is less than itself |
| Tidepooler.StrLessAsymmetric | samples/tidepooler/tidepooler.py:267 | string order is asymmetric |
| Tidepooler.EqualIsNotLess | samples/tidepooler/tidepooler.py:267 | equal heights never count as a rise |
| Tidepooler.FindTideInfo | samples/tidepooler/tidepooler.py:252-290 | the scanning loop with its `break`, then the assembly, compute `TideInfoOf` |
| Tidepooler.ScanStep | samples/tidepooler/tidepooler.py:263-279 | one turn of the loop: a turn that goes on remembers the prediction; `break` only once a second high is found, changing nothing; every comparison reads the prediction's `v`; once the first high is done it stays done and fixed, and the second high is written only after that |
| Tidepooler.Scan | samples/tidepooler/tidepooler.py:263-279 | the whole loop: no predictions leave the state alone; a finished first high is never changed; the second high changes only once the first high is done |
| Tidepooler.TideInfoOf | samples/tidepooler/tidepooler.py:252-290 | `_find_tide_info` raises what the scan raises, and a result needs all three tides found as records, its first high time and low height read from them |
| Tidepooler.FirstFrom | samples/tidepooler/tidepooler.py:263 | the first position from `from` whose flag has the value, or none |
| Tidepooler.ScanMatchesReference | samples/tidepooler/tidepooler.py:258-279 | when every neighbour comparison succeeds, the one-pass scan finds exactly the reference's tides: the first rise's peak, the trough after it, and the end of the next rise |
| Tidepooler.EmptyDayFindsNothing | samples/tidepooler/tidepooler.py:263-279 | with no predictions no tide is found |
| Tidepooler.MissingTideFails | samples/tidepooler/tidepooler.py:283-289 | a tide never found makes the answer fail; a missing first high tide is the `TypeError` of indexing `None` |
| Tidepooler.FoundTidesAssemble | samples/tidepooler/tidepooler.py:281-290 | with all three tides parsable, the answer carries their parsed times and heights |
| Tidepooler.NoRiseNoTideInfo | samples/tidepooler/tidepooler.py:252-290 | a day whose heights never rise has no high tide, so the answer raises `TypeError` |
| Tidepooler.NumericLess | samples/tidepooler/tidepooler.py:267 | the comparison evidently meant: the heights as numbers |
| Tidepooler.NumericRisingFollowsHeights | samples/tidepooler/tidepooler.py:267 | with the numeric comparison a step rises exactly when the height increases |
| Tidepooler.StringOrderReversesNegatives | samples/tidepooler/tidepooler.py:267 | between two heights of the form `-0.ddd`, string order is the reverse of numeric order |
| Tidepooler.DipDayAsWritten | samples/tidepooler/tidepooler.py:263-279 | as written, on a day going -0.5, -0.3, -0.4 the scan takes the last prediction for the first high tide and finds no low tide |
| Tidepooler.DipDayNumeric | samples/tidepooler/tidepooler.py:263-279 | with the numeric comparison the same day gives the middle prediction as the first high tide and the last as the low tide |
| Tidepooler.StringOrderMisreadsNegativeHeights | samples/tidepooler/tidepooler.py:267 | the two comparisons give different tides on such a day |
| Tidepooler.Clock12 | samples/tidepooler/tidepooler.py:168 | `%I`: an hour from 1 to 12 equal to the 24-hour hour modulo 12 |
| Tidepooler.TwoDigits | samples/tidepooler/tidepooler.py:168 | a zero-padded field of two digits |
| Tidepooler.TwoDigitsValue | samples/tidepooler/tidepooler.py:168 | the two-digit field reads back as its number |
| Tidepooler.PeriodOfDay | samples/tidepooler/tidepooler.py:156-167 | each of the four periods is chosen exactly in its band of hours, split at 12, 17 and 20 |
| Tidepooler.HumanizeTime | samples/tidepooler/tidepooler.py:155-170 | the text is two digits, a colon, two digits, a space, then the period of day |
| Tidepooler.HumanizeTimeReadsBack | samples/tidepooler/tidepooler.py:155-170 | the text is the 12-hour clock reading, which reads back as the hour and minute, then a space and the period of day |
| Tidepooler.PeriodThresholds | samples/tidepooler/tidepooler.py:156-167 | before 12 the morning; before 17 the afternoon; before 20 the evening; otherwise `" at night"`, with its own leading space |
| Payment.InSet | samples/payment_integration/error_handler.py:43 | membership in a set of names holds exactly for a string among them, and an unhashable value raises |
| Payment.Append | samples/payment_integration/error_handler.py:47 | concatenation succeeds exactly with a string, and appends it |
| Payment.Speak | samples/payment_integration/error_handler.py:54-57 | a plain statement speaks the advice; asking for a consent card raises, because the statement class has no `consent_card` |
| Payment.HandleErrors | samples/payment_integration/error_handler.py:7-57 | `handleErrors` raises what reading the response raises, raises `AttributeError` exactly when the advice asks for a consent card, and otherwise speaks the advice |
| Payment.HandleBillingAgreementState | samples/payment_integration/error_handler.py:62-77 | a known billing agreement state is named in the message, any other hashable value gets the generic message, and an unhashable one raises `TypeError` |
| Payment.HandleAuthorizationDeclines | samples/payment_integration/error_handler.py:82-98 | a known decline reason gets the decline message, any other hashable value the generic message, and an unhashable one raises `TypeError` |
| Payment.KnownErrorListsDisjoint | samples/payment_integration/error_handler.py:16-42 | no status message is both a permission error and an integration or runtime error |
| Payment.PermissionErrorAsksForConsent | samples/payment_integration/error_handler.py:43-55 | a consent card is asked for exactly on a permission error, with the permission message, and building it raises |
| Payment.IntegrationErrorReadOut | samples/payment_integration/error_handler.py:46-47 | a known integration or runtime error is read out as the fixed sentence naming the code, the message and the payload message |
| Payment.MerchantErrorFrames | samples/payment_integration/error_handler.py:47 | the read-out starts with the code and ends with the payload message |
| Payment.UnknownErrorGeneric | samples/payment_integration/error_handler.py:48-49 | any other status gets the generic message and no consent card |
| Payment.MissingStatusRaises | samples/payment_integration/error_handler.py:10-11 | a response without a status, or without its code and message, raises `KeyError` before any decision |
| Payment.BillingStates | samples/payment_integration/error_handler.py:62-77 | the three known billing states are named in the message; every other state, and only those, gets the generic one |
| Payment.DeclineReasons | samples/payment_integration/error_handler.py:82-98 | the four known decline reasons get the not-charged message and all else the generic one, and the two messages differ |
| Payment.UnhashableRaises | samples/payment_integration/error_handler.py:62-98 | an unhashable value in any of the membership tests raises `TypeError` |
| Purchase.Query | samples/purchase/model.py:45-49 | another status gives `None`; status 200 gives the body's `inSkillProducts` and raises when the body has none |
| Purchase.Products | samples/purchase/model.py:54 | iterating a list visits its items and a string its one-character strings; `{}` is the empty traversal, and any other dictionary or `None`, a boolean or a number raises `TypeError` |
| Purchase.Purchasable | samples/purchase/model.py:59-61 | true exactly when the `purchasable` field is `PURCHASABLE`; a missing field raises |
| Purchase.Entitled | samples/purchase/model.py:63-65 | true exactly when the `entitled` field is `ENTITLED`; a missing field raises |
| Purchase.Filtered | samples/purchase/model.py:51-57 | what `list` keeps is no longer than the product list, and each kept item is one of the products and passes the test |
| Purchase.IdByName | samples/purchase/model.py:68-73 | an id that is not `None` is the `productId` of a product whose lower-cased name matches |
| Purchase.NameById | samples/purchase/model.py:75-79 | a name that is not `None` is the `name` of a product with that id |
| Purchase.Product.constructor | samples/purchase/model.py:22-24 | the object keeps the token and what the query returned |
| Purchase.Product.List | samples/purchase/model.py:51-57 | the loop keeps the products that pass the test, in order, and stops at the first test that raises |
| Purchase.Product.ProductId | samples/purchase/model.py:68-73 | the loop returns the id of the first product whose lower-cased name is `name`, else `None` |
| Purchase.Product.ProductName | samples/purchase/model.py:75-79 | the loop returns the name of the first product whose id is `id`, else `None` |
| Purchase.FilteredKeepsFailure | samples/purchase/model.py:54-56 | a product whose test raises makes `list` raise, whatever follows it |
| Purchase.FilteredIsOnSale | samples/purchase/model.py:51-57 | over documented products `list` raises nothing and keeps exactly the products on sale, in order |
| Purchase.OnSaleMembership | samples/purchase/model.py:55 | a product is kept exactly when it is in the list and on sale |
| Purchase.FilteredRaisesOnMissingField | samples/purchase/model.py:55 | a product missing `purchasable` makes `list` raise `KeyError` |
| Purchase.FailedQueryBreaksLookups | samples/purchase/model.py:45-54 | a failed query leaves `None` as the product list, and every lookup then raises `TypeError` |
| Purchase.LowerHasNoCapital | samples/purchase/model.py:71 | a lower-cased name holds no capital letter |
| Purchase.IdByNameFindsFirst | samples/purchase/model.py:68-73 | over documented products `productId` returns the id of the first product with that name |
| Purchase.IdByNameFindsNone | samples/purchase/model.py:68-73 | over documented products it returns `None` when no lower-cased name matches |
| Purchase.CapitalisedNameNeverMatches | samples/purchase/model.py:71 | a spoken name with a capital letter never matches a product |
| Purchase.NameByIdFindsFirst | samples/purchase/model.py:75-79 | `productName` returns the name of the first product with the id |
| Purchase.NameByIdFindsNone | samples/purchase/model.py:75-79 | over documented products `productName` returns `None` when no product has the id |
| Purchase.NameOfIdFoundByName | samples/purchase/model.py:68-79 | with distinct ids, `productName` undoes `productId`: the id found for a name leads back to that product's name |

## Left out

- Flask plumbing is not modelled. This covers `init_app`/`init_blueprint`, the `find_ask` and `LocalProxy` globals, the `_app_ctx_stack` properties, and reading `flask_request`. The request context is an explicit record instead.
- `YamlLoader` is not modelled: it is template loading from the filesystem.
- `inspect.getargspec` is not modelled: each handler carries its parameter list.
- The certificate download and its PEM/ASN.1 decoding (`_get_signature_cert`) are oracles.
- The RSA check (RSASSA-PKCS1-v1_5 from RFC 8017, section 8.2) and `verifier.load_certificate` / `verify_signature` / `verify_timestamp` / `verify_application_id` are oracles. These are the foreign verifier calls the gate makes.
- aniso8601 is abstract: `parse_datetime`, `parse_time` and `parse_duration` are parameters.
- XML parsing in `_output_speech` is abstract: a parameter gives the root tag of the speech.
- The random stream token is a parameter: `AudioItem` takes the drawn number.
- The wall clock is a parameter of every check that reads it.
- Core.SlotData: the order in which Python walks the slot dictionary is a parameter of the model, so two slots with the same `name` resolve in whatever order is given. Nothing ties that order to the slot dictionary's keys: the model also covers orders that skip, repeat or invent keys (an invented key raises `AttributeError`), which `slots.items()` never produces.
- The `_player_request_view_funcs`, `_player_mappings` and `_player_converts` tables are written by `__init__` and read nowhere, so they are not modelled.
- Response objects keep their JSON form. `render_response`'s `json.dumps` and the session's `attributes_encoder` are not modelled.
- `_dbgdump`, `print`, `pprint` and logging are not modelled.
- The `__repr__` of `Request` is not modelled.
- `Text.Lower`: only ASCII letters are lower-cased. Python's full Unicode case mapping is left out.
- `Urls.UrlParse`: models Python 2.7's `urlparse` without a default scheme. The query and fragment are split, and the scheme-specific `uses_params` parsing is kept. Inputs with non-ASCII characters follow the same character rules as ASCII.
- Tidepooler.PyLess: compares str with str and int with int only; every other pair is modelled as `TypeError`. Python 3 does raise for a string against a number or for `None`, but it compares booleans with integers and lists element by element, and Python 2 orders any two values; those comparisons are not modelled.
- Tidepooler.DecimalValue: reads only the NOAA spelling of a height, such as `-0.123`. Other spellings `float()` accepts are left out: exponents, surrounding space, `inf`.
- Floating-point arithmetic is not modelled. The heights' `float()` is a parameter, and the numeric comparison is over exact rationals.
- `humanize_height` and `humanize_date` are not modelled, because they are floating-point and `strftime` formatting.
- The `strptime` of prediction times in the tide sample is a parameter.
- HistoryBuff.FirstPage: the month name `strftime('%B')` produces is a parameter, as is the day number.
- HistoryBuff.NextPage: the event list and index stored in the session are parameters. `get_next_event` reads them with `session.attributes[...]` (samples/historybuff/historybuff.py:72-73), which raises `KeyError` in a session where `get_first_event` stored nothing; that error path is not modelled.
- The Wikipedia and NOAA downloads (`urlopen`) are not modelled; `_parse_json` takes the text.
- The purchase sample's HTTP call in `query` is not modelled. `Purchase.Query` takes the status code and the decoded body, and the `Product` constructor takes what `query` returned.
- Purchase.Products: a non-empty dictionary product list is modelled as raising `TypeError` at once. Python yields its keys, which are strings, and every loop over the list first subscripts the item by a string, which raises `TypeError` whichever key comes first; the keys themselves are not kept.
- Python's `1 == True` is not modelled: the model's JSON booleans and integers are distinct values. Where the source converts a number, a boolean is read as 0 or 1 (`Tidepooler.FloatOf`, as `float(True) == 1.0`).
- The payment sample's `debug` is not modelled: it only prints.
- The Amazon Pay payloads (payload.py) and messages (config.py) are constants: only the messages the handler uses are modelled.
- The `statement(...).consent_card(scope)` of the payment sample is modelled as `AttributeError`, because the `statement` class of this library version has no `consent_card`.
- `Convert.StrptimeDate`: implements `strptime` for the directives `%Y %m %d %U %w` and literal characters. The `%U` week arithmetic (`WeekOf`) is an uninterpreted date.
- Verifier.ParseTimestamp: covers the directives of `%Y-%m-%dT%H:%M:%SZ`. The leap-second values 60 and 61, which the regular expression accepts and `datetime` refuses, fail as in Python.
- Microseconds and time zones of `datetime.time` are left out of `Convert.Time`.
- Concurrency is not modelled: every request is handled alone against the cache.
- Cache.SimpleCache.Set: werkzeug's `SimpleCache()`, built with its defaults at flask_ask/core.py:85-86, stamps each entry to expire 300 seconds after its `set`. When the cache holds more than 500 keys, a `set` first prunes the expired entries and every third key. Neither the expiry nor the pruning is modelled, so `Set` changes no other key and the cache never forgets.
- Cache.SimpleCache.Get: an entry older than the 300-second default timeout reads as `None` in werkzeug, but the model returns the stored stack whatever its age. The lemmas over the stack functions (`Cache.PushThenPop`, `Cache.PushPushPopPop`, `Core.CallbackRunsBeforeRouting` and the others) are therefore stated for a cache that never expires.
- Cache.Top, Cache.Pushed, Cache.Popped, Cache.SetTo: werkzeug's `get` and `set` raise `TypeError` for an unhashable key. The model accepts any JSON user id as a key, a list or a dictionary included, so a truthy unhashable user id reads as `Ok(None)` or is stored, where Python raises `TypeError`.
- Playlist.QueueManager.constructor: `self._urls = urls` shares the caller's list, so `add` and `extend` also grow the module-level `playlist` the sample passes in (samples/audio/playlist_demo/playlist.py:125). The model copies the list as a value, so that aliasing is not captured.
- Core.Ask.FlaskViewFunc: the view function is an oracle that returns only its result. What it writes to `session.attributes` (which the reply would carry) and the streams it pushes to the stream cache (through `audio(...).play()` and the like) are not modelled. The reply carries the request's attributes, and `Core.Dispatched` and `Core.ViewFunc` give the cache as `_update_stream` left it.
- Text.IsDigit, HistoryBuff.LeadingDigits: a digit is an ASCII `0`-`9`. Under Python 3, `\d` in a str pattern (the year comma, and `strptime`'s directives) also matches other Unicode decimal digits; that is not modelled.
- Convert.WeekToken, Convert.WeekendToken: the week date is kept as year, week and weekday (`WeekOf`) and is not resolved to a calendar day. Week dates outside `datetime`'s range, such as `0001-W00` and `9999-W53`, make `strptime` raise `ValueError`; the model gives `Ok(WeekOf(...))` for them.
- Streams.PairOf: a two-key dictionary as an update element gives its keys in insertion order, and a pair whose key is not a string adds a non-string attribute name. Neither is representable in the string-keyed model; both are reported as `ForeignError`.

## Findings

| source | as written | input that shows it | evidently intended | confidence | as-written member | corrected member |
|---|---|---|---|---|---|---|
| flask_ask/convert.py:50 | on a `ValueError` from the parser, the handler reads `e.message`, which Python 3 exceptions do not have, so it raises `AttributeError` | `to_time("not a time")` under Python 3, with the parser raising `ValueError` | log the error and return `None` | high; not executed | Convert.ToTimePython3Differs | Convert.ToTime |
| flask_ask/models.py:166 | `expectedPreviousToken` is read from `current_stream` after `_audio_item` has pushed the new stream, so the stream expects its own token | `enqueue(url)` for a user whose cached top stream has token `"12345"`, drawing token `54321`: the directive expects `"54321"` | the token of the stream that was current before the call | high; not executed | Models.EnqueueExpectsItself | Models.EnqueueIntendedExpectsPrevious |
| samples/tidepooler/tidepooler.py:267 | heights are compared as the raw strings of the NOAA response, and for negative heights string order is the reverse of numeric order | predictions with heights `"-0.500"`, `"-0.300"`, `"-0.400"`: the scan takes the last as the first high tide and finds no low tide | compare the heights as numbers; the middle prediction is then the high tide and the last the low tide | medium; not executed | Tidepooler.DipDayAsWritten | Tidepooler.DipDayNumeric |
| samples/historybuff/historybuff.py:56-58 | the first page indexes `events[0..2]` whatever the number of events | a day whose extract yields one event: `events[1]` raises `IndexError` | show up to three events, as `get_next_event` does | high; not executed | HistoryBuff.FirstPageRaisesOnShortList | HistoryBuff.FirstPageClamped |
