/** The dispatcher (flask_ask/core.py): the decorator registry, the request gate, the
    routing of a request to a view function, and the binder that reads the view function's
    arguments out of the request. Flask's request and application context are explicit
    inputs here: the raw body and headers, the configuration, and an `Env` record standing
    for JSON decoding, the crypto and clock checks, the ISO parsers and the view functions
    themselves. */
module Core {
  import opened Outcomes
  import opened PyJson
  import opened Text
  import opened Cache
  import opened Streams
  import Convert
  import Models

  // ---- what is registered ----

  /** A view function: a name for it and the parameter names `inspect.getargspec` reports. */
  datatype Handler = Handler(name: string, params: seq<string>)

  /** A bound argument: a JSON value read from the request (or a default), or what a converter
      produced from it. */
  datatype Arg =
    | Value(j: Json)
    | DateArg(date: Option<Convert.Date>)
    | TimeArg(time: Option<Convert.Time>)
    | DurationArg(duration: Convert.Duration)

  /** A converter as registered: a string, looked up in `_converters`, or a function. */
  datatype Converter = Shorthand(name: string) | Function(apply: Json -> Outcome<Arg>)

  /** A default as registered: called when it is callable, used as it is otherwise. */
  datatype Default = Literal(v: Json) | Callable(call: () -> Outcome<Json>)

  /** The three tables the binder reads for one view name. */
  datatype ViewTables = ViewTables(mapping: map<string, string>, convert: map<string, Converter>, default: map<string, Default>)

  /** What the decorators have written: the four intent tables (playback handlers share them),
      and the single-slot launch, session-ended, session-started and default-intent handlers. */
  datatype Registry = Registry(
    views: map<string, Handler>,
    mappings: map<string, map<string, string>>,
    converts: map<string, map<string, Converter>>,
    defaults: map<string, map<string, Default>>,
    launch: Option<Handler>,
    sessionEnded: Option<Handler>,
    sessionStarted: Option<Handler>,
    defaultIntent: Option<Handler>)

  const EMPTY_REGISTRY := Registry(map[], map[], map[], map[], None, None, None, None)

  /** The four intent tables always have the same keys. */
  predicate Aligned(r: Registry) {
    r.mappings.Keys == r.views.Keys && r.converts.Keys == r.views.Keys && r.defaults.Keys == r.views.Keys
  }

  /** What `@ask.intent(key, mapping, convert, default)` (and each `on_playback_*`) writes. */
  function Register(r: Registry, key: string, f: Handler, t: ViewTables): Registry {
    r.(views := r.views[key := f], mappings := r.mappings[key := t.mapping],
       converts := r.converts[key := t.convert], defaults := r.defaults[key := t.default])
  }

  /** The `convert`, `default` and `mapping` tables of a view name, `None` when it has none. */
  function TablesFor(r: Registry, key: Option<string>): Option<ViewTables> {
    if key.Some? && key.value in r.mappings && key.value in r.converts && key.value in r.defaults then
      Some(ViewTables(r.mappings[key.value], r.converts[key.value], r.defaults[key.value]))
    else None
  }

  /** The AudioPlayer events with a decorator of their own. */
  datatype PlaybackEvent = PlaybackStarted | PlaybackFinished | PlaybackStopped | PlaybackNearlyFinished | PlaybackFailed

  /** The intent-table key a playback decorator writes. */
  function EventKey(e: PlaybackEvent): (k: string)
    ensures StartsWith(k, "AudioPlayer.")
  {
    match e
    case PlaybackStarted => "AudioPlayer.PlaybackStarted"
    case PlaybackFinished => "AudioPlayer.PlaybackFinished"
    case PlaybackStopped => "AudioPlayer.PlaybackStopped"
    case PlaybackNearlyFinished => "AudioPlayer.PlaybackNearlyFinished"
    case PlaybackFailed => "AudioPlayer.PlaybackFailed"
  }

  /** The `mapping` a playback decorator uses when none is given: `offset` reads
      `offsetInMilliseconds`, except for `PlaybackFailed`, whose default is empty. */
  function DefaultPlaybackMapping(e: PlaybackEvent): map<string, string> {
    if e == PlaybackFailed then map[] else map["offset" := "offsetInMilliseconds"]
  }

  /** Registering a key again replaces all four entries: the last registration wins. */
  lemma RegisterLastWins(r: Registry, key: string, f: Handler, t: ViewTables, g: Handler, u: ViewTables)
    ensures Register(Register(r, key, f, t), key, g, u) == Register(r, key, g, u)
    ensures Register(r, key, g, u).views[key] == g && TablesFor(Register(r, key, g, u), Some(key)) == Some(u)
  {
    UpdateTwice(r.views, key, f, g);
    UpdateTwice(r.mappings, key, t.mapping, u.mapping);
    UpdateTwice(r.converts, key, t.convert, u.convert);
    UpdateTwice(r.defaults, key, t.default, u.default);
  }

  /** A second write to a key overwrites the first. */
  lemma UpdateTwice<K, V>(m: map<K, V>, k: K, a: V, b: V)
    ensures m[k := a][k := b] == m[k := b]
  {
  }

  /** Registering one key changes no other key's handler or tables, nor the single-slot
      handlers. */
  lemma RegisterKeepsOthers(r: Registry, key: string, f: Handler, t: ViewTables, other: string)
    requires other != key
    ensures var s := Register(r, key, f, t);
            (other in s.views <==> other in r.views) && (other in r.views ==> s.views[other] == r.views[other]) &&
            TablesFor(s, Some(other)) == TablesFor(r, Some(other)) &&
            s.launch == r.launch && s.sessionEnded == r.sessionEnded &&
            s.sessionStarted == r.sessionStarted && s.defaultIntent == r.defaultIntent
  {
  }

  /** Registration keeps the four tables aligned, and the key is then in all of them. */
  lemma RegisterKeepsAligned(r: Registry, key: string, f: Handler, t: ViewTables)
    requires Aligned(r)
    ensures Aligned(Register(r, key, f, t)) && key in Register(r, key, f, t).views
  {
  }

  // ---- the gate: `_alexa_request` ----

  /** The configuration the gate reads: ASK_VERIFY_REQUESTS, `app.debug`,
      ASK_VERIFY_TIMESTAMP_DEBUG and ASK_APPLICATION_ID (`None` by default). */
  datatype Config = Config(verifyRequests: bool, debug: bool, verifyTimestampDebug: bool, applicationId: Option<Json>)

  /** The ISO parsers the `time` and `timedelta` converters call. */
  datatype Parsers = Parsers(parseTime: Json -> Outcome<Convert.Time>, parseDuration: Json -> Outcome<Convert.Duration>)

  /** What a view function returned: `None`, a response object (its response body), a
      `(body, status)` pair, or any other value. */
  datatype ViewResult = NoResult | ResponseResult(body: map<string, Json>) | StatusResult(text: string, code: int) | Returned(v: Json)

  /** The collaborators the dispatcher calls and this model does not define: JSON decoding,
      the verifier's certificate, signature, clock and application-id checks, the ISO
      timestamp parser, the session-started callback and the view functions (the effects of
      both on anything but their result are not modelled), the converters' parsers, and the
      iteration order of an intent's slot object. */
  datatype Env = Env(
    loads: string -> Outcome<Json>,
    loadCertificate: string -> Outcome<nat>,
    verifySignature: (nat, string, string) -> Outcome<()>,
    parseDatetime: Json -> Outcome<int>,
    verifyTimestamp: int -> Outcome<()>,
    verifyApplicationId: (Json, Json) -> Outcome<()>,
    sessionStarted: Handler -> Outcome<()>,
    call: (Handler, seq<Arg>) -> Outcome<ViewResult>,
    parsers: Parsers,
    slotOrder: seq<string>)

  /** The request headers: `headers[name]` raises `KeyError` for a missing one. */
  type Headers = string -> Option<string>

  /** `payload['session']['application']['applicationId']`, falling back to the context's
      `System.application` when the first lookup raises `KeyError`; a `TypeError` is not
      caught. */
  function ApplicationId(payload: Json): (r: Outcome<Json>)
    ensures Index(payload, "session").Ok? && Index(payload, "session").value.JDict? &&
            "application" in Index(payload, "session").value.fields &&
            Index(Index(payload, "session").value.fields["application"], "applicationId").Ok? ==>
              r == Index(Index(payload, "session").value.fields["application"], "applicationId")
  {
    match IndexPath(payload, ["session", "application", "applicationId"])
    case Raise(KeyError) => IndexPath(payload, ["context", "System", "application", "applicationId"])
    case other => other
  }

  /** `j[k1][k2]...` with string keys. */
  function IndexPath(j: Json, keys: seq<string>): (r: Outcome<Json>)
    ensures keys == [] ==> r == Ok(j)
    ensures keys != [] && Index(j, keys[0]).Raise? ==> r == Raise(Index(j, keys[0]).error)
    ensures keys != [] && Index(j, keys[0]).Ok? ==> r == IndexPath(Index(j, keys[0]).value, keys[1..])
    decreases |keys|
  {
    if keys == [] then Ok(j)
    else match Index(j, keys[0])
      case Raise(e) => Raise(e)
      case Ok(v) => IndexPath(v, keys[1..])
  }

  /** The checks of `_alexa_request` once the body is decoded, in their order: both headers,
      the certificate, the signature, the timestamp (always parsed, verified unless debugging
      without ASK_VERIFY_TIMESTAMP_DEBUG), the application id (always looked up, verified only
      when one is configured). */
  function Checks(cfg: Config, headers: Headers, rawBody: string, payload: Json, env: Env): Outcome<()> {
    match headers("Signaturecertchainurl")
    case None => Raise(KeyError)
    case Some(certUrl) =>
      match headers("Signature")
      case None => Raise(KeyError)
      case Some(signature) =>
        match env.loadCertificate(certUrl)
        case Raise(e) => Raise(e)
        case Ok(cert) =>
          match env.verifySignature(cert, signature, rawBody)
          case Raise(e) => Raise(e)
          case Ok(_) => TimeAndApplicationChecks(cfg, payload, env)
  }

  /** The timestamp and application-id part of the checks. */
  function TimeAndApplicationChecks(cfg: Config, payload: Json, env: Env): Outcome<()> {
    match IndexPath(payload, ["request", "timestamp"])
    case Raise(e) => Raise(e)
    case Ok(stamp) =>
      match env.parseDatetime(stamp)
      case Raise(e) => Raise(e)
      case Ok(instant) =>
        match (if !cfg.debug || cfg.verifyTimestampDebug then env.verifyTimestamp(instant) else Ok(()))
        case Raise(e) => Raise(e)
        case Ok(_) =>
          match ApplicationId(payload)
          case Raise(e) => Raise(e)
          case Ok(appId) =>
            if cfg.applicationId.Some? then env.verifyApplicationId(appId, cfg.applicationId.value) else Ok(())
  }

  /** _alexa_request: decode the body, run the checks when verification is on, and hand back
      the decoded payload. */
  function AlexaRequest(cfg: Config, headers: Headers, rawBody: string, env: Env): (r: Outcome<Json>)
    ensures r.Ok? ==> env.loads(rawBody) == r
    ensures env.loads(rawBody).Raise? ==> r == env.loads(rawBody)
  {
    match env.loads(rawBody)
    case Raise(e) => Raise(e)
    case Ok(payload) =>
      if !cfg.verifyRequests then Ok(payload)
      else match Checks(cfg, headers, rawBody, payload, env)
        case Raise(e) => Raise(e)
        case Ok(_) => Ok(payload)
  }

  /** With verification off, the body is only decoded: no header, certificate, signature, clock
      or application-id check is consulted. */
  lemma VerifyOffOnlyDecodes(cfg: Config, headers: Headers, rawBody: string, env: Env)
    requires !cfg.verifyRequests
    ensures AlexaRequest(cfg, headers, rawBody, env) == env.loads(rawBody)
  {
  }

  /** With verification on, a missing header, a certificate that does not load or a signature
      that does not verify rejects the request, whatever the rest of the configuration. */
  lemma CertAndSignatureAlwaysChecked(cfg: Config, headers: Headers, rawBody: string, env: Env)
    requires cfg.verifyRequests && env.loads(rawBody).Ok?
    ensures headers("Signaturecertchainurl").None? ==> AlexaRequest(cfg, headers, rawBody, env) == Raise(KeyError)
    ensures headers("Signaturecertchainurl").Some? && headers("Signature").None? ==>
              AlexaRequest(cfg, headers, rawBody, env) == Raise(KeyError)
    ensures headers("Signaturecertchainurl").Some? && headers("Signature").Some? &&
            env.loadCertificate(headers("Signaturecertchainurl").value).Raise? ==>
              AlexaRequest(cfg, headers, rawBody, env) == Raise(env.loadCertificate(headers("Signaturecertchainurl").value).error)
    ensures headers("Signaturecertchainurl").Some? && headers("Signature").Some? &&
            env.loadCertificate(headers("Signaturecertchainurl").value).Ok? &&
            env.verifySignature(env.loadCertificate(headers("Signaturecertchainurl").value).value, headers("Signature").value, rawBody).Raise? ==>
              AlexaRequest(cfg, headers, rawBody, env).Raise?
  {
  }

  /** The clock check is skipped exactly when `app.debug` is set and ASK_VERIFY_TIMESTAMP_DEBUG
      is not: then any clock gives the same verdict. Otherwise a failing clock check rejects a
      request whose timestamp parses. */
  lemma TimestampCheckedUnlessDebugging(cfg: Config, payload: Json, env: Env, clock: int -> Outcome<()>)
    ensures cfg.debug && !cfg.verifyTimestampDebug ==>
              TimeAndApplicationChecks(cfg, payload, env.(verifyTimestamp := clock)) == TimeAndApplicationChecks(cfg, payload, env)
    ensures (!cfg.debug || cfg.verifyTimestampDebug) &&
            IndexPath(payload, ["request", "timestamp"]).Ok? &&
            env.parseDatetime(IndexPath(payload, ["request", "timestamp"]).value).Ok? &&
            env.verifyTimestamp(env.parseDatetime(IndexPath(payload, ["request", "timestamp"]).value).value).Raise? ==>
              TimeAndApplicationChecks(cfg, payload, env).Raise?
  {
  }

  /** The application id is verified only when ASK_APPLICATION_ID is set; it is looked up
      either way, so a payload with neither `session.application` nor
      `context.System.application` is rejected even then. */
  lemma ApplicationIdCheckedOnlyWhenConfigured(cfg: Config, payload: Json, env: Env, check: (Json, Json) -> Outcome<()>)
    ensures cfg.applicationId.None? ==>
              TimeAndApplicationChecks(cfg, payload, env.(verifyApplicationId := check)) == TimeAndApplicationChecks(cfg, payload, env)
    ensures ApplicationId(payload) == Raise(KeyError) && IndexPath(payload, ["request", "timestamp"]).Ok? &&
            env.parseDatetime(IndexPath(payload, ["request", "timestamp"]).value).Ok? && cfg.debug && !cfg.verifyTimestampDebug ==>
              TimeAndApplicationChecks(cfg, payload, env) == Raise(KeyError)
  {
  }

  /** A payload whose session and context both lack the application lookup raises `KeyError`. */
  lemma ApplicationIdMissing(session: map<string, Json>, context: map<string, Json>, rest: map<string, Json>)
    requires "application" !in session && "System" !in context
    ensures ApplicationId(JDict(rest["session" := JDict(session)]["context" := JDict(context)])) == Raise(KeyError)
  {
    var p := JDict(rest["session" := JDict(session)]["context" := JDict(context)]);
    assert Index(p, "session") == Ok(JDict(session));
    assert IndexPath(p, ["session", "application", "applicationId"]) == Raise(KeyError) by {
      assert ["session", "application", "applicationId"][1..] == ["application", "applicationId"];
    }
    assert Index(p, "context") == Ok(JDict(context));
    assert ["context", "System", "application", "applicationId"][1..] == ["System", "application", "applicationId"];
  }

  // ---- the request envelope ----

  /** The four attributes `_flask_view_func` stores for the request. */
  datatype Envelope = Envelope(request: Json, version: Json, context: Json, session: map<string, Json>)

  /** The session as it is kept: the body's `session`, else the one already in the context; a
      falsy one replaced by an empty object; falsy `attributes` replaced by an empty object. */
  function NormaliseSession(s: Json): (r: Outcome<map<string, Json>>)
    ensures r.Ok? ==> "attributes" in r.value && (Truthy(r.value["attributes"]) || r.value["attributes"] == JDict(map[]))
    ensures r.Ok? ==> forall k | k in r.value && k != "attributes" :: s.JDict? && k in s.fields && r.value[k] == s.fields[k]
    ensures r.Ok? && s.JDict? ==> s.fields.Keys <= r.value.Keys
    ensures r.Raise? <==> Truthy(s) && !s.JDict?
  {
    var s1 := if Truthy(s) then s else JDict(map[]);
    if !s1.JDict? then Raise(AttributeError)
    else if Truthy(Get(s1.fields, "attributes")) then Ok(s1.fields)
    else Ok(s1.fields["attributes" := JDict(map[])])
  }

  /** models._Field(payload) and the attribute reads on it: `request` and `version` must be
      present, `context` defaults to an empty object, `session` to the previous one. */
  function ReadEnvelope(payload: Json, previousSession: Json): (r: Outcome<Envelope>)
    ensures r.Ok? <==> payload.JDict? && "request" in payload.fields && "version" in payload.fields &&
                       NormaliseSession(if "session" in payload.fields then payload.fields["session"] else previousSession).Ok?
  {
    if !payload.JDict? then Raise(AttributeError)
    else
      var b := payload.fields;
      if "request" !in b || "version" !in b then Raise(AttributeError)
      else
        var context := if "context" in b then b["context"] else JDict(map[]);
        match NormaliseSession(if "session" in b then b["session"] else previousSession)
        case Raise(e) => Raise(e)
        case Ok(s) => Ok(Envelope(b["request"], b["version"], context, s))
  }

  // ---- the binder: `_map_params_to_view_args` ----

  /** One slot of the slot walk: read slot `key` of the slot object and store its `value`
      (`None` when it has none) under the slot's own `name`. */
  function AddSlot(data: map<Json, Json>, slots: map<string, Json>, key: string): Outcome<map<Json, Json>> {
    if key !in slots then Raise(AttributeError)
    else match DictAttr(slots[key], "name")
      case Raise(e) => Raise(e)
      case Ok(name) => if Hashable(name) then Ok(data[name := Get(slots[key].fields, "value")]) else Raise(TypeError)
  }

  /** The slot values of an intent, walking the slot object's keys in the order `order`; a
      later slot with the same name overwrites an earlier one. */
  function SlotData(slots: map<string, Json>, order: seq<string>): Outcome<map<Json, Json>>
    decreases |order|
  {
    if order == [] then Ok(map[])
    else match SlotData(slots, order[..|order| - 1])
      case Raise(e) => Raise(e)
      case Ok(data) => AddSlot(data, slots, order[|order| - 1])
  }

  /** Every field of a request object, keyed by its name. */
  function FieldData(fields: map<string, Json>): map<Json, Json> {
    map k | k in fields :: JStr(k) := fields[k]
  }

  /** `request_data`: the slot values when the request carries an intent (none when its `slots`
      is `None`), and otherwise every field of the request. */
  function RequestData(request: Json, slotOrder: seq<string>): Outcome<map<Json, Json>> {
    var intent := if request.JDict? then Get(request.fields, "intent") else JNull;
    if intent != JNull then
      match DictAttr(intent, "slots")
      case Raise(e) => Raise(e)
      case Ok(slots) =>
        if slots == JNull then Ok(map[])
        else if slots.JDict? then SlotData(slots.fields, slotOrder)
        else Raise(AttributeError)
    else if request.JDict? then Ok(FieldData(request.fields))
    else Raise(TypeError)
  }

  /** A converter applied to a value. `date`, `time` and `timedelta` name the converters of
      flask_ask/convert.py (`to_date` on anything but a string raises `TypeError` in
      `re.sub`); any other string is called as a function, which raises `TypeError`. */
  function ApplyConverter(c: Converter, v: Json, parsers: Parsers): Outcome<Arg> {
    match c
    case Function(f) => f(v)
    case Shorthand(name) =>
      if name == "date" then
        if v.JStr? then
          match Convert.ToDate(v.s) case Raise(e) => Raise(e) case Ok(d) => Ok(DateArg(d))
        else Raise(TypeError)
      else if name == "time" then
        match Convert.ToTime(v, parsers.parseTime) case Raise(e) => Raise(e) case Ok(t) => Ok(TimeArg(t))
      else if name == "timedelta" then
        match Convert.ToTimedelta(v, parsers.parseDuration) case Raise(e) => Raise(e) case Ok(d) => Ok(DurationArg(d))
      else Raise(TypeError)
  }

  /** The key a parameter is read from: `mapping.get(name, name)`. */
  function SourceKey(mapping: map<string, string>, name: string): string {
    if name in mapping then mapping[name] else name
  }

  /** The value read for a parameter: `request_data.get(key)`. */
  function RawValue(data: map<Json, Json>, key: string): Json {
    if JStr(key) in data then data[JStr(key)] else JNull
  }

  /** One parameter: its bound value and the converter failure recorded for it, if any. A
      `None` or `""` value takes the default (called when callable) and is never converted;
      an exception from a default propagates, one from a converter is recorded and the raw
      value is kept. */
  function BindOne(name: string, t: ViewTables, data: map<Json, Json>, parsers: Parsers): Outcome<(Arg, Option<PyError>)> {
    var v := RawValue(data, SourceKey(t.mapping, name));
    if v == JNull || v == JStr("") then
      if name in t.default then
        match t.default[name]
        case Literal(x) => Ok((Value(x), None))
        case Callable(c) => match c() case Raise(e) => Raise(e) case Ok(x) => Ok((Value(x), None))
      else Ok((Value(v), None))
    else if name in t.convert then
      match ApplyConverter(t.convert[name], v, parsers)
      case Ok(a) => Ok((a, None))
      case Raise(e) => Ok((Value(v), Some(e)))
    else Ok((Value(v), None))
  }

  /** What a binding produces: the argument list and `convert_errors`. */
  datatype Bound = Bound(args: seq<Arg>, errors: map<string, PyError>)

  /** The binding loop over the declared parameters, `tables` being `None` for a view name
      without tables (reading its `mapping` then raises `AttributeError`). */
  function BindAll(names: seq<string>, tables: Option<ViewTables>, data: map<Json, Json>, parsers: Parsers): Outcome<Bound>
    decreases |names|
  {
    if names == [] then Ok(Bound([], map[]))
    else match BindAll(names[..|names| - 1], tables, data, parsers)
      case Raise(e) => Raise(e)
      case Ok(b) => BindNext(b, names[|names| - 1], tables, data, parsers)
  }

  /** One iteration of the binding loop. */
  function BindNext(b: Bound, name: string, tables: Option<ViewTables>, data: map<Json, Json>, parsers: Parsers): Outcome<Bound> {
    if tables.None? then Raise(AttributeError)
    else match BindOne(name, tables.value, data, parsers)
      case Raise(e) => Raise(e)
      case Ok(p) => Ok(Bound(b.args + [p.0], if p.1.Some? then b.errors[name := p.1.value] else b.errors))
  }

  /** _map_params_to_view_args for view name `key`: the request data first, then the loop. */
  function MapParams(r: Registry, key: Option<string>, names: seq<string>, request: Json, env: Env): Outcome<Bound> {
    match RequestData(request, env.slotOrder)
    case Raise(e) => Raise(e)
    case Ok(data) => BindAll(names, TablesFor(r, key), data, env.parsers)
  }

  /** Once a prefix of the walk over the slots raises, the whole walk raises the same error. */
  lemma {:induction false} SlotDataPrefixRaises(slots: map<string, Json>, order: seq<string>, i: nat)
    requires i <= |order| && SlotData(slots, order[..i]).Raise?
    ensures SlotData(slots, order) == SlotData(slots, order[..i])
    decreases |order| - i
  {
    if i < |order| {
      assert order[..i + 1][..i] == order[..i];
      SlotDataPrefixRaises(slots, order, i + 1);
    } else {
      assert order[..i] == order;
    }
  }

  /** Once a prefix of the binding loop raises, the whole loop raises the same error. */
  lemma {:induction false} BindAllPrefixRaises(names: seq<string>, tables: Option<ViewTables>, data: map<Json, Json>, parsers: Parsers, i: nat)
    requires i <= |names| && BindAll(names[..i], tables, data, parsers).Raise?
    ensures BindAll(names, tables, data, parsers) == BindAll(names[..i], tables, data, parsers)
    decreases |names| - i
  {
    if i < |names| {
      assert names[..i + 1][..i] == names[..i];
      BindAllPrefixRaises(names, tables, data, parsers, i + 1);
    } else {
      assert names[..i] == names;
    }
  }

  /** One more parameter: the binding of a longer prefix continues the shorter one. */
  lemma BindAllStep(names: seq<string>, i: nat, tables: Option<ViewTables>, data: map<Json, Json>, parsers: Parsers, b: Bound)
    requires i < |names| && BindAll(names[..i], tables, data, parsers) == Ok(b)
    ensures BindAll(names[..i + 1], tables, data, parsers) == BindNext(b, names[i], tables, data, parsers)
  {
    assert names[..i + 1][..i] == names[..i];
  }

  /** The binding loop succeeds exactly when every parameter binds. */
  lemma {:induction false} BindAllOkIff(names: seq<string>, t: ViewTables, data: map<Json, Json>, parsers: Parsers)
    ensures BindAll(names, Some(t), data, parsers).Ok? <==> forall i | 0 <= i < |names| :: BindOne(names[i], t, data, parsers).Ok?
    decreases |names|
  {
    if names != [] {
      var front := names[..|names| - 1];
      BindAllOkIff(front, t, data, parsers);
      assert forall i | 0 <= i < |front| :: front[i] == names[i];
    }
  }

  /** The binding loop yields one value per declared parameter, in declaration order, each
      being that parameter's own binding. */
  lemma {:induction false} BindAllArgs(names: seq<string>, t: ViewTables, data: map<Json, Json>, parsers: Parsers)
    requires BindAll(names, Some(t), data, parsers).Ok?
    ensures var b := BindAll(names, Some(t), data, parsers).value;
            |b.args| == |names| &&
            forall i | 0 <= i < |names| :: BindOne(names[i], t, data, parsers).Ok? && b.args[i] == BindOne(names[i], t, data, parsers).value.0
    decreases |names|
  {
    if names != [] {
      var front := names[..|names| - 1];
      var fb := BindAll(front, Some(t), data, parsers);
      assert fb.Ok?;
      BindAllArgs(front, t, data, parsers);
      var p := BindOne(names[|names| - 1], t, data, parsers);
      assert BindAll(names, Some(t), data, parsers).value.args == fb.value.args + [p.value.0];
      assert forall i | 0 <= i < |front| :: front[i] == names[i];
    }
  }

  /** `convert_errors` holds exactly the parameters whose converter raised, with that error, so
      it is empty exactly when no converter raised. */
  lemma {:induction false} BindAllErrors(names: seq<string>, t: ViewTables, data: map<Json, Json>, parsers: Parsers)
    requires BindAll(names, Some(t), data, parsers).Ok?
    ensures forall k | k in names :: BindOne(k, t, data, parsers).Ok?
    ensures var b := BindAll(names, Some(t), data, parsers).value;
            (forall k :: k in b.errors <==> k in names && BindOne(k, t, data, parsers).value.1.Some?) &&
            (forall k | k in b.errors :: b.errors[k] == BindOne(k, t, data, parsers).value.1.value)
    decreases |names|
  {
    if names != [] {
      var front := names[..|names| - 1];
      var last := names[|names| - 1];
      var fb := BindAll(front, Some(t), data, parsers);
      assert fb.Ok?;
      BindAllErrors(front, t, data, parsers);
      var p := BindOne(last, t, data, parsers);
      assert BindAll(names, Some(t), data, parsers).value.errors ==
               if p.value.1.Some? then fb.value.errors[last := p.value.1.value] else fb.value.errors;
      assert forall k :: k in names <==> k in front || k == last;
    }
  }

  /** Hence `convert_errors` is empty exactly when no converter raised. */
  lemma NoErrorsIffNoConverterRaised(names: seq<string>, t: ViewTables, data: map<Json, Json>, parsers: Parsers)
    requires BindAll(names, Some(t), data, parsers).Ok?
    ensures forall k | k in names :: BindOne(k, t, data, parsers).Ok?
    ensures BindAll(names, Some(t), data, parsers).value.errors == map[] <==>
              forall k | k in names :: BindOne(k, t, data, parsers).value.1.None?
  {
    BindAllErrors(names, t, data, parsers);
    var b := BindAll(names, Some(t), data, parsers).value;
    if b.errors != map[] {
      var k :| k in b.errors;
      assert k in names && BindOne(k, t, data, parsers).value.1.Some?;
    }
  }

  /** A view name without tables (the default-intent handler bound under an unmatched name,
      or `lambda: None` for an unregistered player event) binds only when no parameter is
      declared; otherwise reading its `mapping` raises `AttributeError`. */
  lemma AbsentTablesBindOnlyWithoutParams(names: seq<string>, data: map<Json, Json>, parsers: Parsers)
    ensures BindAll(names, None, data, parsers) == if names == [] then Ok(Bound([], map[])) else Raise(AttributeError)
  {
    if names != [] {
      var front := names[..|names| - 1];
      if front != [] {
        AbsentTablesBindOnlyWithoutParams(front, data, parsers);
      }
    }
  }

  /** A parameter with no value (or `""`) and a literal default binds to the default, whatever
      converter it has, and records no error. */
  lemma DefaultsNotConverted(name: string, t: ViewTables, data: map<Json, Json>, parsers: Parsers, x: Json)
    requires name in t.default && t.default[name] == Literal(x)
    requires RawValue(data, SourceKey(t.mapping, name)) in {JNull, JStr("")}
    ensures BindOne(name, t, data, parsers) == Ok((Value(x), None))
    ensures BindOne(name, t.(convert := map[]), data, parsers) == BindOne(name, t, data, parsers)
  {
  }

  /** A value that is present goes to its converter; a converter that raises leaves the raw
      value bound and its error recorded. */
  lemma ConverterFailureKeepsRawValue(name: string, t: ViewTables, data: map<Json, Json>, parsers: Parsers)
    requires name in t.convert
    requires var v := RawValue(data, SourceKey(t.mapping, name)); v != JNull && v != JStr("")
    ensures var v := RawValue(data, SourceKey(t.mapping, name));
            ApplyConverter(t.convert[name], v, parsers).Raise? ==>
              BindOne(name, t, data, parsers) == Ok((Value(v), Some(ApplyConverter(t.convert[name], v, parsers).error)))
    ensures var v := RawValue(data, SourceKey(t.mapping, name));
            ApplyConverter(t.convert[name], v, parsers).Ok? ==>
              BindOne(name, t, data, parsers) == Ok((ApplyConverter(t.convert[name], v, parsers).value, None))
  {
  }

  /** A string that names none of the three converters is called, and calling a string raises
      `TypeError`, which the binder records. */
  lemma UnknownShorthandRecorded(name: string, t: ViewTables, data: map<Json, Json>, parsers: Parsers)
    requires name in t.convert && t.convert[name].Shorthand?
    requires t.convert[name].name !in {"date", "time", "timedelta"}
    requires var v := RawValue(data, SourceKey(t.mapping, name)); v != JNull && v != JStr("")
    ensures BindOne(name, t, data, parsers) == Ok((Value(RawValue(data, SourceKey(t.mapping, name))), Some(TypeError)))
  {
  }

  /** The name of a listed slot. */
  function SlotName(slots: map<string, Json>, key: string): Json
    requires key in slots && slots[key].JDict?
  {
    Get(slots[key].fields, "name")
  }

  /** A slot's value is keyed by the slot's own `name`, not by its key in the slot object: when
      the listed keys name distinct slots, every slot's value is found under its name, and
      nothing else is. */
  lemma {:induction false} SlotDataByName(slots: map<string, Json>, order: seq<string>)
    requires forall k | k in order :: k in slots && slots[k].JDict? && Hashable(SlotName(slots, k))
    requires forall i, j | 0 <= i < j < |order| :: SlotName(slots, order[i]) != SlotName(slots, order[j])
    ensures SlotData(slots, order).Ok?
    ensures SlotData(slots, order).value.Keys == set k | k in order :: SlotName(slots, k)
    ensures forall k | k in order :: SlotName(slots, k) in SlotData(slots, order).value &&
              SlotData(slots, order).value[SlotName(slots, k)] == Get(slots[k].fields, "value")
    decreases |order|
  {
    if order != [] {
      var front := order[..|order| - 1];
      var last := order[|order| - 1];
      assert forall i | 0 <= i < |front| :: front[i] == order[i];
      SlotDataByName(slots, front);
      var data := SlotData(slots, front).value;
      assert SlotData(slots, order).value == data[SlotName(slots, last) := Get(slots[last].fields, "value")];
      assert forall k :: k in order <==> k in front || k == last;
      forall k | k in front ensures SlotName(slots, k) != SlotName(slots, last) {
        var i :| 0 <= i < |front| && front[i] == k;
        assert order[i] == k;
      }
    }
  }

  /** Outside an intent, every request field binds under its own name. */
  lemma FieldsBindByName(fields: map<string, Json>, slotOrder: seq<string>, k: string)
    requires Get(fields, "intent") == JNull && k in fields
    ensures RequestData(JDict(fields), slotOrder).Ok?
    ensures RawValue(RequestData(JDict(fields), slotOrder).value, k) == fields[k]
  {
  }

  // ---- routing: `_flask_view_func`, `_map_intent_to_view_func`, `_map_player_request_to_func` ----

  /** Python's `str()` of a hashable JSON value, as the error message formats it. */
  function PyStr(j: Json): string {
    match j
    case JNull => "None"
    case JBool(b) => if b then "True" else "False"
    case JInt(i) => if i < 0 then "-" + NatToString(-i) else NatToString(i)
    case JStr(s) => s
    case _ => ""
  }

  /** A view name as a table key: only a string can match one. */
  function KeyOf(name: Json): Option<string> {
    if name.JStr? then Some(name.s) else None
  }

  /** The message of the exception for an intent nobody handles. */
  function NotFoundMessage(name: Json): string {
    "Intent \"" + PyStr(name) + "\" not found and no default intent specified."
  }

  /** The view function for an intent name: the handler registered under exactly that name,
      else the default-intent handler, else `NotImplementedError` naming the intent. A name
      Python cannot hash fails the membership test. */
  function IntentViewOf(r: Registry, name: Json): Outcome<Handler> {
    if !Hashable(name) then Raise(TypeError)
    else if name.JStr? && name.s in r.views then Ok(r.views[name.s])
    else if r.defaultIntent.Some? then Ok(r.defaultIntent.value)
    else Raise(NotImplementedError(NotFoundMessage(name)))
  }

  /** The handler for a player request type, `None` standing for the `lambda: None` used when
      nothing is registered. */
  function PlayerViewOf(r: Registry, requestType: Json): Outcome<Option<Handler>> {
    if !Hashable(requestType) then Raise(TypeError)
    else if requestType.JStr? && requestType.s in r.views then Ok(Some(r.views[requestType.s]))
    else Ok(None)
  }

  /** A view function together with the arguments bound for it (`functools.partial`). */
  datatype Prepared = Prepared(view: Option<Handler>, bound: Bound)

  /** The parameters a view function declares; `lambda: None` declares none. */
  function ParamsOf(view: Option<Handler>): seq<string> {
    if view.Some? then view.value.params else []
  }

  /** Bind the view function's parameters under view name `key`. */
  function Prepare(r: Registry, key: Option<string>, view: Option<Handler>, request: Json, env: Env): Outcome<Prepared> {
    match MapParams(r, key, ParamsOf(view), request, env)
    case Raise(e) => Raise(e)
    case Ok(b) => Ok(Prepared(view, b))
  }

  /** _map_intent_to_view_func(self.request.intent). */
  function IntentBinding(r: Registry, request: Json, env: Env): Outcome<Prepared> {
    match DictAttr(request, "intent")
    case Raise(e) => Raise(e)
    case Ok(intent) =>
      match DictAttr(intent, "name")
      case Raise(e) => Raise(e)
      case Ok(name) =>
        match IntentViewOf(r, name)
        case Raise(e) => Raise(e)
        case Ok(h) => Prepare(r, KeyOf(name), Some(h), request, env)
  }

  /** _map_player_request_to_func(self.request.type). */
  function PlayerBinding(r: Registry, request: Json, requestType: Json, env: Env): Outcome<Prepared> {
    match PlayerViewOf(r, requestType)
    case Raise(e) => Raise(e)
    case Ok(view) => Prepare(r, KeyOf(requestType), view, request, env)
  }

  /** Which branch of the routing chain a request type takes. */
  datatype Target = LaunchTarget | SessionEndedTarget | SessionEndedDefault | IntentTarget | PlayerTarget | NoTarget

  /** The routing chain, in its order. `'AudioPlayer' in request_type` is a substring test on a
      string and raises `TypeError` on `None`, a boolean or a number. */
  function RouteOf(r: Registry, requestType: Json): (t: Outcome<Target>)
    ensures t == Ok(LaunchTarget) ==> r.launch.Some?
    ensures t == Ok(SessionEndedTarget) ==> r.sessionEnded.Some?
  {
    if requestType == JStr("LaunchRequest") && r.launch.Some? then Ok(LaunchTarget)
    else if requestType == JStr("SessionEndedRequest") then Ok(if r.sessionEnded.Some? then SessionEndedTarget else SessionEndedDefault)
    else if requestType == JStr("IntentRequest") && r.views != map[] then Ok(IntentTarget)
    else match StrIn("AudioPlayer", requestType)
      case Raise(e) => Raise(e)
      case Ok(b) => Ok(if b then PlayerTarget else NoTarget)
  }

  /** What the routing reached: the view function's result, and the `convert_errors` stored by
      a binding that completed (`None` when there was none). */
  datatype Routed = Routed(result: Outcome<ViewResult>, convertErrors: Option<map<string, PyError>>)

  /** Call the prepared view function; `lambda: None` returns `None`. */
  function Settle(p: Outcome<Prepared>, env: Env): Routed {
    match p
    case Raise(e) => Routed(Raise(e), None)
    case Ok(prepared) =>
      Routed(if prepared.view.Some? then env.call(prepared.view.value, prepared.bound.args) else Ok(NoResult),
             Some(prepared.bound.errors))
  }

  /** The routing part of `_flask_view_func`. */
  function Route(r: Registry, request: Json, env: Env): (routed: Routed)
    ensures DictAttr(request, "type").Raise? ==> routed == Routed(Raise(DictAttr(request, "type").error), None)
    ensures DictAttr(request, "type") == Ok(JStr("LaunchRequest")) && r.launch.Some? ==>
              routed == Routed(env.call(r.launch.value, []), None)
    ensures DictAttr(request, "type") == Ok(JStr("SessionEndedRequest")) ==>
              routed == if r.sessionEnded.Some? then Routed(env.call(r.sessionEnded.value, []), None)
                        else Routed(Ok(StatusResult("{}", 200)), None)
    ensures DictAttr(request, "type") == Ok(JStr("IntentRequest")) && r.views == map[] ==> routed == Routed(Ok(NoResult), None)
    ensures (DictAttr(request, "type").Ok? && DictAttr(request, "type").value.JStr? &&
             DictAttr(request, "type").value.s !in {"LaunchRequest", "SessionEndedRequest", "IntentRequest"} &&
             !Contains(DictAttr(request, "type").value.s, "AudioPlayer")) ==> routed == Routed(Ok(NoResult), None)
    ensures DictAttr(request, "type").Ok? && DictAttr(request, "type").value.JNull? ==> routed == Routed(Raise(TypeError), None)
    ensures DictAttr(request, "type").Ok? && DictAttr(request, "type").value.JBool? ==> routed == Routed(Raise(TypeError), None)
    ensures DictAttr(request, "type").Ok? && DictAttr(request, "type").value.JInt? ==> routed == Routed(Raise(TypeError), None)
    ensures routed.convertErrors.Some? ==>
              DictAttr(request, "type").Ok? &&
              (RouteOf(r, DictAttr(request, "type").value) == Ok(IntentTarget) || RouteOf(r, DictAttr(request, "type").value) == Ok(PlayerTarget))
  {
    match DictAttr(request, "type")
    case Raise(e) => Routed(Raise(e), None)
    case Ok(requestType) =>
      RoutingTable(r, requestType);
      match RouteOf(r, requestType)
      case Raise(e) => Routed(Raise(e), None)
      case Ok(target) =>
        match target
        case LaunchTarget => Routed(env.call(r.launch.value, []), None)
        case SessionEndedTarget => Routed(env.call(r.sessionEnded.value, []), None)
        case SessionEndedDefault => Routed(Ok(StatusResult("{}", 200)), None)
        case IntentTarget => Settle(IntentBinding(r, request, env), env)
        case PlayerTarget => Settle(PlayerBinding(r, request, requestType, env), env)
        case NoTarget => Routed(Ok(NoResult), None)
  }

  /** The routing once the request type and its target are known. */
  lemma RouteToTarget(r: Registry, request: Json, env: Env, t: Json, target: Target)
    requires DictAttr(request, "type") == Ok(t) && RouteOf(r, t) == Ok(target)
    ensures target == IntentTarget ==> Route(r, request, env) == Settle(IntentBinding(r, request, env), env)
    ensures target == PlayerTarget ==> Route(r, request, env) == Settle(PlayerBinding(r, request, t, env), env)
  {
  }

  /** What `_flask_view_func` returns to Flask. */
  datatype Reply = Rendered(j: Json) | Status(text: string, code: int) | Passed(v: Json)

  /** The end of `_flask_view_func`: `None` becomes `("", 400)`, a response object is rendered
      with the session's attributes, anything else is returned unchanged. */
  function Finish(v: ViewResult, sessionAttributes: Json): (reply: Reply)
    ensures v.NoResult? ==> reply == Status("", 400)
    ensures reply.Rendered? <==> v.ResponseResult?
    ensures v.ResponseResult? ==>
              reply.j.JDict? && reply.j.fields.Keys == {"version", "response", "sessionAttributes"} &&
              "response" in reply.j.fields && reply.j.fields["response"] == JDict(v.body) &&
              "sessionAttributes" in reply.j.fields && reply.j.fields["sessionAttributes"] == sessionAttributes &&
              "version" in reply.j.fields && reply.j.fields["version"] == JStr("1.0")
    ensures v.StatusResult? ==> reply == Status(v.text, v.code)
    ensures v.Returned? ==> reply == Passed(v.v)
  {
    match v
    case NoResult => Status("", 400)
    case ResponseResult(body) => Rendered(Models.RenderResponse(body, sessionAttributes))
    case StatusResult(text, code) => Status(text, code)
    case Returned(x) => Passed(x)
  }

  /** The session-started step: the callback runs when `session.new` is truthy and one is
      registered; an `AttributeError`, wherever it arises, is swallowed. */
  function SessionStart(r: Registry, session: map<string, Json>, env: Env): Outcome<()> {
    if Truthy(Get(session, "new")) && r.sessionStarted.Some? then
      match env.sessionStarted(r.sessionStarted.value)
      case Raise(AttributeError) => Ok(())
      case Raise(e) => Raise(e)
      case Ok(_) => Ok(())
    else Ok(())
  }

  /** The whole of `_flask_view_func`: the reply, the `convert_errors` left in the context, and
      the stream cache as the stream update leaves it (the view function's own writes to the
      session and the cache are not modelled). */
  datatype ViewOutcome = ViewOutcome(reply: Outcome<Reply>, convertErrors: Option<map<string, PyError>>, entries: map<UserId, seq<Json>>)

  function ViewFunc(r: Registry, cfg: Config, headers: Headers, rawBody: string, previousSession: Json,
                    m: map<UserId, seq<Json>>, env: Env): ViewOutcome {
    match AlexaRequest(cfg, headers, rawBody, env)
    case Raise(e) => ViewOutcome(Raise(e), None, m)
    case Ok(payload) =>
      match ReadEnvelope(payload, previousSession)
      case Raise(e) => ViewOutcome(Raise(e), None, m)
      case Ok(en) =>
        match StreamSync(m, en.context, en.request)
        case Raise(e) => ViewOutcome(Raise(e), None, m)
        case Ok(synced) => Dispatched(r, en, synced, env)
  }

  /** After the stream update: the session-started step, then the routing. */
  function Dispatched(r: Registry, en: Envelope, m: map<UserId, seq<Json>>, env: Env): ViewOutcome {
    match SessionStart(r, en.session, env)
    case Raise(e) => ViewOutcome(Raise(e), None, m)
    case Ok(_) =>
      var routed := Route(r, en.request, env);
      ViewOutcome(match routed.result case Raise(e) => Raise(e) case Ok(v) => Ok(Finish(v, Get(en.session, "attributes"))),
                  routed.convertErrors, m)
  }

  // ---- properties of the routing ----

  /** No string without a `y` contains `AudioPlayer`. */
  lemma NoAudioPlayerWithoutY(s: string)
    requires 'y' !in s
    ensures !Contains(s, "AudioPlayer")
  {
    ContainsIff(s, "AudioPlayer");
    if exists i :: OccursAt(s, "AudioPlayer", i) {
      var i :| OccursAt(s, "AudioPlayer", i);
      OccurrenceChar(s, "AudioPlayer", i, 8);
      assert false;
    }
  }

  /** The characters of an occurrence are those of the substring. */
  lemma OccurrenceChar(s: string, sub: string, i: int, k: nat)
    requires OccursAt(s, sub, i) && k < |sub|
    ensures s[i + k] == sub[k]
  {
    assert s[i..i + |sub|][k] == s[i + k];
  }

  /** The routing table. A launch request goes to the launch handler when there is one; a
      session-ended request to its handler or the `("{}", 200)` pair; an intent request is
      routed only while the intent table is non-empty; any other string containing
      `AudioPlayer` goes to the player lookup; everything else reaches no view. A missing or
      numeric type raises `TypeError`. */
  lemma RoutingTable(r: Registry, requestType: Json)
    ensures requestType == JStr("LaunchRequest") ==>
              RouteOf(r, requestType) == Ok(if r.launch.Some? then LaunchTarget else NoTarget)
    ensures requestType == JStr("SessionEndedRequest") ==>
              RouteOf(r, requestType) == Ok(if r.sessionEnded.Some? then SessionEndedTarget else SessionEndedDefault)
    ensures requestType == JStr("IntentRequest") ==>
              RouteOf(r, requestType) == Ok(if r.views != map[] then IntentTarget else NoTarget)
    ensures requestType.JStr? && requestType.s !in {"LaunchRequest", "SessionEndedRequest", "IntentRequest"} ==>
              RouteOf(r, requestType) == Ok(if Contains(requestType.s, "AudioPlayer") then PlayerTarget else NoTarget)
    ensures requestType.JNull? || requestType.JInt? || requestType.JBool? ==> RouteOf(r, requestType) == Raise(TypeError)
  {
    NoAudioPlayerWithoutY("LaunchRequest");
    NoAudioPlayerWithoutY("IntentRequest");
  }

  /** A request that reaches no view, or whose view returns `None`, gets `("", 400)`; with no
      session-ended handler a session-ended request gets `("{}", 200)`. */
  lemma UnroutedGets400(r: Registry, request: Json, env: Env, attrs: Json)
    requires Route(r, request, env).result == Ok(NoResult)
    ensures Finish(Route(r, request, env).result.value, attrs) == Status("", 400)
  {
  }

  lemma SessionEndedDefaultReply(r: Registry, fields: map<string, Json>, env: Env, attrs: Json)
    requires Get(fields, "type") == JStr("SessionEndedRequest") && r.sessionEnded.None?
    ensures Route(r, JDict(fields), env) == Routed(Ok(StatusResult("{}", 200)), None)
    ensures Finish(Route(r, JDict(fields), env).result.value, attrs) == Status("{}", 200)
  {
  }

  /** Intent lookup: an exact match first, then the default-intent handler, else
      `NotImplementedError` naming the intent. */
  lemma IntentLookupOrder(r: Registry, name: string)
    ensures name in r.views ==> IntentViewOf(r, JStr(name)) == Ok(r.views[name])
    ensures name !in r.views && r.defaultIntent.Some? ==> IntentViewOf(r, JStr(name)) == Ok(r.defaultIntent.value)
    ensures name !in r.views && r.defaultIntent.None? ==>
              IntentViewOf(r, JStr(name)) == Raise(NotImplementedError("Intent \"" + name + "\" not found and no default intent specified."))
  {
  }

  /** The default-intent handler is bound under the unmatched name, which has no tables: with
      aligned tables the binding succeeds only if the handler declares no parameter. */
  lemma DefaultIntentBindsOnlyWithoutParams(r: Registry, request: Json, name: string, env: Env)
    requires Aligned(r) && name !in r.views && r.defaultIntent.Some?
    requires request.JDict? && Get(request.fields, "intent").JDict? &&
             Get(Get(request.fields, "intent").fields, "name") == JStr(name)
    requires RequestData(request, env.slotOrder).Ok?
    ensures IntentBinding(r, request, env) ==
              if r.defaultIntent.value.params == [] then Ok(Prepared(r.defaultIntent, Bound([], map[])))
              else Raise(AttributeError)
  {
    AbsentTablesBindOnlyWithoutParams(r.defaultIntent.value.params, RequestData(request, env.slotOrder).value, env.parsers);
  }

  /** An AudioPlayer event nobody registered runs `lambda: None`, so the reply is `("", 400)`;
      `convert_errors` is left empty. */
  lemma UnregisteredPlayerEventGets400(r: Registry, fields: map<string, Json>, env: Env, attrs: Json)
    requires Get(fields, "type").JStr? && Contains(Get(fields, "type").s, "AudioPlayer")
    requires Get(fields, "type").s !in r.views && Get(fields, "intent") == JNull
    ensures Route(r, JDict(fields), env) == Routed(Ok(NoResult), Some(map[]))
    ensures Finish(Route(r, JDict(fields), env).result.value, attrs) == Status("", 400)
  {
    var t := Get(fields, "type");
    NoAudioPlayer("LaunchRequest", t.s);
    NoAudioPlayer("SessionEndedRequest", t.s);
    NoAudioPlayer("IntentRequest", t.s);
    assert RouteOf(r, t) == Ok(PlayerTarget);
  }

  /** A string containing `AudioPlayer` is none of the three fixed request types. */
  lemma NoAudioPlayer(fixed: string, s: string)
    requires 'y' !in fixed && Contains(s, "AudioPlayer")
    ensures s != fixed
  {
    if s == fixed {
      NoAudioPlayerWithoutY(fixed);
    }
  }

  /** With the default playback mapping, a handler's `offset` parameter reads the request's
      `offsetInMilliseconds` (except for `PlaybackFailed`, whose default mapping is empty). */
  lemma PlaybackOffsetBinding(r: Registry, e: PlaybackEvent, f: Handler, fields: map<string, Json>, env: Env)
    requires Get(fields, "intent") == JNull
    requires "offsetInMilliseconds" in fields && fields["offsetInMilliseconds"] != JNull && fields["offsetInMilliseconds"] != JStr("")
    ensures var s := Register(r, EventKey(e), f, ViewTables(DefaultPlaybackMapping(e), map[], map[]));
            MapParams(s, Some(EventKey(e)), ["offset"], JDict(fields), env) ==
              Ok(Bound([Value(if e == PlaybackFailed then Get(fields, "offset") else fields["offsetInMilliseconds"])], map[]))
  {
    var s := Register(r, EventKey(e), f, ViewTables(DefaultPlaybackMapping(e), map[], map[]));
    var t := ViewTables(DefaultPlaybackMapping(e), map[], map[]);
    assert TablesFor(s, Some(EventKey(e))) == Some(t);
    var data := FieldData(fields);
    assert RequestData(JDict(fields), env.slotOrder) == Ok(data);
    assert RawValue(data, "offsetInMilliseconds") == fields["offsetInMilliseconds"];
    assert RawValue(data, "offset") == Get(fields, "offset");
    var v := if e == PlaybackFailed then Get(fields, "offset") else fields["offsetInMilliseconds"];
    assert BindOne("offset", t, data, env.parsers) == Ok((Value(v), None));
    assert ["offset"][..0] == [];
    assert BindAll(["offset"], Some(t), data, env.parsers) == BindNext(Bound([], map[]), "offset", Some(t), data, env.parsers);
    assert [] + [Value(v)] == [Value(v)];
  }

  /** The session-started callback is consulted exactly when `session.new` is truthy and one is
      registered: otherwise any callback gives the same outcome. When it runs, an
      `AttributeError` from it is swallowed and any other exception stops the request. */
  lemma SessionStartedOnlyWhenNew(r: Registry, session: map<string, Json>, env: Env, cb: Handler -> Outcome<()>)
    ensures !(Truthy(Get(session, "new")) && r.sessionStarted.Some?) ==>
              SessionStart(r, session, env) == Ok(()) && SessionStart(r, session, env.(sessionStarted := cb)) == Ok(())
    ensures Truthy(Get(session, "new")) && r.sessionStarted.Some? ==>
              SessionStart(r, session, env) ==
                if env.sessionStarted(r.sessionStarted.value).Raise? && env.sessionStarted(r.sessionStarted.value).error != AttributeError
                then Raise(env.sessionStarted(r.sessionStarted.value).error) else Ok(())
  {
  }

  /** The callback runs before the routing: when it stops the request, no view function is
      called and no binding is stored. */
  lemma CallbackRunsBeforeRouting(r: Registry, en: Envelope, m: map<UserId, seq<Json>>, env: Env,
                                  call: (Handler, seq<Arg>) -> Outcome<ViewResult>)
    requires SessionStart(r, en.session, env).Raise?
    ensures Dispatched(r, en, m, env) == ViewOutcome(Raise(SessionStart(r, en.session, env).error), None, m)
    ensures Dispatched(r, en, m, env.(call := call)) == Dispatched(r, en, m, env)
  {
    assert SessionStart(r, en.session, env.(call := call)) == SessionStart(r, en.session, env);
  }

  /** A request the gate rejects leaves the stream cache as it was, stores no binding and
      calls no view function. */
  lemma RejectedRequestChangesNothing(r: Registry, cfg: Config, headers: Headers, rawBody: string, previousSession: Json,
                                      m: map<UserId, seq<Json>>, env: Env, call: (Handler, seq<Arg>) -> Outcome<ViewResult>)
    requires AlexaRequest(cfg, headers, rawBody, env).Raise?
    ensures ViewFunc(r, cfg, headers, rawBody, previousSession, m, env) ==
              ViewOutcome(Raise(AlexaRequest(cfg, headers, rawBody, env).error), None, m)
    ensures ViewFunc(r, cfg, headers, rawBody, previousSession, m, env.(call := call)) ==
              ViewFunc(r, cfg, headers, rawBody, previousSession, m, env)
  {
    assert AlexaRequest(cfg, headers, rawBody, env.(call := call)) == AlexaRequest(cfg, headers, rawBody, env);
  }

  // ---- the imperative dispatcher ----

  /** The request-data loops of `_map_params_to_view_args`: the walk over the slot object's
      keys, or over the request's fields. */
  method RequestDataOf(request: Json, slotOrder: seq<string>) returns (r: Outcome<map<Json, Json>>)
    ensures r == RequestData(request, slotOrder)
  {
    var data: map<Json, Json> := map[];
    var intent := if request.JDict? then Get(request.fields, "intent") else JNull;
    if intent != JNull {
      var slots := DictAttr(intent, "slots");
      if slots.Raise? {
        return Raise(slots.error);
      }
      if slots.value != JNull {
        if !slots.value.JDict? {
          return Raise(AttributeError);
        }
        var m := slots.value.fields;
        var i := 0;
        while i < |slotOrder|
          invariant 0 <= i <= |slotOrder|
          invariant SlotData(m, slotOrder[..i]) == Ok(data)
        {
          assert slotOrder[..i + 1][..i] == slotOrder[..i];
          var key := slotOrder[i];
          var step := AddSlot(data, m, key);
          if step.Raise? {
            SlotDataPrefixRaises(m, slotOrder, i + 1);
            return step;
          }
          var slot := m[key];
          data := data[Get(slot.fields, "name") := Get(slot.fields, "value")];
          i := i + 1;
        }
        assert slotOrder[..i] == slotOrder;
      }
    } else {
      if !request.JDict? {
        return Raise(TypeError);
      }
      var fields := request.fields;
      var todo := fields.Keys;
      while todo != {}
        invariant todo <= fields.Keys
        invariant data == map k | k in fields.Keys - todo :: JStr(k) := fields[k]
        decreases todo
      {
        var k :| k in todo;
        data := data[JStr(k) := fields[k]];
        todo := todo - {k};
      }
      assert fields.Keys - todo == fields.Keys;
      assert data == FieldData(fields);
    }
    return Ok(data);
  }

  /** The `Ask` object: the decorator tables, with the stream cache it was given. */
  class Ask {
    var intentViewFuncs: map<string, Handler>
    var intentMappings: map<string, map<string, string>>
    var intentConverts: map<string, map<string, Converter>>
    var intentDefaults: map<string, map<string, Default>>
    var launchViewFunc: Option<Handler>
    var sessionEndedViewFunc: Option<Handler>
    var onSessionStartedCallback: Option<Handler>
    var defaultIntentViewFunc: Option<Handler>
    const streamCache: SimpleCache

    /** The registry the fields hold. */
    function Snapshot(): Registry
      reads this
    {
      Registry(intentViewFuncs, intentMappings, intentConverts, intentDefaults,
               launchViewFunc, sessionEndedViewFunc, onSessionStartedCallback, defaultIntentViewFunc)
    }

    predicate Valid()
      reads this
    {
      Aligned(Snapshot())
    }

    /** Empty tables, and a fresh `SimpleCache` unless a cache is given. */
    constructor (cache: Option<SimpleCache>)
      ensures Snapshot() == EMPTY_REGISTRY && Valid()
      ensures cache.Some? ==> streamCache == cache.value
      ensures cache.None? ==> fresh(streamCache) && streamCache.entries == map[]
    {
      intentViewFuncs := map[];
      intentMappings := map[];
      intentConverts := map[];
      intentDefaults := map[];
      launchViewFunc := None;
      sessionEndedViewFunc := None;
      onSessionStartedCallback := None;
      defaultIntentViewFunc := None;
      if cache.None? {
        streamCache := new SimpleCache();
      } else {
        streamCache := cache.value;
      }
    }

    /** @ask.intent(name, mapping, convert, default). */
    method Intent(name: string, f: Handler, mapping: map<string, string>, convert: map<string, Converter>, default: map<string, Default>)
      modifies this
      ensures Snapshot() == Register(old(Snapshot()), name, f, ViewTables(mapping, convert, default))
      ensures old(Valid()) ==> Valid()
    {
      if Valid() {
        RegisterKeepsAligned(Snapshot(), name, f, ViewTables(mapping, convert, default));
      }
      intentViewFuncs := intentViewFuncs[name := f];
      intentMappings := intentMappings[name := mapping];
      intentConverts := intentConverts[name := convert];
      intentDefaults := intentDefaults[name := default];
    }

    /** @ask.on_playback_started and its four siblings: the same four writes under the event's
        key; `DefaultPlaybackMapping(e)` is the `mapping` when none is given. */
    method OnPlayback(e: PlaybackEvent, f: Handler, mapping: map<string, string>, convert: map<string, Converter>, default: map<string, Default>)
      modifies this
      ensures Snapshot() == Register(old(Snapshot()), EventKey(e), f, ViewTables(mapping, convert, default))
      ensures old(Valid()) ==> Valid()
    {
      Intent(EventKey(e), f, mapping, convert, default);
    }

    /** @ask.launch */
    method Launch(f: Handler)
      modifies this
      ensures Snapshot() == old(Snapshot()).(launch := Some(f))
    {
      launchViewFunc := Some(f);
    }

    /** @ask.session_ended */
    method SessionEnded(f: Handler)
      modifies this
      ensures Snapshot() == old(Snapshot()).(sessionEnded := Some(f))
    {
      sessionEndedViewFunc := Some(f);
    }

    /** @ask.on_session_started */
    method OnSessionStarted(f: Handler)
      modifies this
      ensures Snapshot() == old(Snapshot()).(sessionStarted := Some(f))
    {
      onSessionStartedCallback := Some(f);
    }

    /** @ask.default_intent */
    method DefaultIntent(f: Handler)
      modifies this
      ensures Snapshot() == old(Snapshot()).(defaultIntent := Some(f))
    {
      defaultIntentViewFunc := Some(f);
    }

    /** _map_params_to_view_args: the tables of the view name, the request data, then one
        binding per declared parameter, the converter failures collected on the way. */
    method MapParamsToViewArgs(viewName: Option<string>, argNames: seq<string>, request: Json, env: Env) returns (r: Outcome<Bound>)
      ensures r == MapParams(Snapshot(), viewName, argNames, request, env)
    {
      var key := if viewName.Some? then viewName.value else "";
      var convert := if viewName.Some? && key in intentConverts then Some(intentConverts[key]) else None;
      var default := if viewName.Some? && key in intentDefaults then Some(intentDefaults[key]) else None;
      var mapping := if viewName.Some? && key in intentMappings then Some(intentMappings[key]) else None;
      var tables := if mapping.Some? && convert.Some? && default.Some? then Some(ViewTables(mapping.value, convert.value, default.value)) else None;
      assert tables == TablesFor(Snapshot(), viewName);
      var requestData := RequestDataOf(request, env.slotOrder);
      if requestData.Raise? {
        return Raise(requestData.error);
      }
      r := BindArgs(argNames, tables, requestData.value, env.parsers);
    }

    /** _map_intent_to_view_func(self.request.intent). */
    method MapIntentToViewFunc(request: Json, env: Env) returns (r: Outcome<Prepared>)
      ensures r == IntentBinding(Snapshot(), request, env)
    {
      var intent := DictAttr(request, "intent");
      if intent.Raise? {
        return Raise(intent.error);
      }
      var name := DictAttr(intent.value, "name");
      if name.Raise? {
        return Raise(name.error);
      }
      var n := name.value;
      var viewFunc: Handler;
      if !Hashable(n) {
        return Raise(TypeError);
      } else if n.JStr? && n.s in intentViewFuncs {
        viewFunc := intentViewFuncs[n.s];
      } else if defaultIntentViewFunc.Some? {
        viewFunc := defaultIntentViewFunc.value;
      } else {
        return Raise(NotImplementedError(NotFoundMessage(n)));
      }
      var bound := MapParamsToViewArgs(KeyOf(n), viewFunc.params, request, env);
      if bound.Raise? {
        return Raise(bound.error);
      }
      return Ok(Prepared(Some(viewFunc), bound.value));
    }

    /** _map_player_request_to_func(self.request.type). */
    method MapPlayerRequestToFunc(request: Json, requestType: Json, env: Env) returns (r: Outcome<Prepared>)
      ensures r == PlayerBinding(Snapshot(), request, requestType, env)
    {
      if !Hashable(requestType) {
        return Raise(TypeError);
      }
      var viewFunc := if requestType.JStr? && requestType.s in intentViewFuncs then Some(intentViewFuncs[requestType.s]) else None;
      var bound := MapParamsToViewArgs(KeyOf(requestType), ParamsOf(viewFunc), request, env);
      if bound.Raise? {
        return Raise(bound.error);
      }
      return Ok(Prepared(viewFunc, bound.value));
    }

    /** The routing chain of `_flask_view_func` and the call of the chosen view function. */
    method RouteRequest(request: Json, env: Env) returns (routed: Routed)
      ensures routed == Route(Snapshot(), request, env)
    {
      var requestType := DictAttr(request, "type");
      if requestType.Raise? {
        return Routed(Raise(requestType.error), None);
      }
      var t := requestType.value;
      if t == JStr("LaunchRequest") && launchViewFunc.Some? {
        return Routed(env.call(launchViewFunc.value, []), None);
      } else if t == JStr("SessionEndedRequest") {
        if sessionEndedViewFunc.Some? {
          return Routed(env.call(sessionEndedViewFunc.value, []), None);
        }
        return Routed(Ok(StatusResult("{}", 200)), None);
      } else if t == JStr("IntentRequest") && intentViewFuncs != map[] {
        RouteToTarget(Snapshot(), request, env, t, IntentTarget);
        var prepared := MapIntentToViewFunc(request, env);
        return Settle(prepared, env);
      }
      var isPlayer := StrIn("AudioPlayer", t);
      if isPlayer.Raise? {
        return Routed(Raise(isPlayer.error), None);
      }
      if isPlayer.value {
        RouteToTarget(Snapshot(), request, env, t, PlayerTarget);
        var prepared := MapPlayerRequestToFunc(request, t, env);
        return Settle(prepared, env);
      }
      return Routed(Ok(NoResult), None);
    }

    /** The session-started step: the `try` around the callback swallows `AttributeError`. */
    method StartSession(session: map<string, Json>, env: Env) returns (r: Outcome<()>)
      ensures r == SessionStart(Snapshot(), session, env)
    {
      if Truthy(Get(session, "new")) && onSessionStartedCallback.Some? {
        var started := env.sessionStarted(onSessionStartedCallback.value);
        if started.Raise? && started.error != AttributeError {
          return Raise(started.error);
        }
      }
      return Ok(());
    }

    /** _flask_view_func: gate, envelope, stream update, session start, routing, reply. The
        stream update is the only change of state modelled: the view function is an oracle
        that returns its result, so what it writes to `session.attributes` and the streams it
        pushes to the cache are not part of the outcome. */
    method FlaskViewFunc(cfg: Config, headers: Headers, rawBody: string, previousSession: Json, env: Env)
      returns (reply: Outcome<Reply>, convertErrors: Option<map<string, PyError>>)
      modifies streamCache
      ensures ViewOutcome(reply, convertErrors, streamCache.entries) ==
                ViewFunc(Snapshot(), cfg, headers, rawBody, previousSession, old(streamCache.entries), env)
    {
      var payload := AlexaRequest(cfg, headers, rawBody, env);
      if payload.Raise? {
        return Raise(payload.error), None;
      }
      var envelope := ReadEnvelope(payload.value, previousSession);
      if envelope.Raise? {
        return Raise(envelope.error), None;
      }
      var en := envelope.value;
      var synced := UpdateStream(streamCache, en.context, en.request);
      if synced.Raise? {
        return Raise(synced.error), None;
      }
      var started := StartSession(en.session, env);
      if started.Raise? {
        return Raise(started.error), None;
      }
      var routed := RouteRequest(en.request, env);
      convertErrors := routed.convertErrors;
      if routed.result.Raise? {
        return Raise(routed.result.error), convertErrors;
      }
      reply := Ok(Finish(routed.result.value, Get(en.session, "attributes")));
    }
  }

  /** The loop over the declared parameters of `_map_params_to_view_args`: each binds in turn,
      the first error ends the walk, and converter failures collect in `convert_errors`. */
  method BindArgs(argNames: seq<string>, tables: Option<ViewTables>, data: map<Json, Json>, parsers: Parsers)
    returns (r: Outcome<Bound>)
    ensures r == BindAll(argNames, tables, data, parsers)
  {
    var argValues: seq<Arg> := [];
    var convertErrors: map<string, PyError> := map[];
    var i := 0;
    while i < |argNames|
      invariant 0 <= i <= |argNames|
      invariant BindAll(argNames[..i], tables, data, parsers) == Ok(Bound(argValues, convertErrors))
    {
      BindAllStep(argNames, i, tables, data, parsers, Bound(argValues, convertErrors));
      var step := BindArg(argNames[i], tables, data, parsers);
      if step.Raise? {
        BindAllPrefixRaises(argNames, tables, data, parsers, i + 1);
        return Raise(step.error);
      }
      argValues := argValues + [step.value.0];
      if step.value.1.Some? {
        convertErrors := convertErrors[argNames[i] := step.value.1.value];
      }
      i := i + 1;
    }
    assert argNames[..i] == argNames;
    return Ok(Bound(argValues, convertErrors));
  }

  /** One iteration of the binding loop, as the loop body does it. */
  method BindArg(argName: string, tables: Option<ViewTables>, data: map<Json, Json>, parsers: Parsers)
    returns (r: Outcome<(Arg, Option<PyError>)>)
    ensures tables.None? ==> r == Raise(AttributeError)
    ensures tables.Some? ==> r == BindOne(argName, tables.value, data, parsers)
  {
    if tables.None? {
      return Raise(AttributeError);
    }
    var t := tables.value;
    var paramOrSlot := SourceKey(t.mapping, argName);
    var argValue := RawValue(data, paramOrSlot);
    if argValue == JNull || argValue == JStr("") {
      if argName in t.default {
        match t.default[argName]
        case Literal(x) => {
          return Ok((Value(x), None));
        }
        case Callable(c) => {
          var called := c();
          if called.Raise? {
            return Raise(called.error);
          }
          return Ok((Value(called.value), None));
        }
      }
      return Ok((Value(argValue), None));
    } else if argName in t.convert {
      var converted := ApplyConverter(t.convert[argName], argValue, parsers);
      if converted.Raise? {
        return Ok((Value(argValue), Some(converted.error)));
      }
      return Ok((converted.value, None));
    }
    return Ok((Value(argValue), None));
  }
}
