/** The stream state the dispatcher keeps per user (flask_ask/core.py): who the user is, what
    the current stream is, and how every request reconciles the cached stream with what the
    device reports. The request context is explicit: the `context` and `request` members of
    the request body, read as the dictionary-like attribute objects the dispatcher expects. */
module Streams {
  import opened Outcomes
  import opened PyJson
  import opened Text
  import opened Cache

  /** The attributes of a stream object: `url`, `token`, `offsetInMilliseconds`, ... */
  type StreamFields = map<string, Json>

  /** The parts of the context `_get_user` walks through. */
  predicate HasUserPath(context: Json) {
    context.JDict? && "System" in context.fields && context.fields["System"].JDict? &&
    "user" in context.fields["System"].fields && context.fields["System"].fields["user"].JDict?
  }

  /** _get_user: `context.get('System', {}).get('user', {}).get('userId')`, or `None` when the
      context is falsy (absent or empty). */
  function GetUser(context: Json): (r: Outcome<UserId>)
    ensures !Truthy(context) ==> r == Ok(JNull)
    ensures r.Raise? ==> r.error == AttributeError
  {
    if !Truthy(context) then Ok(JNull)
    else match CallGet(context, "System", JDict(map[]))
      case Raise(e) => Raise(e)
      case Ok(system) =>
        match CallGet(system, "user", JDict(map[]))
        case Raise(e) => Raise(e)
        case Ok(user) => CallGet(user, "userId", JNull)
  }

  /** The three ways `_get_user` can end: the id found along the path, `None` when a level is
      missing, `AttributeError` when a level is present but is not an object. */
  lemma GetUserCases(context: Json)
    ensures HasUserPath(context) ==>
      GetUser(context) == Ok(Get(context.fields["System"].fields["user"].fields, "userId"))
    ensures context.JDict? && "System" !in context.fields ==> GetUser(context) == Ok(JNull)
    ensures (context.JDict? && "System" in context.fields && context.fields["System"].JDict? &&
             "user" !in context.fields["System"].fields) ==> GetUser(context) == Ok(JNull)
    ensures Truthy(context) && !context.JDict? ==> GetUser(context) == Raise(AttributeError)
    ensures (context.JDict? && "System" in context.fields && !context.fields["System"].JDict?) ==>
              GetUser(context) == Raise(AttributeError)
  {
    if HasUserPath(context) {
      assert Truthy(context);
    }
  }

  /** `fresh.__dict__.update(j)`: the keys of a dictionary overwrite, the others survive. Any
      other iterable is read as a sequence of key/value pairs, applied in order; a string is a
      sequence of one-character strings, none of which is a pair. `None`, booleans and numbers
      are not iterable. */
  function UpdateWith(base: StreamFields, j: Json): (r: Outcome<StreamFields>)
    ensures j.JDict? ==> r.Ok? && r.value.Keys == base.Keys + j.fields.Keys
    ensures j.JDict? ==> forall k | k in r.value :: r.value[k] == if k in j.fields then j.fields[k] else base[k]
    ensures j == JStr("") || j == JList([]) ==> r == Ok(base)
    ensures j.JStr? && j.s != "" ==> r == Raise(ValueError)
    ensures j.JNull? || j.JBool? || j.JInt? ==> r == Raise(TypeError)
    ensures j.JList? ==> r == UpdatePairs(base, j.items)
  {
    match j
    case JDict(f) => Ok(base + f)
    case JList(xs) => UpdatePairs(base, xs)
    case JStr(s) => if s == "" then Ok(base) else Raise(ValueError)
    case _ => Raise(TypeError)
  }

  /** One element of an update sequence as a key/value pair: a list or a string of exactly two
      elements (`ValueError` for any other length), whose key must be hashable; anything that
      is not a sequence raises `TypeError`. A two-key dictionary would give its keys in
      insertion order, and a key that is not a string would make a non-string attribute name;
      neither is representable here and both are reported as foreign. */
  function PairOf(e: Json): (r: Outcome<(string, Json)>)
    ensures r.Ok? ==> (e.JList? && |e.items| == 2 && e.items[0] == JStr(r.value.0) && e.items[1] == r.value.1) ||
                      (e.JStr? && r.value.1.JStr? && e.s == r.value.0 + r.value.1.s && |r.value.0| == 1 && |r.value.1.s| == 1)
    ensures e.JList? && |e.items| == 2 && e.items[0].JStr? ==> r == Ok((e.items[0].s, e.items[1]))
    ensures (e.JList? && |e.items| != 2) || (e.JStr? && |e.s| != 2) || (e.JDict? && |e.fields| != 2) ==> r == Raise(ValueError)
    ensures e.JNull? || e.JBool? || e.JInt? ==> r == Raise(TypeError)
  {
    match e
    case JList(p) =>
      if |p| != 2 then Raise(ValueError)
      else (match p[0]
            case JStr(k) => Ok((k, p[1]))
            case JList(_) => Raise(TypeError)
            case JDict(_) => Raise(TypeError)
            case _ => Raise(ForeignError("non-string attribute name")))
    case JStr(p) => if |p| != 2 then Raise(ValueError) else Ok(([p[0]], JStr([p[1]])))
    case JDict(d) => if |d| != 2 then Raise(ValueError) else Raise(ForeignError("dict iteration order"))
    case _ => Raise(TypeError)
  }

  /** The pairs applied in order; the first element that is not a pair stops the update with
      its error. */
  function UpdatePairs(base: StreamFields, xs: seq<Json>): (r: Outcome<StreamFields>)
    ensures r.Ok? <==> forall i :: 0 <= i < |xs| ==> PairOf(xs[i]).Ok?
    ensures r.Ok? ==> base.Keys <= r.value.Keys
    ensures r.Raise? ==> exists i :: 0 <= i < |xs| && PairOf(xs[i]).Raise? && r.error == PairOf(xs[i]).error &&
                                     forall j :: 0 <= j < i ==> PairOf(xs[j]).Ok?
    decreases |xs|
  {
    if xs == [] then Ok(base)
    else match PairOf(xs[0])
      case Raise(e) => Raise(e)
      case Ok(kv) => UpdatePairs(base[kv.0 := kv.1], xs[1..])
  }

  /** A pair whose key no later pair repeats decides that key's value. */
  lemma {:induction false} LastPairWins(base: StreamFields, xs: seq<Json>, i: nat)
    requires UpdatePairs(base, xs).Ok? && i < |xs|
    requires forall j :: i < j < |xs| ==> PairOf(xs[j]).value.0 != PairOf(xs[i]).value.0
    ensures PairOf(xs[i]).value.0 in UpdatePairs(base, xs).value
    ensures UpdatePairs(base, xs).value[PairOf(xs[i]).value.0] == PairOf(xs[i]).value.1
    decreases |xs|
  {
    var kv := PairOf(xs[0]).value;
    if i == 0 {
      KeysNoPairNames(base[kv.0 := kv.1], xs[1..], kv.0);
    } else {
      assert forall j :: i - 1 < j < |xs| - 1 ==> xs[1..][j] == xs[j + 1];
      LastPairWins(base[kv.0 := kv.1], xs[1..], i - 1);
    }
  }

  /** A key that no pair names keeps its old value, or stays absent. */
  lemma {:induction false} KeysNoPairNames(base: StreamFields, xs: seq<Json>, k: string)
    requires UpdatePairs(base, xs).Ok?
    requires forall j :: 0 <= j < |xs| ==> PairOf(xs[j]).value.0 != k
    ensures k in UpdatePairs(base, xs).value <==> k in base
    ensures k in base ==> UpdatePairs(base, xs).value[k] == base[k]
    decreases |xs|
  {
    if xs != [] {
      var kv := PairOf(xs[0]).value;
      assert forall j :: 0 <= j < |xs| - 1 ==> xs[1..][j] == xs[j + 1];
      KeysNoPairNames(base[kv.0 := kv.1], xs[1..], k);
    }
  }

  /** Updating with a list of one pair sets that key; a non-empty string raises `ValueError`,
      its first element being a one-character string. */
  lemma UpdateWithSequences(base: StreamFields)
    ensures UpdateWith(base, JList([JList([JStr("url"), JStr("u")])])) == Ok(base["url" := JStr("u")])
    ensures UpdateWith(base, JStr("ab")) == Raise(ValueError)
    ensures UpdateWith(base, JList([JStr("ab")])) == Ok(base["a" := JStr("b")])
    ensures UpdateWith(base, JList([JList([JStr("url")])])) == Raise(ValueError)
  {
    var pair := JList([JStr("url"), JStr("u")]);
    assert PairOf(pair) == Ok(("url", JStr("u")));
    assert [pair][1..] == [];
    var chars := JStr("ab");
    assert PairOf(chars) == Ok(("a", JStr("b")));
    assert [chars][1..] == [];
  }

  /** The current_stream getter: for a truthy user whose cached top is truthy, an object holding
      the top's fields; otherwise an empty object. */
  function CurrentStream(m: map<UserId, seq<Json>>, context: Json): (r: Outcome<StreamFields>)
    ensures GetUser(context).Ok? && !Truthy(GetUser(context).value) ==> r == Ok(map[])
    ensures GetUser(context).Ok? && GetUser(context).value !in m ==> r == Ok(map[])
  {
    match GetUser(context)
    case Raise(e) => Raise(e)
    case Ok(user) =>
      if !Truthy(user) then Ok(map[])
      else match Top(m, user)
        case Raise(e) => Raise(e)
        case Ok(None) => Ok(map[])
        case Ok(Some(stream)) => if Truthy(stream) then UpdateWith(map[], stream) else Ok(map[])
  }

  /** What the current stream is when the user's cached top is the object `t`. */
  lemma CurrentStreamIsTop(m: map<UserId, seq<Json>>, context: Json, t: StreamFields)
    requires GetUser(context).Ok? && UserTruthy(GetUser(context).value)
    requires var u := GetUser(context).value; u in m && m[u] != [] && m[u][|m[u]| - 1] == JDict(t)
    ensures CurrentStream(m, context) == Ok(t)
  {
    assert map[] + t == t;
  }

  /** The current_stream setter: replace the user's stack by the one object, for a truthy user. */
  function SetCurrentStream(m: map<UserId, seq<Json>>, context: Json, value: StreamFields): (r: Outcome<map<UserId, seq<Json>>>)
    ensures GetUser(context).Ok? && Truthy(GetUser(context).value) ==>
              r == Ok(SetTo(m, GetUser(context).value, JDict(value)))
    ensures GetUser(context).Ok? && !Truthy(GetUser(context).value) ==> r == Ok(m)
    ensures GetUser(context).Raise? ==> r == Raise(GetUser(context).error)
  {
    match GetUser(context)
    case Raise(e) => Raise(e)
    case Ok(user) => if Truthy(user) then Ok(SetTo(m, user, JDict(value))) else Ok(m)
  }

  /** `self.request.intent and 'PauseIntent' in self.request.intent.name` */
  function IsPauseIntent(request: Json): Outcome<bool> {
    match DictAttr(request, "intent")
    case Raise(e) => Raise(e)
    case Ok(intent) =>
      if !Truthy(intent) then Ok(false)
      else match DictAttr(intent, "name")
        case Raise(e) => Raise(e)
        case Ok(name) => StrIn("PauseIntent", name)
  }

  /** _from_directive: the cached top, unless the request is a pause intent; `{}` when there
      is no truthy top. */
  function FromDirective(m: map<UserId, seq<Json>>, context: Json, request: Json): (r: Outcome<Json>)
    ensures r.Ok? && r.value != JDict(map[]) ==>
              GetUser(context).Ok? && Top(m, GetUser(context).value) == Ok(Some(r.value)) && IsPauseIntent(request) != Ok(true)
  {
    match GetUser(context)
    case Raise(e) => Raise(e)
    case Ok(user) =>
      match Top(m, user)
      case Raise(e) => Raise(e)
      case Ok(None) => Ok(JDict(map[]))
      case Ok(Some(stream)) =>
        if !Truthy(stream) then Ok(JDict(map[]))
        else match IsPauseIntent(request)
          case Raise(e) => Raise(e)
          case Ok(pause) => if pause then Ok(JDict(map[])) else Ok(stream)
  }

  /** _from_context: `getattr(context, 'AudioPlayer', {})`; a missing key reads as `None`, and a
      context that is not an object has no such attribute, so the default is used. */
  function FromContext(context: Json): (r: Json)
    ensures context.JDict? ==> r == Get(context.fields, "AudioPlayer")
    ensures !context.JDict? ==> r == JDict(map[])
  {
    match context
    case JDict(c) => Get(c, "AudioPlayer")
    case _ => JDict(map[])
  }

  /** The cache after `_update_stream`: start from the current stream, overlay the directive's
      stream, overlay the device's `AudioPlayer` report (unless it is `None`), and store the
      result through the setter. */
  function StreamSync(m: map<UserId, seq<Json>>, context: Json, request: Json): Outcome<map<UserId, seq<Json>>> {
    match CurrentStream(m, context)
    case Raise(e) => Raise(e)
    case Ok(current) =>
      var base := map[] + current;
      match FromDirective(m, context, request)
      case Raise(e) => Raise(e)
      case Ok(directive) =>
        match UpdateWith(base, directive)
        case Raise(e) => Raise(e)
        case Ok(stream2) =>
          var info := FromContext(context);
          if info == JNull then SetCurrentStream(m, context, stream2)
          else match UpdateWith(stream2, info)
            case Raise(e) => Raise(e)
            case Ok(stream3) => SetCurrentStream(m, context, stream3)
  }

  /** The current_stream getter as the dispatcher runs it. */
  method CurrentStreamOf(cache: SimpleCache, context: Json) returns (r: Outcome<StreamFields>)
    ensures r == CurrentStream(cache.entries, context)
  {
    var user := GetUser(context);
    if user.Raise? {
      return Raise(user.error);
    }
    if !Truthy(user.value) {
      return Ok(map[]);
    }
    var top := TopStream(cache, user.value);
    if top.Raise? {
      return Raise(top.error);
    }
    if top.value.None? || !Truthy(top.value.value) {
      return Ok(map[]);
    }
    r := UpdateWith(map[], top.value.value);
  }

  /** _update_stream: build the fresh stream in place, then store it. Nothing is written when
      an exception is raised on the way. */
  method UpdateStream(cache: SimpleCache, context: Json, request: Json) returns (r: Outcome<()>)
    modifies cache
    ensures StreamSync(old(cache.entries), context, request).Ok? ==>
              r == Ok(()) && cache.entries == StreamSync(old(cache.entries), context, request).value
    ensures StreamSync(old(cache.entries), context, request).Raise? ==>
              r == Raise(StreamSync(old(cache.entries), context, request).error) && cache.entries == old(cache.entries)
  {
    var base: StreamFields := map[];
    var current := CurrentStreamOf(cache, context);
    if current.Raise? {
      return Raise(current.error);
    }
    base := base + current.value;
    var directive := FromDirective(cache.entries, context, request);
    if directive.Raise? {
      return Raise(directive.error);
    }
    var step := UpdateWith(base, directive.value);
    if step.Raise? {
      return Raise(step.error);
    }
    base := step.value;
    var info := FromContext(context);
    if info != JNull {
      step := UpdateWith(base, info);
      if step.Raise? {
        return Raise(step.error);
      }
      base := step.value;
    }
    var user := GetUser(context);
    if Truthy(user.value) {
      var _ := SetStream(cache, user.value, JDict(base));
    }
    return Ok(());
  }

  /** Reconciliation for a user whose cached top is the object `t`, when the device reports
      `AudioPlayer` fields `a`: the user's stack becomes the single object `t` overlaid with `a`.
      Keys the report lacks keep the cached value. The pause-intent test only decides whether
      the top is overlaid a second time, which changes nothing, so pause and non-pause
      requests reconcile alike. */
  lemma {:induction false} SyncOverlaysContextOnTop(m: map<UserId, seq<Json>>, context: Json, request: Json, t: StreamFields, a: StreamFields)
    requires GetUser(context).Ok? && UserTruthy(GetUser(context).value)
    requires var u := GetUser(context).value; u in m && m[u] != [] && m[u][|m[u]| - 1] == JDict(t)
    requires context.JDict? && Get(context.fields, "AudioPlayer") == JDict(a)
    requires IsPauseIntent(request).Ok?
    ensures var u := GetUser(context).value;
            StreamSync(m, context, request) == Ok(SetTo(m, u, JDict(t + a)))
    ensures forall k | k in t && k !in a :: (t + a)[k] == t[k]
    ensures forall k | k in a :: (t + a)[k] == a[k]
  {
    var u := GetUser(context).value;
    CurrentStreamIsTop(m, context, t);
    var base := map[] + t;
    assert base == t;
    if t == map[] {
      assert FromDirective(m, context, request) == Ok(JDict(map[]));
      assert base + map[] == t;
    } else {
      assert Truthy(JDict(t));
      assert Top(m, u) == Ok(Some(JDict(t)));
      assert t + t == t && t + map[] == t;
      if IsPauseIntent(request).value {
        assert FromDirective(m, context, request) == Ok(JDict(map[]));
      } else {
        assert FromDirective(m, context, request) == Ok(JDict(t));
      }
      assert UpdateWith(base, FromDirective(m, context, request).value) == Ok(t);
    }
    assert FromContext(context) == JDict(a);
  }

  /** Without a user id nothing is stored: the cache is unchanged whatever the request. */
  lemma SyncWithoutUserKeepsCache(m: map<UserId, seq<Json>>, context: Json, request: Json)
    requires GetUser(context) == Ok(JNull)
    requires context.JDict? && (Get(context.fields, "AudioPlayer").JDict? || Get(context.fields, "AudioPlayer") == JNull)
    ensures StreamSync(m, context, request) == Ok(m)
  {
  }

  /** A user with no cached stack gets one holding exactly the device's report (when the
      report is a non-empty object). */
  lemma SyncStartsFromContext(m: map<UserId, seq<Json>>, context: Json, request: Json, a: StreamFields)
    requires GetUser(context).Ok? && UserTruthy(GetUser(context).value) && GetUser(context).value !in m
    requires context.JDict? && Get(context.fields, "AudioPlayer") == JDict(a) && a != map[]
    ensures StreamSync(m, context, request) == Ok(m[GetUser(context).value := [JDict(a)]])
  {
    assert map[] + map[] + a == a;
  }
}
