/** The JSON-to-attribute wrappers (flask_ask/request.py, and `_Field` / `_Request` of
    flask_ask/models.py): a request body becomes nested attribute objects. */
module RequestFields {
  import opened Outcomes
  import opened PyJson

  /** What `_RequestField(request_json)` produces or raises. The constructor iterates over its
      argument and indexes it with each element: a dictionary gives its keys; an empty string
      or list gives no iterations; a non-empty string fails at once on a string index, and a
      non-empty list on its first element (`ListKeyError`); `None`, booleans and numbers are
      not iterable. */
  function RequestFieldOf(j: Json): (r: Outcome<Obj>)
    ensures j.JDict? ==> r == Ok(Wrap(j.fields))
    ensures j == JStr("") || j == JList([]) ==> r == Ok(Obj(map[]))
    ensures r.Raise? <==> !j.JDict? && j != JStr("") && j != JList([])
    ensures r.Raise? ==> r.error == if j.JList? then ListKeyError(j.items) else TypeError
  {
    match j
    case JDict(m) => Ok(Wrap(m))
    case JStr(s) => if s == "" then Ok(Obj(map[])) else Raise(TypeError)
    case JList(xs) => if xs == [] then Ok(Obj(map[])) else Raise(ListKeyError(xs))
    case _ => Raise(TypeError)
  }

  /** The error of `for key in xs: setattr(self, key, xs[key])` on a non-empty list: the first
      element is the index. An integer (a boolean counting as 0 or 1) outside the list raises
      `IndexError`; one inside it reads an element, and `setattr` then refuses the non-string
      name with `TypeError`; any other element cannot index a list, a `TypeError` too. */
  function ListKeyError(xs: seq<Json>): (e: PyError)
    requires xs != []
    ensures e == IndexError <==> (xs[0].JInt? && !(-|xs| <= xs[0].i < |xs|)) || (xs[0] == JBool(true) && |xs| == 1)
    ensures e != IndexError ==> e == TypeError
  {
    match xs[0]
    case JInt(k) => if -|xs| <= k < |xs| then TypeError else IndexError
    case JBool(b) => if (if b then 1 else 0) < |xs| then TypeError else IndexError
    case _ => TypeError
  }

  /** _RequestField.__init__: first copy every key as an attribute, then replace every
      attribute whose value is a dictionary by a wrapped object, recursively. */
  method RequestField(j: Json) returns (r: Outcome<Obj>)
    ensures r == RequestFieldOf(j)
    decreases j
  {
    if !j.JDict? {
      if j == JStr("") || j == JList([]) {
        return Ok(Obj(map[]));
      }
      if j.JList? {
        return Raise(ListKeyError(j.items));
      }
      return Raise(TypeError);
    }
    var m := j.fields;
    var attrs: map<string, Attr> := map[];
    var todo := m.Keys;
    while todo != {}
      invariant todo <= m.Keys
      invariant attrs.Keys == m.Keys - todo
      invariant forall k | k in attrs :: attrs[k] == Plain(m[k])
      decreases todo
    {
      var key :| key in todo;
      attrs := attrs[key := Plain(m[key])];
      todo := todo - {key};
    }
    var pending := attrs.Keys;
    while pending != {}
      invariant pending <= m.Keys && attrs.Keys == m.Keys
      invariant forall k | k in pending :: attrs[k] == Plain(m[k])
      invariant forall k | k in m.Keys - pending :: attrs[k] == WrapValue(m[k])
      decreases pending
    {
      var attr :| attr in pending;
      var value := attrs[attr].j;
      if value.JDict? {
        var inner := RequestField(value);
        attrs := attrs[attr := Nested(inner.value)];
      }
      pending := pending - {attr};
    }
    assert attrs == Wrap(m).attrs;
    return Ok(Obj(attrs));
  }

  /** What `models._Field(request_param)` produces or raises: it walks `request_param.items()`,
      which only dictionaries have. */
  function FieldOf(j: Json): (r: Outcome<Obj>)
    ensures j.JDict? ==> r == Ok(Wrap(j.fields))
    ensures !j.JDict? ==> r == Raise(AttributeError)
  {
    match j
    case JDict(m) => Ok(Wrap(m))
    case _ => Raise(AttributeError)
  }

  /** models._Field.__init__: one pass that wraps dictionary values as it sets the attributes. */
  method Field(j: Json) returns (r: Outcome<Obj>)
    ensures r == FieldOf(j)
    decreases j
  {
    if !j.JDict? {
      return Raise(AttributeError);
    }
    var m := j.fields;
    var attrs: map<string, Attr> := map[];
    var todo := m.Keys;
    while todo != {}
      invariant todo <= m.Keys
      invariant attrs.Keys == m.Keys - todo
      invariant forall k | k in attrs :: attrs[k] == WrapValue(m[k])
      decreases todo
    {
      var key :| key in todo;
      var value := m[key];
      if value.JDict? {
        var inner := Field(value);
        attrs := attrs[key := Nested(inner.value)];
      } else {
        attrs := attrs[key := Plain(value)];
      }
      todo := todo - {key};
    }
    assert attrs == Wrap(m).attrs;
    return Ok(Obj(attrs));
  }

  /** The two wrappers agree on objects: every key an attribute, every nested object wrapped at
      every depth, lists kept as they are, and nothing lost. They differ on an empty string or
      list, which only `_RequestField` accepts. */
  lemma WrappersAgreeOnObjects(m: map<string, Json>)
    ensures RequestFieldOf(JDict(m)) == FieldOf(JDict(m)) == Ok(Wrap(m))
    ensures Wrap(m).attrs.Keys == m.Keys
    ensures forall k | k in m :: FullyWrapped(Wrap(m).attrs[k])
    ensures forall k | k in m && !m[k].JDict? :: Wrap(m).attrs[k] == Plain(m[k])
    ensures Unwrap(Wrap(m)) == m
  {
    UnwrapWrap(m);
    forall k | k in m ensures FullyWrapped(Wrap(m).attrs[k]) && (!m[k].JDict? ==> Wrap(m).attrs[k] == Plain(m[k])) {
      WrapValueFullyWrapped(m[k]);
    }
  }

  lemma WrappersDifferOnEmpty()
    ensures RequestFieldOf(JStr("")) == Ok(Obj(map[])) && FieldOf(JStr("")) == Raise(AttributeError)
    ensures RequestFieldOf(JList([])) == Ok(Obj(map[])) && FieldOf(JList([])) == Raise(AttributeError)
  {
  }

  /** A list whose first element is an index past its end raises `IndexError`; an index inside
      it, or a string element, raises `TypeError`. */
  lemma ListArgumentErrors()
    ensures RequestFieldOf(JList([JInt(5)])) == Raise(IndexError)
    ensures RequestFieldOf(JList([JInt(0)])) == Raise(TypeError)
    ensures RequestFieldOf(JList([JStr("a"), JInt(7)])) == Raise(TypeError)
  {
  }

  /** _copyattr(src, dest, attr, convert): `attr in src`, then `src[attr]`, converted when a
      converter is given, is set on `dest`; `dest` is unchanged when the key is absent. A source
      that is not a dictionary fails on the membership test or on the indexing. */
  function CopyAttr(src: Json, dest: map<string, Json>, attr: string, convert: Option<Json -> Outcome<Json>>): (r: Outcome<map<string, Json>>)
    ensures src.JDict? && attr !in src.fields ==> r == Ok(dest)
    ensures src.JDict? && attr in src.fields && convert.None? ==> r == Ok(dest[attr := src.fields[attr]])
    ensures src.JDict? && attr in src.fields && convert.Some? ==>
              r == (match convert.value(src.fields[attr]) case Ok(v) => Ok(dest[attr := v]) case Raise(e) => Raise(e))
    ensures r.Ok? ==> dest.Keys <= r.value.Keys <= dest.Keys + {attr} && forall k | k in dest && k != attr :: r.value[k] == dest[k]
  {
    match StrIn(attr, src)
    case Raise(e) => Raise(e)
    case Ok(present) =>
      if !present then Ok(dest)
      else match Index(src, attr)
        case Raise(e) => Raise(e)
        case Ok(value) =>
          match convert
          case None => Ok(dest[attr := value])
          case Some(f) =>
            match f(value)
            case Raise(e) => Raise(e)
            case Ok(v) => Ok(dest[attr := v])
  }

  /** Copying an attribute that is present twice is the same as copying it once. */
  lemma CopyAttrIdempotent(src: map<string, Json>, dest: map<string, Json>, attr: string)
    ensures CopyAttr(JDict(src), dest, attr, None).Ok?
    ensures CopyAttr(JDict(src), CopyAttr(JDict(src), dest, attr, None).value, attr, None) == CopyAttr(JDict(src), dest, attr, None)
  {
    if attr in src {
      var once := dest[attr := src[attr]];
      assert once[attr := src[attr]] == once;
    }
  }

  /** A list source holding the name passes the membership test and then fails on the
      indexing; one without it leaves `dest` alone. */
  lemma CopyAttrFromList(xs: seq<Json>, dest: map<string, Json>, attr: string)
    ensures CopyAttr(JList(xs), dest, attr, None) == if JStr(attr) in xs then Raise(TypeError) else Ok(dest)
  {
  }

  /** request.Request after `_parse_request_body`: the body and its four members read with
      `.get`, so an absent member is `None`. */
  datatype Request = Request(body: map<string, Json>, version: Json, request: Json, context: Json, session: Json)

  function ParseRequestBody(body: Json): (r: Outcome<Request>)
    ensures body.JDict? <==> r.Ok?
    ensures r.Ok? ==> r.value.body == body.fields && r.value.version == Get(body.fields, "version") &&
                      r.value.request == Get(body.fields, "request") &&
                      r.value.context == Get(body.fields, "context") && r.value.session == Get(body.fields, "session")
  {
    match body
    case JDict(b) => Ok(Request(b, Get(b, "version"), Get(b, "request"), Get(b, "context"), Get(b, "session")))
    case _ => Raise(AttributeError)
  }

  /** The accessors wrap the matching member on every read. */
  function ContextOf(r: Request): Outcome<Obj> { RequestFieldOf(r.context) }
  function RequestOf(r: Request): Outcome<Obj> { RequestFieldOf(r.request) }
  function SessionOf(r: Request): Outcome<Obj> { RequestFieldOf(r.session) }

  /** models._Request after `_parse_request_body`: absent members default to `{}`, the version
      included. */
  function ParseModelsRequestBody(body: Json): (r: Outcome<Request>)
    ensures body.JDict? <==> r.Ok?
    ensures r.Ok? ==> r.value.body == body.fields &&
                      r.value.version == (if "version" in body.fields then body.fields["version"] else JDict(map[])) &&
                      r.value.request == (if "request" in body.fields then body.fields["request"] else JDict(map[])) &&
                      r.value.context == (if "context" in body.fields then body.fields["context"] else JDict(map[])) &&
                      r.value.session == (if "session" in body.fields then body.fields["session"] else JDict(map[]))
  {
    match body
    case JDict(b) =>
      var dflt := JDict(map[]);
      Ok(Request(b, if "version" in b then b["version"] else dflt, if "request" in b then b["request"] else dflt,
                 if "context" in b then b["context"] else dflt, if "session" in b then b["session"] else dflt))
    case _ => Raise(AttributeError)
  }

  function ModelsContextOf(r: Request): Outcome<Obj> { FieldOf(r.context) }
  function ModelsRequestOf(r: Request): Outcome<Obj> { FieldOf(r.request) }
  function ModelsSessionOf(r: Request): Outcome<Obj> { FieldOf(r.session) }

  /** A body member that is present as an object reads back through its accessor as that object,
      wrapped, in both request classes. */
  lemma AccessorsWrapMembers(body: map<string, Json>)
    ensures var r := ParseRequestBody(JDict(body)).value;
            var q := ParseModelsRequestBody(JDict(body)).value;
            ("context" in body && body["context"].JDict? ==>
               ContextOf(r) == ModelsContextOf(q) == Ok(Wrap(body["context"].fields))) &&
            ("request" in body && body["request"].JDict? ==>
               RequestOf(r) == ModelsRequestOf(q) == Ok(Wrap(body["request"].fields))) &&
            ("session" in body && body["session"].JDict? ==>
               SessionOf(r) == ModelsSessionOf(q) == Ok(Wrap(body["session"].fields)))
    ensures ParseRequestBody(JDict(body)).value.body == body
  {
  }

  /** An absent member: `request.Request` reads `None` and its accessor raises `TypeError`,
      while `models._Request` defaults to `{}` and gives an empty object. */
  lemma AbsentMemberContrast(body: map<string, Json>)
    requires "context" !in body
    ensures ParseRequestBody(JDict(body)).value.version == Get(body, "version")
    ensures ContextOf(ParseRequestBody(JDict(body)).value) == Raise(TypeError)
    ensures ModelsContextOf(ParseModelsRequestBody(JDict(body)).value) == Ok(Obj(map[]))
  {
    assert Wrap(map[]).attrs == map[];
  }
}
