/** JSON values as the Python code sees them after `json.loads`, and the attribute objects
    (`models._Field`, `request._RequestField`) that wrap JSON objects. Numbers are integers:
    floating point is not part of this model. */
module PyJson {
  import opened Outcomes
  import opened Text

  datatype Json =
    | JNull
    | JBool(b: bool)
    | JInt(i: int)
    | JStr(s: string)
    | JList(items: seq<Json>)
    | JDict(fields: map<string, Json>)

  /** Python truthiness: `None`, `False`, `0`, `""`, `[]` and `{}` are falsy. */
  predicate Truthy(j: Json) {
    match j
    case JNull => false
    case JBool(b) => b
    case JInt(i) => i != 0
    case JStr(s) => s != ""
    case JList(xs) => xs != []
    case JDict(m) => m != map[]
  }

  /** A JSON value Python can hash: a dictionary key or a set member. Lists and dictionaries
      are unhashable. */
  predicate Hashable(j: Json) {
    !j.JList? && !j.JDict?
  }

  /** Python's `d.get(key)` on a dictionary. */
  function Get(m: map<string, Json>, key: string): Json {
    if key in m then m[key] else JNull
  }

  /** Attribute read on an attribute object built from a dictionary, as the dispatcher uses
      it: a missing key reads as `None`; anything that is not an object has no attributes. */
  function DictAttr(j: Json, name: string): (r: Outcome<Json>)
    ensures r.Ok? <==> j.JDict?
    ensures j.JDict? ==> r.value == Get(j.fields, name)
  {
    match j
    case JDict(m) => Ok(Get(m, name))
    case _ => Raise(AttributeError)
  }

  /** `j.get(key, default)`: only dictionaries have a `get` method. */
  function CallGet(j: Json, key: string, default: Json): (r: Outcome<Json>)
    ensures r.Ok? <==> j.JDict?
    ensures j.JDict? && key in j.fields ==> r == Ok(j.fields[key])
    ensures j.JDict? && key !in j.fields ==> r == Ok(default)
  {
    match j
    case JDict(m) => Ok(if key in m then m[key] else default)
    case _ => Raise(AttributeError)
  }

  /** `j[key]` with a string key: `KeyError` for a missing key of a dictionary, `TypeError`
      for anything that cannot be indexed by a string (`None`, numbers, strings, lists). */
  function Index(j: Json, key: string): (r: Outcome<Json>)
    ensures r.Ok? <==> j.JDict? && key in j.fields
    ensures r.Ok? ==> r.value == j.fields[key]
    ensures r.Raise? ==> r.error == (if j.JDict? then KeyError else TypeError)
  {
    match j
    case JDict(m) => if key in m then Ok(m[key]) else Raise(KeyError)
    case _ => Raise(TypeError)
  }

  /** Python's `sub in j` for a string `sub`: substring test on a string, membership in a list,
      key test on a dictionary; `None`, booleans and numbers are not containers. */
  function StrIn(sub: string, j: Json): (r: Outcome<bool>)
    ensures j.JStr? ==> r == Ok(Contains(j.s, sub))
    ensures j.JDict? ==> r == Ok(sub in j.fields)
    ensures j.JList? ==> r == Ok(JStr(sub) in j.items)
    ensures r.Raise? <==> j.JNull? || j.JBool? || j.JInt?
  {
    match j
    case JStr(s) => Ok(Contains(s, sub))
    case JList(xs) => Ok(JStr(sub) in xs)
    case JDict(m) => Ok(sub in m)
    case _ => Raise(TypeError)
  }

  /** An attribute object: every key of a JSON object becomes an attribute, and a value
      that is itself an object becomes a nested attribute object. */
  datatype Attr = Plain(j: Json) | Nested(o: Obj)
  datatype Obj = Obj(attrs: map<string, Attr>)

  /** The attribute form of one JSON value. */
  function WrapValue(j: Json): Attr {
    match j
    case JDict(m) => Nested(Obj(map k | k in m :: WrapValue(m[k])))
    case _ => Plain(j)
  }

  /** The attribute object built from a JSON object: the result of the wrapping constructors. */
  function Wrap(m: map<string, Json>): (o: Obj)
    ensures o.attrs.Keys == m.Keys
  {
    WrapValue(JDict(m)).o
  }

  /** The JSON an attribute stands for. */
  function UnwrapAttr(a: Attr): Json {
    match a
    case Plain(j) => j
    case Nested(o) => JDict(map k | k in o.attrs :: UnwrapAttr(o.attrs[k]))
  }

  function Unwrap(o: Obj): map<string, Json> {
    map k | k in o.attrs :: UnwrapAttr(o.attrs[k])
  }

  /** No attribute, at any depth, holds a raw JSON object: every object has been wrapped. */
  predicate FullyWrapped(a: Attr) {
    match a
    case Plain(j) => !j.JDict?
    case Nested(o) => forall k | k in o.attrs :: FullyWrapped(o.attrs[k])
  }

  lemma {:induction false} UnwrapWrapValue(j: Json)
    ensures UnwrapAttr(WrapValue(j)) == j
  {
    match j
    case JDict(m) =>
      forall k | k in m ensures UnwrapAttr(WrapValue(m[k])) == m[k] {
        UnwrapWrapValue(m[k]);
      }
    case _ =>
  }

  /** Wrapping loses nothing: the attributes read back as the original JSON. */
  lemma UnwrapWrap(m: map<string, Json>)
    ensures Unwrap(Wrap(m)) == m
  {
    UnwrapWrapValue(JDict(m));
  }

  /** Every nested object is wrapped, at every depth; values that are not objects
      (lists included) are kept as they are. */
  lemma {:induction false} WrapValueFullyWrapped(j: Json)
    ensures FullyWrapped(WrapValue(j))
    ensures !j.JDict? ==> WrapValue(j) == Plain(j)
  {
    match j
    case JDict(m) =>
      forall k | k in m ensures FullyWrapped(WrapValue(m[k])) {
        WrapValueFullyWrapped(m[k]);
      }
    case _ =>
  }
}
