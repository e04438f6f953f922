/** The per-user stream stack kept in a key-value cache (flask_ask/cache.py).
    Every operation reads the user's list out of the cache, changes the copy and writes it
    back (`set`) or removes the key (`delete`). */
module Cache {
  import opened Outcomes
  import opened PyJson

  /** A cache key: the user id as read from the request, `None` (`JNull`) when it is missing. */
  type UserId = Json

  /** Python truthiness of a user id: `None` and `""` are falsy. */
  predicate UserTruthy(u: UserId) {
    Truthy(u)
  }

  /** The slice of werkzeug's `SimpleCache` the stream functions use. `get` returns a copy of
      the stored list (the cache pickles what it stores), so a list taken out of the cache is a
      value: changing it changes the cache only through `set`. The entries never expire and are
      never pruned, and any JSON value is a key, hashable or not. */
  class SimpleCache {
    var entries: map<UserId, seq<Json>>

    constructor ()
      ensures entries == map[]
    {
      entries := map[];
    }

    method Get(key: UserId) returns (stack: Option<seq<Json>>)
      ensures stack == if key in entries then Some(entries[key]) else None
    {
      stack := if key in entries then Some(entries[key]) else None;
    }

    /** `set` reports success; the in-process cache always succeeds. */
    method Set(key: UserId, stack: seq<Json>) returns (ok: bool)
      modifies this
      ensures entries == old(entries)[key := stack]
      ensures ok
    {
      entries := entries[key := stack];
      ok := true;
    }

    method Delete(key: UserId)
      modifies this
      ensures entries == old(entries) - {key}
    {
      entries := entries - {key};
    }
  }

  /** The invariant the stack operations keep: a key is either absent or holds a non-empty stack. */
  predicate NoEmptyStacks(m: map<UserId, seq<Json>>) {
    forall u | u in m :: m[u] != []
  }

  /** The state of the whole cache after `push_stream(cache, u, stream)`. */
  function Pushed(m: map<UserId, seq<Json>>, u: UserId, stream: Json): (r: map<UserId, seq<Json>>)
    ensures Truthy(stream) ==> u in r && r[u] == (if u in m then m[u] else []) + [stream]
    ensures !Truthy(stream) ==> r == m
    ensures forall v | v != u :: (v in r <==> v in m) && (v in m ==> r[v] == m[v])
  {
    if !Truthy(stream) then m
    else m[u := (if u in m then m[u] else []) + [stream]]
  }

  /** What `pop_stream(cache, u)` returns, and the cache afterwards. */
  datatype PopResult = PopResult(popped: Outcome<Option<Json>>, after: map<UserId, seq<Json>>)

  function Popped(m: map<UserId, seq<Json>>, u: UserId): (r: PopResult)
    ensures u !in m ==> r == PopResult(Ok(None), m)
    ensures u in m && m[u] == [] ==> r.popped == Raise(IndexError)
    ensures u in m && m[u] != [] ==>
      r.popped == Ok(Some(m[u][|m[u]| - 1])) &&
      (|m[u]| == 1 ==> r.after == m - {u}) &&
      (|m[u]| > 1 ==> r.after == m[u := m[u][..|m[u]| - 1]])
  {
    if u !in m then PopResult(Ok(None), m)
    else if m[u] == [] then PopResult(Raise(IndexError), m)
    else
      var rest := m[u][..|m[u]| - 1];
      PopResult(Ok(Some(m[u][|m[u]| - 1])), if |rest| == 0 then m - {u} else m[u := rest])
  }

  /** The cache after `set_stream(cache, u, stream)`. */
  function SetTo(m: map<UserId, seq<Json>>, u: UserId, stream: Json): (r: map<UserId, seq<Json>>)
    ensures Truthy(stream) ==> r == m[u := [stream]]
    ensures !Truthy(stream) ==> r == m
  {
    if Truthy(stream) then m[u := [stream]] else m
  }

  /** What `top_stream(cache, u)` returns; it never changes the cache. */
  function Top(m: map<UserId, seq<Json>>, u: UserId): (r: Outcome<Option<Json>>)
    ensures !UserTruthy(u) || u !in m ==> r == Ok(None)
    ensures UserTruthy(u) && u in m && m[u] != [] ==> r == Ok(Some(m[u][|m[u]| - 1]))
  {
    if !UserTruthy(u) then Ok(None)
    else if u !in m then Ok(None)
    else if m[u] == [] then Raise(IndexError)
    else Ok(Some(m[u][|m[u]| - 1]))
  }

  /** push_stream: append a truthy stream to the user's stack; a falsy one is refused with
      `None` and leaves the cache as it was. */
  method PushStream(cache: SimpleCache, u: UserId, stream: Json) returns (r: Option<bool>)
    modifies cache
    ensures cache.entries == Pushed(old(cache.entries), u, stream)
    ensures r == if Truthy(stream) then Some(true) else None
  {
    var got := cache.Get(u);
    var stack := if got.None? then [] else got.value;
    if Truthy(stream) {
      stack := stack + [stream];
      var ok := cache.Set(u, stack);
      return Some(ok);
    }
    return None;
  }

  /** pop_stream: remove and return the top of the user's stack, deleting the key when
      the stack becomes empty. */
  method PopStream(cache: SimpleCache, u: UserId) returns (r: Outcome<Option<Json>>)
    modifies cache
    ensures r == Popped(old(cache.entries), u).popped
    ensures cache.entries == Popped(old(cache.entries), u).after
  {
    var got := cache.Get(u);
    if got.None? {
      return Ok(None);
    }
    var stack := got.value;
    if |stack| == 0 {
      return Raise(IndexError);
    }
    var result := stack[|stack| - 1];
    stack := stack[..|stack| - 1];
    if |stack| == 0 {
      cache.Delete(u);
    } else {
      var _ := cache.Set(u, stack);
    }
    return Ok(Some(result));
  }

  /** set_stream: replace the user's whole stack by `[stream]`; a falsy stream changes nothing. */
  method SetStream(cache: SimpleCache, u: UserId, stream: Json) returns (r: Option<bool>)
    modifies cache
    ensures cache.entries == SetTo(old(cache.entries), u, stream)
    ensures r == if Truthy(stream) then Some(true) else None
  {
    if Truthy(stream) {
      var ok := cache.Set(u, [stream]);
      return Some(ok);
    }
    return None;
  }

  /** top_stream: the last pushed element. The list it pops is the copy `get` returned, so the
      stored stack is untouched; a falsy user id is answered without consulting the cache. */
  method TopStream(cache: SimpleCache, u: UserId) returns (r: Outcome<Option<Json>>)
    ensures r == Top(cache.entries, u)
  {
    if !UserTruthy(u) {
      return Ok(None);
    }
    var got := cache.Get(u);
    if got.None? {
      return Ok(None);
    }
    var stack := got.value;
    if |stack| == 0 {
      return Raise(IndexError);
    }
    return Ok(Some(stack[|stack| - 1]));
  }

  /** Push then pop is the identity on the whole cache and yields the pushed stream (LIFO),
      provided the user's stack was well formed. */
  lemma PushThenPop(m: map<UserId, seq<Json>>, u: UserId, stream: Json)
    requires Truthy(stream)
    requires u in m ==> m[u] != []
    ensures Popped(Pushed(m, u, stream), u) == PopResult(Ok(Some(stream)), m)
  {
    var p := Pushed(m, u, stream);
    var old_stack := if u in m then m[u] else [];
    assert p[u][..|p[u]| - 1] == old_stack;
    if u in m {
      assert m[u := old_stack] == m;
    } else {
      assert p - {u} == m;
    }
  }

  /** Two pushes come back out in reverse order and leave the cache as it was. */
  lemma PushPushPopPop(m: map<UserId, seq<Json>>, u: UserId, first: Json, second: Json)
    requires Truthy(first) && Truthy(second)
    requires u in m ==> m[u] != []
    ensures var m1 := Pushed(m, u, first);
            var m2 := Pushed(m1, u, second);
            var p1 := Popped(m2, u);
            var p2 := Popped(p1.after, u);
            p1.popped == Ok(Some(second)) && p2.popped == Ok(Some(first)) && p2.after == m
  {
    var m1 := Pushed(m, u, first);
    PushThenPop(m1, u, second);
    PushThenPop(m, u, first);
  }

  /** The cache operations never create an empty stack: popping the last entry deletes the key. */
  lemma OperationsKeepNoEmptyStacks(m: map<UserId, seq<Json>>, u: UserId, stream: Json)
    requires NoEmptyStacks(m)
    ensures NoEmptyStacks(Pushed(m, u, stream))
    ensures NoEmptyStacks(Popped(m, u).after)
    ensures NoEmptyStacks(SetTo(m, u, stream))
    ensures Popped(m, u).popped.Ok?
    ensures Top(m, u).Ok?
  {
  }

  /** After `set_stream`, the stream is on top, and it is the only entry: one pop yields it and
      removes the key, so a second pop yields `None`. */
  lemma SetThenPopTwice(m: map<UserId, seq<Json>>, u: UserId, stream: Json)
    requires Truthy(stream)
    ensures UserTruthy(u) ==> Top(SetTo(m, u, stream), u) == Ok(Some(stream))
    ensures Popped(SetTo(m, u, stream), u).popped == Ok(Some(stream))
    ensures Popped(Popped(SetTo(m, u, stream), u).after, u) == PopResult(Ok(None), m - {u})
  {
    var s := SetTo(m, u, stream);
    assert s[u][..0] == [];
    assert s - {u} == m - {u};
  }

  /** `top_stream` with a falsy user id does not depend on the cache at all. */
  lemma TopIgnoresCacheForFalsyUser(m1: map<UserId, seq<Json>>, m2: map<UserId, seq<Json>>, u: UserId)
    requires !UserTruthy(u)
    ensures Top(m1, u) == Top(m2, u) == Ok(None)
  {
  }

  /** The scenario of the cache tests: push, peek, peek at another user, pop, peek again; then
      a falsy stream, which is refused. */
  method AddingRemovingStream(stream: Json, user: string, other: string)
    returns (pushed: Option<bool>, top: Outcome<Option<Json>>, otherTop: Outcome<Option<Json>>,
             popped: Outcome<Option<Json>>, afterPop: Outcome<Option<Json>>, refused: Option<bool>)
    requires Truthy(stream) && user != "" && other != user
    ensures pushed == Some(true) && top == Ok(Some(stream)) && otherTop == Ok(None)
    ensures popped == Ok(Some(stream)) && afterPop == Ok(None) && refused == None
  {
    var cache := new SimpleCache();
    pushed := PushStream(cache, JStr(user), stream);
    top := TopStream(cache, JStr(user));
    otherTop := TopStream(cache, JStr(other));
    popped := PopStream(cache, JStr(user));
    afterPop := TopStream(cache, JStr(user));
    refused := PushStream(cache, JStr(user), JNull);
  }
}
