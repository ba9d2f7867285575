/** `getResourceInfo` after the network: from the outcome of the query request to
    the resource record, or null. The request itself is an oracle outcome. */
module Fetcher {
  import opened JsValues

  /** What the query request produced: a failure (a non-2xx status, a timeout, a
      transport error or a body that is not JSON, all of which the source catches)
      or the decoded JSON body. */
  datatype FetchOutcome = RequestFailed | Body(data: Value)

  /** The alternate top-level keys that may hold the result list, in order. */
  const LIST_KEYS: seq<string> := ["items", "data", "resources", "results"]

  /** `data[key]` for a non-null body. Arrays and strings have no property of any
      of the list key names, and neither have numbers and booleans. */
  function Member(data: Value, key: string): Value {
    if data.Obj? then Get(data.props, key) else Undefined
  }

  /** `data.items || data.data || data.resources || data.results || []`, for the
      keys given. Even the `[]` fallback is truthy, so the result always is. */
  function ItemsList(data: Value, keys: seq<string>): (items: Value)
    ensures Truthy(items)
    ensures var k := FirstWhere(keys, key => Truthy(Member(data, key)));
      items == if k < |keys| then Member(data, keys[k]) else Arr([])
    decreases |keys|
  {
    if |keys| == 0 then Arr([])
    else Or(Member(data, keys[0]), ItemsList(data, keys[1..]))
  }

  /** `items.length === 0`. Only an array, a string or an object whose `length`
      property is the number 0 can pass. */
  predicate LengthIsZero(items: Value) {
    match items
    case Arr(elems) => |elems| == 0
    case Str(s) => |s| == 0
    case Obj(m) => Get(m, "length") == Num(0)
    case _ => false
  }

  /** `items[0]` for a list that is not empty. */
  function FirstElement(items: Value): Value {
    match items
    case Arr(elems) => if |elems| > 0 then elems[0] else Undefined
    case Str(s) => if |s| > 0 then Str(s[..1]) else Undefined
    case Obj(m) => Get(m, "0")
    case _ => Undefined
  }

  /** `getResourceInfo` from the query outcome on: a failed request gives null; a
      null body throws on the property read and gives null; an empty list gives
      null; otherwise the first element is the record, unless it is not an object
      (then reading its status with `in` throws, and the catch gives null). That
      `in` runs because the candidate list is never empty (`Configuration.FromEnv`). */
  function GetResourceInfo(outcome: FetchOutcome): (r: Option<Record>)
    ensures outcome.RequestFailed? ==> r.None?
    ensures r.Some? ==>
      && outcome.Body? && (outcome.data.Obj? || outcome.data.Arr?)
      && var items := ItemsList(outcome.data, LIST_KEYS);
         !LengthIsZero(items) && RecordView(FirstElement(items)) == r
    ensures outcome.Body? && (outcome.data.Null? || outcome.data.Undefined?) ==> r.None?
    ensures outcome.Body? && !outcome.data.Null? && !outcome.data.Undefined? ==>
      var items := ItemsList(outcome.data, LIST_KEYS);
      && (LengthIsZero(items) ==> r.None?)
      && (!LengthIsZero(items) ==> r == RecordView(FirstElement(items)))
  {
    match outcome
    case RequestFailed => None
    case Body(data) =>
      if data.Null? || data.Undefined? then None
      else
        var items := ItemsList(data, LIST_KEYS);
        if LengthIsZero(items) then None
        else RecordView(FirstElement(items))
  }

  /** A response body holding `list` under `key` and nothing else. */
  function ListBody(key: string, list: seq<Value>): Value {
    Obj(map[key := Arr(list)])
  }

  /** Round trip: a body that lists records under any of the alternate keys gives
      back the first record; an empty list gives null. */
  lemma ListBodyRoundTrip(key: string, list: seq<Value>)
    requires key in LIST_KEYS
    ensures list == [] ==> GetResourceInfo(Body(ListBody(key, list))).None?
    ensures |list| > 0 && list[0].Obj? ==> GetResourceInfo(Body(ListBody(key, list))) == Some(list[0].props)
  {
    var data := ListBody(key, list);
    var i :| 0 <= i < |LIST_KEYS| && LIST_KEYS[i] == key;
    var p := key' => Truthy(Member(data, key'));
    assert p(LIST_KEYS[i]);
    forall j | 0 <= j < |LIST_KEYS| && j != i ensures !p(LIST_KEYS[j]) {
      assert LIST_KEYS[j] != key;
    }
    FirstWhereIsUnique(LIST_KEYS, p, i);
  }

  /** An empty array under `items` is truthy, so it wins over every other key and
      the resource is reported as not found. */
  lemma EmptyItemsShadowsOtherKeys(m: map<string, Value>)
    requires "items" in m && m["items"] == Arr([])
    ensures GetResourceInfo(Body(Obj(m))).None?
  {
    var p := key => Truthy(Member(Obj(m), key));
    FirstWhereIsUnique(LIST_KEYS, p, 0);
  }

  /** A falsy `items` (absent, null, false, 0 or "") falls through to `data`. */
  lemma FalsyItemsFallsThrough(m: map<string, Value>, rec: Record, rest: seq<Value>)
    requires !Truthy(Get(m, "items"))
    requires "data" in m && m["data"] == Arr([Obj(rec)] + rest)
    ensures GetResourceInfo(Body(Obj(m))) == Some(rec)
  {
    var p := key => Truthy(Member(Obj(m), key));
    FirstWhereIsUnique(LIST_KEYS, p, 1);
  }
}
