/** JavaScript values as the update tool sees them: decoded JSON plus `undefined`,
    JavaScript truthiness, property reads and the string conversion a template
    literal applies. */
module JsValues {

  datatype Option<T> = None | Some(value: T)

  /** A decoded JSON value, plus `undefined` (what a property read yields for a
      missing key). Numbers are integers here. */
  datatype Value =
    | Undefined
    | Null
    | Bool(b: bool)
    | Num(n: int)
    | Str(s: string)
    | Arr(elems: seq<Value>)
    | Obj(props: map<string, Value>)

  /** A resource record: an object's own properties. */
  type Record = map<string, Value>

  /** JavaScript truthiness: `undefined`, `null`, `false`, `0` and `""` are falsy;
      every array and every object, even an empty one, is truthy. */
  predicate Truthy(v: Value) {
    match v
    case Undefined => false
    case Null => false
    case Bool(b) => b
    case Num(n) => n != 0
    case Str(s) => s != ""
    case Arr(_) => true
    case Obj(_) => true
  }

  /** `a || b` */
  function Or(a: Value, b: Value): Value {
    if Truthy(a) then a else b
  }

  /** `rec[key]` on an object: `undefined` when the key is absent. */
  function Get(rec: Record, key: string): Value {
    if key in rec then rec[key] else Undefined
  }

  /** The first position of `s` whose element satisfies `p`, or `|s|` if none does. */
  function FirstWhere<T>(s: seq<T>, p: T -> bool): (k: nat)
    ensures k <= |s|
    ensures k < |s| ==> p(s[k])
    ensures forall j :: 0 <= j < k ==> !p(s[j])
  {
    if |s| == 0 then 0
    else if p(s[0]) then 0
    else 1 + FirstWhere(s[1..], p)
  }

  /** The first position is the only one with nothing satisfying `p` before it. */
  lemma FirstWhereIsUnique<T>(s: seq<T>, p: T -> bool, i: nat)
    requires i <= |s|
    requires i < |s| ==> p(s[i])
    requires forall j :: 0 <= j < i ==> !p(s[j])
    ensures FirstWhere(s, p) == i
  {
  }

  predicate IsDigits(s: string) {
    forall i :: 0 <= i < |s| ==> '0' <= s[i] <= '9'
  }

  function DigitChar(d: nat): (c: char)
    requires d < 10
    ensures '0' <= c <= '9'
  {
    ('0' as int + d) as char
  }

  /** Decimal notation of a natural number, as `String(n)` writes it. */
  function NatToString(n: nat): (s: string)
    ensures |s| > 0 && IsDigits(s)
  {
    if n < 10 then [DigitChar(n)] else NatToString(n / 10) + [DigitChar(n % 10)]
  }

  /** Different numbers are written differently. */
  lemma {:induction false} NatToStringInjective(a: nat, b: nat)
    requires NatToString(a) == NatToString(b)
    ensures a == b
    decreases a
  {
    if a >= 10 && b >= 10 {
      var sa, sb := NatToString(a / 10), NatToString(b / 10);
      assert NatToString(a)[..|sa|] == sa && NatToString(b)[..|sb|] == sb;
      assert NatToString(a)[|sa|] == DigitChar(a % 10) && NatToString(b)[|sb|] == DigitChar(b % 10);
      NatToStringInjective(a / 10, b / 10);
    }
  }

  function IntToString(n: int): string {
    if n < 0 then "-" + NatToString(-n) else NatToString(n)
  }

  /** `${v}` in a template literal. An array is joined with commas, with `null`
      and `undefined` elements written as empty strings. */
  function TemplateString(v: Value): string {
    match v
    case Undefined => "undefined"
    case Null => "null"
    case Bool(b) => if b then "true" else "false"
    case Num(n) => IntToString(n)
    case Str(s) => s
    case Arr(elems) =>
      Join(seq(|elems|, i requires 0 <= i < |elems| =>
             if elems[i].Undefined? || elems[i].Null? then "" else TemplateString(elems[i])))
    case Obj(_) => "[object Object]"
  }

  function Join(parts: seq<string>): string {
    if |parts| == 0 then ""
    else if |parts| == 1 then parts[0]
    else parts[0] + "," + Join(parts[1..])
  }

  /** `s.split(',')`: the pieces between commas. Even the empty string gives one
      piece, so the result is never empty, and joining the pieces gives `s` back. */
  function Split(s: string): (parts: seq<string>)
    ensures |parts| > 0
    ensures forall i :: 0 <= i < |parts| ==> ',' !in parts[i]
    ensures Join(parts) == s
    decreases |s|
  {
    var k := FirstWhere(s, ch => ch == ',');
    if k == |s| then
      assert forall j :: 0 <= j < |s| ==> s[j] != ',';
      [s]
    else
      var rest := Split(s[k + 1..]);
      assert ([s[..k]] + rest)[1..] == rest;
      assert s[..k] + "," + s[k + 1..] == s;
      [s[..k]] + rest
  }

  /** The index properties `"0"`, ..., `"n-1"` of an array's first `n` elements. */
  function IndexProps(elems: seq<Value>, n: nat): (m: Record)
    requires n <= |elems|
    ensures forall k :: k in m ==> IsDigits(k)
  {
    if n == 0 then map[] else IndexProps(elems, n - 1)[NatToString(n - 1) := elems[n - 1]]
  }

  /** Index `i` is the key `String(i)` holding element `i`, and there is no other key. */
  lemma {:induction false} IndexPropsKeys(elems: seq<Value>, n: nat)
    requires n <= |elems|
    ensures forall i :: 0 <= i < n ==> NatToString(i) in IndexProps(elems, n) && IndexProps(elems, n)[NatToString(i)] == elems[i]
    ensures forall k :: k in IndexProps(elems, n) ==> exists i :: 0 <= i < n && k == NatToString(i)
  {
    if n > 0 {
      IndexPropsKeys(elems, n - 1);
      var m, key := IndexProps(elems, n - 1), NatToString(n - 1);
      assert IndexProps(elems, n) == m[key := elems[n - 1]];
      forall i | 0 <= i < n - 1
        ensures NatToString(i) != key
      {
        if NatToString(i) == key {
          NatToStringInjective(i, n - 1);
        }
      }
      forall k | k in IndexProps(elems, n)
        ensures exists i :: 0 <= i < n && k == NatToString(i)
      {
        if k != key {
          assert k in m;
        }
      }
    }
  }

  /** The own properties that the `in` operator sees on `v`, or None when `in`
      throws a TypeError because `v` is not an object. */
  function RecordView(v: Value): (r: Option<Record>)
    ensures r.Some? <==> v.Obj? || v.Arr?
    ensures v.Obj? ==> r == Some(v.props)
    ensures v.Arr? ==> "length" in r.value && r.value["length"] == Num(|v.elems|)
    ensures v.Arr? ==> forall i :: 0 <= i < |v.elems| ==>
      NatToString(i) in r.value && r.value[NatToString(i)] == v.elems[i]
    ensures v.Arr? ==> forall k :: k in r.value ==>
      k == "length" || exists i :: 0 <= i < |v.elems| && k == NatToString(i)
  {
    match v
    case Obj(m) => Some(m)
    case Arr(elems) =>
      var m := IndexProps(elems, |elems|);
      IndexPropsKeys(elems, |elems|);
      assert "length"[0] == 'l';
      assert "length" !in m;
      Some(m["length" := Num(|elems|)])
    case _ => None
  }
}
