/** JSON values as the Flask back end sees them after `json.load` /
    `request.get_json()`, and the few Python operations the handlers
    apply to them: `d.get`, `d[k]`, `str.lower`, `>=`/`<=`, hashing. */
module Json {
  import opened Common

  datatype Value =
    | Null
    | Bool(b: bool)
    | Num(n: real)
    | Str(s: string)
    | Arr(items: seq<Value>)
    | Obj(fields: map<string, Value>)

  /** A JSON object: a Python `dict` with string keys. */
  type Object = map<string, Value>

  /** The Python exceptions a handler body can raise; the route's
      `except Exception` turns each into a 500 response. */
  datatype Fault =
    | KeyError(key: string)   // `d[k]` with `k` absent
    | TypeError               // unorderable operands, unhashable key, subscript or `**` of a non-mapping
    | AttributeError          // `.lower()` or `.get()` on a value that has no such method

  /** `d.get(key, default)` */
  function GetOr(d: Object, key: string, default: Value): (v: Value)
    ensures key in d ==> v == d[key]
    ensures key !in d ==> v == default
  {
    if key in d then d[key] else default
  }

  /** `v[key]` for a string key: only a dict can be subscripted by a string. */
  function Subscript(v: Value, key: string): (r: Result<Value, Fault>)
    ensures r.Ok? <==> v.Obj? && key in v.fields
    ensures r.Ok? ==> r.value == v.fields[key]
    ensures v.Obj? && key !in v.fields ==> r == Err(KeyError(key))
    ensures !v.Obj? ==> r == Err(TypeError)
  {
    match v
    case Obj(m) => if key in m then Ok(m[key]) else Err(KeyError(key))
    case _ => Err(TypeError)
  }

  /** A dict key must be hashable: lists and dicts are not. */
  predicate Hashable(v: Value) {
    !v.Arr? && !v.Obj?
  }

  function LowerChar(c: char): (d: char)
    ensures 'A' <= c <= 'Z' ==> d as int == c as int + 32
    ensures !('A' <= c <= 'Z') ==> d == c
  {
    if 'A' <= c <= 'Z' then (c as int + 32) as char else c
  }

  /** `str.lower()`, on the ASCII letters. */
  function Lower(s: string): (r: string)
    ensures |r| == |s|
    ensures forall i :: 0 <= i < |s| ==> r[i] == LowerChar(s[i])
  {
    seq(|s|, i requires 0 <= i < |s| => LowerChar(s[i]))
  }

  /** Python treats `bool` as a subtype of `int`. */
  function AsNumber(v: Value): (r: Option<real>)
    ensures r.Some? <==> v.Num? || v.Bool?
    ensures v.Num? ==> r == Some(v.n)
    ensures v.Bool? ==> r == Some(if v.b then 1.0 else 0.0)
  {
    match v
    case Num(n) => Some(n)
    case Bool(b) => Some(if b then 1.0 else 0.0)
    case _ => None
  }

  /** Python's `<` on `str`: lexicographic by code point. */
  predicate StrLess(a: string, b: string)
    decreases |a|
  {
    if a == [] then b != []
    else if b == [] then false
    else if a[0] != b[0] then a[0] < b[0]
    else StrLess(a[1..], b[1..])
  }

  /** Python's order on `str` is total: of two strings, one is less or
      they are equal, and never both ways. */
  lemma {:induction false} StrLessTotal(a: string, b: string)
    ensures !StrLess(b, a) <==> StrLess(a, b) || a == b
    ensures !(StrLess(a, b) && StrLess(b, a))
    decreases |a|
  {
    if a != [] && b != [] && a[0] == b[0] {
      StrLessTotal(a[1..], b[1..]);
      assert a == [a[0]] + a[1..] && b == [b[0]] + b[1..];
    }
  }

  /** Python's `x >= y` on two JSON values: numbers (with `True` as 1 and
      `False` as 0) by value, strings by code point, anything else raises
      `TypeError`. */
  function AtLeast(x: Value, y: Value): (r: Result<bool, Fault>)
    ensures r.Ok? <==> (AsNumber(x).Some? && AsNumber(y).Some?) || (x.Str? && y.Str?)
    ensures r.Ok? && x.Num? && y.Num? ==> r.value == (x.n >= y.n)
    ensures r.Ok? && AsNumber(x).Some? && AsNumber(y).Some? ==>
      r.value == (AsNumber(x).value >= AsNumber(y).value)
    ensures r.Ok? && x.Str? && y.Str? ==> (r.value <==> StrLess(y.s, x.s) || x.s == y.s)
    ensures r.Err? ==> r.error == TypeError
  {
    if AsNumber(x).Some? && AsNumber(y).Some? then Ok(AsNumber(x).value >= AsNumber(y).value)
    else if x.Str? && y.Str? then
      StrLessTotal(y.s, x.s);
      Ok(!StrLess(x.s, y.s))
    else Err(TypeError)
  }

  /** Python's `x <= y`, which for these operand types is `y >= x`. */
  function AtMost(x: Value, y: Value): (r: Result<bool, Fault>)
    ensures r.Ok? <==> (AsNumber(x).Some? && AsNumber(y).Some?) || (x.Str? && y.Str?)
    ensures r.Ok? && x.Num? && y.Num? ==> r.value == (x.n <= y.n)
    ensures r.Ok? && AsNumber(x).Some? && AsNumber(y).Some? ==>
      r.value == (AsNumber(x).value <= AsNumber(y).value)
    ensures r.Ok? && x.Str? && y.Str? ==> (r.value <==> StrLess(x.s, y.s) || x.s == y.s)
    ensures r.Err? ==> r.error == TypeError
  {
    AtLeast(y, x)
  }
}
