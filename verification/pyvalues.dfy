/**
  Decoded JSON payloads and the few pieces of Python semantics the transforms rely on:
  attribute lookup through `ezdict` (a missing field reads as None), truthiness in an `if`,
  subscripting with `[i]`, and iteration in a `for` loop.
*/
module PyValues {
  import opened Wrappers

  /** A decoded JSON value. `Null` is JSON null, and also Python's None wherever a record holds it. */
  datatype Value =
    | Null
    | Bool(b: bool)
    | Num(n: int)
    | Str(s: string)
    | List(items: seq<Value>)
    | Obj(fields: map<string, Value>)

  /** A payload once `json.loads` has decoded it into an object. */
  type Payload = map<string, Value>

  /** `dict.get(name)`: the Option view of a field lookup. */
  function Lookup(d: Payload, name: string): (r: Option<Value>)
    ensures r.Some? <==> name in d
    ensures name in d ==> r.value == d[name]
  {
    if name in d then Some(d[name]) else None
  }

  /**
    `ezdict(d).name`: every field reads as a value, a missing one as None, so a missing
    field and a field holding JSON null cannot be told apart.
  */
  function Attr(d: Payload, name: string): (v: Value)
    ensures v == Null <==> (name !in d || d[name] == Null)
    ensures name in d ==> v == d[name]
  {
    Lookup(d, name).GetOr(Null)
  }

  /** The values Python treats as false in an `if`: None, False, zero and the empty containers. */
  const FalseValues: set<Value> := {Null, Bool(false), Num(0), Str(""), List([]), Obj(map[])}

  /** Python truthiness, decided by the value's kind and emptiness. */
  predicate Truthy(v: Value)
    ensures !Truthy(v) <==> v in FalseValues
  {
    match v
    case Null => false
    case Bool(b) => b
    case Num(n) => n != 0
    case Str(s) => s != ""
    case List(xs) => xs != []
    case Obj(m) => m != map[]
  }

  /** The one-character strings a Python string yields when indexed or iterated. */
  function Chars(s: string): (r: seq<Value>)
    ensures |r| == |s|
    ensures forall i :: 0 <= i < |s| ==> r[i] == Str([s[i]])
  {
    seq(|s|, i requires 0 <= i < |s| => Str([s[i]]))
  }

  /**
    `v[i]` for a non-negative index: an element of a list, a one-character string of a string;
    None where Python raises (out of range, None, a number, or a dict, whose keys are strings).
  */
  function Index(v: Value, i: nat): (r: Option<Value>)
    ensures r.Some? <==> (v.List? && i < |v.items|) || (v.Str? && i < |v.s|)
    ensures r.Some? && v.List? ==> r.value == v.items[i]
    ensures r.Some? && v.Str? ==> r.value == Str([v.s[i]])
  {
    match v
    case List(xs) => if i < |xs| then Some(xs[i]) else None
    case Str(s) => if i < |s| then Some(Str([s[i]])) else None
    case _ => None
  }

  /**
    A value that `if v: for x in v:` walks without raising and in a fixed order: a false value
    (the loop is skipped), a list or a string. A true number or boolean is not iterable, and a
    dict yields its keys in no fixed order.
  */
  predicate Iterable(v: Value)
  {
    !Truthy(v) || v.List? || v.Str?
  }

  /** What `if v: for x in v:` visits, in order: nothing for a false value. */
  function Items(v: Value): (r: seq<Value>)
    requires Iterable(v)
    ensures !Truthy(v) ==> r == []
    ensures v.List? ==> r == v.items
    ensures v.Str? ==> r == Chars(v.s)
  {
    if !Truthy(v) then []
    else if v.List? then v.items
    else Chars(v.s)
  }

  /** A value that `a, b = v` unpacks without raising: a two-element list or a two-character string. */
  predicate IsPair(v: Value)
  {
    (v.List? && |v.items| == 2) || (v.Str? && |v.s| == 2)
  }

  /** `a, b = v`. */
  function Unpack(v: Value): (r: (Value, Value))
    requires IsPair(v)
    ensures Index(v, 0) == Some(r.0) && Index(v, 1) == Some(r.1)
  {
    if v.List? then (v.items[0], v.items[1]) else (Str([v.s[0]]), Str([v.s[1]]))
  }
}
