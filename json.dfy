/** Decoded JSON values and the few Python idioms the core applies to them
    (truthiness, `dict.get`, `len`, numeric coercion). `json.loads` itself is
    not modelled: every member that decodes text takes it as a parameter. */
module JsonValues {

  datatype Option<+T> = None | Some(value: T) {
    function GetOr(default: T): T {
      match this
      case Some(v) => v
      case None => default
    }
  }

  /** A value as `json.loads` returns it. Numbers are exact reals (the int/float
      distinction of Python is not kept); an object is a Python dict. */
  datatype Json =
    | JNull
    | JBool(b: bool)
    | JNum(n: real)
    | JString(s: string)
    | JArray(items: seq<Json>)
    | JObject(fields: map<string, Json>)

  type Fields = map<string, Json>

  /** `json.loads`: `None` stands for a `JSONDecodeError`. */
  type Parser = string -> Option<Json>

  /** Python truthiness (`if value:`) of a decoded value. */
  predicate Truthy(j: Json) {
    match j
    case JNull => false
    case JBool(b) => b
    case JNum(n) => n != 0.0
    case JString(s) => s != ""
    case JArray(xs) => xs != []
    case JObject(m) => m != map[]
  }

  /** `d.get(key, default)`. */
  function Get(m: Fields, key: string, default: Json): Json {
    if key in m then m[key] else default
  }

  /** A Python string literal compared with `==` against a decoded value. */
  predicate IsText(j: Json, s: string) {
    j == JString(s)
  }

  /** `len(value)`; `None` where Python raises `TypeError`. */
  function Len(j: Json): Option<nat> {
    match j
    case JString(s) => Some(|s|)
    case JArray(xs) => Some(|xs|)
    case JObject(m) => Some(|m|)
    case _ => None
  }

  /** The value a coordinate takes in Python arithmetic and comparisons:
      numbers as themselves, booleans as 0 and 1 (bool is a subclass of int);
      any other value raises `TypeError`, written `None`. */
  function Coordinate(j: Json): Option<real> {
    match j
    case JNum(n) => Some(n)
    case JBool(b) => Some(if b then 1.0 else 0.0)
    case _ => None
  }

  /** Every element of `xs` has a numeric value. */
  predicate AllNumeric(xs: seq<Json>) {
    forall i :: 0 <= i < |xs| ==> Coordinate(xs[i]).Some?
  }

  /** The numeric values of an all-numeric sequence, in order. */
  function Values(xs: seq<Json>): (r: seq<real>)
    requires AllNumeric(xs)
    ensures |r| == |xs|
    ensures forall i :: 0 <= i < |xs| ==> Coordinate(xs[i]) == Some(r[i])
  {
    if xs == [] then [] else [Coordinate(xs[0]).value] + Values(xs[1..])
  }

  /** How iterating a decoded value goes: a list yields its elements, a str
      its characters and a dict its keys (all strings), anything else is
      not iterable. */
  datatype Iteration = Elements(items: seq<Json>) | Strings(count: nat) | NotIterable

  function Iterate(j: Json): Iteration {
    match j
    case JArray(xs) => Elements(xs)
    case JString(s) => Strings(|s|)
    case JObject(m) => Strings(|m|)
    case _ => NotIterable
  }

  /** The elements a `for x in value: x.get(...)` loop sees, when the loop
      runs to the end; `None` when it raises (a value that is not iterable,
      or an element that is not a dict). */
  function DictElements(j: Json): (r: Option<seq<Fields>>)
    ensures j.JArray? && (forall k :: 0 <= k < |j.items| ==> j.items[k].JObject?) ==> r.Some?
    ensures r.Some? ==> Len(j) == Some(|r.value|)
    ensures r.Some? && j.JArray? ==> forall k :: 0 <= k < |r.value| ==> j.items[k] == JObject(r.value[k])
  {
    match Iterate(j)
    case Elements(xs) =>
      if forall k :: 0 <= k < |xs| ==> xs[k].JObject?
      then Some(seq(|xs|, k requires 0 <= k < |xs| => xs[k].fields))
      else None
    case Strings(n) => if n == 0 then Some([]) else None
    case NotIterable => None
  }
}
