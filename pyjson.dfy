/**
 * An abstract tree for the values `json.loads` produces, together with the
 * parts of Python's semantics the two scripts rely on when they pick a
 * decoded reply apart: subscripting (`v[k]`), chains of subscripts and
 * truthiness.
 */
module PyJson {

  /** A decoded JSON value; numbers are kept as exact reals. */
  datatype Json =
    | Null
    | Bool(b: bool)
    | Number(n: real)
    | Str(s: string)
    | Array(items: seq<Json>)
    | Object(fields: map<string, Json>)

  /** The Python exceptions that can arise in the modelled code paths. */
  datatype PyError = KeyError | IndexError | TypeError | NameError

  /** What a Python expression does: it returns a value or raises. */
  datatype Outcome<+T> = Returned(value: T) | Raised(error: PyError)

  /** A subscript: a string key (`v["choices"]`) or a non-negative index (`v[0]`). */
  datatype Key = Field(name: string) | Index(i: nat)

  /**
   * `v[k]` in Python. A dict raises KeyError for a missing key (and for any
   * integer, since JSON keys are strings); a list or a string raises
   * IndexError past its end and TypeError for a string key; every other
   * value is not subscriptable (TypeError). Indexing a string yields a
   * one-character string.
   */
  function Subscript(v: Json, k: Key): (r: Outcome<Json>)
    ensures r == Raised(KeyError) <==> v.Object? && !(k.Field? && k.name in v.fields)
    ensures r.Returned? && v.Object? ==> k.Field? && k.name in v.fields && r.value == v.fields[k.name]
    ensures v.Object? && k.Field? && k.name in v.fields ==> r == Returned(v.fields[k.name])
    ensures r.Returned? && v.Array? ==> k.Index? && k.i < |v.items| && r.value == v.items[k.i]
    ensures r.Returned? ==> v.Object? || v.Array? || v.Str?
    ensures v.Array? && k.Index? && k.i < |v.items| ==> r == Returned(v.items[k.i])
    ensures (v.Array? && k.Index? && k.i >= |v.items|) || (v.Str? && k.Index? && k.i >= |v.s|) ==>
      r == Raised(IndexError)
    ensures v.Str? && k.Index? && k.i < |v.s| ==> r == Returned(Str([v.s[k.i]]))
    ensures (v.Array? || v.Str?) && k.Field? ==> r == Raised(TypeError)
    ensures !(v.Object? || v.Array? || v.Str?) ==> r == Raised(TypeError)
  {
    match v
    case Object(m) =>
      if k.Field? && k.name in m then Returned(m[k.name]) else Raised(KeyError)
    case Array(xs) =>
      if k.Field? then Raised(TypeError)
      else if k.i < |xs| then Returned(xs[k.i]) else Raised(IndexError)
    case Str(s) =>
      if k.Field? then Raised(TypeError)
      else if k.i < |s| then Returned(Str([s[k.i]])) else Raised(IndexError)
    case _ => Raised(TypeError)
  }

  /** `v[p0][p1]...` evaluated left to right; the first exception stops the chain. */
  function Lookup(v: Json, path: seq<Key>): (r: Outcome<Json>)
    ensures path == [] ==> r == Returned(v)
    ensures |path| == 1 ==> r == Subscript(v, path[0])
    decreases |path|
  {
    if path == [] then Returned(v)
    else
      match Subscript(v, path[0])
      case Raised(e) => Raised(e)
      case Returned(w) => Lookup(w, path[1..])
  }

  /**
   * `v[p][q]` is `(v[p])[q]`: a chain of subscripts runs the first part,
   * stops at its exception, and otherwise goes on from the value it reached.
   */
  lemma {:induction false} LookupAppend(v: Json, p: seq<Key>, q: seq<Key>)
    ensures Lookup(v, p + q) ==
      match Lookup(v, p)
      case Raised(e) => Raised(e)
      case Returned(w) => Lookup(w, q)
    decreases |p|
  {
    if p == [] {
      assert p + q == q;
    } else {
      assert (p + q)[0] == p[0];
      assert (p + q)[1..] == p[1..] + q;
      match Subscript(v, p[0])
      case Raised(e) =>
      case Returned(w) => LookupAppend(w, p[1..], q);
    }
  }

  /** Python truthiness of a decoded value: only null, false, zero and empty values are false. */
  predicate Truthy(v: Json)
    ensures !Truthy(v) <==>
      v == Null || v == Bool(false) || v == Number(0.0) || v == Str("") || v == Array([]) || v == Object(map[])
  {
    match v
    case Null => false
    case Bool(b) => b
    case Number(n) => n != 0.0
    case Str(s) => s != ""
    case Array(xs) => xs != []
    case Object(m) => m != map[]
  }
}
