/** Decoded JSON values as a Flask view receives them from `request.get_json()`,
    and the handful of Python operations the prediction code applies to them. */
module Json {

  import opened Wrappers

  /** A JSON document. Numbers keep Python's int/float distinction; an object is a
      dict keyed by strings. `Null` also stands for `get_json()` returning None
      (no body). */
  datatype Value =
    | Null
    | Bool(b: bool)
    | Int(i: int)
    | Float(f: real)
    | Str(s: string)
    | Array(items: seq<Value>)
    | Object(fields: map<string, Value>)

  /** Python truthiness, as tested by `if not data`: every value is true
      except None, False, zero, and the empty str, list and dict. */
  predicate Truthy(v: Value): (r: bool)
    ensures !r <==> v == Null || v == Bool(false) || v == Int(0) || v == Float(0.0)
                    || v == Str("") || v == Array([]) || v == Object(map[])
  {
    match v
    case Null => false
    case Bool(b) => b
    case Int(i) => i != 0
    case Float(f) => f != 0.0
    case Str(s) => |s| > 0
    case Array(items) => |items| > 0
    case Object(fields) => |fields| > 0
  }

  /** `isinstance(v, (int, float))`. In Python `bool` is a subclass of `int`,
      so booleans pass. */
  predicate IsNumber(v: Value)
  {
    v.Bool? || v.Int? || v.Float?
  }

  /** `type(v).__name__` for each JSON-decoded Python type. */
  function TypeName(v: Value): string
  {
    match v
    case Null => "NoneType"
    case Bool(_) => "bool"
    case Int(_) => "int"
    case Float(_) => "float"
    case Str(_) => "str"
    case Array(_) => "list"
    case Object(_) => "dict"
  }

  /** The reported type name identifies the kind of JSON value: each name is
      given for exactly one kind. */
  lemma TypeNameIdentifiesKind(v: Value)
    ensures TypeName(v) == "NoneType" <==> v.Null?
    ensures TypeName(v) == "bool" <==> v.Bool?
    ensures TypeName(v) == "int" <==> v.Int?
    ensures TypeName(v) == "float" <==> v.Float?
    ensures TypeName(v) == "str" <==> v.Str?
    ensures TypeName(v) == "list" <==> v.Array?
    ensures TypeName(v) == "dict" <==> v.Object?
    ensures IsNumber(v) <==> TypeName(v) in {"bool", "int", "float"}
  {
  }

  /** Python's `v < 0`: `None` when the comparison raises TypeError (None, str,
      list and dict are not ordered against an int); False and True compare as
      0 and 1. */
  function BelowZero(v: Value): (r: Option<bool>)
    ensures r.Some? <==> IsNumber(v)
    ensures r == Some(true) <==> (v.Int? && v.i < 0) || (v.Float? && v.f < 0.0)
  {
    match v
    case Bool(_) => Some(false)
    case Int(i) => Some(i < 0)
    case Float(f) => Some(f < 0.0)
    case _ => None
  }

  /** `t` occurs in `s` starting at position `i`. */
  predicate OccursAt(t: string, s: string, i: int)
  {
    0 <= i && i + |t| <= |s| && s[i..i + |t|] == t
  }

  /** `t` occurs as a contiguous piece of `s` (Python's `t in s` on strings). */
  predicate IsSubstring(t: string, s: string)
  {
    exists i | 0 <= i <= |s| - |t| :: OccursAt(t, s, i)
  }

  /** Python's `key in container` for a string key: key membership for a dict,
      element equality for a list, substring for a str; `None` when it raises
      TypeError (None, bool and numbers are not containers). */
  function Contains(container: Value, key: string): (r: Option<bool>)
    ensures r.Some? <==> container.Object? || container.Array? || container.Str?
    ensures container.Object? ==> r == Some(key in container.fields)
    ensures container.Array? ==> r == Some(Str(key) in container.items)
    ensures container.Str? ==> r == Some(IsSubstring(key, container.s))
  {
    match container
    case Object(fields) => Some(key in fields)
    case Array(items) => Some(Str(key) in items)
    case Str(s) => Some(IsSubstring(key, s))
    case _ => None
  }

}
