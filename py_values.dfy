/** The values the core handles, as `json.load` and `response.json()` produce
    them, and the Python operators the core applies to them, each with the
    exception it raises when the operand has the wrong shape. */
module PyValues {
  import opened Text

  datatype Option<+T> = None | Some(value: T)

  /** The built-in exception classes that the core raises or catches. */
  datatype Exc = TypeError | KeyError | AttributeError | ValueError

  /** The outcome of evaluating a Python expression: a value or a raised exception. */
  datatype Py<+T> = Ok(value: T) | Raise(exc: Exc)

  /** A decoded JSON document: `None`, `bool`, `int`, `float`, `str`, `list`, `dict`. */
  datatype Json =
    | JNull
    | JBool(b: bool)
    | JInt(i: int)
    | JFloat(f: real)
    | JStr(s: string)
    | JList(items: seq<Json>)
    | JObj(fields: map<string, Json>)

  /** Python truthiness: what `if x:` and `not x` test. */
  predicate Truthy(j: Json) {
    match j
    case JNull => false
    case JBool(b) => b
    case JInt(i) => i != 0
    case JFloat(f) => f != 0.0
    case JStr(s) => s != ""
    case JList(xs) => xs != []
    case JObj(m) => m != map[]
  }

  /** `isinstance(x, int)`: a `bool` is an `int` in Python. */
  predicate IsInt(j: Json) {
    j.JBool? || j.JInt?
  }

  /** `isinstance(x, (int, float))`. */
  predicate IsNumber(j: Json) {
    j.JBool? || j.JInt? || j.JFloat?
  }

  /** `isinstance(x, bool)`. */
  predicate IsBool(j: Json) {
    j.JBool?
  }

  /** `key in container` for a string key: a key test on a dict, a substring
      test on a str, an element test on a list, a TypeError otherwise. */
  function Contains(container: Json, key: string): (r: Py<bool>)
    ensures container.JObj? ==> r == Ok(key in container.fields)
    ensures r.Raise? <==> !(container.JObj? || container.JStr? || container.JList?)
  {
    match container
    case JObj(m) => Ok(key in m)
    case JStr(s) => Ok(IsSubstring(key, s))
    case JList(xs) => Ok(JStr(key) in xs)
    case _ => Raise(TypeError)
  }

  /** `container[key]` for a string key: only a dict holding the key yields a
      value; a dict without it raises KeyError, anything else TypeError. */
  function GetItem(container: Json, key: string): (r: Py<Json>)
    ensures r.Ok? <==> container.JObj? && key in container.fields
    ensures r.Ok? ==> r.value == container.fields[key]
  {
    match container
    case JObj(m) => if key in m then Ok(m[key]) else Raise(KeyError)
    case _ => Raise(TypeError)
  }

  /** `container.get(key, default)`: only a dict has `get`. */
  function DictGet(container: Json, key: string, default: Json): (r: Py<Json>)
    ensures r.Ok? <==> container.JObj?
    ensures container.JObj? ==> r.value == (if key in container.fields then container.fields[key] else default)
  {
    match container
    case JObj(m) => Ok(if key in m then m[key] else default)
    case _ => Raise(AttributeError)
  }

  /** The numeric value of a `bool`, `int` or `float`. */
  function NumValue(j: Json): real
    requires IsNumber(j)
  {
    match j
    case JBool(b) => if b then 1.0 else 0.0
    case JInt(i) => i as real
    case JFloat(f) => f
  }

  /** `a - b`: integer subtraction when both are `int` (or `bool`), a `float`
      when either is a `float`, a TypeError for anything else. */
  function Sub(a: Json, b: Json): (r: Py<Json>)
    ensures r.Ok? <==> IsNumber(a) && IsNumber(b)
    ensures r.Ok? ==> IsNumber(r.value) && NumValue(r.value) == NumValue(a) - NumValue(b)
    ensures r.Ok? ==> (r.value.JInt? <==> IsInt(a) && IsInt(b))
  {
    if IsInt(a) && IsInt(b) then Ok(JInt(NumValue(a).Floor - NumValue(b).Floor))
    else if IsNumber(a) && IsNumber(b) then Ok(JFloat(NumValue(a) - NumValue(b)))
    else Raise(TypeError)
  }

  /** `all(key in container for key in keys)`: stops at the first key that is
      absent, and passes on the exception of the first test that raises. */
  function AllIn(container: Json, keys: seq<string>): (r: Py<bool>)
    ensures r == Ok(true) ==> forall i :: 0 <= i < |keys| ==> Contains(container, keys[i]) == Ok(true)
    ensures (forall i :: 0 <= i < |keys| ==> Contains(container, keys[i]) == Ok(true)) ==> r == Ok(true)
    ensures r.Raise? ==> keys != [] && Contains(container, keys[0]).Raise?
    decreases |keys|
  {
    if keys == [] then Ok(true)
    else match Contains(container, keys[0])
      case Raise(e) => Raise(e)
      case Ok(false) => Ok(false)
      case Ok(true) => AllIn(container, keys[1..])
  }
}
