/** The Python values the task queue hands back, and the few Python operations
    the status adapter applies to them. Each operation that can raise in Python
    returns a `Result` whose `Err` names the exception class. */
module PyValues {
  import opened Results

  /** A Python value as Celery's JSON result backend returns it: a decoded JSON
      document, or the exception object stored as a failed task's result.
      Floats are kept as exact reals; no arithmetic is done on them. */
  datatype Value =
    | VNone
    | VBool(b: bool)
    | VInt(i: int)
    | VFloat(f: real)
    | VStr(s: string)
    | VList(items: seq<Value>)
    | VDict(entries: map<string, Value>)
    | VException(text: string)

  /** The exception classes the modelled operations can raise. */
  datatype PyError = TypeError | KeyError(key: string) | AttributeError(name: string)

  /** `needle` occurs in `hay` starting at index `i`. */
  predicate OccursAt(needle: string, hay: string, i: int)
  {
    0 <= i && i + |needle| <= |hay| && hay[i..i + |needle|] == needle
  }

  /** Python's `needle in hay` on two `str` values, scanning from index `from`. */
  function SubstringFrom(needle: string, hay: string, from: nat): (r: bool)
    ensures r <==> exists i :: from <= i && OccursAt(needle, hay, i)
    decreases |hay| - from
  {
    if from + |needle| > |hay| then false
    else if hay[from..from + |needle|] == needle then
      assert OccursAt(needle, hay, from);
      true
    else SubstringFrom(needle, hay, from + 1)
  }

  /** Python's `key in container` for a `str` key: key membership on a dict,
      element equality on a list, substring search on a str, and `TypeError`
      ("argument is not iterable") on everything else. */
  function Contains(container: Value, key: string): (r: Result<bool, PyError>)
    ensures r.Ok? <==> (container.VDict? || container.VList? || container.VStr?)
    ensures r.Err? ==> r.error == TypeError
    ensures container.VDict? ==> (r == Ok(true) <==> key in container.entries)
    ensures container.VList? ==> (r == Ok(true) <==> exists k :: 0 <= k < |container.items| && container.items[k] == VStr(key))
    ensures container.VStr? ==> (r == Ok(true) <==> exists i :: OccursAt(key, container.s, i))
  {
    match container
    case VDict(entries) => Ok(key in entries)
    case VList(items) => Ok(VStr(key) in items)
    case VStr(s) => Ok(SubstringFrom(key, s, 0))
    case _ => Err(TypeError)
  }

  /** Python's `container[key]` for a `str` key: only a dict accepts it (a list
      or str wants an integer index, other values are not subscriptable). */
  function Subscript(container: Value, key: string): (r: Result<Value, PyError>)
    ensures r.Ok? <==> container.VDict? && key in container.entries
    ensures r.Ok? ==> r.value == container.entries[key]
    ensures r.Err? ==> (r.error == KeyError(key) <==> container.VDict?)
    ensures r.Err? ==> (r.error == TypeError <==> !container.VDict?)
  {
    match container
    case VDict(entries) => if key in entries then Ok(entries[key]) else Err(KeyError(key))
    case _ => Err(TypeError)
  }

  /** Python's `container.get(key)`: a dict answers with the entry or `None`;
      no other value has a `get` attribute. */
  function Get(container: Value, key: string): (r: Result<Value, PyError>)
    ensures r.Ok? <==> container.VDict?
    ensures r.Err? ==> r.error == AttributeError("get")
    ensures Subscript(container, key).Ok? ==> r == Subscript(container, key)
    ensures container.VDict? && Subscript(container, key).Err? ==> r == Ok(VNone)
  {
    match container
    case VDict(entries) => Ok(if key in entries then entries[key] else VNone)
    case _ => Err(AttributeError("get"))
  }

  /** Python's `v == n` for an int `n`: bools compare as 0 and 1, floats by
      value, and values of any other type are never equal to an int. */
  function EqualsInt(v: Value, n: int): (r: bool)
    ensures r ==> v.VBool? || v.VInt? || v.VFloat?
    ensures v.VBool? ==> (r <==> n == (if v.b then 1 else 0))
    ensures v.VInt? ==> (r <==> v.i == n)
    ensures v.VFloat? ==> (r <==> v.f == n as real)
  {
    match v
    case VBool(b) => (if b then 1 else 0) == n
    case VInt(i) => i == n
    case VFloat(f) => f == n as real
    case _ => false
  }
}
