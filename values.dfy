/**
 * The Python values that travel through keyword arguments (`**packArgs`,
 * `**kwargs`, host requirement dictionaries): their truthiness, their `str()`
 * text, and the `dict.get` / `dict.pop` operations the core applies to them.
 */
module Values {
  import opened Py
  import opened Strs

  datatype PyValue =
    | PyNone
    | PyBool(b: bool)
    | PyInt(i: int)
    | PyStr(s: string)
    | PyList(items: seq<string>)

  type Kwargs = map<string, PyValue>

  /** Python truthiness: None, False, 0 and empty containers are false. */
  predicate Truthy(v: PyValue) {
    match v
    case PyNone => false
    case PyBool(b) => b
    case PyInt(i) => i != 0
    case PyStr(s) => s != []
    case PyList(xs) => xs != []
  }

  function Quoted(items: seq<string>): (r: seq<string>)
    ensures |r| == |items|
    ensures forall i | 0 <= i < |items| :: r[i] == "'" + items[i] + "'"
  {
    if |items| == 0 then [] else ["'" + items[0] + "'"] + Quoted(items[1..])
  }

  /**
   * `str(v)`, which is also what `"%s" % v` inserts: a text is itself, an
   * integer is its decimal text, a boolean is `True` or `False`, and a list
   * is bracketed.
   */
  function Str(v: PyValue): (r: string)
    ensures v.PyStr? ==> r == v.s
    ensures v.PyInt? ==> r == IntToDecimal(v.i)
    ensures v.PyBool? ==> (r == "True" <==> v.b) && (r == "False" <==> !v.b)
    ensures v.PyList? ==> |r| >= 2 && r[0] == '[' && r[|r| - 1] == ']'
  {
    match v
    case PyNone => "None"
    case PyBool(b) => if b then "True" else "False"
    case PyInt(i) => IntToDecimal(i)
    case PyStr(s) => s
    case PyList(xs) => "[" + Join(Quoted(xs), ", ") + "]"
  }

  /** An integer's text reads back through `int()`: `int(str(i)) == i`. */
  lemma StrIntRoundTrip(i: int)
    ensures ParseInt(Str(PyInt(i))) == Some(i)
  {
    ParseIntRoundTrip(i, "");
    assert IntToDecimal(i) + "" == IntToDecimal(i);
  }

  /** `kwargs.get(key, default)`. */
  function Get(kwargs: Kwargs, key: string, default: PyValue): (r: PyValue)
    ensures key in kwargs ==> r == kwargs[key]
    ensures key !in kwargs ==> r == default
  {
    if key in kwargs then kwargs[key] else default
  }

  /** `kwargs.pop(key, default)`: the value and the dictionary without `key`. */
  function Pop(kwargs: Kwargs, key: string, default: PyValue): (r: (PyValue, Kwargs))
    ensures r.0 == Get(kwargs, key, default)
    ensures r.1.Keys == kwargs.Keys - {key}
    ensures forall k | k in r.1 :: r.1[k] == kwargs[k]
  {
    (Get(kwargs, key, default), kwargs - {key})
  }
}
