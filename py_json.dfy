/** A decoded JSON response as the Python code sees it, and the few Python
    operations the engine applies to it: subscripting (`x[k]`), membership
    (`k in x`), `len(x)`, `x.strip()` and f-string interpolation. Each raises
    the exception CPython raises for a value of the wrong shape. */
module PyJson {
  import opened Text

  /** The value `response.json()` yields. JSON numbers are integers here. */
  datatype Json =
    | JNull
    | JBool(b: bool)
    | JInt(i: int)
    | JStr(s: string)
    | JArr(items: seq<Json>)
    | JObj(fields: map<string, Json>)

  /** A subscript the engine uses: a string key or a non-negative index. */
  datatype Key = Name(name: string) | Index(index: nat)

  /** A value that may be Python's `None`. */
  datatype Option<+T> = None | Some(value: T)

  /** The Python exceptions the engine's code can raise. `RequestsError`
      stands for every exception of the `requests` library (transport
      failures, `HTTPError`, JSON decoding); its text `str(e)` is opaque. */
  datatype PyError =
    | KeyError(key: Key)
    | IndexError(sequenceType: string)
    | TypeError(message: string)
    | AttributeError(typeName: string, attribute: string)
    | RequestsError(message: string)

  /** A Python computation that either returns a value or raises. */
  datatype Result<+T> = Ok(value: T) | Raise(error: PyError) {
    predicate IsFailure() {
      Raise?
    }

    function PropagateFailure<U>(): Result<U>
      requires Raise?
    {
      Raise(error)
    }

    function Extract(): T
      requires Ok?
    {
      value
    }
  }

  /** `type(v).__name__`. */
  function TypeName(v: Json): string {
    match v
    case JNull => "NoneType"
    case JBool(_) => "bool"
    case JInt(_) => "int"
    case JStr(_) => "str"
    case JArr(_) => "list"
    case JObj(_) => "dict"
  }

  /** `str(e)`, with CPython's wording. */
  function ErrorText(e: PyError): string {
    match e
    case KeyError(Name(n)) => "'" + n + "'"
    case KeyError(Index(i)) => Decimal(i)
    case IndexError(t) => t + " index out of range"
    case TypeError(m) => m
    case AttributeError(t, a) => "'" + t + "' object has no attribute '" + a + "'"
    case RequestsError(m) => m
  }

  /** `v[k]`. A dict decoded from JSON has string keys only, so an integer
      subscript of a dict is a missing key; indexing a string gives its
      one-character substring. */
  function Subscript(v: Json, k: Key): (r: Result<Json>)
    ensures r.Ok? <==>
      || (v.JObj? && k.Name? && k.name in v.fields)
      || (v.JArr? && k.Index? && k.index < |v.items|)
      || (v.JStr? && k.Index? && k.index < |v.s|)
    ensures v.JObj? && r.Ok? ==> r.value == v.fields[k.name]
    ensures v.JArr? && r.Ok? ==> r.value == v.items[k.index]
    ensures v.JStr? && r.Ok? ==> r.value == JStr([v.s[k.index]])
  {
    match v
    case JObj(m) =>
      if k.Name? && k.name in m then Ok(m[k.name]) else Raise(KeyError(k))
    case JArr(xs) =>
      if k.Name? then Raise(TypeError("list indices must be integers or slices, not str"))
      else if k.index < |xs| then Ok(xs[k.index])
      else Raise(IndexError("list"))
    case JStr(s) =>
      if k.Name? then Raise(TypeError("string indices must be integers, not 'str'"))
      else if k.index < |s| then Ok(JStr([s[k.index]]))
      else Raise(IndexError("string"))
    case _ =>
      Raise(TypeError("'" + TypeName(v) + "' object is not subscriptable"))
  }

  /** `needle in v` for a string `needle`: a key of a dict, an element of a
      list, a substring of a string; any other value is not iterable. */
  function In(needle: string, v: Json): Result<bool> {
    match v
    case JObj(m) => Ok(needle in m)
    case JArr(xs) => Ok(JStr(needle) in xs)
    case JStr(s) => Ok(exists k :: 0 <= k <= |s| && needle <= s[k..])
    case _ => Raise(TypeError("argument of type '" + TypeName(v) + "' is not iterable"))
  }

  /** `len(v)`. */
  function Len(v: Json): Result<nat> {
    match v
    case JObj(m) => Ok(|m|)
    case JArr(xs) => Ok(|xs|)
    case JStr(s) => Ok(|s|)
    case _ => Raise(TypeError("object of type '" + TypeName(v) + "' has no len()"))
  }

  /** `v.strip()`: only a string has that method. */
  function StripValue(v: Json): (r: Result<string>)
    ensures r.Ok? <==> v.JStr?
    ensures r.Ok? ==> r.value == Strip(v.s)
  {
    if v.JStr? then Ok(Strip(v.s)) else Raise(AttributeError(TypeName(v), "strip"))
  }

  /** `f"{v}"` for a scalar; a list or dict is shown only by its brackets. */
  function Display(v: Json): string {
    match v
    case JNull => "None"
    case JBool(b) => if b then "True" else "False"
    case JInt(i) => IntText(i)
    case JStr(s) => s
    case JArr(_) => "[...]"
    case JObj(_) => "{...}"
  }

  /** `v[k0][k1]...`: Python subscripts applied in turn. */
  function Walk(v: Json, path: seq<Key>): Result<Json>
    decreases |path|
  {
    if path == [] then Ok(v)
    else
      var w :- Subscript(v, path[0]);
      Walk(w, path[1..])
  }

  /** The JSON path lookup the vendors document: names select object members,
      indexes select array elements, and anything else is absent. */
  function Path(v: Json, path: seq<Key>): Option<Json>
    decreases |path|
  {
    if path == [] then Some(v)
    else match (v, path[0])
      case (JObj(m), Name(n)) => if n in m then Path(m[n], path[1..]) else None
      case (JArr(xs), Index(i)) => if i < |xs| then Path(xs[i], path[1..]) else None
      case _ => None
  }

  /** A path in which every index is followed by a name; the vendors' paths
      all have this shape. */
  predicate NameAfterIndex(path: seq<Key>) {
    forall i :: 0 <= i < |path| && path[i].Index? ==> i + 1 < |path| && path[i + 1].Name?
  }

  /** Along such a path Python's subscripts succeed exactly when the JSON path
      exists, and they reach the same value: a string reached by indexing
      cannot be subscripted by the name that follows. */
  lemma {:induction false} WalkIsPath(v: Json, path: seq<Key>)
    requires NameAfterIndex(path)
    ensures Walk(v, path).Ok? <==> Path(v, path).Some?
    ensures Walk(v, path).Ok? ==> Walk(v, path).value == Path(v, path).value
    decreases |path|
  {
    if path != [] {
      var rest := path[1..];
      assert NameAfterIndex(rest) by {
        forall i | 0 <= i < |rest| && rest[i].Index?
          ensures i + 1 < |rest| && rest[i + 1].Name?
        {
          assert path[i + 1] == rest[i];
        }
      }
      var r := Subscript(v, path[0]);
      if r.Ok? {
        WalkIsPath(r.value, rest);
        if v.JStr? {
          // the index picked one character; the name after it cannot apply
          assert rest[0].Name? && r.value.JStr?;
        }
      }
    }
  }
}
