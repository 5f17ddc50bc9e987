/**
  Decoded JSON values as Python holds them after `json.loads` (or
  `response.json()`), and Python's subscript operator on them, with the
  exceptions it raises.
*/
module Json {
  import opened Results
  import opened Text

  /** A decoded JSON value. Floats are opaque: nothing in the system computes
      with them, so a `real` stands for the float. */
  datatype Value =
    | Null
    | Bool(b: bool)
    | Int(i: int)
    | Float(r: real)
    | Str(s: string)
    | List(items: seq<Value>)
    | Dict(fields: map<string, Value>)

  /** Python's `type(v).__name__`. */
  function TypeName(v: Value): string {
    match v
    case Null => "NoneType"
    case Bool(_) => "bool"
    case Int(_) => "int"
    case Float(_) => "float"
    case Str(_) => "str"
    case List(_) => "list"
    case Dict(_) => "dict"
  }

  /** The built-in exceptions a subscript can raise. */
  datatype ErrorKind = KeyError | IndexError | TypeError

  /** A raised exception: its class and `str(e)`. */
  datatype PyError = PyError(kind: ErrorKind, text: string)

  /** A subscript key: a string key or a (non-negative) integer index. */
  datatype Key = Field(name: string) | Index(i: nat)

  /** `str(KeyError(k))` is `repr(k)`; the keys used here are literals
      without quotes or backslashes, so `repr` is the key in single quotes. */
  function MissingKey(k: Key): PyError {
    match k
    case Field(n) => PyError(KeyError, "'" + n + "'")
    case Index(i) => PyError(KeyError, NatToString(i))
  }

  /** Python's `v[k]` on a decoded JSON value (CPython 3.11 messages). */
  function Subscript(v: Value, k: Key): (r: Result<Value, PyError>)
    ensures r.Ok? <==>
              (v.Dict? && k.Field? && k.name in v.fields)
              || (v.List? && k.Index? && k.i < |v.items|)
              || (v.Str? && k.Index? && k.i < |v.s|)
    ensures r.Err? && r.error.kind == KeyError <==> v.Dict? && !(k.Field? && k.name in v.fields)
    ensures v.Dict? && k.Field? && k.name in v.fields ==> r == Ok(v.fields[k.name])
    ensures v.List? && k.Index? && k.i < |v.items| ==> r == Ok(v.items[k.i])
  {
    match (v, k)
    case (Dict(m), Field(n)) => if n in m then Ok(m[n]) else Err(MissingKey(k))
    case (Dict(_), Index(_)) => Err(MissingKey(k))
    case (List(xs), Index(i)) =>
      if i < |xs| then Ok(xs[i]) else Err(PyError(IndexError, "list index out of range"))
    case (Str(s), Index(i)) =>
      if i < |s| then Ok(Str([s[i]])) else Err(PyError(IndexError, "string index out of range"))
    case (List(_), Field(_)) => Err(PyError(TypeError, "list indices must be integers or slices, not str"))
    case (Str(_), Field(_)) => Err(PyError(TypeError, "string indices must be integers, not 'str'"))
    case _ => Err(PyError(TypeError, "'" + TypeName(v) + "' object is not subscriptable"))
  }

  /** `v[k0][k1]...`: the subscripts applied left to right; the first one that
      raises decides the exception. */
  function Path(v: Value, keys: seq<Key>): Result<Value, PyError>
    decreases |keys|
  {
    if keys == [] then Ok(v)
    else
      match Subscript(v, keys[0])
      case Ok(w) => Path(w, keys[1..])
      case Err(e) => Err(e)
  }

  /** A path through dictionaries and lists succeeds on a value built along it. */
  lemma {:induction false} PathThrough(v: Value, k: Key, rest: seq<Key>)
    requires Subscript(v, k).Ok?
    ensures Path(v, [k] + rest) == Path(Subscript(v, k).value, rest)
  {
    assert ([k] + rest)[1..] == rest;
  }

  /** One role/content message of a conversation, as client and gateway
      exchange it: the JSON object `{"role": ..., "content": ...}`. */
  datatype Message = Message(role: string, content: string) {
    function ToJson(): (v: Value)
      ensures v.Dict? && v.fields.Keys == {"role", "content"}
      ensures v.fields["role"] == Str(role) && v.fields["content"] == Str(content)
    {
      Dict(map["role" := Str(role), "content" := Str(content)])
    }
  }

  function MessagesJson(messages: seq<Message>): (v: seq<Value>)
    ensures |v| == |messages|
    ensures forall i :: 0 <= i < |messages| ==> v[i] == messages[i].ToJson()
  {
    seq(|messages|, i requires 0 <= i < |messages| => messages[i].ToJson())
  }
}
