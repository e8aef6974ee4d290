/**
 JSON values as the client sees them after `r.json()`, together with the few
 Python operations the client applies to them: `dict.get`, `x[0]`, iteration
 and the comparison `x != 0`. Python's exceptions become `Error` values.
 */
module Json {
  import opened Wrappers

  /** A parsed JSON document. `Null` is Python's `None`. */
  datatype Value =
    | Null
    | Bool(b: bool)
    | Num(n: int)
    | Str(s: string)
    | Arr(items: seq<Value>)
    | Obj(fields: map<string, Value>)

  /**
   The exceptions the client can raise. `TypeError` also stands for Python's
   `AttributeError` (calling `.get` or `.update` on something that is not a dict).
   */
  datatype Error =
    | ValueError(message: string)
    | TypeError
    | IndexError
    | KeyError

  /** The value stored under `key` in a dict, or `Null` when the key is absent. */
  function Field(fields: map<string, Value>, key: string): (r: Value)
    ensures key in fields ==> r == fields[key]
    ensures key !in fields ==> r == Null
  {
    if key in fields then fields[key] else Null
  }

  /** Python `v.get(key)`: only a dict has `.get`. */
  function Get(v: Value, key: string): (r: Result<Value, Error>)
    ensures r.Success? <==> v.Obj?
    ensures r.Success? ==> r.value == Field(v.fields, key)
    ensures r.Failure? ==> r.error == TypeError
  {
    match v
    case Obj(fields) => Success(Field(fields, key))
    case _ => Failure(TypeError)
  }

  /** Python `v == 0` for a JSON value: `0` and `False` are equal to zero, nothing else is. */
  predicate EqualsZero(v: Value) {
    v == Num(0) || v == Bool(false)
  }

  /**
   Python `v[0]`: the first element of a list, the first character of a
   string; an empty one raises `IndexError`, a dict raises `KeyError`
   (JSON keys are strings) and `None`, numbers and booleans a `TypeError`.
   */
  function First(v: Value): (r: Result<Value, Error>)
    ensures r.Success? <==> (v.Arr? && |v.items| > 0) || (v.Str? && |v.s| > 0)
    ensures v.Arr? && |v.items| > 0 ==> r == Success(v.items[0])
    ensures v.Str? && |v.s| > 0 ==> r == Success(Str([v.s[0]]))
    ensures (v == Arr([]) || v == Str([])) ==> r == Failure(IndexError)
    ensures v.Obj? ==> r == Failure(KeyError)
    ensures v.Null? || v.Num? || v.Bool? ==> r == Failure(TypeError)
  {
    match v
    case Arr(items) => if |items| > 0 then Success(items[0]) else Failure(IndexError)
    case Str(s) => if |s| > 0 then Success(Str([s[0]])) else Failure(IndexError)
    case Obj(_) => Failure(KeyError)
    case _ => Failure(TypeError)
  }

  /** The one-character strings a Python string iterates over. */
  function Chars(s: string): (r: seq<Value>)
    ensures |r| == |s|
    ensures forall i :: 0 <= i < |s| ==> r[i] == Str([s[i]])
  {
    seq(|s|, i requires 0 <= i < |s| => Str([s[i]]))
  }

  /**
   The items a Python `for` loop visits: the elements of a list, the
   characters of a string, nothing for an empty dict. Iterating `None`, a
   number or a boolean raises `TypeError`; so does a non-empty dict here,
   because a `map` does not keep the key order Python would iterate in.
   */
  function Items(v: Value): (r: Result<seq<Value>, Error>)
    ensures v.Arr? ==> r == Success(v.items)
    ensures v.Str? ==> r == Success(Chars(v.s))
    ensures v.Obj? && v.fields == map[] ==> r == Success([])
    ensures r.Success? <==> v.Arr? || v.Str? || (v.Obj? && v.fields == map[])
    ensures r.Failure? ==> r.error == TypeError
  {
    match v
    case Arr(items) => Success(items)
    case Str(s) => Success(Chars(s))
    case Obj(fields) => if fields == map[] then Success([]) else Failure(TypeError)
    case _ => Failure(TypeError)
  }
}
