/** The Python values the server receives from the search client and from its
    callers (decoded JSON), the dict operations it performs on them, and the
    exceptions those operations raise. A Python dict keeps insertion order, so
    a dict is a sequence of key/value pairs. */
module PyValue {
  import opened Text

  datatype Value =
    | Null
    | Bool(b: bool)
    | Int(i: int)
    | Float(f: real)
    | Str(s: string)
    | List(items: seq<Value>)
    | Dict(fields: seq<(string, Value)>)

  /** The entries of a dict, in insertion order. */
  type Fields = seq<(string, Value)>

  datatype Option<T> = None | Some(value: T)

  /** The exceptions a tool body can raise: those of the dict, list and string
      operations it performs, and whatever the search client raises. */
  datatype Error =
    | KeyError(key: string)
    | TypeError(message: string)
    | AttributeError(message: string)
    | ClientError(message: string)

  /** `str(e)`: a KeyError shows the quoted key, the others their message. */
  function ErrorText(e: Error): string
  {
    match e
    case KeyError(k) => "'" + k + "'"
    case TypeError(m) => m
    case AttributeError(m) => m
    case ClientError(m) => m
  }

  /** A computation that either yields a value or raises. */
  datatype Result<T> = Ok(value: T) | Err(error: Error) {
    predicate IsFailure() {
      Err?
    }

    function PropagateFailure<U>(): Result<U>
      requires Err?
    {
      Err(error)
    }

    function Extract(): T
      requires Ok?
    {
      value
    }
  }

  /** The name Python gives the type of a value in its error messages. */
  function TypeName(v: Value): string
  {
    match v
    case Null => "NoneType"
    case Bool(_) => "bool"
    case Int(_) => "int"
    case Float(_) => "float"
    case Str(_) => "str"
    case List(_) => "list"
    case Dict(_) => "dict"
  }

  // ---------------------------------------------------------------------------
  // Dict entries

  predicate HasKey(fs: Fields, k: string)
  {
    exists i :: 0 <= i < |fs| && fs[i].0 == k
  }

  /** No key appears twice, as in every Python dict. */
  predicate UniqueKeys(fs: Fields)
  {
    forall i, j :: 0 <= i < j < |fs| ==> fs[i].0 != fs[j].0
  }

  /** A key other than the first entry's is a key of the remaining entries. */
  lemma HasKeyTail(fs: Fields, k: string)
    requires fs != [] && fs[0].0 != k
    ensures HasKey(fs, k) <==> HasKey(fs[1..], k)
  {
    if HasKey(fs, k) {
      var i :| 0 <= i < |fs| && fs[i].0 == k;
      assert fs[1..][i - 1].0 == k;
    }
    if HasKey(fs[1..], k) {
      var i :| 0 <= i < |fs[1..]| && fs[1..][i].0 == k;
      assert fs[i + 1].0 == k;
    }
  }

  /** The value stored under `k`. */
  function Lookup(fs: Fields, k: string): (r: Option<Value>)
    ensures r.Some? <==> HasKey(fs, k)
    ensures r.Some? ==> exists i :: 0 <= i < |fs| && fs[i] == (k, r.value)
  {
    if fs == [] then None
    else if fs[0].0 == k then Some(fs[0].1)
    else
      var r := Lookup(fs[1..], k);
      HasKeyTail(fs, k);
      assert r.Some? ==> exists i :: 0 <= i < |fs| && fs[i] == (k, r.value) by {
        if r.Some? {
          var i :| 0 <= i < |fs[1..]| && fs[1..][i] == (k, r.value);
          assert fs[i + 1] == (k, r.value);
        }
      }
      r
  }

  /** `d.get(k, default)` on a dict's entries. */
  function GetOr(fs: Fields, k: string, default: Value): Value
  {
    match Lookup(fs, k)
    case Some(v) => v
    case None => default
  }

  /** `d[k] = v`: an existing key keeps its position and takes the new value,
      a new key goes last. */
  function Put(fs: Fields, k: string, v: Value): (r: Fields)
    ensures Lookup(r, k) == Some(v)
    ensures forall j :: j != k ==> Lookup(r, j) == Lookup(fs, j)
    ensures !HasKey(fs, k) ==> r == fs + [(k, v)]
    ensures HasKey(fs, k) ==> |r| == |fs|
  {
    if fs == [] then [(k, v)]
    else if fs[0].0 == k then [(k, v)] + fs[1..]
    else
      var rest := Put(fs[1..], k, v);
      var r := [fs[0]] + rest;
      assert r[0] == fs[0] && r[1..] == rest;
      HasKeyTail(fs, k);
      r
  }

  /** `d[k] = v` on a key already present replaces that entry in place and
      leaves every other entry where it was. */
  lemma {:induction false} PutInPlace(fs: Fields, k: string, v: Value)
    requires UniqueKeys(fs) && HasKey(fs, k)
    ensures |Put(fs, k, v)| == |fs|
    ensures forall i :: 0 <= i < |fs| ==> Put(fs, k, v)[i] == if fs[i].0 == k then (k, v) else fs[i]
    decreases |fs|
  {
    var r := Put(fs, k, v);
    if fs[0].0 == k {
      forall i | 1 <= i < |fs| ensures r[i] == fs[i] && fs[i].0 != k {
        assert r[i] == fs[1..][i - 1];
      }
    } else {
      var rest := Put(fs[1..], k, v);
      HasKeyTail(fs, k);
      assert UniqueKeys(fs[1..]);
      PutInPlace(fs[1..], k, v);
      assert r == [fs[0]] + rest;
      forall i | 1 <= i < |fs| ensures r[i] == if fs[i].0 == k then (k, v) else fs[i] {
        assert r[i] == rest[i - 1] && fs[i] == fs[1..][i - 1];
      }
    }
  }

  /** After `d[k] = v` every entry is the new one or an old one. */
  lemma {:induction false} PutEntries(fs: Fields, k: string, v: Value)
    ensures forall i :: 0 <= i < |Put(fs, k, v)| ==> Put(fs, k, v)[i] == (k, v) || Put(fs, k, v)[i] in fs
    decreases |fs|
  {
    if fs != [] && fs[0].0 != k {
      PutEntries(fs[1..], k, v);
      var r := Put(fs, k, v);
      assert r == [fs[0]] + Put(fs[1..], k, v);
      forall i | 0 <= i < |r| ensures r[i] == (k, v) || r[i] in fs {
        if i > 0 { assert r[i] == Put(fs[1..], k, v)[i - 1]; }
      }
    }
  }

  /** `d[k] = v` keeps the keys unique. */
  lemma {:induction false} PutUnique(fs: Fields, k: string, v: Value)
    requires UniqueKeys(fs)
    ensures UniqueKeys(Put(fs, k, v))
    decreases |fs|
  {
    if fs != [] && fs[0].0 != k {
      var rest := Put(fs[1..], k, v);
      PutUnique(fs[1..], k, v);
      forall j | 0 <= j < |rest| ensures rest[j].0 != fs[0].0 {
        PutKeyFrom(fs, k, v, j);
      }
      ConsUnique(fs[0], rest);
    } else if fs != [] {
      ConsUnique((k, v), fs[1..]);
    }
  }

  /** Putting an entry with a fresh key in front of unique keys keeps them unique. */
  lemma ConsUnique(entry: (string, Value), rest: Fields)
    requires UniqueKeys(rest)
    requires forall j :: 0 <= j < |rest| ==> rest[j].0 != entry.0
    ensures UniqueKeys([entry] + rest)
  {
    var r := [entry] + rest;
    forall i, j | 0 <= i < j < |r| ensures r[i].0 != r[j].0 {
      assert r[j] == rest[j - 1];
      if i > 0 {
        assert r[i] == rest[i - 1];
      }
    }
  }

  /** An entry of `Put(fs[1..], k, v)` has a key other than `fs[0]`'s when the keys are unique. */
  lemma PutKeyFrom(fs: Fields, k: string, v: Value, j: nat)
    requires UniqueKeys(fs) && fs != [] && fs[0].0 != k
    requires j < |Put(fs[1..], k, v)|
    ensures Put(fs[1..], k, v)[j].0 != fs[0].0
  {
    var rest := Put(fs[1..], k, v);
    PutEntries(fs[1..], k, v);
    if rest[j] != (k, v) {
      var m :| 0 <= m < |fs[1..]| && fs[1..][m] == rest[j];
      assert fs[m + 1] == rest[j];
    }
  }

  // ---------------------------------------------------------------------------
  // Python operations on a decoded value

  /** The entries of a dict; on any other value, calling the dict method
      `attribute` raises AttributeError. */
  function AsDict(v: Value, attribute: string): (r: Result<Fields>)
    ensures r.Ok? <==> v.Dict?
    ensures r.Ok? ==> r.value == v.fields
    ensures r.Err? ==> r.error.AttributeError?
  {
    if v.Dict? then Ok(v.fields)
    else Err(AttributeError("'" + TypeName(v) + "' object has no attribute '" + attribute + "'"))
  }

  /** `v.get(k, default)`. */
  function Get(v: Value, k: string, default: Value): Result<Value>
  {
    var fs :- AsDict(v, "get");
    Ok(GetOr(fs, k, default))
  }

  /** `v.items()`. */
  function Items(v: Value): Result<Fields>
  {
    AsDict(v, "items")
  }

  /** `v[k]` with a string subscript. */
  function Subscript(v: Value, k: string): (r: Result<Value>)
    ensures r.Ok? <==> v.Dict? && HasKey(v.fields, k)
    ensures r.Ok? ==> Lookup(v.fields, k) == Some(r.value)
    ensures v.Dict? && !HasKey(v.fields, k) ==> r == Err(KeyError(k))
    ensures !v.Dict? ==> r.Err? && r.error.TypeError?
  {
    match v
    case Dict(fs) =>
      (match Lookup(fs, k)
       case Some(x) => Ok(x)
       case None => Err(KeyError(k)))
    case List(_) => Err(TypeError("list indices must be integers or slices, not str"))
    case Str(_) => Err(TypeError("string indices must be integers, not 'str'"))
    case _ => Err(TypeError("'" + TypeName(v) + "' object is not subscriptable"))
  }

  /** `k in v` for a string `k`: a key of a dict, an element of a list, a
      substring of a string. */
  function Contains(v: Value, k: string): (r: Result<bool>)
    ensures v.Dict? ==> r == Ok(HasKey(v.fields, k))
    ensures r.Ok? <==> v.Dict? || v.List? || v.Str?
    ensures r.Err? ==> r.error.TypeError?
  {
    match v
    case Dict(fs) => Ok(HasKey(fs, k))
    case List(items) => Ok(Str(k) in items)
    case Str(s) => Ok(Occurs(k, s))
    case _ => Err(TypeError("argument of type '" + TypeName(v) + "' is not iterable"))
  }

  /** `len(v)`. */
  function Len(v: Value): (r: Result<nat>)
    ensures r.Ok? <==> v.Str? || v.List? || v.Dict?
    ensures v.List? ==> r == Ok(|v.items|)
    ensures v.Dict? ==> r == Ok(|v.fields|)
    ensures r.Err? ==> r.error.TypeError?
  {
    match v
    case Str(s) => Ok(|s|)
    case List(items) => Ok(|items|)
    case Dict(fs) => Ok(|fs|)
    case _ => Err(TypeError("object of type '" + TypeName(v) + "' has no len()"))
  }

  /** `bool(v)`. */
  predicate Truthy(v: Value)
  {
    match v
    case Null => false
    case Bool(b) => b
    case Int(i) => i != 0
    case Float(f) => f != 0.0
    case Str(s) => s != ""
    case List(items) => items != []
    case Dict(fs) => fs != []
  }

  /** What `for x in v` visits: a list's elements, a dict's keys, a string's
      characters. */
  function Iterate(v: Value): (r: Result<seq<Value>>)
    ensures v.List? ==> r == Ok(v.items)
    ensures v.Dict? ==> r.Ok? && |r.value| == |v.fields| && forall i :: 0 <= i < |v.fields| ==> r.value[i] == Str(v.fields[i].0)
    ensures v.Str? ==> r.Ok? && |r.value| == |v.s| && forall i :: 0 <= i < |v.s| ==> r.value[i] == Str([v.s[i]])
    ensures r.Err? <==> !(v.List? || v.Dict? || v.Str?)
  {
    match v
    case List(items) => Ok(items)
    case Dict(fs) => Ok(seq(|fs|, i requires 0 <= i < |fs| => Str(fs[i].0)))
    case Str(s) => Ok(seq(|s|, i requires 0 <= i < |s| => Str([s[i]])))
    case _ => Err(TypeError("'" + TypeName(v) + "' object is not iterable"))
  }

  // ---------------------------------------------------------------------------
  // Rendering

  /** The rendering functions the server takes from the Python library as
      given: `json.dumps(v)`, `json.dumps(v, indent=2)`, `str()` of a float,
      list or dict, the `:.2f` format and `round(x, 2)`. */
  datatype Printer = Printer(
    dumps: Value -> string,
    dumpsIndented: Value -> string,
    repr: Value -> string,
    fixed2: real -> string,
    round2: real -> real)

  /** `str(v)`, as an f-string shows a value. */
  function StrOf(p: Printer, v: Value): string
  {
    match v
    case Null => "None"
    case Bool(b) => if b then "True" else "False"
    case Int(i) => IntText(i)
    case Str(s) => s
    case _ => p.repr(v)
  }
}
