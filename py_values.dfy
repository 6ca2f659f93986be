/** Python-level values as the step handlers see them: the parsed YAML
    configuration (dictionaries keep insertion order), the exceptions the
    handlers can raise, and the few built-in operations the handlers apply to
    configuration values (`d[k]`, `d.get(k, default)`, `k in d`, `d[k] = v`,
    `for x in v`, truthiness). */
module PyValues {

  datatype Option<+T> = None | Some(value: T)

  /** The exception a handler raises; `Foreign` stands for one raised by a
      collaborator that is not part of this model. */
  datatype Error =
    | KeyError(key: Value)
    | TypeError
    | AttributeError
    | ValueError
    | IndexError
    | StopIteration
    | FileNotFound(path: string)
    | Foreign(name: string)

  datatype Result<+T> = Ok(value: T) | Err(error: Error) {
    predicate IsFailure() { Err? }

    function PropagateFailure<U>(): Result<U>
      requires Err?
    {
      Err(error)
    }

    function Extract(): T
      requires Ok?
    {
      value
    }
  }

  /** A configuration value. `Dict` keeps its keys in insertion order, as a
      Python dictionary does. Floating-point numbers are not modelled. */
  datatype Value =
    | Null
    | Bool(b: bool)
    | Int(i: int)
    | Str(s: string)
    | List(items: seq<Value>)
    | Dict(entries: seq<(string, Value)>)

  /** Python truthiness: `None`, `False`, `0` and empty strings and containers are false. */
  predicate Truthy(v: Value) {
    match v
    case Null => false
    case Bool(b) => b
    case Int(i) => i != 0
    case Str(s) => s != ""
    case List(xs) => xs != []
    case Dict(es) => es != []
  }

  /** The integer a value stands for in arithmetic (`bool` is a subclass of `int`). */
  function AsInt(v: Value): (r: Option<int>)
    ensures r.Some? <==> (v.Int? || v.Bool?)
    ensures r.Some? ==> (r.value != 0 <==> Truthy(v))
  {
    match v
    case Int(i) => Some(i)
    case Bool(b) => Some(if b then 1 else 0)
    case _ => None
  }

  predicate HasKey(entries: seq<(string, Value)>, key: string) {
    exists i :: 0 <= i < |entries| && entries[i].0 == key
  }

  /** The value stored under `key`: the first entry with that key. */
  function Lookup(entries: seq<(string, Value)>, key: string): (r: Option<Value>)
    ensures r.Some? <==> HasKey(entries, key)
    ensures r.Some? ==> (key, r.value) in entries
  {
    if entries == [] then None
    else if entries[0].0 == key then Some(entries[0].1)
    else
      var r := Lookup(entries[1..], key);
      assert HasKey(entries, key) ==> HasKey(entries[1..], key) by {
        if HasKey(entries, key) {
          var i :| 0 <= i < |entries| && entries[i].0 == key;
          assert entries[1..][i - 1].0 == key;
        }
      }
      r
  }

  /** `d[key] = val`: an existing key keeps its position, a new key is appended. */
  function SetKey(entries: seq<(string, Value)>, key: string, val: Value): (r: seq<(string, Value)>)
    ensures Lookup(r, key) == Some(val)
    ensures forall k :: k != key ==> Lookup(r, k) == Lookup(entries, k)
    ensures HasKey(entries, key) ==> |r| == |entries| && forall i :: 0 <= i < |r| ==> r[i].0 == entries[i].0
  {
    if entries == [] then [(key, val)]
    else if entries[0].0 == key then [(key, val)] + entries[1..]
    else [entries[0]] + SetKey(entries[1..], key, val)
  }

  /** `v[key]` for a string key. */
  function Subscript(v: Value, key: string): (r: Result<Value>)
    ensures r.Ok? <==> v.Dict? && HasKey(v.entries, key)
    ensures r.Ok? ==> (key, r.value) in v.entries
    ensures v.Dict? && !HasKey(v.entries, key) ==> r == Err(KeyError(Str(key)))
  {
    match v
    case Dict(es) =>
      (match Lookup(es, key)
       case Some(x) => Ok(x)
       case None => Err(KeyError(Str(key))))
    case _ => Err(TypeError)
  }

  /** `v.get(key, default)`; only dictionaries have `get`. */
  function Get(v: Value, key: string, default: Value): (r: Result<Value>)
    ensures r.Ok? <==> v.Dict?
    ensures !v.Dict? ==> r == Err(AttributeError)
    ensures v.Dict? && !HasKey(v.entries, key) ==> r == Ok(default)
    ensures v.Dict? && HasKey(v.entries, key) ==> r == Subscript(v, key)
  {
    match v
    case Dict(es) =>
      (match Lookup(es, key)
       case Some(x) => Ok(x)
       case None => Ok(default))
    case _ => Err(AttributeError)
  }

  /** Python's `needle in hay` for two strings. */
  predicate IsSubstring(needle: string, hay: string) {
    needle <= hay || (hay != [] && IsSubstring(needle, hay[1..]))
  }

  /** `key in v`: keys of a dictionary, elements of a list, substrings of a
      string; anything else raises `TypeError`. */
  function Contains(v: Value, key: string): (r: Result<bool>)
    ensures v.Dict? ==> r == Ok(HasKey(v.entries, key))
    ensures r.Err? <==> !(v.Dict? || v.List? || v.Str?)
  {
    match v
    case Dict(es) => Ok(HasKey(es, key))
    case List(xs) => Ok(Str(key) in xs)
    case Str(s) => Ok(IsSubstring(key, s))
    case _ => Err(TypeError)
  }

  /** The elements `for x in v` visits: list items, dictionary keys, or the
      one-character strings of a string. */
  function Iterate(v: Value): (r: Result<seq<Value>>)
    ensures r.Ok? <==> (v.List? || v.Dict? || v.Str?)
    ensures v.List? ==> r == Ok(v.items)
    ensures v.Dict? ==> (r.Ok? && |r.value| == |v.entries| &&
                         forall i :: 0 <= i < |v.entries| ==> r.value[i] == Str(v.entries[i].0))
    ensures v.Str? ==> (r.Ok? && |r.value| == |v.s| &&
                        forall i :: 0 <= i < |v.s| ==> r.value[i] == Str([v.s[i]]))
  {
    match v
    case List(xs) => Ok(xs)
    case Dict(es) => Ok(seq(|es|, i requires 0 <= i < |es| => Str(es[i].0)))
    case Str(s) => Ok(seq(|s|, i requires 0 <= i < |s| => Str([s[i]])))
    case _ => Err(TypeError)
  }
}
