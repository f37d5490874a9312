/** JSON documents as Python's `json.load` hands them to the account scripts,
    and the few Python operations the scripts apply to them: `key in x`,
    `x[key]`, `x.get(key, default)` and `x.items()`, each with the exception
    Python raises when `x` has the wrong type. */
module Json {

  datatype Option<+T> = None | Some(value: T) {
    function GetOr(default: T): T {
      if Some? then value else default
    }
  }

  /** A parsed JSON value. An object keeps its entries in document order (the
      order `dict.items()` yields); `json.load` never leaves two entries with
      the same key, and a lookup takes the first entry for a key. Numbers
      stand for Python ints and floats alike: the scripts only ever depend on
      a number being neither a string nor a container. */
  datatype Json =
    | JNull
    | JBool(b: bool)
    | JNumber(n: int)
    | JString(s: string)
    | JArray(items: seq<Json>)
    | JObject(entries: seq<(string, Json)>)

  /** The Python exceptions the scripts can run into. */
  datatype PyException =
    | KeyError(key: string)
    | TypeError
    | AttributeError
    | ValueError
    | UncaughtClientError(message: string)  // botocore's ClientError where no `except` catches it

  /** The result of a Python expression: a value, or a raised exception. */
  datatype Outcome<+T> = Ok(value: T) | Raised(exc: PyException) {
    predicate IsFailure() {
      Raised?
    }

    function PropagateFailure<U>(): Outcome<U>
      requires Raised?
    {
      Raised(exc)
    }

    function Extract(): T
      requires Ok?
    {
      value
    }
  }

  predicate HasKey(entries: seq<(string, Json)>, key: string) {
    exists i :: 0 <= i < |entries| && entries[i].0 == key
  }

  /** The value stored under `key`, if any. */
  function Lookup(entries: seq<(string, Json)>, key: string): (r: Option<Json>)
    ensures r.Some? <==> HasKey(entries, key)
    ensures r.Some? ==> exists i :: 0 <= i < |entries| && entries[i] == (key, r.value)
  {
    if entries == [] then None
    else if entries[0].0 == key then Some(entries[0].1)
    else
      var r := Lookup(entries[1..], key);
      assert forall i :: 0 < i < |entries| ==> entries[i] == entries[1..][i - 1];
      r
  }

  /** Python's `needle in hay` on two strings: a substring test. */
  predicate IsSubstring(needle: string, hay: string) {
    needle <= hay || (hay != [] && IsSubstring(needle, hay[1..]))
  }

  /** Python's `key in container`: key membership for a dict, element
      equality for a list, substring search for a string; any other value
      is not iterable and raises TypeError. */
  function Contains(container: Json, key: string): Outcome<bool> {
    match container
    case JObject(entries) => Ok(HasKey(entries, key))
    case JArray(items) => Ok(JString(key) in items)
    case JString(s) => Ok(IsSubstring(key, s))
    case _ => Raised(TypeError)
  }

  /** Python's `all(key in container for key in keys)`, which stops at the
      first key that is missing or raises. */
  function ContainsAll(container: Json, keys: seq<string>): Outcome<bool> {
    if keys == [] then Ok(true)
    else
      var present :- Contains(container, keys[0]);
      if present then ContainsAll(container, keys[1..]) else Ok(false)
  }

  /** Python's `container[key]` with a string key: a dict without the key
      raises KeyError; a list or a string wants an integer index and every
      other value is not subscriptable, so both raise TypeError. */
  function Subscript(container: Json, key: string): Outcome<Json> {
    match container
    case JObject(entries) =>
      (match Lookup(entries, key)
       case Some(v) => Ok(v)
       case None => Raised(KeyError(key)))
    case _ => Raised(TypeError)
  }

  /** Python's `container.get(key, default)`: only a dict has `get`. */
  function Get(container: Json, key: string, default: Json): Outcome<Json> {
    match container
    case JObject(entries) => Ok(Lookup(entries, key).GetOr(default))
    case _ => Raised(AttributeError)
  }

  /** Python's `container.items()`: only a dict has `items`. */
  function Items(container: Json): Outcome<seq<(string, Json)>> {
    match container
    case JObject(entries) => Ok(entries)
    case _ => Raised(AttributeError)
  }

  /** `needle` occurs in `hay` starting at offset `i`. */
  predicate OccursAt(needle: string, hay: string, i: int) {
    0 <= i <= |hay| - |needle| && hay[i..i + |needle|] == needle
  }

  /** `needle in hay` holds exactly when `needle` occurs at some offset of `hay`. */
  lemma {:induction false} SubstringOccurs(needle: string, hay: string)
    ensures IsSubstring(needle, hay) <==> exists i :: OccursAt(needle, hay, i)
  {
    if needle <= hay {
      assert OccursAt(needle, hay, 0);
    } else if hay == [] {
      assert forall i :: !OccursAt(needle, hay, i);
    } else {
      var tail := hay[1..];
      SubstringOccurs(needle, tail);
      assert OccursAt(needle, hay, 0) <==> needle <= hay;
      forall i | 0 < i
        ensures OccursAt(needle, hay, i) <==> OccursAt(needle, tail, i - 1)
      {
        if 0 <= i - 1 <= |tail| - |needle| {
          assert tail[i - 1..i - 1 + |needle|] == hay[i..i + |needle|];
        }
      }
      if IsSubstring(needle, tail) {
        var i :| OccursAt(needle, tail, i);
        assert OccursAt(needle, hay, i + 1);
      }
    }
  }

  /** On a dict, `all(key in d for key in keys)` never raises and depends on
      the keys alone, never on the values stored under them. */
  lemma {:induction false} ContainsAllOfObject(entries: seq<(string, Json)>, keys: seq<string>)
    ensures ContainsAll(JObject(entries), keys) == Ok(forall k :: k in keys ==> HasKey(entries, k))
  {
    if keys != [] {
      ContainsAllOfObject(entries, keys[1..]);
      assert forall k :: k in keys <==> k == keys[0] || k in keys[1..];
    }
  }

  /** `all(...)` succeeds exactly when every single membership test does, and
      it raises exactly when the container is not iterable (and there is at
      least one key to test). */
  lemma {:induction false} ContainsAllEach(container: Json, keys: seq<string>)
    ensures ContainsAll(container, keys) == Ok(true) <==>
            forall k :: k in keys ==> Contains(container, k) == Ok(true)
    ensures ContainsAll(container, keys).Raised? <==>
            keys != [] && Contains(container, keys[0]).Raised?
  {
    if keys != [] {
      ContainsAllEach(container, keys[1..]);
      assert forall k :: k in keys <==> k == keys[0] || k in keys[1..];
      if Contains(container, keys[0]).Ok? && keys[1..] != [] {
        assert Contains(container, keys[1..][0]).Ok?;
      }
    }
  }
}
