/** Python runtime values and failure shapes, as the batch runner and the
    configuration store see them. */
module Py {

  datatype Option<+T> = None | Some(value: T)

  datatype Result<+T, +E> = Ok(value: T) | Err(error: E)

  /** The outcome of a call that returns nothing but may raise. */
  datatype Outcome<+E> = Pass | Fail(error: E)

  /** A JSON-shaped Python value: what a configuration setting or a loaded
      document can hold (floating-point numbers are not modelled). */
  datatype Value =
    | Null
    | Bool(b: bool)
    | Int(i: int)
    | Str(s: string)
    | List(items: seq<Value>)
    | Dict(entries: map<string, Value>)

  /** Python truthiness, as tested by `if v:`. */
  predicate Truthy(v: Value) {
    match v
    case Null => false
    case Bool(b) => b
    case Int(i) => i != 0
    case Str(s) => s != ""
    case List(items) => items != []
    case Dict(entries) => entries != map[]
  }

  /** The exceptions the core raises or lets escape. */
  datatype PyError = KeyError(key: string) | TypeError | AttributeError

  /** How an attempt to write a file ends: written, refused before anything
      was written (the directory or the file could not be opened), or broken
      off after the file had been truncated. */
  datatype IoResult = IoOk | OpenFailed | WriteFailed

  /** `needle in haystack` for a string haystack: substring test. */
  predicate IsSubstring(needle: string, haystack: string)
    decreases |haystack|
  {
    needle <= haystack || (|haystack| > 0 && IsSubstring(needle, haystack[1..]))
  }

  /** `needle` occurs in `haystack` at offset `i`. */
  predicate OccursAt(needle: string, haystack: string, i: int) {
    0 <= i <= |haystack| - |needle| && haystack[i..i + |needle|] == needle
  }

  /** The substring test agrees with its reference definition: `needle`
      occurs at some offset of `haystack`. */
  lemma {:induction false} IsSubstringOccurs(needle: string, haystack: string)
    ensures IsSubstring(needle, haystack) <==> exists i :: OccursAt(needle, haystack, i)
    decreases |haystack|
  {
    if |haystack| > 0 {
      var rest := haystack[1..];
      IsSubstringOccurs(needle, rest);
      if IsSubstring(needle, rest) {
        var i :| OccursAt(needle, rest, i);
        assert OccursAt(needle, haystack, i + 1);
      }
      if needle <= haystack {
        assert OccursAt(needle, haystack, 0);
      }
      if exists i :: OccursAt(needle, haystack, i) {
        var i :| OccursAt(needle, haystack, i);
        if i > 0 {
          assert OccursAt(needle, rest, i - 1);
        }
      }
    } else if needle == [] {
      assert OccursAt(needle, haystack, 0);
    }
  }

  /** Python `name in container` for a string `name`: a key test on a
      dictionary, membership on a list, a substring test on a string;
      containers that are not iterable raise `TypeError`. */
  function ContainsName(container: Value, name: string): (r: Result<bool, PyError>)
    ensures container.Dict? ==> r == Ok(name in container.entries)
    ensures container.List? ==> r == Ok(Str(name) in container.items)
    ensures container.Str? ==> r == Ok(IsSubstring(name, container.s))
    ensures (container.Null? || container.Bool? || container.Int?) ==> r == Err(TypeError)
  {
    match container
    case Dict(entries) => Ok(name in entries)
    case List(items) => Ok(Str(name) in items)
    case Str(s) => Ok(IsSubstring(name, s))
    case _ => Err(TypeError)
  }

  /** Python `container[name]` for a string `name`: only a dictionary can be
      indexed by a string; a missing key raises `KeyError`. */
  function Subscript(container: Value, name: string): (r: Result<Value, PyError>)
    ensures r.Ok? <==> container.Dict? && name in container.entries
    ensures r.Ok? ==> r.value == container.entries[name]
    ensures container.Dict? && name !in container.entries ==> r == Err(KeyError(name))
  {
    match container
    case Dict(entries) => if name in entries then Ok(entries[name]) else Err(KeyError(name))
    case _ => Err(TypeError)
  }
}
