/**
 * The values a decoded JSON document is made of, as Python sees them after
 * `json.loads`: None, booleans, integers, strings, lists and dicts. A dict is
 * kept as the list of its entries in insertion order, the order Python keeps.
 * The two Python operations the handler applies to them, `key in container`
 * and `container[key]`, are modelled together with the exceptions they raise.
 */
module Values {

  datatype Value =
    | Null
    | Bool(b: bool)
    | Int(i: int)
    | Str(s: string)
    | List(items: seq<Value>)
    | Dict(entries: Fields)

  /** The entries of a dict, in insertion order. */
  type Fields = seq<(string, Value)>

  /**
   * The exceptions the modelled operations can raise: KeyError and TypeError
   * from indexing and membership tests, ClientError from a store call that
   * fails or that the table rejects.
   */
  datatype Exception = KeyError | TypeError | ClientError

  /** The result of a Python operation that may raise. */
  datatype Py<+T> = Ok(value: T) | Raise(exc: Exception)

  /** `key in d` for a dict with entries `fields`. */
  predicate HasKey(fields: Fields, key: string) {
    exists i :: 0 <= i < |fields| && fields[i].0 == key
  }

  /**
   * `d[key]` for a dict with entries `fields`: the value of the last entry
   * with that key, which is the one `json.loads` keeps when a key repeats.
   */
  function Lookup(fields: Fields, key: string): (v: Value)
    requires HasKey(fields, key)
    ensures exists i :: 0 <= i < |fields| && fields[i] == (key, v) &&
                        forall j :: i < j < |fields| ==> fields[j].0 != key
    decreases |fields|
  {
    var last := |fields| - 1;
    if fields[last].0 == key then
      fields[last].1
    else
      var i :| 0 <= i < |fields| && fields[i].0 == key;
      assert fields[..last][i].0 == key;
      var v := Lookup(fields[..last], key);
      var k :| 0 <= k < last && fields[..last][k] == (key, v) &&
               forall j :: k < j < last ==> fields[..last][j].0 != key;
      assert fields[k] == (key, v);
      v
  }

  /** A key held by exactly one entry is found, and looks up that entry's value. */
  lemma LookupSole(fields: Fields, i: int)
    requires 0 <= i < |fields|
    requires forall j :: 0 <= j < |fields| && j != i ==> fields[j].0 != fields[i].0
    ensures HasKey(fields, fields[i].0) && Lookup(fields, fields[i].0) == fields[i].1
  {
  }

  /** Whether `k` occurs in `s` starting at position `i`. */
  predicate OccursAt(k: string, s: string, i: int) {
    0 <= i && i + |k| <= |s| && s[i..i + |k|] == k
  }

  /** Whether `k` occurs as a contiguous piece of `s` (Python's `k in s` on strings). */
  function IsSubstring(k: string, s: string): (r: bool)
    ensures r <==> exists i :: OccursAt(k, s, i)
    decreases |s|
  {
    if |k| > |s| then
      false
    else if s[..|k|] == k then
      assert OccursAt(k, s, 0);
      true
    else
      var r := IsSubstring(k, s[1..]);
      assert forall i :: OccursAt(k, s[1..], i) <==> OccursAt(k, s, i + 1) by {
        forall i ensures OccursAt(k, s[1..], i) <==> OccursAt(k, s, i + 1) {
          if 0 <= i && i + 1 + |k| <= |s| {
            assert s[1..][i..i + |k|] == s[i + 1..i + 1 + |k|];
          }
        }
      }
      assert !OccursAt(k, s, 0);
      assert (exists i :: OccursAt(k, s, i)) ==> exists i :: OccursAt(k, s[1..], i) by {
        if exists i :: OccursAt(k, s, i) {
          var i :| OccursAt(k, s, i);
          assert OccursAt(k, s[1..], i - 1);
        }
      }
      r
  }

  /**
   * Python's `key in container` for a string key: membership of the key in a
   * dict, equality with an element of a list, a substring test on a string;
   * any other value raises TypeError.
   */
  function Contains(container: Value, key: string): (r: Py<bool>)
    ensures r.Ok? <==> container.Dict? || container.List? || container.Str?
    ensures container.Dict? ==> r == Ok(HasKey(container.entries, key))
    ensures container.List? ==> r == Ok(exists i :: 0 <= i < |container.items| && container.items[i] == Str(key))
    ensures container.Str? ==> r == Ok(IsSubstring(key, container.s))
  {
    match container
    case Dict(entries) => Ok(HasKey(entries, key))
    case List(items) => Ok(Str(key) in items)
    case Str(s) => Ok(IsSubstring(key, s))
    case _ => Raise(TypeError)
  }

  /**
   * Python's `container[key]` for a string key: only a dict can be indexed by
   * a string; a missing key raises KeyError, any other container TypeError.
   */
  function Index(container: Value, key: string): (r: Py<Value>)
    ensures r.Ok? <==> container.Dict? && HasKey(container.entries, key)
    ensures r.Ok? ==> r.value == Lookup(container.entries, key)
    ensures r == Raise(KeyError) <==> container.Dict? && !HasKey(container.entries, key)
    ensures !container.Dict? ==> r == Raise(TypeError)
  {
    match container
    case Dict(entries) => if HasKey(entries, key) then Ok(Lookup(entries, key)) else Raise(KeyError)
    case _ => Raise(TypeError)
  }
}
