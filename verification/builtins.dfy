/**
 * Python's built-in operators on decoded JSON values, with the semantics the core
 * relies on: `in`, subscript read and write, iteration, list comprehension and
 * dictionary lookup. Each raises where Python would, with one exception: iterating an
 * object raises `TypeError` here, where Python iterates its keys, because a map records
 * no key order.
 */
module Builtins {
  import opened Wrappers
  import opened Json
  import opened Errors

  /** The date parser `arrow.get`, left uninterpreted: it either yields an instant or fails. */
  type Parser = Value -> Result<Timestamp, Error>

  /** `key` occurs in `s` starting at position `i`. */
  predicate OccursAt(key: string, s: string, i: int)
  {
    0 <= i <= |s| - |key| && s[i..i + |key|] == key
  }

  /** Python's `key in s` for two strings: a contiguous occurrence, scanning from the left. */
  predicate IsSubstring(key: string, s: string)
    decreases |s|
  {
    |key| <= |s| && (s[..|key|] == key || IsSubstring(key, s[1..]))
  }

  lemma {:induction false} IsSubstringIff(key: string, s: string)
    ensures IsSubstring(key, s) <==> exists i :: OccursAt(key, s, i)
    decreases |s|
  {
    if |key| <= |s| && s[..|key|] != key {
      IsSubstringIff(key, s[1..]);
      if IsSubstring(key, s[1..]) {
        var i :| OccursAt(key, s[1..], i);
        assert s[1..][i..i + |key|] == s[i + 1..i + 1 + |key|];
        assert OccursAt(key, s, i + 1);
      }
      if i :| OccursAt(key, s, i) {
        assert i != 0;
        assert s[1..][i - 1..i - 1 + |key|] == s[i..i + |key|];
        assert OccursAt(key, s[1..], i - 1);
      }
    } else if |key| <= |s| {
      assert OccursAt(key, s, 0);
    }
  }

  /** Python's `key in container` with a string on the left. */
  function In(key: string, container: Value): (r: Result<bool, Error>)
    ensures container.Obj? ==> r == Ok(key in container.fields)
    ensures container.Arr? ==> r == Ok(Str(key) in container.items)
    ensures container.Str? ==> r.Ok? && (r.value <==> exists i :: OccursAt(key, container.s, i))
    ensures r.Err? <==> !(container.Obj? || container.Arr? || container.Str?)
    ensures r.Err? ==> r.error == TypeError
  {
    match container
    case Obj(fields) => Ok(key in fields)
    case Arr(items) => Ok(Str(key) in items)
    case Str(s) => IsSubstringIff(key, s); Ok(IsSubstring(key, s))
    case _ => Err(TypeError)
  }

  /** Python's `container[key]` with a string key: only a dictionary accepts it. */
  function GetItem(container: Value, key: string): (r: Result<Value, Error>)
    ensures r.Ok? <==> container.Obj? && key in container.fields
    ensures r.Ok? ==> r.value == container.fields[key]
    ensures container.Obj? && key !in container.fields ==> r == Err(KeyError(Str(key)))
    ensures !container.Obj? ==> r == Err(TypeError)
  {
    match container
    case Obj(fields) => if key in fields then Ok(fields[key]) else Err(KeyError(Str(key)))
    case _ => Err(TypeError)
  }

  /** Python's `container[key] = x`: a dictionary gains or replaces the entry, nothing else changes. */
  function SetItem(container: Value, key: string, x: Value): (r: Result<Value, Error>)
    ensures r.Ok? <==> container.Obj?
    ensures r.Ok? ==> r.value.Obj? && r.value.fields.Keys == container.fields.Keys + {key}
    ensures r.Ok? ==> r.value.fields[key] == x
    ensures r.Ok? ==> forall k :: k in container.fields && k != key ==> r.value.fields[k] == container.fields[k]
    ensures r.Err? ==> r.error == TypeError
  {
    match container
    case Obj(fields) => Ok(Obj(fields[key := x]))
    case _ => Err(TypeError)
  }

  /**
   * Python's `for x in v`: a list yields its elements, a string its characters.
   * Iterating an object is not modelled (see README) and is reported as TypeError.
   */
  function Iterate(v: Value): (r: Result<seq<Value>, Error>)
    ensures v.Arr? ==> r == Ok(v.items)
    ensures v.Str? ==> r.Ok? && |r.value| == |v.s| && forall i :: 0 <= i < |v.s| ==> r.value[i] == Str([v.s[i]])
    ensures !(v.Arr? || v.Str?) ==> r == Err(TypeError)
  {
    match v
    case Arr(items) => Ok(items)
    case Str(s) => Ok(seq(|s|, i requires 0 <= i < |s| => Str([s[i]])))
    case _ => Err(TypeError)
  }

  /** `ys` is `f` applied to each element of `xs`, in order, without failure. */
  ghost predicate Pointwise(f: Value -> Result<Value, Error>, xs: seq<Value>, ys: seq<Value>)
  {
    |xs| == |ys| && forall i :: 0 <= i < |xs| ==> f(xs[i]) == Ok(ys[i])
  }

  /**
   * Python's `[f(x) for x in items]`: applies `f` left to right and raises the first
   * error met, so no partial list is ever returned.
   */
  function MapEach(items: seq<Value>, f: Value -> Result<Value, Error>): (r: Result<seq<Value>, Error>)
    ensures r.Ok? <==> forall i :: 0 <= i < |items| ==> f(items[i]).Ok?
    ensures r.Ok? ==> Pointwise(f, items, r.value)
    ensures r.Err? ==> exists i :: 0 <= i < |items| && f(items[i]) == Err(r.error)
                                   && forall j :: 0 <= j < i ==> f(items[j]).Ok?
    decreases |items|
  {
    if |items| == 0 then Ok([])
    else
      var head :- f(items[0]);
      var tail :- MapEach(items[1..], f);
      Ok([head] + tail)
  }

  /**
   * Python's `table[key]` for a dictionary with string keys: a list or object key is
   * unhashable, any other key that is not a listed string is missing.
   */
  function Lookup(table: map<string, string>, key: Value): (r: Result<Value, Error>)
    ensures r.Ok? <==> key.Str? && key.s in table
    ensures r.Ok? ==> r.value == Str(table[key.s])
    ensures key.Arr? || key.Obj? ==> r == Err(TypeError)
    ensures r.Err? && !(key.Arr? || key.Obj?) ==> r.error == KeyError(key)
  {
    match key
    case Str(s) => if s in table then Ok(Str(table[s])) else Err(KeyError(key))
    case Arr(_) => Err(TypeError)
    case Obj(_) => Err(TypeError)
    case _ => Err(KeyError(key))
  }
}
