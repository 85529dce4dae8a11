/** Small generic helpers shared by every module of the model. */
module Prelude {

  datatype Option<+T> = None | Some(value: T)

  /** The outcome of a computation that may raise in the modelled program. */
  datatype Result<+T, +E> = Ok(value: T) | Err(error: E) {
    predicate IsFailure() { Err? }
    function PropagateFailure<U>(): Result<U, E>
      requires Err?
    {
      Err(error)
    }
    function Extract(): T
      requires Ok?
    {
      value
    }
  }

  ghost predicate NoDup<T>(s: seq<T>) {
    forall i, j :: 0 <= i < j < |s| ==> s[i] != s[j]
  }

  function Elems<T(==)>(s: seq<T>): set<T> {
    set x | x in s
  }

  /** A Python dict met in iteration order: keys are pairwise distinct. */
  type Items = seq<(string, string)>

  function Keys(items: Items): (keys: seq<string>)
    ensures |keys| == |items|
    ensures forall i :: 0 <= i < |items| ==> keys[i] == items[i].0
  {
    seq(|items|, i requires 0 <= i < |items| => items[i].0)
  }

  /** The place of `key` in the dict, or its size when it is absent. */
  function Position(items: Items, key: string): (i: nat)
    ensures i <= |items|
    ensures i < |items| ==> items[i].0 == key
    ensures forall j :: 0 <= j < i ==> items[j].0 != key
  {
    if |items| == 0 || items[0].0 == key then 0 else 1 + Position(items[1..], key)
  }

  /** `d[key] = value`: a key already present keeps its place in the order. */
  function Put(items: Items, key: string, value: string): (r: Items)
    requires NoDup(Keys(items))
    ensures NoDup(Keys(r))
    ensures forall k, v :: (k, v) in r <==> if k == key then v == value else (k, v) in items
  {
    var i := Position(items, key);
    if i < |items| then
      var r := items[i := (key, value)];
      assert forall j :: 0 <= j < |items| && j != i ==> Keys(items)[j] != Keys(items)[i];
      assert r[i] == (key, value);
      assert forall k, v :: (k, v) in items && k != key ==>
        (exists j :: 0 <= j < |items| && j != i && items[j] == (k, v) && r[j] == (k, v));
      r
    else
      items + [(key, value)]
  }
}
