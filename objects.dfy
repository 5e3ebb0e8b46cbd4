/**
 * The part of a JavaScript value that the resolvers look at: whether it is
 * `undefined`, `null` or something else, and, for a plain object, its own
 * enumerable string-keyed properties in property order (the order in which
 * `Object.keys` lists them).
 */
module Objects {

  /** A JavaScript value. Numbers are kept integral; a nested object is an opaque reference. */
  datatype Value =
    | Undefined
    | Null
    | Boolean(b: bool)
    | Number(n: int)
    | Text(s: string)
    | Object(ref: nat)

  /** One own property of an object. */
  type Entry = (string, Value)

  /** No key appears twice: an object has at most one property per key. */
  predicate DistinctKeys(s: seq<Entry>) {
    forall i, j :: 0 <= i < j < |s| ==> s[i].0 != s[j].0
  }

  /** A plain object `{ [key: string]: any }`, its properties in property order. */
  type Entries = s: seq<Entry> | DistinctKeys(s) witness []

  /** The keys of an object, as a set. */
  function KeySet(obj: seq<Entry>): set<string> {
    set i | 0 <= i < |obj| :: obj[i].0
  }

  /** Adding a property at the end adds its key. */
  lemma KeySetAppend(obj: seq<Entry>, e: Entry)
    ensures KeySet(obj + [e]) == KeySet(obj) + {e.0}
  {
    var s := obj + [e];
    assert forall i :: 0 <= i < |obj| ==> s[i] == obj[i];
    assert s[|obj|] == e;
  }

  /** The keys of an object are its last key and the keys before it. */
  lemma KeySetInit(obj: seq<Entry>)
    requires obj != []
    ensures KeySet(obj) == KeySet(obj[..|obj| - 1]) + {obj[|obj| - 1].0}
  {
    assert obj == obj[..|obj| - 1] + [obj[|obj| - 1]];
    KeySetAppend(obj[..|obj| - 1], obj[|obj| - 1]);
  }

  /** `Object.keys(obj)`: every own key exactly once, in the object's property order. */
  function ObjectKeys(obj: Entries): (keys: seq<string>)
    ensures forall k :: k in keys <==> k in KeySet(obj)
    ensures forall i, j :: 0 <= i < j < |keys| ==> keys[i] != keys[j]
    ensures |keys| == |obj|
    ensures forall i :: 0 <= i < |keys| ==> keys[i] == obj[i].0
  {
    var keys := seq(|obj|, i requires 0 <= i < |obj| => obj[i].0);
    assert forall k :: k in KeySet(obj) ==> k in keys by {
      forall k | k in KeySet(obj) ensures k in keys {
        var i :| 0 <= i < |obj| && obj[i].0 == k;
        assert keys[i] == k;
      }
    }
    keys
  }

  /** `obj[key]`: the value stored under `key`, and `undefined` when there is no such property. */
  function Get(obj: Entries, key: string): (v: Value)
    ensures key !in KeySet(obj) ==> v == Undefined
  {
    if obj == [] then Undefined
    else if obj[|obj| - 1].0 == key then obj[|obj| - 1].1
    else Get(obj[..|obj| - 1], key)
  }

  /** Reading the key of the `i`-th property gives that property's value. */
  lemma {:induction false} GetAt(obj: Entries, i: nat)
    requires i < |obj|
    ensures Get(obj, obj[i].0) == obj[i].1
  {
    if i < |obj| - 1 {
      var init: Entries := obj[..|obj| - 1];
      assert obj[i] == init[i];
      GetAt(init, i);
    }
  }
}
