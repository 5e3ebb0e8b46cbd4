/**
 * `removeUndefinedValues`: copy an object without its `undefined`-valued
 * properties. `null` counts as a value and is kept.
 */
module RemoveUndefined {
  import opened Objects

  /**
   * The properties of `obj` whose value is not `undefined`, in the order
   * `Object.keys` lists them.
   */
  function DefinedEntries(obj: Entries): (r: Entries)
    ensures KeySet(r) <= KeySet(obj)
    ensures forall i :: 0 <= i < |r| ==> r[i].1 != Undefined
    ensures |r| <= |obj|
  {
    if obj == [] then []
    else
      var init: Entries := obj[..|obj| - 1];
      var last := obj[|obj| - 1];
      var kept := DefinedEntries(init);
      KeySetInit(obj);
      if last.1 == Undefined then kept
      else
        KeySetAppend(kept, last);
        kept + [last]
  }

  /**
   * The loop of `removeUndefinedValues`: visit the keys in order and copy every
   * property whose value is not `undefined` into a fresh object.
   */
  method RemoveUndefinedValues(values: Entries) returns (res: Entries)
    ensures res == DefinedEntries(values)
    ensures KeySet(res) == set k | k in KeySet(values) && Get(values, k) != Undefined
    ensures forall k :: Get(res, k) == Get(values, k)
  {
    var keys := ObjectKeys(values);
    res := [];
    var i := 0;
    while i < |keys|
      invariant 0 <= i <= |keys|
      invariant res == DefinedEntries(values[..i])
    {
      var key := keys[i];
      var value := Get(values, key);
      GetAt(values, i);
      assert values[..i + 1][..i] == values[..i];
      if value != Undefined {
        assert res + [(key, value)] == DefinedEntries(values[..i + 1]);
        res := res + [(key, value)];
      }
      i := i + 1;
    }
    assert values[..|values|] == values;
    DefinedEntriesKeys(values);
    forall k {
      DefinedEntriesGet(values, k);
    }
  }

  /** The result holds exactly the keys of the input whose value is not `undefined`. */
  lemma {:induction false} DefinedEntriesKeys(obj: Entries)
    ensures KeySet(DefinedEntries(obj)) == set k | k in KeySet(obj) && Get(obj, k) != Undefined
  {
    if obj != [] {
      var init: Entries := obj[..|obj| - 1];
      var last := obj[|obj| - 1];
      DefinedEntriesKeys(init);
      KeySetInit(obj);
      KeySetAppend(DefinedEntries(init), last);
      assert forall k :: k != last.0 ==> Get(obj, k) == Get(init, k);
      GetAt(obj, |obj| - 1);
    }
  }

  /** Every key reads the same value from the result as from the input. */
  lemma {:induction false} DefinedEntriesGet(obj: Entries, key: string)
    ensures Get(DefinedEntries(obj), key) == Get(obj, key)
  {
    if obj != [] {
      var init: Entries := obj[..|obj| - 1];
      DefinedEntriesGet(init, key);
    }
  }

  /** A property explicitly set to `null` survives the filtering, with its `null`. */
  lemma NullKeysRetained(obj: Entries, key: string)
    requires Get(obj, key) == Null
    ensures key in KeySet(DefinedEntries(obj))
    ensures Get(DefinedEntries(obj), key) == Null
  {
    DefinedEntriesKeys(obj);
    DefinedEntriesGet(obj, key);
  }

  /** An object with no `undefined` value comes back unchanged, order included. */
  lemma {:induction false} AllDefinedUnchanged(obj: Entries)
    requires forall i :: 0 <= i < |obj| ==> obj[i].1 != Undefined
    ensures DefinedEntries(obj) == obj
  {
    if obj != [] {
      var init: Entries := obj[..|obj| - 1];
      AllDefinedUnchanged(init);
      assert init + [obj[|obj| - 1]] == obj;
    }
  }

  /** Filtering an already filtered object changes nothing. */
  lemma DefinedEntriesIdempotent(obj: Entries)
    ensures DefinedEntries(DefinedEntries(obj)) == DefinedEntries(obj)
  {
    AllDefinedUnchanged(DefinedEntries(obj));
  }

  /**
   * The repository's own example: two strings, a `null` and an `undefined`
   * property; only the `undefined` one is dropped.
   */
  lemma FilterExample()
    ensures var values: Entries := [("firstField", Text("some-value")), ("secondField", Text("some-another-value")),
                                    ("nullishField", Null), ("undefinedField", Undefined)];
            DefinedEntries(values) == values[..3]
  {
    var values: Entries := [("firstField", Text("some-value")), ("secondField", Text("some-another-value")),
                            ("nullishField", Null), ("undefinedField", Undefined)];
    AllDefinedUnchanged(values[..3]);
    assert values[..|values| - 1] == values[..3];
  }
}
