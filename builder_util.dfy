/** `appendNotNull` of the query builder: a `bson.M` that is filled in place, gaining an
    entry only for a value that is not nil. `utils.IsNil` is not part of this model; it is
    a parameter. */
module BuilderUtil {
  import opened Values

  /** The map after `appendNotNull(m, key, val)`: unchanged for a nil value, otherwise
      `key` bound to `val`; no other key is added, removed or changed. */
  function AppendedNotNull(m: map<string, Value>, key: string, val: Value, isNil: Value -> bool): (r: map<string, Value>)
    ensures isNil(val) ==> r == m
    ensures !isNil(val) ==> key in r && r[key] == val
    ensures forall k :: k != key ==> (k in r <==> k in m)
    ensures forall k :: k != key && k in m ==> r[k] == m[k]
    ensures r.Keys <= m.Keys + {key}
    ensures |r.Keys| <= |m.Keys| + 1
  {
    if isNil(val) then m
    else
      var r := m[key := val];
      assert r.Keys == m.Keys + {key};
      assert |m.Keys + {key}| <= |m.Keys| + |{key}|;
      r
  }

  /** Appending the same non-nil entry twice is appending it once. */
  lemma AppendedNotNullIdempotent(m: map<string, Value>, key: string, val: Value, isNil: Value -> bool)
    ensures AppendedNotNull(AppendedNotNull(m, key, val, isNil), key, val, isNil) == AppendedNotNull(m, key, val, isNil)
  {
    var r := AppendedNotNull(m, key, val, isNil);
    var rr := AppendedNotNull(r, key, val, isNil);
    assert rr.Keys == r.Keys;
  }

  /** A later non-nil value for a key overwrites an earlier one. */
  lemma AppendedNotNullOverwrites(m: map<string, Value>, key: string, v1: Value, v2: Value, isNil: Value -> bool)
    requires !isNil(v2)
    ensures AppendedNotNull(AppendedNotNull(m, key, v1, isNil), key, v2, isNil) == AppendedNotNull(m, key, v2, isNil)
  {
    var r := AppendedNotNull(AppendedNotNull(m, key, v1, isNil), key, v2, isNil);
    var s := AppendedNotNull(m, key, v2, isNil);
    assert r.Keys == s.Keys;
  }

  /** A `bson.M`, which Go passes by reference: `appendNotNull` changes it in place. */
  class BsonM {
    var entries: map<string, Value>

    constructor (entries: map<string, Value>)
      ensures this.entries == entries
    {
      this.entries := entries;
    }

    /** `appendNotNull` */
    method AppendNotNull(key: string, val: Value, isNil: Value -> bool)
      modifies this
      ensures entries == AppendedNotNull(old(entries), key, val, isNil)
    {
      if !isNil(val) {
        entries := entries[key := val];
      }
    }
  }
}
