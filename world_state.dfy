/**
 * What both chaincode contracts share: the error kinds they report, the
 * result of an invocation together with the world state it leaves behind,
 * and what it means for a listing to hold one entry per stored key.
 *
 * The world state itself is a map from key to record; the store's
 * get/put/delete primitives become map lookup, update and removal.
 */
module WorldState {

  /** The failures the contracts report, one per rule they enforce. */
  datatype Error =
    | AlreadyExists(id: string)      // create on a key that is taken
    | DoesNotExist(id: string)       // read, update, transfer or delete of a missing key
    | SaleWindowExpired(id: string)  // generated 30 minutes or more before the sale
    | NotForSale(id: string)         // status is not "generated"

  datatype Result<+T> = Ok(value: T) | Err(error: Error)

  /** The answer of one invocation and the world state after it. */
  datatype Reply<+T, +S> = Reply(result: Result<T>, state: S)

  /** No key occurs twice in `keys`. */
  ghost predicate Distinct(keys: seq<string>)
  {
    forall i, j :: 0 <= i < j < |keys| ==> keys[i] != keys[j]
  }

  /**
   * `values` was read from `m` under the distinct keys `keys`, in that order:
   * every listed record is the one stored under its own key.
   */
  ghost predicate DrawnFrom<V>(m: map<string, V>, keys: seq<string>, values: seq<V>)
  {
    && |keys| == |values|
    && Distinct(keys)
    && forall i :: 0 <= i < |keys| ==> keys[i] in m && values[i] == m[keys[i]]
  }

  /** `values` lists the record of every stored key exactly once. */
  ghost predicate Enumerates<V>(m: map<string, V>, keys: seq<string>, values: seq<V>)
  {
    && DrawnFrom(m, keys, values)
    && forall k :: k in m ==> k in keys
  }

  /**
   * An open-ended range scan: every stored record once, in an order the
   * store picks; `keys` are the keys the records were read from.
   */
  method RangeScan<V>(m: map<string, V>) returns (values: seq<V>, ghost keys: seq<string>)
    ensures Enumerates(m, keys, values)
    ensures |values| == |m|
  {
    values, keys := [], [];
    var pending := m.Keys;
    while pending != {}
      invariant pending <= m.Keys
      invariant DrawnFrom(m, keys, values)
      invariant forall i :: 0 <= i < |keys| ==> keys[i] !in pending
      invariant forall k :: k in m ==> k in pending || k in keys
      decreases pending
    {
      var key :| key in pending;
      values := values + [m[key]];
      keys := keys + [key];
      pending := pending - {key};
    }
    EnumerationSize(m, keys, values);
  }

  /** A full enumeration has as many entries as the state has keys. */
  lemma {:induction false} EnumerationSize<V>(m: map<string, V>, keys: seq<string>, values: seq<V>)
    requires Enumerates(m, keys, values)
    ensures |values| == |m|
    decreases |keys|
  {
    if keys != [] {
      var n := |keys| - 1;
      var last := keys[n];
      var rest := m - {last};
      assert Enumerates(rest, keys[..n], values[..n]) by {
        forall k | k in rest ensures k in keys[..n] {
          var i :| 0 <= i < |keys| && keys[i] == k;
          assert i != n;
        }
      }
      EnumerationSize(rest, keys[..n], values[..n]);
      assert m.Keys == rest.Keys + {last};
    } else {
      assert forall k :: k in m ==> k in keys;
      assert m.Keys == {};
    }
  }
}
