/**
 * The keyed record store every handler reads and writes: per collection, a
 * map from key to record. `lib/data.js` is not part of this model; its
 * behaviour here is the one the handlers rely on: `create` refuses a present
 * key, `read`, `update` and `delete` refuse an absent one, and a refusal is
 * the caller's error object when one is passed, else an error whose `code`
 * is `ENOENT` (or `EEXIST` for `create`). `list` yields every key once, in an
 * order the model leaves open.
 */
module Store {
  import opened Wrappers
  import opened Http
  import opened Records

  /** The error a read, update or delete of an absent key rejects with when no error object is passed. */
  const NoEntry: Reply := Reply(None, None, None, None, Some("ENOENT"), Some("Error"))

  /** The error a create of a present key rejects with when no error object is passed. */
  const AlreadyExists: Reply := Reply(None, None, None, None, Some("EEXIST"), Some("Error"))

  /** `keys` lists every key of `records` exactly once. */
  ghost predicate Enumerates<V>(keys: seq<string>, records: map<string, V>) {
    && |keys| == |records|
    && (forall k :: k in keys <==> k in records)
    && (forall i, j :: 0 <= i < j < |keys| ==> keys[i] != keys[j])
  }

  /** The records stored under `keys`, in that order. */
  function ValuesAt<V>(keys: seq<string>, records: map<string, V>): (r: seq<V>)
    requires forall i :: 0 <= i < |keys| ==> keys[i] in records
    ensures |r| == |keys| && forall i :: 0 <= i < |keys| ==> r[i] == records[keys[i]]
  {
    seq(|keys|, i requires 0 <= i < |keys| => records[keys[i]])
  }

  /** Reading every listed key yields every record once: the listing holds exactly the stored values. */
  lemma EnumeratedValues<V>(keys: seq<string>, records: map<string, V>, x: V)
    requires Enumerates(keys, records)
    ensures forall i :: 0 <= i < |keys| ==> keys[i] in records
    ensures |ValuesAt(keys, records)| == |records|
    ensures x in ValuesAt(keys, records) <==> x in records.Values
  {
    assert forall i :: 0 <= i < |keys| ==> keys[i] in keys;
    if x in records.Values {
      var k :| k in records && records[k] == x;
      assert k in keys;
      var i :| 0 <= i < |keys| && keys[i] == k;
      assert ValuesAt(keys, records)[i] == x;
    }
  }

  /** One collection (`users`, `tokens`, `carts`, `menu`). */
  class Collection<V> {
    var records: map<string, V>

    constructor ()
      ensures records == map[]
    {
      records := map[];
    }

    /** `_data.create(dir, key, value, errObj)`: never overwrites. */
    method Create(key: string, value: V, errObj: Option<Reply>) returns (r: Result<V, Reply>)
      modifies this
      ensures key in old(records) ==> r == Err(errObj.GetOr(AlreadyExists)) && records == old(records)
      ensures key !in old(records) ==> r == Ok(value) && records == old(records)[key := value]
    {
      if key in records {
        r := Err(errObj.GetOr(AlreadyExists));
      } else {
        records := records[key := value];
        r := Ok(value);
      }
    }

    /** `_data.read(dir, key, errObj)`. */
    method Read(key: string, errObj: Option<Reply>) returns (r: Result<V, Reply>)
      ensures key in records ==> r == Ok(records[key])
      ensures key !in records ==> r == Err(errObj.GetOr(NoEntry))
    {
      if key in records {
        r := Ok(records[key]);
      } else {
        r := Err(errObj.GetOr(NoEntry));
      }
    }

    /** `_data.update(dir, key, value, errObj)`: replaces the whole record. */
    method Update(key: string, value: V, errObj: Option<Reply>) returns (r: Result<V, Reply>)
      modifies this
      ensures key in old(records) ==> r == Ok(value) && records == old(records)[key := value]
      ensures key !in old(records) ==> r == Err(errObj.GetOr(NoEntry)) && records == old(records)
    {
      if key in records {
        records := records[key := value];
        r := Ok(value);
      } else {
        r := Err(errObj.GetOr(NoEntry));
      }
    }

    /** `_data.delete(dir, key, errObj)`. */
    method Delete(key: string, errObj: Option<Reply>) returns (r: Result<(), Reply>)
      modifies this
      ensures key in old(records) ==> r == Ok(()) && records == old(records) - {key}
      ensures key !in old(records) ==> r == Err(errObj.GetOr(NoEntry)) && records == old(records)
    {
      if key in records {
        records := records - {key};
        r := Ok(());
      } else {
        r := Err(errObj.GetOr(NoEntry));
      }
    }

    /** `_data.list(dir)`: every key exactly once. */
    method List() returns (keys: seq<string>)
      ensures Enumerates(keys, records)
    {
      keys := [];
      var rest := records.Keys;
      while rest != {}
        invariant rest <= records.Keys
        invariant forall k :: k in keys <==> k in records && k !in rest
        invariant forall i, j :: 0 <= i < j < |keys| ==> keys[i] != keys[j]
        invariant |keys| + |rest| == |records|
        decreases |rest|
      {
        var k :| k in rest;
        keys := keys + [k];
        rest := rest - {k};
      }
    }
  }

  /** The four collections the handlers use. */
  class Db {
    const users: Collection<User>
    const tokens: Collection<Token>
    const carts: Collection<Cart>
    const menu: Collection<MenuItem>

    constructor ()
      ensures fresh(users) && fresh(tokens) && fresh(carts) && fresh(menu)
      ensures users.records == map[] && tokens.records == map[]
      ensures carts.records == map[] && menu.records == map[]
    {
      users := new Collection();
      tokens := new Collection();
      carts := new Collection();
      menu := new Collection();
    }
  }
}
