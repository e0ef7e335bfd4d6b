/** What `pre_key` and `signed_pre_key` have in common: rows keyed by
    `UNIQUE(account_id_type, key_id)`, so that the ACI and the PNI identity
    of one account share a table, and plain `INSERT`s that fail on a
    duplicate key. */
module KeyTable {
  import opened Wrappers
  import opened JavaTypes

  datatype RowKey = RowKey(accountIdType: Int32, keyId: Int32)

  /** An EC key pair as stored: the serialized public and private keys. */
  datatype KeyPair = KeyPair(publicKey: seq<Byte>, privateKey: seq<Byte>)

  /** The `SQLException` of a violated `UNIQUE` constraint, rethrown as a
      `RuntimeException` by every store method. */
  datatype TableError = UniqueConstraintFailed(key: RowKey)

  /** One row to insert under `key_id = id`. */
  datatype Item<V> = Item(id: Int32, value: V)

  /** `DELETE ... WHERE account_id_type = ?`. */
  function WithoutType<V>(rows: map<RowKey, V>, accountIdType: Int32): (r: map<RowKey, V>)
    ensures forall k | k in r :: k.accountIdType != accountIdType
    ensures forall k | k in rows && k.accountIdType != accountIdType :: k in r && r[k] == rows[k]
    ensures r.Keys <= rows.Keys
  {
    map k | k in rows && k.accountIdType != accountIdType :: rows[k]
  }

  /** One `INSERT`. */
  function Insert<V>(rows: map<RowKey, V>, key: RowKey, value: V): (r: Result<map<RowKey, V>, TableError>)
    ensures r.Failure? <==> key in rows
    ensures r.Success? ==> r.value == rows[key := value]
  {
    if key in rows then Failure(UniqueConstraintFailed(key)) else Success(rows[key := value])
  }

  /** The `INSERT`s of a batch, in order, stopping at the first failure. */
  function InsertAll<V>(rows: map<RowKey, V>, accountIdType: Int32, items: seq<Item<V>>)
    : (r: Result<map<RowKey, V>, TableError>)
    ensures r.Success? ==> rows.Keys <= r.value.Keys && forall k | k in rows :: r.value[k] == rows[k]
    ensures r.Failure? ==> exists i | 0 <= i < |items| :: r.error.key == RowKey(accountIdType, items[i].id)
  {
    if items == [] then Success(rows)
    else
      match InsertAll(rows, accountIdType, items[..|items| - 1])
      case Failure(e) => Failure(e)
      case Success(m) => Insert(m, RowKey(accountIdType, items[|items| - 1].id), items[|items| - 1].value)
  }

  predicate DistinctIds<V>(items: seq<Item<V>>) {
    forall i, j | 0 <= i < j < |items| :: items[i].id != items[j].id
  }

  predicate FreshIds<V>(rows: map<RowKey, V>, accountIdType: Int32, items: seq<Item<V>>) {
    forall i | 0 <= i < |items| :: RowKey(accountIdType, items[i].id) !in rows
  }

  function KeysOf<V>(accountIdType: Int32, items: seq<Item<V>>): set<RowKey> {
    set i | 0 <= i < |items| :: RowKey(accountIdType, items[i].id)
  }

  /** A batch of inserts adds one row per item and keeps every other row. */
  lemma {:induction false} InsertAllContents<V>(rows: map<RowKey, V>, accountIdType: Int32, items: seq<Item<V>>)
    requires InsertAll(rows, accountIdType, items).Success?
    ensures var r := InsertAll(rows, accountIdType, items).value;
      && r.Keys == rows.Keys + KeysOf(accountIdType, items)
      && (forall k | k in rows :: r[k] == rows[k])
      && (forall i | 0 <= i < |items| :: r[RowKey(accountIdType, items[i].id)] == items[i].value)
  {
    if items != [] {
      var n := |items| - 1;
      var init := items[..n];
      InsertAllContents(rows, accountIdType, init);
      var key := RowKey(accountIdType, items[n].id);
      assert KeysOf(accountIdType, items) == KeysOf(accountIdType, init) + {key} by {
        assert forall i | 0 <= i < n :: init[i] == items[i];
      }
      var m := InsertAll(rows, accountIdType, init).value;
      forall i | 0 <= i < n ensures RowKey(accountIdType, items[i].id) != key {
        assert init[i] == items[i];
        assert RowKey(accountIdType, init[i].id) in m;
      }
    }
  }

  /** A batch of inserts succeeds exactly when its ids are distinct and
      none is already in the table. */
  lemma {:induction false} InsertAllSucceeds<V>(rows: map<RowKey, V>, accountIdType: Int32, items: seq<Item<V>>)
    ensures InsertAll(rows, accountIdType, items).Success?
        <==> DistinctIds(items) && FreshIds(rows, accountIdType, items)
  {
    if items != [] {
      var n := |items| - 1;
      var init := items[..n];
      assert forall i | 0 <= i < n :: init[i] == items[i];
      InsertAllSucceeds(rows, accountIdType, init);
      if InsertAll(rows, accountIdType, init).Success? {
        InsertAllContents(rows, accountIdType, init);
        var m := InsertAll(rows, accountIdType, init).value;
        var key := RowKey(accountIdType, items[n].id);
        if key in m && key !in rows {
          var i :| 0 <= i < n && RowKey(accountIdType, init[i].id) == key;
          assert items[i].id == items[n].id;
        }
      }
    }
  }

  /** Deleting or inserting under one account id type leaves the rows of
      every other type as they were. */
  lemma TypesAreIsolated<V>(rows: map<RowKey, V>, accountIdType: Int32, items: seq<Item<V>>, other: Int32)
    requires other != accountIdType
    ensures InsertAll(WithoutType(rows, accountIdType), accountIdType, items).Success? ==>
      var r := InsertAll(WithoutType(rows, accountIdType), accountIdType, items).value;
      forall id: Int32 :: (RowKey(other, id) in r <==> RowKey(other, id) in rows)
                        && (RowKey(other, id) in r ==> r[RowKey(other, id)] == rows[RowKey(other, id)])
  {
    if InsertAll(WithoutType(rows, accountIdType), accountIdType, items).Success? {
      InsertAllContents(WithoutType(rows, accountIdType), accountIdType, items);
    }
  }

  /** An insert batch that fails on a prefix fails as a whole. */
  lemma PrefixFailureFails<V>(rows: map<RowKey, V>, accountIdType: Int32, items: seq<Item<V>>, n: nat)
    requires n <= |items|
    requires InsertAll(rows, accountIdType, items[..n]).Failure?
    ensures InsertAll(rows, accountIdType, items).Failure?
  {
    InsertAllSucceeds(rows, accountIdType, items[..n]);
    InsertAllSucceeds(rows, accountIdType, items);
    assert forall i | 0 <= i < n :: items[..n][i] == items[i];
  }
}
