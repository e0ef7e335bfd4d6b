/** `PreKeyStore`: the one-time pre-keys of one account identity (ACI or
    PNI), kept in the shared `pre_key` table under that identity's
    account id type. */
module PreKeyStore {
  import opened Wrappers
  import opened JavaTypes
  import opened KeyTable

  /** A `PreKeyRecord`. `keyPair` is `None` when the record's serialized
      keys do not decode, so that `getKeyPair()` throws `InvalidKeyException`. */
  datatype PreKeyRecord = PreKeyRecord(id: Int32, keyPair: Option<KeyPair>)

  datatype PreKeyError =
    | NoSuchPreKey(id: Int32)     // `InvalidKeyIdException`
    | Table(error: TableError)

  /** `getPreKey(id)`: the row under `(accountIdType, id)`, read back as a
      record; a row whose keys `decodable` (Curve's decoders) refuses
      reads as no record. */
  function Lookup(rows: map<RowKey, KeyPair>, accountIdType: Int32, id: Int32,
                  decodable: KeyPair -> bool): Option<PreKeyRecord>
  {
    var key := RowKey(accountIdType, id);
    if key in rows && decodable(rows[key]) then Some(PreKeyRecord(id, Some(rows[key]))) else None
  }

  /** How many leading records of a legacy batch have a key pair: the
      import loop stops at the first that throws. */
  function ImportableCount(records: seq<PreKeyRecord>): (n: nat)
    ensures n <= |records|
    ensures forall i | 0 <= i < n :: records[i].keyPair.Some?
    ensures n < |records| ==> records[n].keyPair.None?
  {
    if records == [] || records[0].keyPair.None? then 0
    else 1 + ImportableCount(records[1..])
  }

  /** The rows `addLegacyPreKeys` inserts, keyed by each record's own id. */
  function LegacyItems(records: seq<PreKeyRecord>): (items: seq<Item<KeyPair>>)
    ensures |items| == ImportableCount(records)
    ensures forall i | 0 <= i < |items| :: items[i] == Item(records[i].id, records[i].keyPair.value)
  {
    seq(ImportableCount(records), i requires 0 <= i < ImportableCount(records) =>
      Item(records[i].id, records[i].keyPair.value))
  }

  /** A stored pre-key whose keys decode loads back unchanged; every other
      key id of every identity loads as before. */
  lemma StoreThenLoad(rows: map<RowKey, KeyPair>, accountIdType: Int32, id: Int32, keyPair: KeyPair,
                      decodable: KeyPair -> bool, otherType: Int32, otherId: Int32)
    requires Insert(rows, RowKey(accountIdType, id), keyPair).Success?
    requires (otherType, otherId) != (accountIdType, id)
    ensures var rows' := Insert(rows, RowKey(accountIdType, id), keyPair).value;
      && (decodable(keyPair) ==> Lookup(rows', accountIdType, id, decodable) == Some(PreKeyRecord(id, Some(keyPair))))
      && (!decodable(keyPair) ==> Lookup(rows', accountIdType, id, decodable).None?)
      && Lookup(rows', otherType, otherId, decodable) == Lookup(rows, otherType, otherId, decodable)
  {
  }

  /** A removed pre-key no longer loads; the others do as before. */
  lemma RemoveThenLoad(rows: map<RowKey, KeyPair>, accountIdType: Int32, id: Int32,
                       decodable: KeyPair -> bool, otherType: Int32, otherId: Int32)
    requires (otherType, otherId) != (accountIdType, id)
    ensures Lookup(rows - {RowKey(accountIdType, id)}, accountIdType, id, decodable).None?
    ensures Lookup(rows - {RowKey(accountIdType, id)}, otherType, otherId, decodable)
         == Lookup(rows, otherType, otherId, decodable)
  {
  }

  /** Removing all pre-keys of one identity keeps the other identity's. */
  lemma RemoveAllKeepsOtherIdentity(rows: map<RowKey, KeyPair>, accountIdType: Int32, id: Int32,
                                    decodable: KeyPair -> bool, otherType: Int32)
    requires otherType != accountIdType
    ensures Lookup(WithoutType(rows, accountIdType), accountIdType, id, decodable).None?
    ensures Lookup(WithoutType(rows, accountIdType), otherType, id, decodable) == Lookup(rows, otherType, id, decodable)
  {
  }

  /** The legacy import replaces the identity's pre-keys by the records
      before the first one without a key pair; it fails (and is rolled
      back) exactly when two of those records share an id. */
  lemma LegacyImportEffect(rows: map<RowKey, KeyPair>, accountIdType: Int32, records: seq<PreKeyRecord>,
                           decodable: KeyPair -> bool)
    ensures var r := InsertAll(WithoutType(rows, accountIdType), accountIdType, LegacyItems(records));
      && (r.Success? <==> DistinctIds(LegacyItems(records)))
      && (r.Success? ==>
            && (forall i | 0 <= i < ImportableCount(records) && decodable(records[i].keyPair.value) ::
                  Lookup(r.value, accountIdType, records[i].id, decodable) == Some(records[i]))
            && (forall id: Int32 | Lookup(r.value, accountIdType, id, decodable).Some? ::
                  exists i | 0 <= i < ImportableCount(records) :: records[i].id == id))
  {
    var base := WithoutType(rows, accountIdType);
    var items := LegacyItems(records);
    InsertAllSucceeds(base, accountIdType, items);
    var r := InsertAll(base, accountIdType, items);
    if r.Success? {
      InsertAllContents(base, accountIdType, items);
      forall id: Int32 | Lookup(r.value, accountIdType, id, decodable).Some?
        ensures exists i | 0 <= i < ImportableCount(records) :: records[i].id == id
      {
        assert RowKey(accountIdType, id) in KeysOf(accountIdType, items);
      }
    }
  }

  /** The table shared by the stores of both identities of an account. */
  class PreKeyTable {
    var rows: map<RowKey, KeyPair>

    constructor()
      ensures rows == map[]
    {
      rows := map[];
    }
  }

  class PreKeyStore {
    const table: PreKeyTable
    const accountIdType: Int32
    /** Whether Curve's point decoders accept a stored key pair. */
    const decodable: KeyPair -> bool

    constructor(table: PreKeyTable, accountIdType: Int32, decodable: KeyPair -> bool)
      ensures this.table == table && this.accountIdType == accountIdType && this.decodable == decodable
    {
      this.table := table;
      this.accountIdType := accountIdType;
      this.decodable := decodable;
    }

    /** `getPreKey(id)`. */
    function GetPreKey(id: Int32): (r: Option<PreKeyRecord>)
      reads table
      ensures r.Some? ==> r.value.id == id && r.value.keyPair.Some?
      ensures r.Some? <==> RowKey(accountIdType, id) in table.rows && decodable(table.rows[RowKey(accountIdType, id)])
    {
      Lookup(table.rows, accountIdType, id, decodable)
    }

    /** `loadPreKey(id)`: the record, or `InvalidKeyIdException`. */
    method LoadPreKey(id: Int32) returns (r: Result<PreKeyRecord, PreKeyError>)
      ensures r.Success? <==> GetPreKey(id).Some?
      ensures r.Success? ==> r.value == GetPreKey(id).value
      ensures r.Failure? ==> r.error == NoSuchPreKey(id)
    {
      var found := GetPreKey(id);
      if found.None? {
        return Failure(NoSuchPreKey(id));
      }
      return Success(found.value);
    }

    /** `containsPreKey(id)`: a row that does not decode is not contained. */
    function ContainsPreKey(id: Int32): (b: bool)
      reads table
      ensures b <==> GetPreKey(id).Some?
    {
      GetPreKey(id) != None
    }

    /** `storePreKey(id, record)`: a plain insert under `id`; a record whose
        key pair throws is silently not stored; an existing row is a
        constraint failure. */
    method StorePreKey(id: Int32, record: PreKeyRecord) returns (r: Outcome<TableError>)
      modifies table
      ensures record.keyPair.None? ==> r.Pass? && table.rows == old(table.rows)
      ensures record.keyPair.Some? ==>
        match Insert(old(table.rows), RowKey(accountIdType, id), record.keyPair.value)
        case Success(rows) => r.Pass? && table.rows == rows
        case Failure(e) => r == Fail(e) && table.rows == old(table.rows)
    {
      if record.keyPair.None? {
        return Pass;
      }
      var inserted := Insert(table.rows, RowKey(accountIdType, id), record.keyPair.value);
      if inserted.Failure? {
        return Fail(inserted.error);
      }
      table.rows := inserted.value;
      return Pass;
    }

    /** `removePreKey(id)`. */
    method RemovePreKey(id: Int32)
      modifies table
      ensures table.rows == old(table.rows) - {RowKey(accountIdType, id)}
    {
      table.rows := table.rows - {RowKey(accountIdType, id)};
    }

    /** `removeAllPreKeys()`: this identity's rows only. */
    method RemoveAllPreKeys()
      modifies table
      ensures table.rows == WithoutType(old(table.rows), accountIdType)
    {
      table.rows := WithoutType(table.rows, accountIdType);
    }

    /** `addLegacyPreKeys(records)`: in one transaction, delete this
        identity's rows, then insert record after record until one has no
        key pair; that exception ends the loop and the transaction is still
        committed. A duplicate id aborts it, leaving the table unchanged. */
    method AddLegacyPreKeys(records: seq<PreKeyRecord>) returns (r: Outcome<TableError>)
      modifies table
      ensures var result := InsertAll(WithoutType(old(table.rows), accountIdType), accountIdType, LegacyItems(records));
        && (r.Pass? <==> result.Success?)
        && (r.Pass? ==> table.rows == result.value)
        && (r.Fail? ==> table.rows == old(table.rows))
    {
      var base := WithoutType(table.rows, accountIdType);
      ghost var items := LegacyItems(records);
      var staged := base;
      var i := 0;
      while i < |records| && records[i].keyPair.Some?
        invariant 0 <= i <= ImportableCount(records)
        invariant InsertAll(base, accountIdType, items[..i]) == Success(staged)
        invariant table.rows == old(table.rows)
      {
        var key := RowKey(accountIdType, records[i].id);
        assert items[..i + 1][..i] == items[..i];
        if key in staged {
          PrefixFailureFails(base, accountIdType, items, i + 1);
          return Fail(UniqueConstraintFailed(key));
        }
        staged := staged[key := records[i].keyPair.value];
        i := i + 1;
      }
      assert items[..i] == items;
      table.rows := staged;
      return Pass;
    }
  }
}
