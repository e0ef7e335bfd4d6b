/** `SignedPreKeyStore`: the signed pre-keys of one account identity, kept
    in the shared `signed_pre_key` table under its account id type. */
module SignedPreKeyStore {
  import opened Wrappers
  import opened JavaTypes
  import opened KeyTable

  datatype SignedPreKeyRecord = SignedPreKeyRecord(
    id: Int32, timestamp: Int64, keyPair: KeyPair, signature: seq<Byte>)

  /** One row: the key columns, the signature and the timestamp. */
  datatype SignedRow = SignedRow(keyPair: KeyPair, signature: seq<Byte>, timestamp: Int64)

  datatype SignedPreKeyError =
    | NoSuchSignedPreKey(id: Int32)   // `InvalidKeyIdException`
    | Table(error: TableError)

  function RowOf(record: SignedPreKeyRecord): SignedRow {
    SignedRow(record.keyPair, record.signature, record.timestamp)
  }

  /** A row read back as a record (`getSignedPreKeyRecordFromResultSet`). */
  function RecordOf(id: Int32, row: SignedRow): SignedPreKeyRecord {
    SignedPreKeyRecord(id, row.timestamp, row.keyPair, row.signature)
  }

  /** `getSignedPreKey(id)`: `None` when there is no row or its keys do not decode. */
  function Lookup(rows: map<RowKey, SignedRow>, accountIdType: Int32, id: Int32,
                  decodable: KeyPair -> bool): Option<SignedPreKeyRecord>
  {
    var key := RowKey(accountIdType, id);
    if key in rows && decodable(rows[key].keyPair) then Some(RecordOf(id, rows[key])) else None
  }

  /** The records `loadSignedPreKeys` returns, as a set. */
  function AllDecodable(rows: map<RowKey, SignedRow>, accountIdType: Int32, decodable: KeyPair -> bool)
    : set<SignedPreKeyRecord>
  {
    set k | k in rows && k.accountIdType == accountIdType && decodable(rows[k].keyPair) :: RecordOf(k.keyId, rows[k])
  }

  function LegacyItems(records: seq<SignedPreKeyRecord>): (items: seq<Item<SignedRow>>)
    ensures |items| == |records|
    ensures forall i | 0 <= i < |items| :: items[i] == Item(records[i].id, RowOf(records[i]))
  {
    seq(|records|, i requires 0 <= i < |records| => Item(records[i].id, RowOf(records[i])))
  }

  /** A stored signed pre-key loads back unchanged when its keys decode;
      other key ids load as before. */
  lemma StoreThenLoad(rows: map<RowKey, SignedRow>, accountIdType: Int32, record: SignedPreKeyRecord,
                      decodable: KeyPair -> bool, otherType: Int32, otherId: Int32)
    requires Insert(rows, RowKey(accountIdType, record.id), RowOf(record)).Success?
    requires (otherType, otherId) != (accountIdType, record.id)
    ensures var rows' := Insert(rows, RowKey(accountIdType, record.id), RowOf(record)).value;
      && (decodable(record.keyPair) ==> Lookup(rows', accountIdType, record.id, decodable) == Some(record))
      && Lookup(rows', otherType, otherId, decodable) == Lookup(rows, otherType, otherId, decodable)
  {
  }

  /** The legacy import replaces this identity's signed pre-keys by the
      batch, all or nothing: it succeeds exactly when the ids are distinct. */
  lemma LegacyImportEffect(rows: map<RowKey, SignedRow>, accountIdType: Int32, records: seq<SignedPreKeyRecord>,
                           decodable: KeyPair -> bool)
    ensures var r := InsertAll(WithoutType(rows, accountIdType), accountIdType, LegacyItems(records));
      && (r.Success? <==> DistinctIds(LegacyItems(records)))
      && (r.Success? ==>
            AllDecodable(r.value, accountIdType, decodable)
              == set i | 0 <= i < |records| && decodable(records[i].keyPair) :: records[i])
  {
    var base := WithoutType(rows, accountIdType);
    var items := LegacyItems(records);
    InsertAllSucceeds(base, accountIdType, items);
    var r := InsertAll(base, accountIdType, items);
    if r.Success? {
      InsertAllContents(base, accountIdType, items);
      var loaded := AllDecodable(r.value, accountIdType, decodable);
      var expected := set i | 0 <= i < |records| && decodable(records[i].keyPair) :: records[i];
      forall x | x in loaded ensures x in expected {
        var k :| k in r.value && k.accountIdType == accountIdType && decodable(r.value[k].keyPair)
                 && x == RecordOf(k.keyId, r.value[k]);
        assert k in KeysOf(accountIdType, items);
        var i :| 0 <= i < |items| && k == RowKey(accountIdType, items[i].id);
        assert x == records[i];
      }
      forall x | x in expected ensures x in loaded {
        var i :| 0 <= i < |records| && decodable(records[i].keyPair) && x == records[i];
        var k := RowKey(accountIdType, records[i].id);
        assert items[i].id == records[i].id;
        assert k in r.value && r.value[k] == RowOf(records[i]);
      }
    }
  }

  /** The decodable records of the rows of `accountIdType` outside `todo`. */
  function LoadedExcept(rows: map<RowKey, SignedRow>, accountIdType: Int32, decodable: KeyPair -> bool,
                        todo: set<RowKey>): set<SignedPreKeyRecord>
  {
    set k | k in rows && k.accountIdType == accountIdType && k !in todo && decodable(rows[k].keyPair)
      :: RecordOf(k.keyId, rows[k])
  }

  /** Loading one more row adds its record when its keys decode. */
  lemma LoadedOneMore(rows: map<RowKey, SignedRow>, accountIdType: Int32, decodable: KeyPair -> bool,
                      todo: set<RowKey>, k: RowKey)
    requires k in todo && k in rows && k.accountIdType == accountIdType
    ensures LoadedExcept(rows, accountIdType, decodable, todo - {k})
         == LoadedExcept(rows, accountIdType, decodable, todo)
            + (if decodable(rows[k].keyPair) then {RecordOf(k.keyId, rows[k])} else {})
  {
  }

  class SignedPreKeyTable {
    var rows: map<RowKey, SignedRow>

    constructor()
      ensures rows == map[]
    {
      rows := map[];
    }
  }

  class SignedPreKeyStore {
    const table: SignedPreKeyTable
    const accountIdType: Int32
    /** Whether Curve's point decoders accept a stored key pair. */
    const decodable: KeyPair -> bool

    constructor(table: SignedPreKeyTable, accountIdType: Int32, decodable: KeyPair -> bool)
      ensures this.table == table && this.accountIdType == accountIdType && this.decodable == decodable
    {
      this.table := table;
      this.accountIdType := accountIdType;
      this.decodable := decodable;
    }

    function GetSignedPreKey(id: Int32): (r: Option<SignedPreKeyRecord>)
      reads table
      ensures r.Some? ==> r.value.id == id
      ensures r.Some? <==> RowKey(accountIdType, id) in table.rows
                           && decodable(table.rows[RowKey(accountIdType, id)].keyPair)
    {
      Lookup(table.rows, accountIdType, id, decodable)
    }

    /** `loadSignedPreKey(id)`: the record, or `InvalidKeyIdException`. */
    method LoadSignedPreKey(id: Int32) returns (r: Result<SignedPreKeyRecord, SignedPreKeyError>)
      ensures r.Success? <==> GetSignedPreKey(id).Some?
      ensures r.Success? ==> r.value == GetSignedPreKey(id).value
      ensures r.Failure? ==> r.error == NoSuchSignedPreKey(id)
    {
      var found := GetSignedPreKey(id);
      if found.None? {
        return Failure(NoSuchSignedPreKey(id));
      }
      return Success(found.value);
    }

    /** `loadSignedPreKeys()`: every row of this identity whose keys
        decode, once each, in no particular order. */
    method LoadSignedPreKeys() returns (records: seq<SignedPreKeyRecord>)
      ensures (set r | r in records) == AllDecodable(table.rows, accountIdType, decodable)
      ensures forall i, j | 0 <= i < j < |records| :: records[i].id != records[j].id
    {
      var rows := table.rows;
      var todo := set k | k in rows && k.accountIdType == accountIdType;
      records := [];
      while todo != {}
        invariant todo <= rows.Keys
        invariant forall k | k in todo :: k.accountIdType == accountIdType
        invariant (set r | r in records) == LoadedExcept(rows, accountIdType, decodable, todo)
        invariant forall r | r in records :: RowKey(accountIdType, r.id) !in todo
        invariant forall i, j | 0 <= i < j < |records| :: records[i].id != records[j].id
        decreases todo
      {
        var k :| k in todo;
        LoadedOneMore(rows, accountIdType, decodable, todo, k);
        if decodable(rows[k].keyPair) {
          assert k == RowKey(accountIdType, k.keyId);
          forall i | 0 <= i < |records| ensures records[i].id != k.keyId {
            assert records[i] in records;
          }
          var x := RecordOf(k.keyId, rows[k]);
          assert (set r | r in records + [x]) == (set r | r in records) + {x};
          records := records + [x];
        }
        todo := todo - {k};
      }
      assert LoadedExcept(rows, accountIdType, decodable, {}) == AllDecodable(rows, accountIdType, decodable);
    }

    function ContainsSignedPreKey(id: Int32): (b: bool)
      reads table
      ensures b <==> GetSignedPreKey(id).Some?
    {
      GetSignedPreKey(id) != None
    }

    /** `storeSignedPreKey(id, record)`: a plain insert under `id`. */
    method StoreSignedPreKey(id: Int32, record: SignedPreKeyRecord) returns (r: Outcome<TableError>)
      modifies table
      ensures match Insert(old(table.rows), RowKey(accountIdType, id), RowOf(record))
        case Success(rows) => r.Pass? && table.rows == rows
        case Failure(e) => r == Fail(e) && table.rows == old(table.rows)
    {
      var inserted := Insert(table.rows, RowKey(accountIdType, id), RowOf(record));
      if inserted.Failure? {
        return Fail(inserted.error);
      }
      table.rows := inserted.value;
      return Pass;
    }

    method RemoveSignedPreKey(id: Int32)
      modifies table
      ensures table.rows == old(table.rows) - {RowKey(accountIdType, id)}
    {
      table.rows := table.rows - {RowKey(accountIdType, id)};
    }

    method RemoveAllSignedPreKeys()
      modifies table
      ensures table.rows == WithoutType(old(table.rows), accountIdType)
    {
      table.rows := WithoutType(table.rows, accountIdType);
    }

    /** `addLegacySignedPreKeys(records)`: in one transaction, delete this
        identity's rows and insert every record under its own id; a
        duplicate id aborts the transaction. */
    method AddLegacySignedPreKeys(records: seq<SignedPreKeyRecord>) returns (r: Outcome<TableError>)
      modifies table
      ensures var result := InsertAll(WithoutType(old(table.rows), accountIdType), accountIdType, LegacyItems(records));
        && (r.Pass? <==> result.Success?)
        && (r.Pass? ==> table.rows == result.value)
        && (r.Fail? ==> table.rows == old(table.rows))
    {
      var base := WithoutType(table.rows, accountIdType);
      ghost var items := LegacyItems(records);
      var staged := base;
      var i := 0;
      while i < |records|
        invariant 0 <= i <= |records|
        invariant InsertAll(base, accountIdType, items[..i]) == Success(staged)
        invariant table.rows == old(table.rows)
      {
        var key := RowKey(accountIdType, records[i].id);
        assert items[..i + 1][..i] == items[..i];
        if key in staged {
          PrefixFailureFails(base, accountIdType, items, i + 1);
          return Fail(UniqueConstraintFailed(key));
        }
        staged := staged[key := RowOf(records[i])];
        i := i + 1;
      }
      assert items[..i] == items;
      table.rows := staged;
      return Pass;
    }
  }
}
