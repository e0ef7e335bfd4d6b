/** `SenderKeySharedStore`: the `sender_key_shared` table, recording to
    which (service id, device) pairs the sender key of each distribution
    has been sent, with the time it was marked. */
module SenderKeySharedStore {
  import opened Wrappers
  import opened JavaTypes

  /** A row's unique key: `UNIQUE(uuid, device_id, distribution_id)`. */
  datatype SharedKey = SharedKey(serviceId: ServiceId, deviceId: Int32, distributionId: Uuid)

  /** libsignal's `SignalProtocolAddress`: a name (service id text) and a device. */
  datatype ProtocolAddress = ProtocolAddress(name: string, deviceId: Int32)

  /** `SenderKeySharedEntry`. */
  datatype Entry = Entry(serviceId: ServiceId, deviceId: Int32)

  /** The table: one timestamp per key; the `_id` column is not observable. */
  type Table = map<SharedKey, Int64>

  /** `ServiceId.parseOrThrow` failing on a name that is not a service id. */
  datatype StoreError = InvalidServiceId(name: string)

  function Key(e: Entry, distributionId: Uuid): SharedKey {
    SharedKey(e.serviceId, e.deviceId, distributionId)
  }

  function ToEntry(a: ProtocolAddress): (e: Entry)
    requires IsUuid(a.name)
    ensures ServiceIdToString(e.serviceId) == a.name || !IsLowerCase(a.name)
  {
    ServiceIdTextRoundTrip(a.name);
    Entry(ParseServiceId(a.name).value, a.deviceId)
  }

  function ToAddress(k: SharedKey): ProtocolAddress {
    ProtocolAddress(ServiceIdToString(k.serviceId), k.deviceId)
  }

  /** The entries of `markSenderKeySharedWith`: every name must parse. */
  function ParseEntries(addresses: seq<ProtocolAddress>): (r: Result<set<Entry>, StoreError>)
    ensures r.Success? <==> forall a | a in addresses :: IsUuid(a.name)
    ensures r.Success? ==> forall a | a in addresses :: ToEntry(a) in r.value
    ensures r.Success? ==> forall e | e in r.value ::
              exists a | a in addresses :: IsUuid(a.name) && ToEntry(a) == e
    ensures r.Failure? ==> exists a | a in addresses :: !IsUuid(a.name) && r.error == InvalidServiceId(a.name)
  {
    if forall a | a in addresses :: IsUuid(a.name) then
      Success(set a | a in addresses :: ToEntry(a))
    else
      Failure(InvalidServiceId(FirstInvalidName(addresses)))
  }

  /** The name on which the stream throws: the first that does not parse. */
  function FirstInvalidName(addresses: seq<ProtocolAddress>): (name: string)
    requires exists a | a in addresses :: !IsUuid(a.name)
    ensures exists a | a in addresses :: !IsUuid(a.name) && name == a.name
  {
    if !IsUuid(addresses[0].name) then addresses[0].name
    else FirstInvalidName(addresses[1..])
  }

  /** The entries of `clearSenderKeySharedWith`: names that are not UUIDs are skipped. */
  function ClearEntries(addresses: seq<ProtocolAddress>): (es: set<Entry>)
    ensures forall a | a in addresses && IsUuid(a.name) :: ToEntry(a) in es
    ensures forall e | e in es :: exists a | a in addresses :: IsUuid(a.name) && ToEntry(a) == e
  {
    set a | a in addresses && IsUuid(a.name) :: ToEntry(a)
  }

  function KeysFor(distributionId: Uuid, entries: set<Entry>): set<SharedKey> {
    set e | e in entries :: Key(e, distributionId)
  }

  /** The table after `INSERT OR REPLACE` of every entry under `distributionId`. */
  function Mark(t: Table, distributionId: Uuid, entries: set<Entry>, now: Int64): (r: Table)
    ensures r.Keys == t.Keys + KeysFor(distributionId, entries)
    ensures forall k | k in KeysFor(distributionId, entries) :: r[k] == now
    ensures forall k | k in t && k !in KeysFor(distributionId, entries) :: r[k] == t[k]
  {
    t + map k | k in KeysFor(distributionId, entries) :: now
  }

  /** The table after deleting every row of the entries, in any distribution. */
  function Clear(t: Table, entries: set<Entry>): (r: Table)
    ensures forall k | k in r :: k in t && r[k] == t[k] && Entry(k.serviceId, k.deviceId) !in entries
    ensures forall k | k in t && Entry(k.serviceId, k.deviceId) !in entries :: k in r
  {
    map k | k in t && Entry(k.serviceId, k.deviceId) !in entries :: t[k]
  }

  /** The addresses the sender key of `distributionId` was shared with. */
  function SharedWith(t: Table, distributionId: Uuid): (r: set<ProtocolAddress>)
    ensures forall k | k in t && k.distributionId == distributionId :: ToAddress(k) in r
    ensures forall a | a in r :: IsUuid(a.name) &&
              SharedKey(ParseServiceId(a.name).value, a.deviceId, distributionId) in t
  {
    forall k | k in t ensures ParseServiceId(ToAddress(k).name) == Some(k.serviceId) {
      ParseUuidToString(k.serviceId.uuid);
    }
    set k | k in t && k.distributionId == distributionId :: ToAddress(k)
  }

  /** Everything `addLegacySenderKeysShared` marks. */
  function AllKeys(shared: map<Uuid, set<Entry>>): set<SharedKey> {
    set d, e | d in shared && e in shared[d] :: Key(e, d)
  }

  // ---------------------------------------------------------------------
  // Properties of the table operations

  /** After marking, every marked address is shared with, under its
      canonical name, and the other rows are as before. */
  lemma MarkShares(t: Table, d: Uuid, addresses: seq<ProtocolAddress>, now: Int64)
    requires ParseEntries(addresses).Success?
    ensures var t' := Mark(t, d, ParseEntries(addresses).value, now);
      && (forall a | a in addresses :: ToAddress(Key(ToEntry(a), d)) in SharedWith(t', d))
      && (forall a | a in addresses && IsLowerCase(a.name) :: a in SharedWith(t', d))
      && SharedWith(t, d) <= SharedWith(t', d)
      && (forall k | k in t && k !in KeysFor(d, ParseEntries(addresses).value) :: t'[k] == t[k])
  {
    var es := ParseEntries(addresses).value;
    var t' := Mark(t, d, es, now);
    MarkKeeps(t, d, es, now);
    forall a | a in addresses
      ensures ToAddress(Key(ToEntry(a), d)) in SharedWith(t', d)
    {
      assert Key(ToEntry(a), d) in KeysFor(d, es);
    }
    forall a | a in addresses && IsLowerCase(a.name)
      ensures a in SharedWith(t', d)
    {
      assert Key(ToEntry(a), d) in KeysFor(d, es);
      assert ToAddress(Key(ToEntry(a), d)) == a;
    }
  }

  /** Marking keeps every row's key and the timestamps of rows it does not mark. */
  lemma MarkKeeps(t: Table, d: Uuid, entries: set<Entry>, now: Int64)
    ensures var t' := Mark(t, d, entries, now);
      && SharedWith(t, d) <= SharedWith(t', d)
      && (forall k | k in t && k !in KeysFor(d, entries) :: t'[k] == t[k])
  {
    var t' := Mark(t, d, entries, now);
    forall a | a in SharedWith(t, d) ensures a in SharedWith(t', d) {
      var k :| k in t && k.distributionId == d && a == ToAddress(k);
      assert k in t';
    }
  }

  /** Marking only touches its own distribution. */
  lemma MarkKeepsOtherDistributions(t: Table, d: Uuid, entries: set<Entry>, now: Int64, other: Uuid)
    requires other != d
    ensures SharedWith(Mark(t, d, entries, now), other) == SharedWith(t, other)
  {
    var t' := Mark(t, d, entries, now);
    forall k | k in t' && k.distributionId == other ensures k in t {
    }
  }

  /** Marking the same entries again only refreshes their timestamps. */
  lemma MarkIdempotent(t: Table, d: Uuid, entries: set<Entry>, t1: Int64, t2: Int64)
    ensures Mark(Mark(t, d, entries, t1), d, entries, t2) == Mark(t, d, entries, t2)
    ensures Mark(Mark(t, d, entries, t1), d, entries, t2).Keys == Mark(t, d, entries, t1).Keys
  {
  }

  /** After clearing, no distribution is shared with a cleared entry; every
      other row is kept. */
  lemma ClearRemovesEntries(t: Table, addresses: seq<ProtocolAddress>)
    ensures var t' := Clear(t, ClearEntries(addresses));
      && (forall a, d | a in addresses && IsUuid(a.name) :: Key(ToEntry(a), d) !in t')
      && (forall k | k in t && (forall a | a in addresses && IsUuid(a.name) :: ToEntry(a) != Entry(k.serviceId, k.deviceId))
            :: k in t' && t'[k] == t[k])
  {
  }

  /** Marked entries that are cleared are no longer shared. */
  lemma MarkThenClear(t: Table, d: Uuid, addresses: seq<ProtocolAddress>, now: Int64)
    requires ParseEntries(addresses).Success?
    ensures var t' := Clear(Mark(t, d, ParseEntries(addresses).value, now), ClearEntries(addresses));
      forall a | a in addresses :: ToAddress(Key(ToEntry(a), d)) !in SharedWith(t', d)
  {
    var es := ParseEntries(addresses).value;
    var t' := Clear(Mark(t, d, es, now), ClearEntries(addresses));
    forall a | a in addresses
      ensures ToAddress(Key(ToEntry(a), d)) !in SharedWith(t', d)
    {
      var target := ToAddress(Key(ToEntry(a), d));
      forall k | k in t' && k.distributionId == d
        ensures ToAddress(k) != target
      {
        assert Entry(k.serviceId, k.deviceId) != ToEntry(a);
        ServiceIdInjective(k.serviceId, ToEntry(a).serviceId);
      }
    }
  }

  lemma ServiceIdInjective(s: ServiceId, s': ServiceId)
    ensures s != s' ==> ServiceIdToString(s) != ServiceIdToString(s')
  {
    if ServiceIdToString(s) == ServiceIdToString(s') {
      UuidToStringInjective(s.uuid, s'.uuid);
    }
  }

  /** Clearing one more entry is one more filtering pass. */
  lemma ClearOneMore(t: Table, done: set<Entry>, e: Entry)
    ensures Clear(t, done + {e})
         == map k | k in Clear(t, done) && Entry(k.serviceId, k.deviceId) != e :: Clear(t, done)[k]
  {
  }

  lemma DoneOneMore<T>(all: set<T>, todo: set<T>, x: T)
    requires x in todo && todo <= all
    ensures all - (todo - {x}) == (all - todo) + {x}
  {
  }

  /** Marking one more entry is one more upsert. */
  lemma MarkOneMore(t: Table, distributionId: Uuid, done: set<Entry>, e: Entry, now: Int64)
    ensures Mark(t, distributionId, done + {e}, now) == Mark(t, distributionId, done, now)[Key(e, distributionId) := now]
  {
    KeysForOneMore(distributionId, done, e);
  }

  /** Two rounds of marking at the same time mark the union of their keys. */
  lemma MarkUnion(t: Table, a: set<SharedKey>, b: set<SharedKey>, now: Int64)
    ensures (t + map k | k in a :: now) + (map k | k in b :: now) == t + map k | k in a + b :: now
  {
  }

  /** Marking one more entry adds one key. */
  lemma KeysForOneMore(distributionId: Uuid, done: set<Entry>, e: Entry)
    ensures KeysFor(distributionId, done + {e}) == KeysFor(distributionId, done) + {Key(e, distributionId)}
  {
  }

  /** Marking one more distribution adds its keys. */
  lemma AllKeysOneMore(shared: map<Uuid, set<Entry>>, todo: set<Uuid>, d: Uuid)
    requires d in todo && d in shared
    ensures AllKeys(shared - (todo - {d})) == AllKeys(shared - todo) + KeysFor(d, shared[d])
  {
    var before, after := shared - todo, shared - (todo - {d});
    forall k | k in AllKeys(after) ensures k in AllKeys(before) + KeysFor(d, shared[d]) {
      var d', e :| d' in after && e in after[d'] && k == Key(e, d');
      if d' != d {
        assert d' in before;
      }
    }
  }

  // ---------------------------------------------------------------------
  // The store

  class SenderKeySharedStore {
    var rows: Table

    constructor()
      ensures rows == map[]
    {
      rows := map[];
    }

    /** `getSenderKeySharedWith(distributionId)`. */
    function GetSenderKeySharedWith(distributionId: Uuid): (r: set<ProtocolAddress>)
      reads this
      ensures r == SharedWith(rows, distributionId)
    {
      SharedWith(rows, distributionId)
    }

    /** `markSenderKeySharedWith(distributionId, addresses)`: all names are
        parsed first, so a bad name changes nothing; then one transaction
        upserts every entry with the current time `now`. */
    method MarkSenderKeySharedWith(distributionId: Uuid, addresses: seq<ProtocolAddress>, now: Int64)
      returns (r: Outcome<StoreError>)
      modifies this
      ensures r.Fail? <==> ParseEntries(addresses).Failure?
      ensures r.Fail? ==> rows == old(rows)
      ensures r.Pass? ==> rows == Mark(old(rows), distributionId, ParseEntries(addresses).value, now)
    {
      var parsed := ParseEntries(addresses);
      if parsed.Failure? {
        return Fail(parsed.error);
      }
      MarkEntries(distributionId, parsed.value, now);
      return Pass;
    }

    /** The private `markSenderKeysSharedWith`: one upsert per entry. */
    method MarkEntries(distributionId: Uuid, entries: set<Entry>, now: Int64)
      modifies this
      ensures rows == Mark(old(rows), distributionId, entries, now)
    {
      var todo := entries;
      while todo != {}
        invariant todo <= entries
        invariant rows == Mark(old(rows), distributionId, entries - todo, now)
        decreases todo
      {
        var e :| e in todo;
        rows := rows[Key(e, distributionId) := now];
        DoneOneMore(entries, todo, e);
        MarkOneMore(old(rows), distributionId, entries - todo, e, now);
        todo := todo - {e};
      }
      assert entries - todo == entries;
    }

    /** `clearSenderKeySharedWith(addresses)`: names that are not UUIDs are
        skipped; each remaining entry loses its rows in every distribution. */
    method ClearSenderKeySharedWith(addresses: seq<ProtocolAddress>)
      modifies this
      ensures rows == Clear(old(rows), ClearEntries(addresses))
    {
      var entries := ClearEntries(addresses);
      DeleteEntries(entries);
    }

    /** The deletion loop of `clearSenderKeySharedWith`: one `DELETE ...
        WHERE uuid = ? AND device_id = ?` per entry. */
    method DeleteEntries(entries: set<Entry>)
      modifies this
      ensures rows == Clear(old(rows), entries)
    {
      var todo := entries;
      while todo != {}
        invariant todo <= entries
        invariant rows == Clear(old(rows), entries - todo)
        decreases todo
      {
        var e :| e in todo;
        rows := map k | k in rows && Entry(k.serviceId, k.deviceId) != e :: rows[k];
        ClearOneMore(old(rows), entries - todo, e);
        DoneOneMore(entries, todo, e);
        todo := todo - {e};
      }
      assert entries - todo == entries;
    }

    /** `deleteAll()`. */
    method DeleteAll()
      modifies this
      ensures rows == map[]
    {
      rows := map[];
    }

    /** `deleteAllFor(ServiceId)`: every row of the service id, any device or distribution. */
    method DeleteAllForServiceId(serviceId: ServiceId)
      modifies this
      ensures rows == map k | k in old(rows) && k.serviceId != serviceId :: old(rows)[k]
    {
      rows := map k | k in rows && k.serviceId != serviceId :: rows[k];
    }

    /** `deleteSharedWith(serviceId, deviceId, distributionId)`: exactly one row. */
    method DeleteSharedWith(serviceId: ServiceId, deviceId: Int32, distributionId: Uuid)
      modifies this
      ensures rows == old(rows) - {SharedKey(serviceId, deviceId, distributionId)}
    {
      rows := rows - {SharedKey(serviceId, deviceId, distributionId)};
    }

    /** `deleteAllFor(DistributionId)`: every row of the distribution. */
    method DeleteAllForDistribution(distributionId: Uuid)
      modifies this
      ensures rows == map k | k in old(rows) && k.distributionId != distributionId :: old(rows)[k]
      ensures SharedWith(rows, distributionId) == {}
    {
      rows := map k | k in rows && k.distributionId != distributionId :: rows[k];
    }

    /** `addLegacySenderKeysShared(map)`: every distribution's entries are
        marked, in one transaction. */
    method AddLegacySenderKeysShared(shared: map<Uuid, set<Entry>>, now: Int64)
      modifies this
      ensures rows == old(rows) + map k | k in AllKeys(shared) :: now
    {
      var todo := shared.Keys;
      while todo != {}
        invariant todo <= shared.Keys
        invariant rows == old(rows) + map k | k in AllKeys(shared - todo) :: now
        decreases todo
      {
        var d :| d in todo;
        MarkEntries(d, shared[d], now);
        AllKeysOneMore(shared, todo, d);
        MarkUnion(old(rows), AllKeys(shared - todo), KeysFor(d, shared[d]), now);
        todo := todo - {d};
      }
      assert shared - todo == shared;
    }
  }
}
