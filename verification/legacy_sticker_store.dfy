/** `LegacyStickerStore.migrate`: the sticker packs of the old JSON store,
    one per pack id, handed to the sticker store. The Base64 text of the
    ids and keys is taken as already decoded, so a malformed text, on which
    the decoder throws and `migrate` aborts, is not modelled. */
module LegacyStickerStore {
  import opened JavaTypes

  /** `StickerPackId`: compared by its bytes. */
  datatype StickerPackId = StickerPackId(bytes: seq<Byte>)

  /** One entry of the legacy store. */
  datatype Sticker = Sticker(packId: StickerPackId, packKey: seq<Byte>, installed: bool)

  /** `storage.stickers.StickerPack`: the row to insert; `-1` is the
      internal id of a pack not yet stored. */
  datatype StickerPack = StickerPack(internalId: int, packId: StickerPackId, packKey: seq<Byte>, installed: bool)

  const NEW_PACK_ID: int := -1

  function PackOf(s: Sticker): StickerPack {
    StickerPack(NEW_PACK_ID, s.packId, s.packKey, s.installed)
  }


  /** The packs made from the first `n` entries: each entry that is the
      first of its pack id, in order. */
  function Kept(stickers: seq<Sticker>, n: nat): seq<StickerPack>
    requires n <= |stickers|
  {
    if n == 0 then []
    else Kept(stickers, n - 1) + (if FirstOfPack(stickers, n - 1) then [PackOf(stickers[n - 1])] else [])
  }

  /** The pack ids among the first `n` entries. */
  function SeenIds(stickers: seq<Sticker>, n: nat): set<StickerPackId>
    requires n <= |stickers|
  {
    set j | 0 <= j < n :: stickers[j].packId
  }

  /** No earlier entry has the pack id of entry `i`. */
  predicate FirstOfPack(stickers: seq<Sticker>, i: nat)
    requires i < |stickers|
  {
    stickers[i].packId !in SeenIds(stickers, i)
  }

  /** A pack is kept exactly when it is made from the first entry of its
      pack id. */
  lemma {:induction false} KeptMembership(stickers: seq<Sticker>, n: nat, p: StickerPack)
    requires n <= |stickers|
    ensures p in Kept(stickers, n) <==> exists i | 0 <= i < n :: FirstOfPack(stickers, i) && p == PackOf(stickers[i])
  {
    if n > 0 {
      var before := Kept(stickers, n - 1);
      var last := if FirstOfPack(stickers, n - 1) then [PackOf(stickers[n - 1])] else [];
      assert Kept(stickers, n) == before + last;
      KeptMembership(stickers, n - 1, p);
      if p in before {
        var i :| 0 <= i < n - 1 && FirstOfPack(stickers, i) && p == PackOf(stickers[i]);
        assert 0 <= i < n && FirstOfPack(stickers, i) && p == PackOf(stickers[i]);
      } else if p in last {
        assert FirstOfPack(stickers, n - 1) && p == PackOf(stickers[n - 1]);
      }
      if exists i | 0 <= i < n :: FirstOfPack(stickers, i) && p == PackOf(stickers[i]) {
        var i :| 0 <= i < n && FirstOfPack(stickers, i) && p == PackOf(stickers[i]);
        if i == n - 1 {
          assert p in last;
        }
      }
    }
  }

  /** One pack per distinct pack id. */
  lemma {:induction false} KeptLength(stickers: seq<Sticker>, n: nat)
    requires n <= |stickers|
    ensures |Kept(stickers, n)| == |SeenIds(stickers, n)|
  {
    if n > 0 {
      KeptLength(stickers, n - 1);
      var id := stickers[n - 1].packId;
      assert SeenIds(stickers, n) == SeenIds(stickers, n - 1) + {id};
      if FirstOfPack(stickers, n - 1) {
        assert id !in SeenIds(stickers, n - 1);
      } else {
        var j :| 0 <= j < n - 1 && stickers[j].packId == id;
        assert id in SeenIds(stickers, n - 1);
      }
    }
  }

  /** The kept packs carry every pack id seen, no id twice, and the
      internal id of a new pack. */
  lemma {:induction false} KeptIds(stickers: seq<Sticker>, n: nat)
    requires n <= |stickers|
    ensures forall k | 0 <= k < |Kept(stickers, n)| :: Kept(stickers, n)[k].internalId == NEW_PACK_ID
    ensures forall a, b | 0 <= a < b < |Kept(stickers, n)| :: Kept(stickers, n)[a].packId != Kept(stickers, n)[b].packId
    ensures forall k | 0 <= k < |Kept(stickers, n)| :: Kept(stickers, n)[k].packId in SeenIds(stickers, n)
  {
    if n > 0 {
      KeptIds(stickers, n - 1);
      var before := Kept(stickers, n - 1);
      if FirstOfPack(stickers, n - 1) {
        forall k | 0 <= k < |before|
          ensures before[k].packId != stickers[n - 1].packId
        {
          var j :| 0 <= j < n - 1 && stickers[j].packId == before[k].packId;
        }
      }
    }
  }

  /** `migrate(storage, stickerStore)`: the list handed once to
      `addLegacyStickers`. The set `packIds` records the ids already
      taken, and an entry whose id it holds is dropped. */
  method Migrate(storage: seq<Sticker>) returns (stickers: seq<StickerPack>)
    ensures stickers == Kept(storage, |storage|)
    ensures |stickers| == |SeenIds(storage, |storage|)|
  {
    var packIds: set<StickerPackId> := {};
    stickers := [];
    var i := 0;
    while i < |storage|
      invariant 0 <= i <= |storage|
      invariant packIds == SeenIds(storage, i)
      invariant stickers == Kept(storage, i)
    {
      var packId := storage[i].packId;
      if packId in packIds {
        var j :| 0 <= j < i && storage[j].packId == packId;
        assert !FirstOfPack(storage, i);
      } else {
        packIds := packIds + {packId};
        stickers := stickers + [PackOf(storage[i])];
      }
      assert SeenIds(storage, i + 1) == SeenIds(storage, i) + {packId};
      i := i + 1;
    }
    KeptLength(storage, |storage|);
  }
}
