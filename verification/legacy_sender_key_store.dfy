/** `LegacySenderKeyRecordStore`: import of sender keys kept one file per
    key, named `<recipientId>_<deviceId>_<distributionId>`. The directory
    listing and the file contents are inputs; reading, importing and
    deleting the files are not part of this model. */
module LegacySenderKeyRecordStore {
  import opened Wrappers
  import opened JavaTypes
  import opened JavaNumbers

  /** The legacy key: recipient, device and distribution. */
  datatype Key = Key(recipientId: RecipientId, deviceId: Int32, distributionId: Uuid)

  /** `SenderKeyRecordStore.Key`: the same key addressed by service id. */
  datatype StoreKey = StoreKey(serviceId: ServiceId, deviceId: Int32, distributionId: Uuid)

  /** A decoded `SenderKeyRecord`, treated as opaque. */
  datatype SenderKeyRecord = SenderKeyRecord(serialized: seq<Byte>)

  /** What `parseFileNames` throws. */
  datatype ParseError =
    | NumberFormat(input: string)     // an over-long digit group
    | NoSuchElement                   // `Optional.get` on an empty optional
    | IllegalArgument(input: string)  // `UUID.fromString` refused the text

  // ---------------------------------------------------------------------
  // File names

  /** The three groups of a full match of `(\d+)_(\d+)_([\da-z\-]+)`. */
  datatype NameMatch = NameMatch(recipient: string, device: string, distribution: string)

  /** A character of the third group's class `[\da-z\-]`. */
  predicate IsNameChar(c: char) {
    IsDigit(c) || 'a' <= c <= 'z' || c == '-'
  }

  predicate IsDigitGroup(s: string) {
    s != [] && AllDigits(s)
  }

  predicate IsDistributionGroup(s: string) {
    s != [] && forall i | 0 <= i < |s| :: IsNameChar(s[i])
  }

  /** `s` cut at every `c`. */
  function SplitAt(s: string, c: char): (parts: seq<string>)
    ensures |parts| >= 1
    decreases |s|
  {
    if s == [] then [[]]
    else
      var rest := SplitAt(s[1..], c);
      if s[0] == c then [[]] + rest else [[s[0]] + rest[0]] + rest[1..]
  }

  /** The parts joined again with `c` between them. */
  function JoinWith(parts: seq<string>, c: char): string
    requires |parts| >= 1
  {
    if |parts| == 1 then parts[0] else parts[0] + [c] + JoinWith(parts[1..], c)
  }

  lemma {:induction false} SplitJoin(s: string, c: char)
    ensures JoinWith(SplitAt(s, c), c) == s
    ensures forall i | 0 <= i < |SplitAt(s, c)| :: c !in SplitAt(s, c)[i]
    decreases |s|
  {
    if s != [] {
      var rest := SplitAt(s[1..], c);
      SplitJoin(s[1..], c);
      if s[0] == c {
        assert SplitAt(s, c)[1..] == rest;
      } else {
        var parts := SplitAt(s, c);
        assert parts[1..] == rest[1..];
        if |rest| > 1 {
          assert JoinWith(rest, c) == rest[0] + [c] + JoinWith(rest[1..], c);
        }
      }
    }
  }

  lemma {:induction false} SplitAtWithout(s: string, c: char)
    requires c !in s
    ensures SplitAt(s, c) == [s]
    decreases |s|
  {
    if s != [] {
      SplitAtWithout(s[1..], c);
      assert [s[0]] + s[1..] == s;
    }
  }

  lemma {:induction false} SplitAtFirst(x: string, y: string, c: char)
    requires c !in x
    ensures SplitAt(x + [c] + y, c) == [x] + SplitAt(y, c)
    decreases |x|
  {
    if x == [] {
      assert ([] + [c] + y)[1..] == y;
    } else {
      var s := x + [c] + y;
      assert s[1..] == x[1..] + [c] + y;
      SplitAtFirst(x[1..], y, c);
      assert [x[0]] + x[1..] == x;
    }
  }

  /** `senderKeyFileNamePattern.matcher(name).matches()` with its groups:
      digits, `_`, digits, `_`, then name characters, and nothing else.
      No group can hold an `_`, so the two `_` are the only ones. */
  function MatchName(name: string): (r: Option<NameMatch>)
    ensures r.Some? ==> name == r.value.recipient + "_" + r.value.device + "_" + r.value.distribution
    ensures r.Some? ==> IsDigitGroup(r.value.recipient) && IsDigitGroup(r.value.device)
    ensures r.Some? ==> IsDistributionGroup(r.value.distribution)
  {
    var parts := SplitAt(name, '_');
    SplitJoin(name, '_');
    if |parts| == 3 && IsDigitGroup(parts[0]) && IsDigitGroup(parts[1]) && IsDistributionGroup(parts[2]) then
      assert JoinWith(parts[1..], '_') == parts[1] + "_" + parts[2];
      Some(NameMatch(parts[0], parts[1], parts[2]))
    else None
  }

  /** Every text of the pattern's shape matches, with its own groups; with
      `MatchName`'s contract this makes the match exact in both directions. */
  lemma MatchOfComposed(a: string, b: string, d: string)
    requires IsDigitGroup(a) && IsDigitGroup(b) && IsDistributionGroup(d)
    ensures MatchName(a + "_" + b + "_" + d) == Some(NameMatch(a, b, d))
  {
    assert '_' !in a && '_' !in b && '_' !in d;
    assert a + "_" + b + "_" + d == a + ['_'] + (b + ['_'] + d);
    SplitAtFirst(a, b + ['_'] + d, '_');
    SplitAtFirst(b, d, '_');
    SplitAtWithout(d, '_');
  }

  /** `getSenderKeyFile(key, dir).getName()`. */
  function FileNameOf(key: Key): string {
    IntegerText(key.recipientId.id) + "_" + IntegerText(key.deviceId) + "_" + UuidToString(key.distributionId)
  }

  // ---------------------------------------------------------------------
  // Parsing a listing

  /** The part of the mapping lambda after the recipient is resolved:
      `new Key(recipientId, Integer.parseInt(group 2), UUID.fromString(group 3))`,
      with `UUID.fromString` taken on its canonical shape. */
  function KeyOf(m: NameMatch, recipientId: RecipientId): (r: Result<Key, ParseError>)
    ensures r.Success? <==> ParseInt(m.device).Success? && ParseUuid(m.distribution).Some?
    ensures r.Success? ==> r.value == Key(recipientId, ParseInt(m.device).value, ParseUuid(m.distribution).value)
    ensures ParseInt(m.device).Failure? ==> r == Failure(NumberFormat(m.device))
    ensures r.Failure? ==> !r.error.NoSuchElement?
  {
    match ParseInt(m.device)
    case Failure(_) => Failure(NumberFormat(m.device))
    case Success(deviceId) =>
      match ParseUuid(m.distribution)
      case None => Failure(IllegalArgument(m.distribution))
      case Some(distributionId) => Success(Key(recipientId, deviceId, distributionId))
  }

  /** One file name through the pipeline as written: skipped (`None`) when
      it does not match, and an unresolved recipient reaches
      `Optional::get`, which throws. */
  function ParseFileNameAsWritten(name: string, resolve: Int64 -> Option<RecipientId>): (r: Result<Option<Key>, ParseError>)
    ensures MatchName(name).None? ==> r == Success(None)
    ensures MatchName(name).Some? ==> r != Success(None)
    ensures r == Failure(NoSuchElement) <==>
      && MatchName(name).Some? && ParseLong(MatchName(name).value.recipient).Success?
      && resolve(ParseLong(MatchName(name).value.recipient).value).None?
    ensures r.Success? && r.value.Some? ==>
      && MatchName(name).Some? && ParseLong(MatchName(name).value.recipient).Success?
      && resolve(ParseLong(MatchName(name).value.recipient).value) == Some(r.value.value.recipientId)
  {
    match MatchName(name)
    case None => Success(None)
    case Some(m) =>
      match ParseLong(m.recipient)
      case Failure(_) => Failure(NumberFormat(m.recipient))
      case Success(id) =>
        match resolve(id)
        case None => Failure(NoSuchElement)
        case Some(recipientId) =>
          var key :- KeyOf(m, recipientId);
          Success(Some(key))
  }

  /** One file name as the later `filter(Objects::nonNull)` intends: an
      unresolved recipient is skipped like a name that does not match. */
  function ParseFileName(name: string, resolve: Int64 -> Option<RecipientId>): (r: Result<Option<Key>, ParseError>)
    ensures MatchName(name).None? ==> r == Success(None)
    ensures r.Success? && r.value.Some? ==>
      && MatchName(name).Some? && ParseLong(MatchName(name).value.recipient).Success?
      && resolve(ParseLong(MatchName(name).value.recipient).value) == Some(r.value.value.recipientId)
    ensures r.Failure? ==> !r.error.NoSuchElement?
  {
    match MatchName(name)
    case None => Success(None)
    case Some(m) =>
      match ParseLong(m.recipient)
      case Failure(_) => Failure(NumberFormat(m.recipient))
      case Success(id) =>
        match resolve(id)
        case None => Success(None)
        case Some(recipientId) =>
          var key :- KeyOf(m, recipientId);
          Success(Some(key))
  }

  /** The two differ only where the written version throws
      `NoSuchElementException`; there the intended one skips the name. */
  lemma ParseFileNameDiffers(name: string, resolve: Int64 -> Option<RecipientId>)
    ensures ParseFileNameAsWritten(name, resolve) != Failure(NoSuchElement) ==>
      ParseFileName(name, resolve) == ParseFileNameAsWritten(name, resolve)
    ensures ParseFileNameAsWritten(name, resolve) == Failure(NoSuchElement) ==>
      ParseFileName(name, resolve) == Success(None)
  {
  }

  /** `parseFileNames(files, resolver)` as written: the stream runs name by
      name in listing order, so the first name that throws ends it. */
  function ParseFileNamesAsWritten(names: seq<string>, resolve: Int64 -> Option<RecipientId>): (r: Result<seq<Key>, ParseError>)
    ensures r.Success? ==> |r.value| <= |names|
  {
    if names == [] then Success([])
    else
      var first :- ParseFileNameAsWritten(names[0], resolve);
      var rest :- ParseFileNamesAsWritten(names[1..], resolve);
      Success(if first.Some? then [first.value] + rest else rest)
  }

  /** `parseFileNames` with unresolved recipients skipped. */
  function ParseFileNames(names: seq<string>, resolve: Int64 -> Option<RecipientId>): (r: Result<seq<Key>, ParseError>)
    ensures r.Success? ==> |r.value| <= |names|
    ensures r.Failure? ==> !r.error.NoSuchElement?
  {
    if names == [] then Success([])
    else
      var first :- ParseFileName(names[0], resolve);
      var rest :- ParseFileNames(names[1..], resolve);
      Success(if first.Some? then [first.value] + rest else rest)
  }

  /** Wherever the written version gets through a listing, the intended
      one gives the same keys. */
  lemma {:induction false} ParseFileNamesAgree(names: seq<string>, resolve: Int64 -> Option<RecipientId>)
    requires ParseFileNamesAsWritten(names, resolve).Success?
    ensures ParseFileNames(names, resolve) == ParseFileNamesAsWritten(names, resolve)
  {
    if names != [] {
      ParseFileNameDiffers(names[0], resolve);
      ParseFileNamesAgree(names[1..], resolve);
    }
  }

  /** A name that matches but whose digit group exceeds a `long` throws
      `NumberFormatException`. */
  lemma OverlongRecipientThrows(name: string, resolve: Int64 -> Option<RecipientId>)
    requires MatchName(name).Some? && DigitsValue(MatchName(name).value.recipient) > INT64_MAX
    ensures ParseFileName(name, resolve) == Failure(NumberFormat(MatchName(name).value.recipient))
    ensures ParseFileNameAsWritten(name, resolve) == ParseFileName(name, resolve)
  {
  }

  /** A key with a non-negative recipient and device is named so that
      parsing gives it back when its recipient resolves; when it does not,
      the written version throws and the intended one skips the name. */
  lemma FileNameRoundTrip(key: Key, resolve: Int64 -> Option<RecipientId>)
    requires key.recipientId.id >= 0 && key.deviceId >= 0
    ensures MatchName(FileNameOf(key)).Some?
    ensures resolve(key.recipientId.id) == Some(key.recipientId) ==>
      && ParseFileName(FileNameOf(key), resolve) == Success(Some(key))
      && ParseFileNameAsWritten(FileNameOf(key), resolve) == Success(Some(key))
    ensures resolve(key.recipientId.id).None? ==>
      && ParseFileName(FileNameOf(key), resolve) == Success(None)
      && ParseFileNameAsWritten(FileNameOf(key), resolve) == Failure(NoSuchElement)
  {
    var a := IntegerText(key.recipientId.id);
    var b := IntegerText(key.deviceId);
    var d := UuidToString(key.distributionId);
    assert IsDistributionGroup(d);
    MatchOfComposed(a, b, d);
    ParseLongOfText(key.recipientId.id);
    ParseIntOfText(key.deviceId);
    ParseUuidToString(key.distributionId);
  }

  /** A listing of such names parses back to exactly its keys, in order. */
  lemma {:induction false} FileNamesRoundTrip(keys: seq<Key>, names: seq<string>, resolve: Int64 -> Option<RecipientId>)
    requires |names| == |keys| && forall i | 0 <= i < |keys| :: names[i] == FileNameOf(keys[i])
    requires forall i | 0 <= i < |keys| :: keys[i].recipientId.id >= 0 && keys[i].deviceId >= 0
    requires forall i | 0 <= i < |keys| :: resolve(keys[i].recipientId.id) == Some(keys[i].recipientId)
    ensures ParseFileNames(names, resolve) == Success(keys)
    ensures ParseFileNamesAsWritten(names, resolve) == Success(keys)
  {
    if keys != [] {
      assert ParseFileName(names[0], resolve) == Success(Some(keys[0])) by {
        FileNameRoundTrip(keys[0], resolve);
      }
      assert ParseFileNameAsWritten(names[0], resolve) == Success(Some(keys[0])) by {
        FileNameRoundTrip(keys[0], resolve);
      }
      FileNamesRoundTrip(keys[1..], names[1..], resolve);
      assert [keys[0]] + keys[1..] == keys;
    }
  }

  const RECIPIENT_ONE: RecipientId := RecipientId(1)

  /** Resolves id 1 only. */
  function ResolveOne(id: Int64): Option<RecipientId> {
    if id == 1 then Some(RECIPIENT_ONE) else None
  }

  /** A directory holding one key of a known recipient and one of a
      recipient that no longer resolves: as written the whole import
      throws, while skipping the unresolved name keeps the other key. */
  lemma UnresolvedRecipientAbortsImport(u: Uuid)
    ensures var known := Key(RECIPIENT_ONE, 1, u);
      var names := [FileNameOf(known), FileNameOf(Key(RecipientId(2), 1, u))];
      && ParseFileNamesAsWritten(names, ResolveOne) == Failure(NoSuchElement)
      && ParseFileNames(names, ResolveOne) == Success([known])
  {
    var known := Key(RECIPIENT_ONE, 1, u);
    var other := Key(RecipientId(2), 1, u);
    var names := [FileNameOf(known), FileNameOf(other)];
    var tail := [FileNameOf(other)];
    assert names[1..] == tail && tail[1..] == [];
    assert ParseFileNameAsWritten(tail[0], ResolveOne) == Failure(NoSuchElement)
        && ParseFileName(tail[0], ResolveOne) == Success(None) by {
      FileNameRoundTrip(other, ResolveOne);
    }
    assert ParseFileNamesAsWritten(tail, ResolveOne) == Failure(NoSuchElement);
    assert ParseFileNames(tail, ResolveOne) == Success([]);
    assert ParseFileName(names[0], ResolveOne) == Success(Some(known))
        && ParseFileNameAsWritten(names[0], ResolveOne) == Success(Some(known)) by {
      FileNameRoundTrip(known, ResolveOne);
    }
    assert [known] + [] == [known];
  }

  // ---------------------------------------------------------------------
  // Migration

  /** `loadSenderKeyLocked(key, dir)`: the record in the key's file, if
      that file exists and decodes; `records` holds exactly those files. */
  function LoadSenderKey(key: Key, records: map<string, SenderKeyRecord>): (r: Option<SenderKeyRecord>)
    ensures r.Some? <==> FileNameOf(key) in records
    ensures r.Some? ==> r.value == records[FileNameOf(key)]
  {
    if FileNameOf(key) in records then Some(records[FileNameOf(key)]) else None
  }

  /** The mapping lambda of `migrate`: the key readdressed by the
      recipient's service id, with its record, or `null`. */
  function ImportOf(key: Key, records: map<string, SenderKeyRecord>, serviceIdOf: RecipientId -> Option<ServiceId>):
    (r: Option<(StoreKey, SenderKeyRecord)>)
    ensures r.Some? <==> LoadSenderKey(key, records).Some? && serviceIdOf(key.recipientId).Some?
    ensures r.Some? ==> r.value.0.serviceId == serviceIdOf(key.recipientId).value
    ensures r.Some? ==> r.value.0.deviceId == key.deviceId && r.value.0.distributionId == key.distributionId
    ensures r.Some? ==> r.value.1 == LoadSenderKey(key, records).value
  {
    match LoadSenderKey(key, records)
    case None => None
    case Some(record) =>
      match serviceIdOf(key.recipientId)
      case None => None
      case Some(serviceId) => Some((StoreKey(serviceId, key.deviceId, key.distributionId), record))
  }

  /** `.map(...).filter(Objects::nonNull)`: the pairs of the keys that
      have both a record and a service id, in key order. */
  function ImportPairs(keys: seq<Key>, records: map<string, SenderKeyRecord>, serviceIdOf: RecipientId -> Option<ServiceId>):
    (pairs: seq<(StoreKey, SenderKeyRecord)>)
    ensures |pairs| <= |keys|
  {
    if keys == [] then []
    else
      var rest := ImportPairs(keys[1..], records, serviceIdOf);
      match ImportOf(keys[0], records, serviceIdOf)
      case None => rest
      case Some(p) => [p] + rest
  }

  /** A pair is imported exactly when some key produces it. */
  lemma {:induction false} ImportPairsContents(keys: seq<Key>, records: map<string, SenderKeyRecord>,
                                              serviceIdOf: RecipientId -> Option<ServiceId>, p: (StoreKey, SenderKeyRecord))
    ensures p in ImportPairs(keys, records, serviceIdOf) <==>
      exists i | 0 <= i < |keys| :: ImportOf(keys[i], records, serviceIdOf) == Some(p)
  {
    if keys != [] {
      var head := ImportOf(keys[0], records, serviceIdOf);
      var rest := ImportPairs(keys[1..], records, serviceIdOf);
      assert ImportPairs(keys, records, serviceIdOf) == if head.Some? then [head.value] + rest else rest;
      assert p in ImportPairs(keys, records, serviceIdOf) <==> head == Some(p) || p in rest;
      ImportPairsContents(keys[1..], records, serviceIdOf, p);
      if exists i | 0 <= i < |keys[1..]| :: ImportOf(keys[1..][i], records, serviceIdOf) == Some(p) {
        var i :| 0 <= i < |keys[1..]| && ImportOf(keys[1..][i], records, serviceIdOf) == Some(p);
        assert ImportOf(keys[i + 1], records, serviceIdOf) == Some(p);
      }
      if exists i | 0 <= i < |keys| :: ImportOf(keys[i], records, serviceIdOf) == Some(p) {
        var i :| 0 <= i < |keys| && ImportOf(keys[i], records, serviceIdOf) == Some(p);
        if i > 0 {
          assert ImportOf(keys[1..][i - 1], records, serviceIdOf) == Some(p);
        }
      }
    }
  }

  /** `migrate(dir, ...)` as written: nothing when the directory cannot be
      listed (`None`), else the pairs handed to `addLegacySenderKeys`,
      unless parsing the names throws, as it does on a name whose recipient
      no longer resolves. */
  function Migrate(listing: Option<seq<string>>, resolve: Int64 -> Option<RecipientId>,
                   records: map<string, SenderKeyRecord>, serviceIdOf: RecipientId -> Option<ServiceId>):
    (r: Result<Option<seq<(StoreKey, SenderKeyRecord)>>, ParseError>)
    ensures listing.None? ==> r == Success(None)
    ensures listing.Some? ==> (r.Success? <==> ParseFileNamesAsWritten(listing.value, resolve).Success?)
    ensures r.Success? && listing.Some? ==>
      r.value == Some(ImportPairs(ParseFileNamesAsWritten(listing.value, resolve).value, records, serviceIdOf))
  {
    match listing
    case None => Success(None)
    case Some(names) =>
      var keys :- ParseFileNamesAsWritten(names, resolve);
      Success(Some(ImportPairs(keys, records, serviceIdOf)))
  }

  /** `migrate` with unresolved recipients skipped: it imports whatever
      the written version imports, and fails only on a name that matches
      but does not parse. */
  function MigrateCorrected(listing: Option<seq<string>>, resolve: Int64 -> Option<RecipientId>,
                            records: map<string, SenderKeyRecord>, serviceIdOf: RecipientId -> Option<ServiceId>):
    (r: Result<Option<seq<(StoreKey, SenderKeyRecord)>>, ParseError>)
    ensures listing.None? ==> r == Success(None)
    ensures listing.Some? ==> (r.Success? <==> ParseFileNames(listing.value, resolve).Success?)
    ensures r.Success? && listing.Some? ==>
      r.value == Some(ImportPairs(ParseFileNames(listing.value, resolve).value, records, serviceIdOf))
    ensures r.Failure? ==> !r.error.NoSuchElement?
  {
    match listing
    case None => Success(None)
    case Some(names) =>
      var keys :- ParseFileNames(names, resolve);
      Success(Some(ImportPairs(keys, records, serviceIdOf)))
  }

  /** Wherever the written `migrate` gets through, the corrected one
      imports the same pairs. */
  lemma MigrateCorrectedAgrees(listing: Option<seq<string>>, resolve: Int64 -> Option<RecipientId>,
                               records: map<string, SenderKeyRecord>, serviceIdOf: RecipientId -> Option<ServiceId>)
    requires Migrate(listing, resolve, records, serviceIdOf).Success?
    ensures MigrateCorrected(listing, resolve, records, serviceIdOf) == Migrate(listing, resolve, records, serviceIdOf)
  {
    if listing.Some? {
      ParseFileNamesAgree(listing.value, resolve);
    }
  }

  /** Keys written under their canonical names with a service id each
      are all imported, with their records, in order. */
  lemma {:induction false} MigrateRoundTrip(keys: seq<Key>, names: seq<string>, resolve: Int64 -> Option<RecipientId>,
                                           records: map<string, SenderKeyRecord>, serviceIdOf: RecipientId -> Option<ServiceId>)
    requires forall i | 0 <= i < |keys| :: keys[i].recipientId.id >= 0 && keys[i].deviceId >= 0
    requires forall i | 0 <= i < |keys| :: resolve(keys[i].recipientId.id) == Some(keys[i].recipientId)
    requires forall i | 0 <= i < |keys| :: FileNameOf(keys[i]) in records && serviceIdOf(keys[i].recipientId).Some?
    requires |names| == |keys| && forall i | 0 <= i < |keys| :: names[i] == FileNameOf(keys[i])
    ensures MigrateCorrected(Some(names), resolve, records, serviceIdOf) == Migrate(Some(names), resolve, records, serviceIdOf)
    ensures var r := Migrate(Some(names), resolve, records, serviceIdOf);
      && r.Success? && r.value.Some? && |r.value.value| == |keys|
      && forall i | 0 <= i < |keys| :: r.value.value[i] ==
           (StoreKey(serviceIdOf(keys[i].recipientId).value, keys[i].deviceId, keys[i].distributionId),
            records[FileNameOf(keys[i])])
  {
    FileNamesRoundTrip(keys, names, resolve);
    ImportAll(keys, records, serviceIdOf);
    MigrateCorrectedAgrees(Some(names), resolve, records, serviceIdOf);
  }

  lemma {:induction false} ImportAll(keys: seq<Key>, records: map<string, SenderKeyRecord>, serviceIdOf: RecipientId -> Option<ServiceId>)
    requires forall i | 0 <= i < |keys| :: FileNameOf(keys[i]) in records && serviceIdOf(keys[i].recipientId).Some?
    ensures var pairs := ImportPairs(keys, records, serviceIdOf);
      && |pairs| == |keys|
      && forall i | 0 <= i < |keys| :: pairs[i] ==
           (StoreKey(serviceIdOf(keys[i].recipientId).value, keys[i].deviceId, keys[i].distributionId),
            records[FileNameOf(keys[i])])
  {
    if keys != [] {
      ImportAll(keys[1..], records, serviceIdOf);
      var pairs := ImportPairs(keys, records, serviceIdOf);
      assert pairs[1..] == ImportPairs(keys[1..], records, serviceIdOf);
      forall i | 0 <= i < |keys|
        ensures pairs[i] == (StoreKey(serviceIdOf(keys[i].recipientId).value, keys[i].deviceId, keys[i].distributionId),
                             records[FileNameOf(keys[i])])
      {
        if i > 0 {
          assert keys[i] == keys[1..][i - 1];
        }
      }
    }
  }
}
