# signal-cli `lib` manager: identities, key stores and serialisation

This project models, in Dafny, the core of the `lib` manager of signal-cli,
the Java library behind the Signal command-line client. It covers these parts:

- **Recipient addresses.** The stored form and the API form of a recipient
  address normalise the `UNKNOWN` sentinels away and insist on some
  identifier. `matches` compares them, the identifier getters choose
  between them, and `RecipientIdentifier` builds on them.
- **Key stores.** The pre-key, signed pre-key and sender-key-shared tables
  of the account database are classes whose `map` fields stand for the
  SQL tables. Their rules are unique keys, insert-only stores, per-identity
  scoping and typed not-found errors.
- **Schema upgrades.** The ladder of `AccountDatabase.upgradeDatabase`
  runs each step exactly when the stored version is below it. Step 10
  re-keys four tables from recipient row id to UUID row by row. It
  re-keys the send log by an `UPDATE ... FROM`, which the ladder models as
  written; the join row SQLite picks for each log row is a parameter.
- **Envelope cache.** `MessageCacheUtils` stores a received envelope in
  a versioned binary layout built from `DataOutputStream` primitives.
  Loading reads that layout back, with defaults for older versions.
- **Envelope conversion.** `MessageEnvelope.from` and its nested `from`
  conversions turn a received envelope into the API form: who sent it,
  placeholders made absent, and the enum fallbacks.
- **Small rules.** Trust levels, send results and their summaries, and
  the configuration store with its API projection.
- **Legacy imports.** The importers for sender keys, stickers and groups
  from older storage formats.
- **Utilities.** Sticker conversion, ARGB colors, MIME extensions and the
  default paths.

Java `null`, `Optional` and thrown exceptions become `Option` and `Result`.
A Java `int` or `long` is an integer in the 32- or 64-bit range, with any
wrap-around written out. libsignal, SQLite, Jackson, the file system and
the recipient resolvers are outside the model. They become values or
function-typed parameters.

## Model

| member | source | states |
|---|---|---|
| StorageRecipientAddress.Create | lib/src/main/java/org/asamk/signal/manager/storage/recipients/RecipientAddress.java:18-38 | `UNKNOWN` service id and PNI count as absent; a known PNI fills a missing service id; fails exactly when no known service id, PNI or number is given; every result satisfies the address invariant |
| StorageRecipientAddress.FromServiceAddress | lib/src/main/java/org/asamk/signal/manager/storage/recipients/RecipientAddress.java:52-54 | built from a service address with no PNI; fails exactly when the service id is `UNKNOWN` and there is no number |
| StorageRecipientAddress.FromServiceId | lib/src/main/java/org/asamk/signal/manager/storage/recipients/RecipientAddress.java:56-58 | a service-id-only address; fails exactly for `UNKNOWN` |
| StorageRecipientAddress.GetServiceId | lib/src/main/java/org/asamk/signal/manager/storage/recipients/RecipientAddress.java:60-62 | `UNKNOWN` exactly when the service id is absent, else the service id |
| StorageRecipientAddress.ToServiceAddress | lib/src/main/java/org/asamk/signal/manager/storage/recipients/RecipientAddress.java:96-98 | keeps the number; the service id is `UNKNOWN` exactly when absent |
| StorageRecipientAddress.ToApi | lib/src/main/java/org/asamk/signal/manager/storage/recipients/RecipientAddress.java:100-102 | never throws for a valid address; keeps the service id's UUID and the number, drops the PNI |
| StorageRecipientAddress.IdentifiersTotal | lib/src/main/java/org/asamk/signal/manager/storage/recipients/RecipientAddress.java:68-86 | for any constructed address neither identifier getter reaches its `AssertionError` |
| StorageRecipientAddress.IdentifierPreference | lib/src/main/java/org/asamk/signal/manager/storage/recipients/RecipientAddress.java:68-86 | `getIdentifier` prefers the service id text, `getLegacyIdentifier` the number, each falling back on the other; the service id text parses back to the service id |
| StorageRecipientAddress.MatchesSymmetric | lib/src/main/java/org/asamk/signal/manager/storage/recipients/RecipientAddress.java:88-94 | `matches` is symmetric |
| StorageRecipientAddress.GetIdentifier | lib/src/main/java/org/asamk/signal/manager/storage/recipients/RecipientAddress.java:68-76 | succeeds exactly when a service id or a number is known; the service id is preferred and its text parses back to it; otherwise the number (the `AssertionError` is the failure) |
| StorageRecipientAddress.GetLegacyIdentifier | lib/src/main/java/org/asamk/signal/manager/storage/recipients/RecipientAddress.java:78-86 | succeeds exactly when a service id or a number is known; the number is preferred; otherwise the service id's text, which parses back to it |
| StorageRecipientAddress.Matches | lib/src/main/java/org/asamk/signal/manager/storage/recipients/RecipientAddress.java:88-94 | every valid address matches an equal address |
| StorageRecipientAddress.MatchesReflexive | lib/src/main/java/org/asamk/signal/manager/storage/recipients/RecipientAddress.java:88-94 | every valid address matches itself |
| StorageRecipientAddress.PniAddressMatches | lib/src/main/java/org/asamk/signal/manager/storage/recipients/RecipientAddress.java:18-38 | the PNI-only address built from an address's PNI can be constructed and matches it (PNI-versus-service-id pairs count) |
| StorageRecipientAddress.ServiceAddressRoundTrip | lib/src/main/java/org/asamk/signal/manager/storage/recipients/RecipientAddress.java:52-54 | converting to a service address and back gives the same address without its PNI |
| StorageRecipientAddress.ToApiKeepsIdentifiers | lib/src/main/java/org/asamk/signal/manager/storage/recipients/RecipientAddress.java:100-102 | the API address has the same identifier and legacy identifier |
| StorageRecipientAddress.ToApiMatches | lib/src/main/java/org/asamk/signal/manager/storage/recipients/RecipientAddress.java:88-102 | API addresses match only if the stored ones match; without PNIs the two notions of matching coincide |
| ApiRecipientAddress.Create | lib/src/main/java/org/asamk/signal/manager/api/RecipientAddress.java:17-29 | the unknown UUID counts as absent; fails exactly when neither a real UUID nor a number is given; results satisfy the invariant |
| ApiRecipientAddress.FromServiceAddress | lib/src/main/java/org/asamk/signal/manager/api/RecipientAddress.java:35-37 | fails exactly when the service id is `UNKNOWN` and there is no number; keeps the number and a known service id's UUID |
| ApiRecipientAddress.FromUuid | lib/src/main/java/org/asamk/signal/manager/api/RecipientAddress.java:39-41 | a UUID-only address; fails exactly for the unknown UUID |
| ApiRecipientAddress.GetServiceId | lib/src/main/java/org/asamk/signal/manager/api/RecipientAddress.java:43-45 | the service id of the UUID, `UNKNOWN` exactly when there is no UUID |
| ApiRecipientAddress.IdentifiersTotal | lib/src/main/java/org/asamk/signal/manager/api/RecipientAddress.java:47-65 | neither getter reaches its `AssertionError` on a constructed address; they differ only when both a UUID and a number are known |
| ApiRecipientAddress.IdentifierPreference | lib/src/main/java/org/asamk/signal/manager/api/RecipientAddress.java:47-65 | `getIdentifier` prefers the UUID text (which parses back to the UUID), `getLegacyIdentifier` the number |
| ApiRecipientAddress.MatchesSymmetric | lib/src/main/java/org/asamk/signal/manager/api/RecipientAddress.java:67-70 | `matches` is symmetric |
| ApiRecipientAddress.GetIdentifier | lib/src/main/java/org/asamk/signal/manager/api/RecipientAddress.java:47-55 | succeeds exactly when a UUID or a number is known; the UUID is preferred and its text parses back to it; otherwise the number |
| ApiRecipientAddress.GetLegacyIdentifier | lib/src/main/java/org/asamk/signal/manager/api/RecipientAddress.java:57-65 | succeeds exactly when a UUID or a number is known; the number is preferred; otherwise the UUID's text, which parses back to it |
| ApiRecipientAddress.Matches | lib/src/main/java/org/asamk/signal/manager/api/RecipientAddress.java:67-70 | every valid address matches an equal address |
| ApiRecipientAddress.MatchesReflexive | lib/src/main/java/org/asamk/signal/manager/api/RecipientAddress.java:67-70 | every valid address matches itself |
| ApiRecipientAddress.MatchingAddressesShareAnIdentifier | lib/src/main/java/org/asamk/signal/manager/api/RecipientAddress.java:47-70 | matching addresses agree on the identifier or on the legacy identifier |
| RecipientIdentifier.GetIdentifier | lib/src/main/java/org/asamk/signal/manager/api/RecipientIdentifier.java:23-25 | note-to-self gives `"Note-To-Self"`, a UUID recipient text that parses back to its UUID, a number itself, a group its Base64 id |
| RecipientIdentifier.FromString | lib/src/main/java/org/asamk/signal/manager/api/RecipientIdentifier.java:30-45 | UUID text gives a UUID recipient with that UUID; other text gives the formatter's number, or its failure as `InvalidNumberException` |
| RecipientIdentifier.FromAddress | lib/src/main/java/org/asamk/signal/manager/api/RecipientIdentifier.java:47-54 | the number when known, else the UUID; fails exactly when the address has neither |
| RecipientIdentifier.ToPartialRecipientAddress | lib/src/main/java/org/asamk/signal/manager/api/RecipientIdentifier.java:73-75 | a UUID recipient gives the UUID-only address (throwing for the unknown UUID), a number the number-only address |
| RecipientIdentifier.PartialAddressRoundTrip | lib/src/main/java/org/asamk/signal/manager/api/RecipientIdentifier.java:47-98 | `fromAddress(toPartialRecipientAddress(s)) == s`, and the address's identifier is the recipient's |
| RecipientIdentifier.FromAddressMatches | lib/src/main/java/org/asamk/signal/manager/api/RecipientIdentifier.java:47-98 | an address made into a recipient and back still matches the original address |
| RecipientIdentifier.FromStringOfIdentifier | lib/src/main/java/org/asamk/signal/manager/api/RecipientIdentifier.java:30-45 | parsing a recipient's identifier gives the recipient back, for numbers the formatter leaves unchanged |
| KeyTable.WithoutType | lib/src/main/java/org/asamk/signal/manager/storage/prekeys/PreKeyStore.java:95-107 | deleting one account id type removes exactly its rows and keeps every other row unchanged |
| KeyTable.Insert | lib/src/main/java/org/asamk/signal/manager/storage/prekeys/PreKeyStore.java:55-73 | an insert fails exactly when `(account_id_type, key_id)` is already taken (the `UNIQUE` constraint of lines 27-39), otherwise adds that one row |
| KeyTable.InsertAllContents | lib/src/main/java/org/asamk/signal/manager/storage/prekeys/PreKeyStore.java:122-130 | a successful batch of inserts holds the old rows plus one row per item, each with its item's value |
| KeyTable.InsertAllSucceeds | lib/src/main/java/org/asamk/signal/manager/storage/prekeys/PreKeyStore.java:122-130 | a batch of inserts succeeds if and only if its ids are pairwise distinct and none is already in the table |
| KeyTable.InsertAll | lib/src/main/java/org/asamk/signal/manager/storage/prekeys/PreKeyStore.java:122-130 | a successful batch keeps every old row with its value; a failed batch names the key of one of its items |
| KeyTable.TypesAreIsolated | lib/src/main/java/org/asamk/signal/manager/storage/prekeys/PreKeyStore.java:115-133 | a delete-then-insert batch under one account id type leaves every row of another type as it was |
| KeyTable.PrefixFailureFails | lib/src/main/java/org/asamk/signal/manager/storage/prekeys/PreKeyStore.java:122-130 | a batch whose prefix fails fails as a whole, so stopping at the first failing insert is the batch's result |
| PreKeyStore.ImportableCount | lib/src/main/java/org/asamk/signal/manager/storage/prekeys/PreKeyStore.java:123-132 | the number of leading records with a key pair; the record right after them has none (its `InvalidKeyException` ends the loop) |
| PreKeyStore.LegacyItems | lib/src/main/java/org/asamk/signal/manager/storage/prekeys/PreKeyStore.java:123-130 | the rows the legacy import inserts: one per importable record, in order, under the record's own id |
| PreKeyStore.StoreThenLoad | lib/src/main/java/org/asamk/signal/manager/storage/prekeys/PreKeyStore.java:55-73 | a stored pre-key loads back unchanged when its keys decode and as absent when they do not; every other id of every identity loads as before |
| PreKeyStore.RemoveThenLoad | lib/src/main/java/org/asamk/signal/manager/storage/prekeys/PreKeyStore.java:80-93 | a removed pre-key no longer loads; every other key loads as before |
| PreKeyStore.RemoveAllKeepsOtherIdentity | lib/src/main/java/org/asamk/signal/manager/storage/prekeys/PreKeyStore.java:95-107 | after removing all pre-keys of one identity none of its keys loads, and the other identity's keys load as before |
| PreKeyStore.LegacyImportEffect | lib/src/main/java/org/asamk/signal/manager/storage/prekeys/PreKeyStore.java:109-138 | the import succeeds if and only if the importable records have distinct ids; it then loads exactly those records (the decodable ones) and nothing else for the identity |
| PreKeyStore.PreKeyTable.constructor | lib/src/main/java/org/asamk/signal/manager/storage/prekeys/PreKeyStore.java:27-39 | a new table is empty |
| PreKeyStore.PreKeyStore.constructor | lib/src/main/java/org/asamk/signal/manager/storage/prekeys/PreKeyStore.java:41-44 | the store is bound to its table and its identity's account id type |
| PreKeyStore.PreKeyStore.GetPreKey | lib/src/main/java/org/asamk/signal/manager/storage/prekeys/PreKeyStore.java:140-164 | a record exactly when the identity's row exists and its keys decode; the record carries the asked id and a key pair |
| PreKeyStore.PreKeyStore.LoadPreKey | lib/src/main/java/org/asamk/signal/manager/storage/prekeys/PreKeyStore.java:46-53 | succeeds exactly when `getPreKey` finds a record and returns it, otherwise `InvalidKeyIdException` for that id |
| PreKeyStore.PreKeyStore.ContainsPreKey | lib/src/main/java/org/asamk/signal/manager/storage/prekeys/PreKeyStore.java:75-78 | true exactly when `getPreKey` finds a record, so an undecodable row is not contained |
| PreKeyStore.PreKeyStore.StorePreKey | lib/src/main/java/org/asamk/signal/manager/storage/prekeys/PreKeyStore.java:55-73 | a record without a key pair changes nothing and reports nothing; otherwise the insert's result: the new row, or a constraint failure with the table unchanged |
| PreKeyStore.PreKeyStore.RemovePreKey | lib/src/main/java/org/asamk/signal/manager/storage/prekeys/PreKeyStore.java:80-93 | exactly the row `(accountIdType, id)` is gone |
| PreKeyStore.PreKeyStore.RemoveAllPreKeys | lib/src/main/java/org/asamk/signal/manager/storage/prekeys/PreKeyStore.java:95-107 | exactly this identity's rows are gone |
| PreKeyStore.PreKeyStore.AddLegacyPreKeys | lib/src/main/java/org/asamk/signal/manager/storage/prekeys/PreKeyStore.java:109-138 | the loop's result is the delete followed by the batch insert of the importable records; on a duplicate id the transaction is not committed and the table is unchanged |
| SignedPreKeyStore.LegacyItems | lib/src/main/java/org/asamk/signal/manager/storage/prekeys/SignedPreKeyStore.java:149-158 | one row per legacy record, in order, under the record's own id, holding its key pair, signature and timestamp |
| SignedPreKeyStore.StoreThenLoad | lib/src/main/java/org/asamk/signal/manager/storage/prekeys/SignedPreKeyStore.java:78-97 | a stored signed pre-key whose keys decode loads back as the same record; every other id of every identity loads as before |
| SignedPreKeyStore.LegacyImportEffect | lib/src/main/java/org/asamk/signal/manager/storage/prekeys/SignedPreKeyStore.java:133-165 | the import succeeds if and only if the records' ids are distinct; the identity's loadable keys are then exactly the decodable records of the batch |
| SignedPreKeyStore.LoadedOneMore | lib/src/main/java/org/asamk/signal/manager/storage/prekeys/SignedPreKeyStore.java:69-70 | reading one more row of the identity adds its record exactly when its keys decode (the `nonNull` filter) |
| SignedPreKeyStore.SignedPreKeyTable.constructor | lib/src/main/java/org/asamk/signal/manager/storage/prekeys/SignedPreKeyStore.java:30-44 | a new table is empty |
| SignedPreKeyStore.SignedPreKeyStore.constructor | lib/src/main/java/org/asamk/signal/manager/storage/prekeys/SignedPreKeyStore.java:46-49 | the store is bound to its table and its identity's account id type |
| SignedPreKeyStore.SignedPreKeyStore.GetSignedPreKey | lib/src/main/java/org/asamk/signal/manager/storage/prekeys/SignedPreKeyStore.java:167-194 | a record exactly when the identity's row exists and its keys decode; the record carries the asked id |
| SignedPreKeyStore.SignedPreKeyStore.LoadSignedPreKey | lib/src/main/java/org/asamk/signal/manager/storage/prekeys/SignedPreKeyStore.java:51-58 | succeeds exactly when `getSignedPreKey` finds a record and returns it, otherwise `InvalidKeyIdException` for that id |
| SignedPreKeyStore.SignedPreKeyStore.LoadSignedPreKeys | lib/src/main/java/org/asamk/signal/manager/storage/prekeys/SignedPreKeyStore.java:60-75 | the set of returned records is exactly the identity's decodable rows read back, with no key id twice |
| SignedPreKeyStore.SignedPreKeyStore.ContainsSignedPreKey | lib/src/main/java/org/asamk/signal/manager/storage/prekeys/SignedPreKeyStore.java:99-102 | true exactly when `getSignedPreKey` finds a record |
| SignedPreKeyStore.SignedPreKeyStore.StoreSignedPreKey | lib/src/main/java/org/asamk/signal/manager/storage/prekeys/SignedPreKeyStore.java:77-97 | the insert's result: the new row, or a constraint failure with the table unchanged |
| SignedPreKeyStore.SignedPreKeyStore.RemoveSignedPreKey | lib/src/main/java/org/asamk/signal/manager/storage/prekeys/SignedPreKeyStore.java:104-117 | exactly the row `(accountIdType, id)` is gone |
| SignedPreKeyStore.SignedPreKeyStore.RemoveAllSignedPreKeys | lib/src/main/java/org/asamk/signal/manager/storage/prekeys/SignedPreKeyStore.java:119-131 | exactly this identity's rows are gone |
| SignedPreKeyStore.SignedPreKeyStore.AddLegacySignedPreKeys | lib/src/main/java/org/asamk/signal/manager/storage/prekeys/SignedPreKeyStore.java:133-165 | the loop's result is the delete followed by the batch insert of every record; on a duplicate id nothing is committed and the table is unchanged |
| SenderKeySharedStore.ToEntry | lib/src/main/java/org/asamk/signal/manager/storage/senderKeys/SenderKeySharedStore.java:65 | a protocol address whose name is a UUID becomes an entry whose service id prints back as that name when the name is lower case |
| SenderKeySharedStore.ParseEntries | lib/src/main/java/org/asamk/signal/manager/storage/senderKeys/SenderKeySharedStore.java:64-66 | succeeds exactly when every name parses as a service id, giving exactly the entries of the addresses; otherwise fails naming an address that does not parse |
| SenderKeySharedStore.FirstInvalidName | lib/src/main/java/org/asamk/signal/manager/storage/senderKeys/SenderKeySharedStore.java:64-66 | the name on which the stream throws is the name of an address that does not parse |
| SenderKeySharedStore.ClearEntries | lib/src/main/java/org/asamk/signal/manager/storage/senderKeys/SenderKeySharedStore.java:78-80 | exactly the entries of the addresses whose names are UUIDs; the others are skipped |
| SenderKeySharedStore.Mark | lib/src/main/java/org/asamk/signal/manager/storage/senderKeys/SenderKeySharedStore.java:169-183 | `INSERT OR REPLACE`: the rows are the old ones plus one per entry under the distribution; each entry's row holds `now`; every other row keeps its timestamp |
| SenderKeySharedStore.Clear | lib/src/main/java/org/asamk/signal/manager/storage/senderKeys/SenderKeySharedStore.java:77-97 | the rows left are exactly the old rows whose entry is not cleared, each with its old timestamp |
| SenderKeySharedStore.SharedWith | lib/src/main/java/org/asamk/signal/manager/storage/senderKeys/SenderKeySharedStore.java:47-60 | every row of the distribution appears as its protocol address, and every address returned names a row of the distribution |
| SenderKeySharedStore.MarkShares | lib/src/main/java/org/asamk/signal/manager/storage/senderKeys/SenderKeySharedStore.java:62-75 | after marking, every marked address is shared with (a lower-case name exactly as given); addresses already shared stay shared; unmarked rows keep their timestamps |
| SenderKeySharedStore.MarkKeeps | lib/src/main/java/org/asamk/signal/manager/storage/senderKeys/SenderKeySharedStore.java:169-183 | `INSERT OR REPLACE` never removes a row and keeps the timestamp of every row it does not mark |
| SenderKeySharedStore.MarkKeepsOtherDistributions | lib/src/main/java/org/asamk/signal/manager/storage/senderKeys/SenderKeySharedStore.java:169-183 | marking under one distribution leaves the addresses of every other distribution unchanged |
| SenderKeySharedStore.MarkIdempotent | lib/src/main/java/org/asamk/signal/manager/storage/senderKeys/SenderKeySharedStore.java:169-183 | marking the same entries again adds no row and only refreshes their timestamps |
| SenderKeySharedStore.ClearRemovesEntries | lib/src/main/java/org/asamk/signal/manager/storage/senderKeys/SenderKeySharedStore.java:77-97 | after clearing, no cleared entry has a row in any distribution, and every other row is kept with its timestamp |
| SenderKeySharedStore.MarkThenClear | lib/src/main/java/org/asamk/signal/manager/storage/senderKeys/SenderKeySharedStore.java:62-97 | an address marked and then cleared is no longer shared with |
| SenderKeySharedStore.SenderKeySharedStore.constructor | lib/src/main/java/org/asamk/signal/manager/storage/senderKeys/SenderKeySharedStore.java:43-45 | a new store is empty |
| SenderKeySharedStore.SenderKeySharedStore.GetSenderKeySharedWith | lib/src/main/java/org/asamk/signal/manager/storage/senderKeys/SenderKeySharedStore.java:47-60 | the addresses of the distribution's rows, with the guarantees of `SharedWith` |
| SenderKeySharedStore.SenderKeySharedStore.MarkSenderKeySharedWith | lib/src/main/java/org/asamk/signal/manager/storage/senderKeys/SenderKeySharedStore.java:62-75 | fails exactly when some name does not parse, leaving the table unchanged; otherwise upserts every entry under the distribution with the time `now` |
| SenderKeySharedStore.SenderKeySharedStore.MarkEntries | lib/src/main/java/org/asamk/signal/manager/storage/senderKeys/SenderKeySharedStore.java:169-183 | the loop upserts every entry under the distribution with the time `now` and changes nothing else |
| SenderKeySharedStore.SenderKeySharedStore.ClearSenderKeySharedWith | lib/src/main/java/org/asamk/signal/manager/storage/senderKeys/SenderKeySharedStore.java:77-97 | removes every row, in any distribution, of the entries whose names are UUIDs, and nothing else |
| SenderKeySharedStore.SenderKeySharedStore.DeleteEntries | lib/src/main/java/org/asamk/signal/manager/storage/senderKeys/SenderKeySharedStore.java:86-92 | the loop removes exactly the rows whose service id and device are among the entries |
| SenderKeySharedStore.SenderKeySharedStore.DeleteAll | lib/src/main/java/org/asamk/signal/manager/storage/senderKeys/SenderKeySharedStore.java:99-108 | the table is empty |
| SenderKeySharedStore.SenderKeySharedStore.DeleteAllForServiceId | lib/src/main/java/org/asamk/signal/manager/storage/senderKeys/SenderKeySharedStore.java:110-122 | exactly the rows of the service id are gone, for every device and distribution |
| SenderKeySharedStore.SenderKeySharedStore.DeleteSharedWith | lib/src/main/java/org/asamk/signal/manager/storage/senderKeys/SenderKeySharedStore.java:124-139 | exactly the one row `(serviceId, deviceId, distributionId)` is gone |
| SenderKeySharedStore.SenderKeySharedStore.DeleteAllForDistribution | lib/src/main/java/org/asamk/signal/manager/storage/senderKeys/SenderKeySharedStore.java:141-152 | exactly the rows of the distribution are gone, so it is shared with no one |
| SenderKeySharedStore.SenderKeySharedStore.AddLegacySenderKeysShared | lib/src/main/java/org/asamk/signal/manager/storage/senderKeys/SenderKeySharedStore.java:154-167 | the loop upserts every entry of every distribution of the legacy map with the time `now` and keeps every other row |
| AccountDatabase.CreateTables | lib/src/main/java/org/asamk/signal/manager/storage/AccountDatabase.java:51-185 | a step's `CREATE TABLE`s, on success, add exactly the named tables and change nothing else; a failure is `TableExists` for one of the named tables |
| AccountDatabase.AddUrgent | lib/src/main/java/org/asamk/signal/manager/storage/AccountDatabase.java:186-192 | step 9 succeeds exactly when the content table exists without an `urgent` column, so a second run fails; errors name the content table; the set of tables is unchanged |
| AccountDatabase.AddPni | lib/src/main/java/org/asamk/signal/manager/storage/AccountDatabase.java:263-268 | step 11 succeeds exactly when the recipient table exists without a `pni` column, so a second run fails; errors name the recipient table; the set of tables is unchanged |
| AccountDatabase.RekeyTablesAsWritten | lib/src/main/java/org/asamk/signal/manager/storage/AccountDatabase.java:193-262 | step 10 as written: a failure is a missing table that is not there; on success the set of tables and the recipient table are unchanged |
| AccountDatabase.Step | lib/src/main/java/org/asamk/signal/manager/storage/AccountDatabase.java:50-269 | the body of one `if (oldVersion < N)` block: steps 2 to 8 create their tables, step 9 adds `urgent`, step 10 re-keys as written, step 11 adds `pni`; a failure is `TableExists` exactly for the creating steps 2 to 8 (the effect of each step on success is `StepEffect`) |
| AccountDatabase.RekeyTablesAsWrittenDiffers | lib/src/main/java/org/asamk/signal/manager/storage/AccountDatabase.java:193-262 | step 10 as written succeeds exactly when every table it needs exists; it then differs from the intended row-by-row step 10 only in the send log, which it updates as written; a failure is the same as the intended step's |
| AccountDatabase.StepEffect | lib/src/main/java/org/asamk/signal/manager/storage/AccountDatabase.java:50-269 | on success only steps 2 to 8 add tables, exactly those they name; no step loses a recipient or changes its UUID; a `TableExists` error comes only from steps 2 to 8 |
| AccountDatabase.CreatingStepEffect | lib/src/main/java/org/asamk/signal/manager/storage/AccountDatabase.java:51-185 | a step from 2 to 8, on success, adds exactly its tables and changes nothing else; its only failure is `TableExists` |
| AccountDatabase.AlteringStepEffect | lib/src/main/java/org/asamk/signal/manager/storage/AccountDatabase.java:186-268 | steps 9 to 11 keep the set of tables and every recipient's UUID, and never fail with `TableExists` |
| AccountDatabase.UpgradeFrom | lib/src/main/java/org/asamk/signal/manager/storage/AccountDatabase.java:50-269 | on success, from step `n` on, every table of a step that ran exists; recipients and their UUIDs are kept; rows keyed by UUID stay so; once step 10 has run, every key-table and send-log row is keyed by UUID |
| AccountDatabase.Upgrade | lib/src/main/java/org/asamk/signal/manager/storage/AccountDatabase.java:50-269 | a successful upgrade has every table of the steps above `oldVersion`, keeps every recipient and its UUID, and, from below version 10, leaves every key-table and send-log row keyed by UUID |
| AccountDatabase.CreateTablesEffect | lib/src/main/java/org/asamk/signal/manager/storage/AccountDatabase.java:51-185 | a step's `CREATE TABLE`s of distinct tables succeed exactly when none exists yet, then add exactly those tables; otherwise the error names one that exists |
| AccountDatabase.Missing | lib/src/main/java/org/asamk/signal/manager/storage/AccountDatabase.java:193-262 | the first table step 10 needs that is not there: none exactly when all are present |
| AccountDatabase.RekeyTables | lib/src/main/java/org/asamk/signal/manager/storage/AccountDatabase.java:193-262 | step 10 as intended, with the send log re-keyed row by row, succeeds exactly when every table it reads and replaces exists |
| AccountDatabase.StepsFromContents | lib/src/main/java/org/asamk/signal/manager/storage/AccountDatabase.java:50-269 | from step `n` on, the steps run are exactly those above `oldVersion` and up to 11 |
| AccountDatabase.StepsFromAscending | lib/src/main/java/org/asamk/signal/manager/storage/AccountDatabase.java:50-269 | from step `n` on, the steps run come in ascending order |
| AccountDatabase.StepsRun | lib/src/main/java/org/asamk/signal/manager/storage/AccountDatabase.java:50-269 | `upgradeDatabase(oldVersion)` runs exactly steps N with 2 <= N <= 11 and `oldVersion < N`, ascending |
| AccountDatabase.LadderRunsListedSteps | lib/src/main/java/org/asamk/signal/manager/storage/AccountDatabase.java:50-269 | the ladder from step `n` on equals running the listed steps one after the other, stopping at the first failure |
| AccountDatabase.UpgradeRunsSteps | lib/src/main/java/org/asamk/signal/manager/storage/AccountDatabase.java:50-269 | an upgrade is exactly the steps above `oldVersion`, in order, stopping at the first failure |
| AccountDatabase.LadderRuns | lib/src/main/java/org/asamk/signal/manager/storage/AccountDatabase.java:50-269 | a block `if (oldVersion < N)` with N above `oldVersion` runs its step and the ladder goes on from the result; a failure ends the upgrade with that error |
| AccountDatabase.LadderSkips | lib/src/main/java/org/asamk/signal/manager/storage/AccountDatabase.java:50-269 | a step at or below `oldVersion` is skipped |
| AccountDatabase.LadderAdvances | lib/src/main/java/org/asamk/signal/manager/storage/AccountDatabase.java:50-269 | in the list of steps to run, a step above `oldVersion` runs first and the rest run on its result, or its failure ends the run; a step at or below it is not in the list |
| AccountDatabase.AddPniKeeps | lib/src/main/java/org/asamk/signal/manager/storage/AccountDatabase.java:263-268 | adding the `pni` column keeps every recipient and its UUID |
| AccountDatabase.CurrentVersionUnchanged | lib/src/main/java/org/asamk/signal/manager/storage/AccountDatabase.java:25 | a database already at version 11 (`DATABASE_VERSION`) runs no step and is unchanged |
| AccountDatabase.RekeyEffect | lib/src/main/java/org/asamk/signal/manager/storage/AccountDatabase.java:203-206 | the `INSERT ... SELECT ... LEFT JOIN recipient ... WHERE uuid IS NOT NULL` keeps exactly the rows whose recipient has a UUID, with the same `_id` and columns and that UUID as owner |
| AccountDatabase.RekeyKeepsUnique | lib/src/main/java/org/asamk/signal/manager/storage/AccountDatabase.java:218-258 | with `recipient.uuid` unique, re-keying keeps each table's `UNIQUE` constraint, so the copy never conflicts |
| AccountDatabase.RekeyIdempotent | lib/src/main/java/org/asamk/signal/manager/storage/AccountDatabase.java:193-262 | re-keying an already re-keyed table changes nothing |
| AccountDatabase.AddUrgentEffect | lib/src/main/java/org/asamk/signal/manager/storage/AccountDatabase.java:186-192 | step 9 adds the `urgent` column and every existing content row becomes urgent (`DEFAULT TRUE`), other columns kept |
| AccountDatabase.AddPniEffect | lib/src/main/java/org/asamk/signal/manager/storage/AccountDatabase.java:263-268 | step 11 adds the `pni` column, NULL for every recipient, and keeps every recipient's UUID |
| AccountDatabase.SendLogMisattributed | lib/src/main/java/org/asamk/signal/manager/storage/AccountDatabase.java:211-215 | as written, with two send-log rows of two recipients with distinct UUIDs, the second row gets the first recipient's UUID, which row-by-row re-keying does not give |
| AccountDatabase.SendLogAsWritten | lib/src/main/java/org/asamk/signal/manager/storage/AccountDatabase.java:209-215 | the send-log update as written keeps a subset of the rows with their other columns, all keyed by UUID, and keeps none when no log row joins a recipient |
| AccountDatabase.SendLogAsWrittenOwners | lib/src/main/java/org/asamk/signal/manager/storage/AccountDatabase.java:209-215 | with the picked row taken from the join, every kept log row carries the UUID of some recipient that has log rows |
| AccountDatabase.SendLogAsWrittenOneRecipient | lib/src/main/java/org/asamk/signal/manager/storage/AccountDatabase.java:209-215 | when all log rows belong to one recipient, the update as written gives exactly the row-by-row re-keyed table, so the defect needs two recipients |
| AccountDatabase.SendLogAsWrittenUniform | lib/src/main/java/org/asamk/signal/manager/storage/AccountDatabase.java:211-215 | as written, when SQLite uses one join row for every update, all kept send-log rows carry the same UUID |
| AccountDatabase.AccountDatabase.constructor | lib/src/main/java/org/asamk/signal/manager/storage/AccountDatabase.java:27-33 | the database starts with the given contents and no store has created tables |
| AccountDatabase.AccountDatabase.CreateDatabase | lib/src/main/java/org/asamk/signal/manager/storage/AccountDatabase.java:36-47 | the ten stores run their `createSql` in the listed order; when none of their tables exists, the database gets exactly those tables, in their current form, and the stores are recorded as created; otherwise the outcome is the first `TableExists` failure; no ladder step runs |
| AccountDatabase.AccountDatabase.RunCreateSql | lib/src/main/java/org/asamk/signal/manager/storage/AccountDatabase.java:37-46 | the loop over the stores' `createSql` calls ends in the state and outcome of creating the stores' tables in turn, stopping at the first failure |
| AccountDatabase.CreateStoresEffect | lib/src/main/java/org/asamk/signal/manager/storage/prekeys/PreKeyStore.java:27-39 | creating the stores' tables with plain `CREATE TABLE` adds exactly their tables on success and changes nothing else; a failure is `TableExists` of one of their tables |
| AccountDatabase.CreateStoresSucceeds | lib/src/main/java/org/asamk/signal/manager/storage/senderKeys/SenderKeySharedStore.java:30-41 | when no table is owned twice, creating the stores succeeds exactly when none of their tables exists yet |
| AccountDatabase.CreateOrderOwnedOnce | lib/src/main/java/org/asamk/signal/manager/storage/AccountDatabase.java:37-46 | the ten stores `createDatabase` calls are distinct and no table belongs to two of them |
| AccountDatabase.CreateDatabaseSucceeds | lib/src/main/java/org/asamk/signal/manager/storage/AccountDatabase.java:36-47 | `createDatabase` succeeds exactly on a database that holds none of the stores' tables, so it fails on a database that already has one |
| AccountDatabase.AccountDatabase.RunStep | lib/src/main/java/org/asamk/signal/manager/storage/AccountDatabase.java:50-269 | the result of the step as written, with step 10's send-log update taking the given join rows: the new database, or its error with the database unchanged |
| AccountDatabase.AccountDatabase.RunBlock | lib/src/main/java/org/asamk/signal/manager/storage/AccountDatabase.java:50-269 | one block `if (oldVersion < N)`: the steps still to run from N on equal, after the block, those from N + 1 on, or the block's failure ends them |
| AccountDatabase.AccountDatabase.UpgradeDatabase | lib/src/main/java/org/asamk/signal/manager/storage/AccountDatabase.java:50-269 | the loop's outcome and new database are those of running the steps above `oldVersion` one after the other, stopping at the first failure; with `UpgradeRunsSteps` this is the ladder `Upgrade` as written, with the properties `Upgrade` states |
| DataStreams.ValueOfBigEndian | lib/src/main/java/org/asamk/signal/manager/util/MessageCacheUtils.java:99-119 | reading back `n` big-endian bytes of a number below 256^n gives the number |
| DataStreams.ReadUnsignedEncoded | lib/src/main/java/org/asamk/signal/manager/util/MessageCacheUtils.java:27 | reading `n` bytes from an encoding followed by more bytes gives the number and exactly the bytes after it |
| DataStreams.EncodeInt | lib/src/main/java/org/asamk/signal/manager/util/MessageCacheUtils.java:99-100 | `writeInt` writes four bytes |
| DataStreams.ReadIntEncoded | lib/src/main/java/org/asamk/signal/manager/util/MessageCacheUtils.java:27 | `readInt` of what `writeInt` wrote gives the same `int`, negative values included, and leaves the following bytes |
| DataStreams.EncodeLong | lib/src/main/java/org/asamk/signal/manager/util/MessageCacheUtils.java:105 | `writeLong` writes eight bytes |
| DataStreams.ReadLongEncoded | lib/src/main/java/org/asamk/signal/manager/util/MessageCacheUtils.java:49 | `readLong` of what `writeLong` wrote gives the same `long` and leaves the following bytes |
| DataStreams.ReadBoolEncoded | lib/src/main/java/org/asamk/signal/manager/util/MessageCacheUtils.java:76 | `readBoolean` of what `writeBoolean` wrote gives the same value and leaves the following bytes |
| DataStreams.ReadBytes | lib/src/main/java/org/asamk/signal/manager/util/MessageCacheUtils.java:53-54 | `readFully` of `n` bytes gives exactly `n` bytes or fails at end of file |
| DataStreams.ReadBytesEncoded | lib/src/main/java/org/asamk/signal/manager/util/MessageCacheUtils.java:53-54 | `readFully` gives back the bytes `write` wrote and leaves the following bytes |
| DataStreams.EncodeUnit | lib/src/main/java/org/asamk/signal/manager/util/MessageCacheUtils.java:101 | modified UTF-8 writes each UTF-16 code unit in one to three bytes |
| DataStreams.ModifiedUtf8 | lib/src/main/java/org/asamk/signal/manager/util/MessageCacheUtils.java:101 | the encoded form of a string is between one and three bytes per code unit |
| DataStreams.DecodeEncodedUnit | lib/src/main/java/org/asamk/signal/manager/util/MessageCacheUtils.java:35 | the lead byte of an encoded unit tells its length, its continuation bytes have the form `10xxxxxx`, and decoding them gives the unit back |
| DataStreams.TwoByteUnit | lib/src/main/java/org/asamk/signal/manager/util/MessageCacheUtils.java:101 | U+0000 and U+0080..U+07FF take two bytes that decode to the unit |
| DataStreams.ThreeByteUnit | lib/src/main/java/org/asamk/signal/manager/util/MessageCacheUtils.java:101 | code units above U+07FF take three bytes that decode to the unit |
| DataStreams.DecodeModifiedUtf8Encoded | lib/src/main/java/org/asamk/signal/manager/util/MessageCacheUtils.java:35 | decoding the modified UTF-8 form of any Java string gives the string back, lone surrogates and U+0000 included |
| DataStreams.EncodeUtf | lib/src/main/java/org/asamk/signal/manager/util/MessageCacheUtils.java:101-119 | `writeUTF` fails exactly when the encoded form is longer than 65535 bytes; otherwise it writes the two-byte length and the form |
| DataStreams.ReadUtfEncoded | lib/src/main/java/org/asamk/signal/manager/util/MessageCacheUtils.java:35-85 | `readUTF` of what `writeUTF` wrote gives the same string and leaves the following bytes |
| DataStreams.UnitsOf | lib/src/main/java/org/asamk/signal/manager/util/MessageCacheUtils.java:101-119 | a text of characters below the surrogate range is a Java string of as many code units |
| DataStreams.TextOf | lib/src/main/java/org/asamk/signal/manager/util/MessageCacheUtils.java:35-85 | a Java string read back as text has only characters below the surrogate range |
| DataStreams.TextOfUnitsOf | lib/src/main/java/org/asamk/signal/manager/util/MessageCacheUtils.java:35-85 | such a text read back from its code units is the same text |
| MessageCache.UnknownUuidText | lib/src/main/java/org/asamk/signal/manager/util/MessageCacheUtils.java:91 | the destination given to files older than version 5 is the 36-character text of the all-zero UUID |
| MessageCache.ParseServiceIdText | lib/src/main/java/org/asamk/signal/manager/util/MessageCacheUtils.java:38 | `ServiceId.parseOrNull` gives nothing for a string that is not 36 units long |
| MessageCache.ServiceIdText | lib/src/main/java/org/asamk/signal/manager/util/MessageCacheUtils.java:102 | the source text `storeEnvelope` writes is 36 units long and parses back to the same service id |
| MessageCache.ReadUtfIfWritten | lib/src/main/java/org/asamk/signal/manager/util/MessageCacheUtils.java:37-85 | a string field written only for some versions reads back exactly when written, leaving the following bytes |
| MessageCache.ReadLongIfWritten | lib/src/main/java/org/asamk/signal/manager/util/MessageCacheUtils.java:63-73 | a `long` field present only in some versions reads back exactly when written |
| MessageCache.ReadBoolIfWritten | lib/src/main/java/org/asamk/signal/manager/util/MessageCacheUtils.java:75-81 | a `boolean` field present only in some versions reads back exactly when written |
| MessageCache.ReadHeaderWritten | lib/src/main/java/org/asamk/signal/manager/util/MessageCacheUtils.java:34-49 | the header fields of a file of any version read back as written: type, source, service id (version 3 on), device, relay (version 1 only), destination (version 5 on), timestamp |
| MessageCache.ReadPayloadWritten | lib/src/main/java/org/asamk/signal/manager/util/MessageCacheUtils.java:50-60 | the content and legacy message read back after their lengths |
| MessageCache.ReadTrailerWritten | lib/src/main/java/org/asamk/signal/manager/util/MessageCacheUtils.java:61-85 | the fields versions 2 to 8 added read back exactly when the file's version has them |
| MessageCache.NewerVersionRejected | lib/src/main/java/org/asamk/signal/manager/util/MessageCacheUtils.java:29-33 | a file whose version is above 8 loads as no envelope, whatever follows |
| MessageCache.DecodeLayout | lib/src/main/java/org/asamk/signal/manager/util/MessageCacheUtils.java:24-94 | every file of version 1 to 8 (and every version below) loads as the envelope its fields describe, with the defaults (server timestamps 0, urgent, story, unknown destination, empty PNI) of the fields it lacks, and an empty server GUID read as none |
| MessageCache.NumberOf | lib/src/main/java/org/asamk/signal/manager/util/MessageCacheUtils.java:86-88 | the number the `SignalServiceAddress` of a loaded envelope keeps: absent exactly when the legacy number read is empty, else that number |
| MessageCache.Assemble | lib/src/main/java/org/asamk/signal/manager/util/MessageCacheUtils.java:86-92 | the envelope built from the fields read has a source exactly when the service id parses, never an empty number, content exactly when its length is positive, no empty server GUID, and the defaults (server timestamps 0, urgent, story, unknown destination, empty PNI) of the fields the file lacks |
| MessageCache.AssembleExpected | lib/src/main/java/org/asamk/signal/manager/util/MessageCacheUtils.java:86-92 | the envelope built from the fields read is the one the file describes |
| MessageCache.SourceText | lib/src/main/java/org/asamk/signal/manager/util/MessageCacheUtils.java:102 | the source field is empty or a 36-unit service id text |
| MessageCache.ShortFits | lib/src/main/java/org/asamk/signal/manager/util/MessageCacheUtils.java:101-119 | a string of at most 36 units always fits `writeUTF` |
| MessageCache.FileOf | lib/src/main/java/org/asamk/signal/manager/util/MessageCacheUtils.java:96-122 | a stored file is of version 8; each part can be written exactly when its strings fit `writeUTF` and the content fits an array |
| MessageCache.ExpectedOfFile | lib/src/main/java/org/asamk/signal/manager/util/MessageCacheUtils.java:24-122 | the envelope a stored file describes is the stored envelope with the legacy number absent, empty content and server GUID absent, absent destination and PNI empty |
| MessageCache.LoadOfStore | lib/src/main/java/org/asamk/signal/manager/util/MessageCacheUtils.java:24-122 | store then load gives back type, device, all three timestamps, urgency, story flag, updated PNI, destination and source service id; the legacy number comes back absent; non-empty content and GUID exactly, empty ones as absent |
| MessageCache.StoreLoadFixedPoint | lib/src/main/java/org/asamk/signal/manager/util/MessageCacheUtils.java:24-122 | a loaded envelope stored again loads back unchanged |
| MessageCache.WriteHeader | lib/src/main/java/org/asamk/signal/manager/util/MessageCacheUtils.java:99-105 | the header writes succeed exactly when the destination fits `writeUTF`, and append exactly the version-8 header bytes |
| MessageCache.WritePayload | lib/src/main/java/org/asamk/signal/manager/util/MessageCacheUtils.java:106-112 | appends the content (or an empty run) after its length, then an empty legacy message |
| MessageCache.WriteTrailer | lib/src/main/java/org/asamk/signal/manager/util/MessageCacheUtils.java:113-119 | the trailer writes succeed exactly when the server GUID and PNI fit `writeUTF`, and append exactly the version-8 trailer bytes |
| MessageCache.StoreEnvelope | lib/src/main/java/org/asamk/signal/manager/util/MessageCacheUtils.java:96-122 | succeeds exactly when the envelope's strings fit `writeUTF` and then writes exactly the version-8 layout of the envelope; otherwise fails with `UTFDataFormatException` |
| MessageCache.LoadHeader | lib/src/main/java/org/asamk/signal/manager/util/MessageCacheUtils.java:34-49 | the reads give the specified header decoding, failing at the first short read |
| MessageCache.LoadPayload | lib/src/main/java/org/asamk/signal/manager/util/MessageCacheUtils.java:50-60 | the reads give the specified payload decoding; a run is read only when its length is positive |
| MessageCache.LoadTrailer | lib/src/main/java/org/asamk/signal/manager/util/MessageCacheUtils.java:61-85 | the reads give the specified decoding of the later fields, each read only if the version has it |
| MessageCache.LoadEnvelope | lib/src/main/java/org/asamk/signal/manager/util/MessageCacheUtils.java:24-94 | the reads give the specified decoding of the file, whose round trip with `StoreEnvelope` `LoadOfStore` states |
| SendMessageResult.FlagCount | lib/src/main/java/org/asamk/signal/manager/api/SendMessageResult.java:12-16 | a result has at most five flags set |
| SendMessageResult.SuccessOf | lib/src/main/java/org/asamk/signal/manager/api/SendMessageResult.java:32-34 | a success for the address, with no other flag and no proof-required failure |
| SendMessageResult.NetworkFailureOf | lib/src/main/java/org/asamk/signal/manager/api/SendMessageResult.java:36-38 | a network failure for the address, with no other flag |
| SendMessageResult.UnregisteredFailureOf | lib/src/main/java/org/asamk/signal/manager/api/SendMessageResult.java:40-42 | an unregistered failure for the address, with no other flag |
| SendMessageResult.IdentityFailureOf | lib/src/main/java/org/asamk/signal/manager/api/SendMessageResult.java:44-46 | an identity failure for the address, with no other flag |
| SendMessageResult.IdentityKeyIgnored | lib/src/main/java/org/asamk/signal/manager/api/SendMessageResult.java:44-46 | the identity key passed to the factory does not change the result |
| SendMessageResult.ProofRequiredFailureOf | lib/src/main/java/org/asamk/signal/manager/api/SendMessageResult.java:48-51 | a proof-required failure is a network failure without the rate-limit flag and keeps its exception |
| SendMessageResult.From | lib/src/main/java/org/asamk/signal/manager/api/SendMessageResult.java:53-65 | the flags of the library's result; identity failure exactly when its identity failure is present; rate-limit failure exactly when a rate-limit or a proof-required failure is present; the proof-required exception wraps the library's failure |
| SendMessageResult.ProofRequiredPaths | lib/src/main/java/org/asamk/signal/manager/api/SendMessageResult.java:48-65 | the two ways to a proof-required result agree on the exception and the network flag but not on the rate-limit flag |
| SendMessageResult.FromAgreesWithFactories | lib/src/main/java/org/asamk/signal/manager/api/SendMessageResult.java:32-65 | a library result with one plain outcome maps to the factory result for that outcome |
| SendMessageResults.CountZero | lib/src/main/java/org/asamk/signal/manager/api/SendMessageResults.java:22 | the sum of the list sizes is zero exactly when every list is empty |
| SendMessageResults.EmptyResults | lib/src/main/java/org/asamk/signal/manager/api/SendMessageResults.java:20-28 | with no results at all the send reports success and not only-untrusted-identity |
| SendMessageResults.OnlyUntrustedIsNoSuccess | lib/src/main/java/org/asamk/signal/manager/api/SendMessageResults.java:20-28 | when every result has one flag, a send whose results are all identity failures reports no success |
| SendMessageResults.AnySuccessIsSuccess | lib/src/main/java/org/asamk/signal/manager/api/SendMessageResults.java:20-23 | one successful result is enough for `hasSuccess()`, whatever else failed |
| SendMessageResults.SendMessageResults.constructor | lib/src/main/java/org/asamk/signal/manager/api/SendMessageResults.java:14-18 | keeps the timestamp and the results |
| SendMessageResults.SendMessageResults.HasSuccess | lib/src/main/java/org/asamk/signal/manager/api/SendMessageResults.java:20-23 | true exactly when some result is a success or the sum of the list sizes is zero |
| SendMessageResults.SendMessageResults.HasOnlyUntrustedIdentity | lib/src/main/java/org/asamk/signal/manager/api/SendMessageResults.java:25-28 | true exactly when every result is an identity failure and the sum of the list sizes is positive |
| SendMessageResults.SendMessageResults.SetResults | lib/src/main/java/org/asamk/signal/manager/api/SendMessageResults.java:34-36 | the results are replaced by the new map |
| TrustLevel.Ordinal | lib/src/main/java/org/asamk/signal/manager/api/TrustLevel.java:6-9 | a level's ordinal is its position in `values()` |
| TrustLevel.FromIdentityState | lib/src/main/java/org/asamk/signal/manager/api/TrustLevel.java:20-32 | no level exactly for `UNRECOGNIZED` |
| TrustLevel.ToVerifiedState | lib/src/main/java/org/asamk/signal/manager/api/TrustLevel.java:46-56 | `fromVerifiedState` of the state a level converts to gives the level back |
| TrustLevel.FromVerifiedState | lib/src/main/java/org/asamk/signal/manager/api/TrustLevel.java:34-44 | `UNVERIFIED` and only it gives `UNTRUSTED`; `VERIFIED` and only it gives `TRUSTED_VERIFIED` |
| TrustLevel.IsTrusted | lib/src/main/java/org/asamk/signal/manager/api/TrustLevel.java:58-67 | a level is trusted exactly when its ordinal is at least that of `TRUSTED_UNVERIFIED`, that is, exactly when it is not `UNTRUSTED` |
| TrustLevel.VerifiedStateBijection | lib/src/main/java/org/asamk/signal/manager/api/TrustLevel.java:34-56 | `toVerifiedState` is one-to-one and `fromVerifiedState` is its inverse in both directions |
| TrustLevel.IdentityStateAgrees | lib/src/main/java/org/asamk/signal/manager/api/TrustLevel.java:20-44 | the storage state and the sync state of the same name give the same level |
| TrustLevel.TrustLevelCache.constructor | lib/src/main/java/org/asamk/signal/manager/api/TrustLevel.java:11 | the cache starts empty (`null`) |
| TrustLevel.TrustLevelCache.FromInt | lib/src/main/java/org/asamk/signal/manager/api/TrustLevel.java:13-18 | fills the cache with `values()`; succeeds exactly for 0 to 2, giving the level of that ordinal; otherwise `ArrayIndexOutOfBoundsException` |
| ConfigurationStore.RestoredAsWritten | lib/src/main/java/org/asamk/signal/manager/storage/configuration/ConfigurationStore.java:23-31 | the snapshot `fromStorage` restores, as written: every setting of the saved snapshot except `phoneNumberUnlisted`, which is null |
| ConfigurationStore.UnlistedSettingLost | lib/src/main/java/org/asamk/signal/manager/storage/configuration/ConfigurationStore.java:23-31 | as written, a saved `phoneNumberUnlisted = true` does not survive a reload |
| ConfigurationStore.ConfigurationStore.ToStorage | lib/src/main/java/org/asamk/signal/manager/storage/configuration/ConfigurationStore.java:87-90 | the snapshot holds the six current settings |
| ConfigurationStore.ConfigurationStore.constructor | lib/src/main/java/org/asamk/signal/manager/storage/configuration/ConfigurationStore.java:19-21 | every setting is null and nothing has been saved |
| ConfigurationStore.ConfigurationStore.FromStorageAsWritten | lib/src/main/java/org/asamk/signal/manager/storage/configuration/ConfigurationStore.java:23-31 | as written: the store shows the snapshot with `phoneNumberUnlisted` null, and the saver is not called |
| ConfigurationStore.ConfigurationStore.FromStorage | lib/src/main/java/org/asamk/signal/manager/storage/configuration/ConfigurationStore.java:23-31 | corrected: the store shows exactly the saved snapshot, so a reload gives back what the last setter saved |
| ConfigurationStore.ConfigurationStore.SetReadReceipts | lib/src/main/java/org/asamk/signal/manager/storage/configuration/ConfigurationStore.java:37-40 | only `readReceipts` changes, and the snapshot after the change is handed to the saver |
| ConfigurationStore.ConfigurationStore.SetUnidentifiedDeliveryIndicators | lib/src/main/java/org/asamk/signal/manager/storage/configuration/ConfigurationStore.java:46-49 | only `unidentifiedDeliveryIndicators` changes, and the new snapshot is saved |
| ConfigurationStore.ConfigurationStore.SetTypingIndicators | lib/src/main/java/org/asamk/signal/manager/storage/configuration/ConfigurationStore.java:55-58 | only `typingIndicators` changes, and the new snapshot is saved |
| ConfigurationStore.ConfigurationStore.SetLinkPreviews | lib/src/main/java/org/asamk/signal/manager/storage/configuration/ConfigurationStore.java:64-67 | only `linkPreviews` changes, and the new snapshot is saved |
| ConfigurationStore.ConfigurationStore.SetPhoneNumberUnlisted | lib/src/main/java/org/asamk/signal/manager/storage/configuration/ConfigurationStore.java:73-76 | only `phoneNumberUnlisted` changes, and the new snapshot is saved |
| ConfigurationStore.ConfigurationStore.SetPhoneNumberSharingMode | lib/src/main/java/org/asamk/signal/manager/storage/configuration/ConfigurationStore.java:82-85 | only the sharing mode changes (null allowed), and the new snapshot is saved |
| Configuration.OfSnapshot | lib/src/main/java/org/asamk/signal/manager/api/Configuration.java:26-31 | the configuration of a snapshot holds its first four settings, each present exactly when non-null |
| Configuration.From | lib/src/main/java/org/asamk/signal/manager/api/Configuration.java:26-31 | the configuration of a store is that of its current snapshot |
| Configuration.PhoneNumberSettingsNotCarried | lib/src/main/java/org/asamk/signal/manager/api/Configuration.java:26-31 | the phone-number settings never reach the configuration |
| Configuration.ReloadKeepsConfiguration | lib/src/main/java/org/asamk/signal/manager/api/Configuration.java:26-31 | the setting the reload loses is not one of the four, so the configuration survives a reload |
| LegacySenderKeyRecordStore.MatchName | lib/src/main/java/org/asamk/signal/manager/storage/senderKeys/LegacySenderKeyRecordStore.java:71-74 | a match splits the name into a digit group, `_`, a digit group, `_` and a group of digits, lower-case letters and `-`, which joined give the name back |
| LegacySenderKeyRecordStore.MatchOfComposed | lib/src/main/java/org/asamk/signal/manager/storage/senderKeys/LegacySenderKeyRecordStore.java:71 | every name of the pattern's shape matches with exactly its own groups, so matching is exact in both directions |
| LegacySenderKeyRecordStore.KeyOf | lib/src/main/java/org/asamk/signal/manager/storage/senderKeys/LegacySenderKeyRecordStore.java:80-81 | the key is built exactly when the device group is an `int` and the distribution group a UUID; an out-of-range device group is a `NumberFormatException` |
| LegacySenderKeyRecordStore.ParseFileNameAsWritten | lib/src/main/java/org/asamk/signal/manager/storage/senderKeys/LegacySenderKeyRecordStore.java:74-82 | as written: a name that does not match is skipped, one that matches is never skipped; it throws `NoSuchElementException` exactly when it matches, its recipient group parses and the recipient does not resolve; a key comes only from a resolved recipient |
| LegacySenderKeyRecordStore.ParseFileName | lib/src/main/java/org/asamk/signal/manager/storage/senderKeys/LegacySenderKeyRecordStore.java:74-82 | corrected: a name that does not match or whose recipient does not resolve is skipped; otherwise the key of its groups, or a parse error other than `NoSuchElementException` |
| LegacySenderKeyRecordStore.ParseFileNameDiffers | lib/src/main/java/org/asamk/signal/manager/storage/senderKeys/LegacySenderKeyRecordStore.java:74-82 | the written and the corrected parse agree except where the written one throws `NoSuchElementException`, and there the corrected one skips the name |
| LegacySenderKeyRecordStore.ParseFileNamesAsWritten | lib/src/main/java/org/asamk/signal/manager/storage/senderKeys/LegacySenderKeyRecordStore.java:73-83 | as written: the names in listing order, the first that throws ends the stream |
| LegacySenderKeyRecordStore.ParseFileNames | lib/src/main/java/org/asamk/signal/manager/storage/senderKeys/LegacySenderKeyRecordStore.java:73-83 | corrected: at most one key per name, unresolved recipients skipped, never a `NoSuchElementException` |
| LegacySenderKeyRecordStore.ParseFileNamesAgree | lib/src/main/java/org/asamk/signal/manager/storage/senderKeys/LegacySenderKeyRecordStore.java:73-83 | wherever the written pipeline gets through a listing, the corrected one gives the same keys |
| LegacySenderKeyRecordStore.OverlongRecipientThrows | lib/src/main/java/org/asamk/signal/manager/storage/senderKeys/LegacySenderKeyRecordStore.java:76 | a matching name whose recipient digits exceed a `long` throws `NumberFormatException`, in both versions |
| LegacySenderKeyRecordStore.FileNameRoundTrip | lib/src/main/java/org/asamk/signal/manager/storage/senderKeys/LegacySenderKeyRecordStore.java:85-87 | the file name of a key with non-negative ids matches and parses back to the key when its recipient resolves; otherwise the written version throws and the corrected one skips it |
| LegacySenderKeyRecordStore.FileNamesRoundTrip | lib/src/main/java/org/asamk/signal/manager/storage/senderKeys/LegacySenderKeyRecordStore.java:73-87 | a listing of such file names, all recipients resolving, parses back to exactly its keys, in order, by the written and the corrected parse |
| LegacySenderKeyRecordStore.UnresolvedRecipientAbortsImport | lib/src/main/java/org/asamk/signal/manager/storage/senderKeys/LegacySenderKeyRecordStore.java:73-83 | as written, one file of a recipient that no longer resolves makes the whole import throw; the corrected parse keeps the other key |
| LegacySenderKeyRecordStore.LoadSenderKey | lib/src/main/java/org/asamk/signal/manager/storage/senderKeys/LegacySenderKeyRecordStore.java:89-100 | a record exactly when the key's file exists and decodes, and then that file's record |
| LegacySenderKeyRecordStore.ImportOf | lib/src/main/java/org/asamk/signal/manager/storage/senderKeys/LegacySenderKeyRecordStore.java:38-44 | a pair exactly when the key has a record and its recipient a service id; the new key has that service id and the old device and distribution, with the loaded record |
| LegacySenderKeyRecordStore.ImportPairs | lib/src/main/java/org/asamk/signal/manager/storage/senderKeys/LegacySenderKeyRecordStore.java:38-45 | at most one pair per key (the `null`s filtered out) |
| LegacySenderKeyRecordStore.ImportPairsContents | lib/src/main/java/org/asamk/signal/manager/storage/senderKeys/LegacySenderKeyRecordStore.java:38-45 | a pair is imported exactly when some key produces it |
| LegacySenderKeyRecordStore.Migrate | lib/src/main/java/org/asamk/signal/manager/storage/senderKeys/LegacySenderKeyRecordStore.java:31-49 | as written: nothing when the directory cannot be listed; otherwise fails exactly when the written parse of the names throws (an unresolved recipient included), and else hands the imported pairs of the parsed keys to `addLegacySenderKeys` |
| LegacySenderKeyRecordStore.MigrateCorrected | lib/src/main/java/org/asamk/signal/manager/storage/senderKeys/LegacySenderKeyRecordStore.java:31-49 | corrected: as `Migrate` but on the corrected parse, so it never fails with `NoSuchElementException` |
| LegacySenderKeyRecordStore.MigrateCorrectedAgrees | lib/src/main/java/org/asamk/signal/manager/storage/senderKeys/LegacySenderKeyRecordStore.java:31-49 | wherever the written `migrate` gets through, the corrected one imports exactly the same pairs |
| LegacySenderKeyRecordStore.MigrateRoundTrip | lib/src/main/java/org/asamk/signal/manager/storage/senderKeys/LegacySenderKeyRecordStore.java:31-87 | keys stored under their file names, each with a record, a resolving recipient and a service id, are all imported with their records, in order, by the written and the corrected `migrate` alike |
| LegacySenderKeyRecordStore.ImportAll | lib/src/main/java/org/asamk/signal/manager/storage/senderKeys/LegacySenderKeyRecordStore.java:38-45 | keys that all have a record and a service id import as one pair each, in order |
| LegacyStickerStore.KeptMembership | lib/src/main/java/org/asamk/signal/manager/storage/stickers/LegacyStickerStore.java:18-28 | a pack is handed on exactly when it is made from the first entry of its pack id (later duplicates map to `null` and are filtered out) |
| LegacyStickerStore.KeptLength | lib/src/main/java/org/asamk/signal/manager/storage/stickers/LegacyStickerStore.java:17-28 | one pack per distinct pack id |
| LegacyStickerStore.KeptIds | lib/src/main/java/org/asamk/signal/manager/storage/stickers/LegacyStickerStore.java:17-28 | every pack handed on has internal id -1, no pack id appears twice, and each pack id comes from the legacy store |
| LegacyStickerStore.Migrate | lib/src/main/java/org/asamk/signal/manager/storage/stickers/LegacyStickerStore.java:16-31 | the loop with the `packIds` set hands on exactly the first entry of each pack id, in order, one per distinct id |
| PathConfig.Child | lib/src/main/java/org/asamk/signal/manager/PathConfig.java:24-25 | `new File(parent, name)` is the parent with one more component, `name` |
| PathConfig.CreateDefault | lib/src/main/java/org/asamk/signal/manager/PathConfig.java:23-26 | the four directories `data`, `attachments`, `avatars` and `stickers`, each directly under the settings path |
| PathConfig.DefaultPathsDistinct | lib/src/main/java/org/asamk/signal/manager/PathConfig.java:23-26 | the four default directories are different paths at the same depth, so none lies inside another |
| PathConfig.DefaultDeterminedBySettings | lib/src/main/java/org/asamk/signal/manager/PathConfig.java:23-26 | different settings paths give different data paths |
| JsonStickerPack.ParseFileId | lib/src/main/java/org/asamk/signal/manager/storage/stickerPacks/JsonStickerPack.java:40 | a null file name fails; otherwise `Integer.parseInt` of the name |
| JsonStickerPack.ToApi | lib/src/main/java/org/asamk/signal/manager/storage/stickerPacks/JsonStickerPack.java:39-41 | a stated id is used as is; without one the conversion succeeds exactly when the file name is an `int`, which becomes the id; emoji and content type are copied |
| JsonStickerPack.ToApiOfNumberedFile | lib/src/main/java/org/asamk/signal/manager/storage/stickerPacks/JsonStickerPack.java:39-41 | a sticker without an id whose file name is the text of a number gets that number as id |
| JsonStickerPack.ToApiFileName | lib/src/main/java/org/asamk/signal/manager/storage/stickerPacks/JsonStickerPack.java:39-41 | with a stated id the file name does not matter; without one a non-numeric file name fails |
| Color.Alpha | lib/src/main/java/org/asamk/signal/manager/api/Color.java:15-17 | the unsigned shift `color >>> 24` is a channel value in 0..255 |
| Color.Red | lib/src/main/java/org/asamk/signal/manager/api/Color.java:19-21 | the masked shift is a channel value in 0..255 |
| Color.Green | lib/src/main/java/org/asamk/signal/manager/api/Color.java:23-25 | the masked shift is a channel value in 0..255 |
| Color.Blue | lib/src/main/java/org/asamk/signal/manager/api/Color.java:27-29 | the mask is a channel value in 0..255 |
| Color.ChannelsReconstruct | lib/src/main/java/org/asamk/signal/manager/api/Color.java:15-29 | alpha, red, green and blue are the four bytes of the `int`, high to low: recombined they give back the color, also for negative `int`s |
| Color.ChannelsDetermineColor | lib/src/main/java/org/asamk/signal/manager/api/Color.java:10-29 | two colors with the same four channels are the same color |
| Color.ToHexColor | lib/src/main/java/org/asamk/signal/manager/api/Color.java:31-33 | `#` followed by eight lowercase hex digits |
| Color.ParseHexColor | lib/src/main/java/org/asamk/signal/manager/api/Color.java:31-33 | only a `#` and eight more characters can be read back as a color |
| Color.HexColorRoundTrip | lib/src/main/java/org/asamk/signal/manager/api/Color.java:31-33 | reading the hex text back gives the color, negative `int`s included |
| Color.HexColorInjective | lib/src/main/java/org/asamk/signal/manager/api/Color.java:31-33 | distinct colors have distinct hex texts |
| MimeUtils.GuessExtensionAsWritten | lib/src/main/java/org/asamk/signal/manager/util/MimeUtils.java:33-81 | the switch as written: `application/octet-stream` gives no extension, and only a named type other than it gives one |
| MimeUtils.GuessExtension | lib/src/main/java/org/asamk/signal/manager/util/MimeUtils.java:33-81 | with the missing `break` restored: an extension exactly for the fourteen named types, `bin` for `application/octet-stream`, and the written switch's answer for every other type |
| MimeUtils.OctetStreamHasNoExtension | lib/src/main/java/org/asamk/signal/manager/util/MimeUtils.java:74-78 | the written switch yields `Optional.empty()` for `application/octet-stream` and never yields `bin`; the corrected one yields `bin` |
| MimeUtils.ExtensionsDistinct | lib/src/main/java/org/asamk/signal/manager/util/MimeUtils.java:37-77 | two types share an extension only when they are `text/plain` and `text/x-signal-plain`, which share `txt`, exactly those two |
| LegacyGroupStore.TextField | lib/src/main/java/org/asamk/signal/manager/storage/groups/LegacyGroupStore.java:135-139 | an absent or `null` `String` property reads as `null`; a present one is the text of that property |
| LegacyGroupStore.BoolField | lib/src/main/java/org/asamk/signal/manager/storage/groups/LegacyGroupStore.java:137-138 | an absent or `null` `boolean` property reads as `false` |
| LegacyGroupStore.IntField | lib/src/main/java/org/asamk/signal/manager/storage/groups/LegacyGroupStore.java:137 | an absent or `null` `int` property reads as `0` |
| LegacyGroupStore.LongValue | lib/src/main/java/org/asamk/signal/manager/storage/groups/LegacyGroupStore.java:215 | `numberValue().longValue()` keeps every number that fits in a `long` |
| LegacyGroupStore.TraverseSuccess | lib/src/main/java/org/asamk/signal/manager/storage/groups/LegacyGroupStore.java:334-343 | a walk over the array that gets through gives one result per element, each the conversion of its element |
| LegacyGroupStore.TraverseFailure | lib/src/main/java/org/asamk/signal/manager/storage/groups/LegacyGroupStore.java:334-343 | a walk that throws throws the exception of the first element that fails, and every earlier element converts |
| LegacyGroupStore.TraversePrefixFailure | lib/src/main/java/org/asamk/signal/manager/storage/groups/LegacyGroupStore.java:209-222 | once some prefix of the array throws, the whole deserialization throws the same exception |
| LegacyGroupStore.MemberOf | lib/src/main/java/org/asamk/signal/manager/storage/groups/LegacyGroupStore.java:211-219 | text becomes a member holding only a number, a number becomes a member holding only a recipient id (and only a number does), an object is read for `uuid` and `number`; `null` and other nodes throw |
| LegacyGroupStore.DeserializeMembers | lib/src/main/java/org/asamk/signal/manager/storage/groups/LegacyGroupStore.java:204-224 | the loop collects exactly the walk of `MemberOf` over the array, failing as it fails |
| LegacyGroupStore.MembersField | lib/src/main/java/org/asamk/signal/manager/storage/groups/LegacyGroupStore.java:131-132 | an absent or `null` `members` property leaves the list `null`; a scalar gives an empty list, since its iterator is empty; an array is read by the members deserializer and succeeds exactly when every element reads; a non-empty list comes only from an array |
| LegacyGroupStore.GroupV1Of | lib/src/main/java/org/asamk/signal/manager/storage/groups/LegacyGroupStore.java:135-149 | a v1 group is read exactly when each of its eight properties reads by its own rule, and then holds what each read gave |
| LegacyGroupStore.GroupV2Of | lib/src/main/java/org/asamk/signal/manager/storage/groups/LegacyGroupStore.java:285-294 | a v2 group is read exactly when each of its five properties reads and the master key is not `null`, and then holds what each read gave |
| LegacyGroupStore.GroupOf | lib/src/main/java/org/asamk/signal/manager/storage/groups/LegacyGroupStore.java:334-342 | an element with a non-null `masterKey` is read as a v2 group and any other object as a v1 group; a successful read is `null` exactly for a `null` element |
| LegacyGroupStore.DeserializeGroups | lib/src/main/java/org/asamk/signal/manager/storage/groups/LegacyGroupStore.java:327-347 | the loop collects exactly the walk of `GroupOf` over the array, failing as it fails |
| LegacyGroupStore.GroupKinds | lib/src/main/java/org/asamk/signal/manager/storage/groups/LegacyGroupStore.java:334-343 | after a successful read, one group per element, and the i-th group is v2 exactly when the i-th element has a non-null `masterKey` |
| LegacyGroupStore.ResolveMember | lib/src/main/java/org/asamk/signal/manager/storage/groups/LegacyGroupStore.java:44-50 | a member with a recipient id is resolved by that id; otherwise by the address of its parsed uuid and number, which throws exactly when it has neither a service id nor a number |
| LegacyGroupStore.ResolveMembers | lib/src/main/java/org/asamk/signal/manager/storage/groups/LegacyGroupStore.java:44-51 | the member stream throws the exception of the first member that throws; otherwise every member resolves and each recipient resolved to is in the set |
| LegacyGroupStore.ResolvedMembers | lib/src/main/java/org/asamk/signal/manager/storage/groups/LegacyGroupStore.java:44-51 | the member set holds exactly the recipients some member resolves to: unresolved (`null`) members are dropped and duplicates collapse |
| LegacyGroupStore.GroupIdOf | lib/src/main/java/org/asamk/signal/manager/storage/groups/LegacyGroupStore.java:53-54 | a `null` group id throws; otherwise the id is read exactly when its Base64 decodes, and is the decoded bytes |
| LegacyGroupStore.ReplaceSlashes | lib/src/main/java/org/asamk/signal/manager/storage/groups/LegacyGroupStore.java:116 | `replace("/", "_")` keeps the length, leaves no `/` and changes no other character |
| LegacyGroupStore.ReplaceSlashesInjective | lib/src/main/java/org/asamk/signal/manager/storage/groups/LegacyGroupStore.java:116 | on Base64 text, which has no `_`, different group ids give different cache file names |
| LegacyGroupStore.HexCondensed | lib/src/main/java/org/asamk/signal/manager/storage/groups/LegacyGroupStore.java:112 | two lowercase hex digits per byte of the id |
| LegacyGroupStore.CacheFileName | lib/src/main/java/org/asamk/signal/manager/storage/groups/LegacyGroupStore.java:115-117 | the current cache file name is the id's Base64 text with the same length and no `/` |
| LegacyGroupStore.LegacyCacheFileName | lib/src/main/java/org/asamk/signal/manager/storage/groups/LegacyGroupStore.java:111-113 | the legacy cache file name has two lowercase hex digits per byte of the id |
| LegacyGroupStore.LoadDecryptedGroup | lib/src/main/java/org/asamk/signal/manager/storage/groups/LegacyGroupStore.java:96-109 | the cached group under the current file name, else under the legacy hex name, else `null`; an unreadable file also gives `null` |
| LegacyGroupStore.MigrateGroup | lib/src/main/java/org/asamk/signal/manager/storage/groups/LegacyGroupStore.java:41-70 | a `null` group throws; a v1 group converts exactly when its member list is non-null and resolves, its id decodes and a non-null `expectedV2Id` decodes, and then keeps its resolved members, decoded ids, name, color, expiration time, blocked and archived flags; a v2 group converts exactly when its id and master key decode and a stored distribution id parses, and then keeps its decoded id and master key, blocked and permission-denied flags, loads its cached state, and takes its stored distribution id or else a new one; an undecodable master key throws the invalid-master-key error naming the group; v1 stays v1 and v2 stays v2 |
| LegacyGroupStore.MigrateGroups | lib/src/main/java/org/asamk/signal/manager/storage/groups/LegacyGroupStore.java:41-70 | a successful migration has one entry per group; a failed one fails with the exception some group throws |
| LegacyGroupStore.MigratedInOrder | lib/src/main/java/org/asamk/signal/manager/storage/groups/LegacyGroupStore.java:41-72 | a successful migration hands `addLegacyGroups` one group per stored group, in order, each the conversion of its stored group and of the same kind |
| MessageEnvelope.ReceiptTypeFrom | lib/src/main/java/org/asamk/signal/manager/api/MessageEnvelope.java:109-121 | each named service receipt type maps to its namesake; any other constant maps to `UNKNOWN` |
| MessageEnvelope.OfferTypeFrom | lib/src/main/java/org/asamk/signal/manager/api/MessageEnvelope.java:1605-1613 | each named offer type maps to its namesake; any other maps to `VIDEO_CALL` |
| MessageEnvelope.HangupTypeFrom | lib/src/main/java/org/asamk/signal/manager/api/MessageEnvelope.java:1708-1722 | each named hangup type maps to its namesake; any other maps to `NEED_PERMISSION` |
| MessageEnvelope.RequestResponseTypeFrom | lib/src/main/java/org/asamk/signal/manager/api/MessageEnvelope.java:1477-1493 | each named message-request response type maps to its namesake; any other maps to `UNBLOCK_AND_ACCEPT` |
| MessageEnvelope.StyleFrom | lib/src/main/java/org/asamk/signal/manager/api/MessageEnvelope.java:1084-1100 | each named body-range style maps to its namesake; since the switch has no `default`, any other gives `null`, and only such a one does |
| MessageEnvelope.EnumConversionsOnto | lib/src/main/java/org/asamk/signal/manager/api/MessageEnvelope.java:109-121 | every API constant of the five enums is reached from its namesake, so the conversions are onto and one to one on named constants |
| MessageEnvelope.AddressTypeFrom | lib/src/main/java/org/asamk/signal/manager/api/MessageEnvelope.java:942-952 | `HOME` and `WORK` map to their namesakes; `CUSTOM` and any other to `CUSTOM` |
| MessageEnvelope.AddressFromAsWritten | lib/src/main/java/org/asamk/signal/manager/api/MessageEnvelope.java:930-935 | as written: the type is converted and the postal address's label fills all eight text fields |
| MessageEnvelope.AddressFrom | lib/src/main/java/org/asamk/signal/manager/api/MessageEnvelope.java:930-935 | each text field is taken from its namesake in the postal address, as the constructor's parameters intend |
| MessageEnvelope.AddressRoundTrip | lib/src/main/java/org/asamk/signal/manager/api/MessageEnvelope.java:930-935 | the corrected conversion loses nothing: converting back gives the postal address received, for any named type |
| MessageEnvelope.AddressFromLosesFields | lib/src/main/java/org/asamk/signal/manager/api/MessageEnvelope.java:932-934 | as written, a home address with street and city but no label loses both, so it cannot be recovered; a label-only address gets its label as street |
| MessageEnvelope.NonZero | lib/src/main/java/org/asamk/signal/manager/api/MessageEnvelope.java:569 | a `0` meaning "unknown" becomes absent; any other value is kept |
| MessageEnvelope.NonEmpty | lib/src/main/java/org/asamk/signal/manager/api/MessageEnvelope.java:571 | an empty caption becomes absent; any other caption is kept |
| MessageEnvelope.AttachmentFrom | lib/src/main/java/org/asamk/signal/manager/api/MessageEnvelope.java:563-584 | a pointer takes its local file and the file's name as id, drops zero upload time, width and height and an empty caption, and keeps the rest; a stream has no id or file, its length as size and its caption as it is; neither has a thumbnail |
| MessageEnvelope.AttachmentHasNoPlaceholders | lib/src/main/java/org/asamk/signal/manager/api/MessageEnvelope.java:563-584 | no converted attachment holds a zero upload time, width or height; a pointer never keeps an empty caption, while a stream does |
| MessageEnvelope.AttachmentsFrom | lib/src/main/java/org/asamk/signal/manager/api/MessageEnvelope.java:253-256 | one converted attachment per service attachment, in order |
| MessageEnvelope.TextStyleFrom | lib/src/main/java/org/asamk/signal/manager/api/MessageEnvelope.java:1103-1105 | start and length are copied; the style is `null` exactly for an unnamed service style |
| MessageEnvelope.TextStylesFrom | lib/src/main/java/org/asamk/signal/manager/api/MessageEnvelope.java:271-272 | filtering keeps at most one style per body range |
| MessageEnvelope.TextStylesMembership | lib/src/main/java/org/asamk/signal/manager/api/MessageEnvelope.java:271-272 | the text styles are exactly the conversions of the ranges that have a style |
| MessageEnvelope.TextStylesCount | lib/src/main/java/org/asamk/signal/manager/api/MessageEnvelope.java:271-272 | one text style per styled range |
| MessageEnvelope.GroupContextFrom | lib/src/main/java/org/asamk/signal/manager/api/MessageEnvelope.java:289-300 | a v1 group gives its id, revision 0 and an update flag from its type; a v2 group gives the id of its master key, its revision and whether it has a signed group change; a context with neither throws |
| MessageEnvelope.ReceiptFrom | lib/src/main/java/org/asamk/signal/manager/api/MessageEnvelope.java:98-101 | time and timestamps copied, type converted |
| MessageEnvelope.TypingFrom | lib/src/main/java/org/asamk/signal/manager/api/MessageEnvelope.java:150-154 | timestamp copied; `STARTED` exactly when typing started; a group id exactly when the message has one |
| MessageEnvelope.PaymentFrom | lib/src/main/java/org/asamk/signal/manager/api/MessageEnvelope.java:252 | a payment is present exactly when the message has a payment with a notification, and carries the notification's note |
| MessageEnvelope.DataFrom | lib/src/main/java/org/asamk/signal/manager/api/MessageEnvelope.java:239-273 | throws exactly when the group context is malformed; otherwise timestamp, body, expiry, the expiration-update, view-once, end-session and profile-key-update flags, profile-key presence, payment and remote delete are carried over, a present group context is its conversion, a missing attachment or body-range list becomes empty, and present ones are converted element by element |
| MessageEnvelope.SourceOf | lib/src/main/java/org/asamk/signal/manager/api/MessageEnvelope.java:2017-2023 | the envelope's source for an identified sender with a source, else the content's sender for a sealed sender with content, else the sender a `ProtocolException` names, else none |
| MessageEnvelope.SourceDeviceOf | lib/src/main/java/org/asamk/signal/manager/api/MessageEnvelope.java:2024-2027 | the envelope's device when it has one, else the content's, else the one a `ProtocolException` names, else `0` |
| MessageEnvelope.EnvelopeFrom | lib/src/main/java/org/asamk/signal/manager/api/MessageEnvelope.java:2014-2059 | fails exactly when the data message's group context is malformed; sender, device and timestamps as above; with content each part (receipt, typing, data, and the sync, call and story messages through their resolvers) is present exactly when the content has it and is its conversion; without content only a receipt envelope carries something, a delivery receipt of its own timestamp |
| MessageEnvelope.WithContent | lib/src/main/java/org/asamk/signal/manager/api/MessageEnvelope.java:2035-2042 | with content, each part (receipt, typing, sync, call, story) is present exactly when the content has it and is its conversion; the data part is the converted data message; sender, device and timestamps are kept |
| MessageEnvelope.SourcePrecedence | lib/src/main/java/org/asamk/signal/manager/api/MessageEnvelope.java:2017-2027 | an identified envelope's own source and device win over content and exception; the exception matters only when nothing else names a sender; no sender exactly when none of the three names one |

## Left out

- SQL is not modelled as text. Each table is a `map` keyed by its `UNIQUE` columns, and a constraint violation is a failure outcome. Connections, transactions, autocommit and prepared statements are left out.
- Only some effects of the schema steps are modelled. Steps 2 to 8 are modelled by the tables they create. Steps 9 to 11 are modelled by the columns and rows they touch. Index creation and dropping (`msl_recipient_index`) are left out.
- `Database.java` is not part of this model, so nothing here says when `createDatabase` is called. Each store's `createSql` is modelled as plain `CREATE TABLE`s of the tables it owns, each failing when its table exists. The column lists are not modelled. The state a failing `createDatabase` leaves behind is not stated, since transactions are left out.
- libsignal and zkgroup decoding (key pairs, records, `GroupMasterKey`, `DecryptedGroup`) is modelled as opaque values. Whether they decode is a function-typed parameter, never computed.
- `SignedPreKeyRecord.getKeyPair` is treated as never throwing, because the store catches no exception there.
- The clock read by `markSenderKeySharedWith` and `addLegacySenderKeysShared` is a parameter, `now`.
- `DistributionId.create()` is random. It is a parameter `newId`, one per group.
- The recipient and address resolvers are function-typed parameters. So are the phone-number formatter of `RecipientIdentifier.fromString` and the file provider of attachments.
- The Base64 and hex decoders are parameters, as are `GroupId.unknownVersion` and `GroupUtils.getGroupIdV2`. The legacy sticker store takes its ids and keys as already decoded, so its decode failure path is left out: `Base64.getDecoder().decode` throws `IllegalArgumentException` on malformed text, which aborts `migrate`; a malformed pack id always does, and a malformed pack key only on the first entry with its pack id, since the key of a dropped duplicate is never decoded (LegacyStickerStore.java:19-25).
- Every service id is modelled as a UUID. The `PNI:` prefix of a PNI's text form is not modelled.
- `UUID.fromString` is modelled only on the canonical 8-4-4-4-12 shape. It accepts either case. Java's more lenient inputs (shorter groups) are treated as failures.
- `Long.parseLong` and `Integer.parseInt` are modelled for ASCII digits with an optional sign. Java also accepts non-ASCII Unicode digits.
- SendMessageResults.SendMessageResults.HasSuccess: the sum of the list sizes is an unbounded integer. Java's `int` sum could wrap with more than 2^31 results.
- SendMessageResults.SendMessageResults.HasOnlyUntrustedIdentity: the `mapToInt(List::size).sum() > 0` test uses the same unbounded sum. Java's `int` sum could wrap with more than 2^31 results and make the test false.
- Jackson is modelled as a tree of `JsonNode` values holding integral numbers. Its type coercions (a string where a number is expected, and so on), unknown-property handling and non-integral numbers are left out.
- File I/O is not modelled. This covers directory listings, file reads and the deletions done by `removeGroupCache` and `deleteAllSenderKeys`. Listings and file contents are inputs. An unreadable file is the same as a missing one.
- `MimeUtils.getFileMimeType` and `getStreamMimeType` are not modelled. They do file I/O and library content sniffing.
- A `null` MIME type is not modelled. Java's `switch` would throw `NullPointerException` on it.
- The configuration saver is not modelled. It is recorded as a ghost log of the snapshots handed to it.
- `PhoneNumberSharingMode.java` is not part of this model. A mode is carried by its name.
- `GroupId.java` is not part of this model. A group id is its bytes, tagged v1 or v2.
- Plain accessors that return a field are not modelled separately. These are the getters of `JsonStickerPack`, `ConfigurationStore` and `PathConfig`.
- `Sync.from`, `Call.from` and `Story.from` of `MessageEnvelope` are resolver parameters.
- These parts of `Data` are not carried: story context, group call update, reaction, quote (and its quoted attachments), sticker, shared contacts, mentions and previews.
- Each service-side enum in `MessageEnvelope` gets one extra constant. It stands for any constant the Java switch does not name.
- Text-style gradients are not modelled. Their positions are floating point.
- Lone surrogates in `String`s stay code units. The text view of a Java string covers only characters below the surrogate range.
- No concurrency is modelled.
- LegacyGroupStore.MembersField: a `members` property holding a JSON object is read as a mismatch. `MembersDeserializer` would walk the object's values in document order, but the model's JSON objects are unordered maps.
- SQLite's choice of join row in step 10's send-log `UPDATE ... FROM` is not modelled. The ladder takes it as a parameter `pick`, one row of the join per log row.

## Findings

| source | as written | input that shows it | evidently intended | confidence | as-written member | corrected member |
|---|---|---|---|---|---|---|
| lib/src/main/java/org/asamk/signal/manager/storage/AccountDatabase.java:209-217 | step 10's `UPDATE message_send_log SET uuid = r.uuid FROM message_send_log i, (...) AS r WHERE i.recipient_id = r._id` never ties the updated row to `i`, so each log row takes the UUID of some arbitrary joined row | two send-log rows of two recipients with distinct UUIDs | each log row takes the UUID of its own recipient | high; not executed | AccountDatabase.SendLogMisattributed | AccountDatabase.RekeyTables |
| lib/src/main/java/org/asamk/signal/manager/storage/configuration/ConfigurationStore.java:23-31 | `fromStorage` restores five settings and never `phoneNumberUnlisted` | a saved snapshot with `phoneNumberUnlisted = true` | all six saved settings restored | high; not executed | ConfigurationStore.UnlistedSettingLost | ConfigurationStore.ConfigurationStore.FromStorage |
| lib/src/main/java/org/asamk/signal/manager/util/MimeUtils.java:74-77 | the `OCTET_STREAM` case sets `"bin"` and, lacking `break`, falls into `default`, which sets `null` | `"application/octet-stream"` | `Optional.of("bin")` | high; not executed | MimeUtils.OctetStreamHasNoExtension | MimeUtils.GuessExtension |
| lib/src/main/java/org/asamk/signal/manager/storage/senderKeys/LegacySenderKeyRecordStore.java:76-82 | `.map(Optional::get)` runs before `.filter(Objects::nonNull)`, so a name whose recipient does not resolve throws `NoSuchElementException` and aborts the import | a listing with a key file of a recipient the resolver no longer knows | that file skipped, the others imported | high; not executed | LegacySenderKeyRecordStore.UnresolvedRecipientAbortsImport | LegacySenderKeyRecordStore.ParseFileNames |
| lib/src/main/java/org/asamk/signal/manager/api/MessageEnvelope.java:930-935 | `Address.from` passes `getLabel()` for all eight text fields | a home postal address with street "1 Main St", city "Springfield" and no label | each field from its namesake (`getStreet()`, `getCity()`, ...) | high; not executed | MessageEnvelope.AddressFromLosesFields | MessageEnvelope.AddressFrom |
