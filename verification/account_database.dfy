/** `AccountDatabase`: the per-account SQLite database. A new database is
    created with every store's tables at once; an older one is brought to
    version 11 by a ladder of steps, step N running exactly when the stored
    version is below N, in ascending order. Step 10 re-keys the key tables
    from the recipient row id to the recipient's UUID. */
module AccountDatabase {
  import opened Wrappers
  import opened JavaTypes

  const DATABASE_VERSION: int := 11

  /** The first step of the ladder. */
  const FIRST_STEP: int := 2

  type StepNumber = n: int | FIRST_STEP <= n <= DATABASE_VERSION witness FIRST_STEP

  datatype TableName =
    | Recipient | Sticker | SignedPreKey | PreKey | GroupV2 | GroupV1 | GroupV1Member
    | Session | Identity | SenderKey | SenderKeyShared | MessageSendLog | MessageSendLogContent

  /** Who a key row belongs to: the recipient row id before step 10, the
      recipient's UUID after it. */
  datatype Owner = ByRecipient(recipientId: int) | ByUuid(uuid: Uuid)

  /** A row of identity, sender_key, sender_key_shared, session or
      message_send_log: its owner, the other columns of its UNIQUE
      constraint (device id, distribution id, account id type), and the
      remaining columns. */
  datatype KeyedRow = KeyedRow(owner: Owner, key: seq<int>, columns: seq<Byte>)

  /** `_id` to row. */
  type RowTable = map<int, KeyedRow>

  /** A recipient row, reduced to the columns the ladder reads or adds. */
  datatype RecipientRow = RecipientRow(uuid: Option<Uuid>, pni: Option<Uuid>)

  /** A message_send_log_content row, reduced to the `urgent` column. */
  datatype ContentRow = ContentRow(urgent: bool, columns: seq<Byte>)

  datatype Db = Db(
    tables: set<TableName>,
    urgentColumn: bool,       // message_send_log_content.urgent exists
    pniColumn: bool,          // recipient.pni exists
    recipients: map<int, RecipientRow>,
    identities: RowTable,
    senderKeys: RowTable,
    senderKeysShared: RowTable,
    sessions: RowTable,
    sendLog: RowTable,
    contents: map<int, ContentRow>)

  /** The SQLite errors a step can raise. */
  datatype DbError =
    | TableExists(table: TableName)      // CREATE TABLE of an existing table
    | NoSuchTable(table: TableName)      // a statement on a missing table
    | DuplicateColumn(table: TableName)  // ADD COLUMN of an existing column

  // ---------------------------------------------------------------------
  // The steps

  /** The tables step `n` creates (steps 2 to 8). */
  function CreatedBy(n: int): seq<TableName> {
    if n == 2 then [Recipient]
    else if n == 3 then [Sticker]
    else if n == 4 then [SignedPreKey, PreKey]
    else if n == 5 then [GroupV2, GroupV1, GroupV1Member]
    else if n == 6 then [Session]
    else if n == 7 then [Identity]
    else if n == 8 then [SenderKey, SenderKeyShared]
    else []
  }

  /** `CREATE TABLE` of each name in turn; the first existing one fails.
      On success exactly the named tables are added and nothing else
      changes; a failure names one of the tables. */
  function CreateTables(db: Db, names: seq<TableName>): (r: Result<Db, DbError>)
    ensures r.Success? ==> r.value == db.(tables := db.tables + set t | t in names)
    ensures r.Failure? ==> r.error.TableExists? && r.error.table in names
    decreases |names|
  {
    if names == [] then Success(db)
    else if names[0] in db.tables then Failure(TableExists(names[0]))
    else CreateTables(db.(tables := db.tables + {names[0]}), names[1..])
  }

  /** Creating distinct tables succeeds exactly when none exists yet, and
      then adds them all and changes nothing else; otherwise the error
      names one of them that exists. */
  lemma {:induction false} CreateTablesEffect(db: Db, names: seq<TableName>)
    requires forall i, j | 0 <= i < j < |names| :: names[i] != names[j]
    ensures var r := CreateTables(db, names);
      && (r.Success? <==> forall t | t in names :: t !in db.tables)
      && (r.Success? ==> r.value == db.(tables := db.tables + set t | t in names))
      && (r.Failure? ==> r.error.TableExists? && r.error.table in names && r.error.table in db.tables)
    decreases |names|
  {
    if names != [] && names[0] !in db.tables {
      var db' := db.(tables := db.tables + {names[0]});
      CreateTablesEffect(db', names[1..]);
      assert forall t | t in names :: t == names[0] || t in names[1..];
      assert (set t | t in names) == {names[0]} + set t | t in names[1..];
    }
  }

  /** The first of `names` that is not a table. */
  function Missing(db: Db, names: seq<TableName>): (r: Option<TableName>)
    ensures r.None? <==> forall t | t in names :: t in db.tables
    ensures r.Some? ==> r.value in names && r.value !in db.tables
  {
    if names == [] then None
    else if names[0] !in db.tables then Some(names[0])
    else Missing(db, names[1..])
  }

  /** Step 9: `urgent` added with default TRUE. It needs the content
      table, and fails on a second run since the column then exists. */
  function AddUrgent(db: Db): (r: Result<Db, DbError>)
    ensures r.Success? <==> MessageSendLogContent in db.tables && !db.urgentColumn
    ensures r.Failure? ==> r.error.table == MessageSendLogContent
    ensures r.Success? ==> r.value.urgentColumn && r.value.tables == db.tables
  {
    if MessageSendLogContent !in db.tables then Failure(NoSuchTable(MessageSendLogContent))
    else if db.urgentColumn then Failure(DuplicateColumn(MessageSendLogContent))
    else Success(db.(urgentColumn := true,
                     contents := map id | id in db.contents :: db.contents[id].(urgent := true)))
  }

  /** The UUID of a row's recipient, from `LEFT JOIN recipient r ON
      recipient_id = r._id`; none when there is no such recipient or its
      uuid is NULL. */
  function OwnerUuid(recipients: map<int, RecipientRow>, owner: Owner): Option<Uuid> {
    match owner
    case ByUuid(u) => Some(u)
    case ByRecipient(id) => if id in recipients then recipients[id].uuid else None
  }

  /** `INSERT INTO t2 SELECT ..., r.uuid, ... FROM t LEFT JOIN recipient r
      ... WHERE uuid IS NOT NULL`: same `_id`, owner replaced by the UUID. */
  function Rekey(recipients: map<int, RecipientRow>, t: RowTable): RowTable {
    map id | id in t && OwnerUuid(recipients, t[id].owner).Some?
      :: t[id].(owner := ByUuid(OwnerUuid(recipients, t[id].owner).value))
  }

  /** The tables step 10 reads. */
  const STEP_10_TABLES: seq<TableName> :=
    [Identity, Recipient, MessageSendLog, SenderKey, SenderKeyShared, Session]

  /** Step 10 with the send log re-keyed row by row, as intended. */
  function RekeyTables(db: Db): (r: Result<Db, DbError>)
    ensures r.Success? <==> Missing(db, STEP_10_TABLES).None?
  {
    match Missing(db, STEP_10_TABLES)
    case Some(t) => Failure(NoSuchTable(t))
    case None =>
      var rs := db.recipients;
      Success(db.(identities := Rekey(rs, db.identities),
                  senderKeys := Rekey(rs, db.senderKeys),
                  senderKeysShared := Rekey(rs, db.senderKeysShared),
                  sessions := Rekey(rs, db.sessions),
                  sendLog := Rekey(rs, db.sendLog)))
  }

  /** Step 11: a nullable `pni` column on recipient. It needs the
      recipient table, and fails on a second run since the column then
      exists. */
  function AddPni(db: Db): (r: Result<Db, DbError>)
    ensures r.Success? <==> Recipient in db.tables && !db.pniColumn
    ensures r.Failure? ==> r.error.table == Recipient
    ensures r.Success? ==> r.value.pniColumn && r.value.tables == db.tables
  {
    if Recipient !in db.tables then Failure(NoSuchTable(Recipient))
    else if db.pniColumn then Failure(DuplicateColumn(Recipient))
    else Success(db.(pniColumn := true,
                     recipients := map id | id in db.recipients :: db.recipients[id].(pni := None)))
  }

  /** Step 10 as written: identity, sender_key, sender_key_shared and
      session re-keyed row by row, the send log by the `UPDATE ... FROM`
      that `SendLogAsWritten` models, `pick` standing for the join row
      SQLite chooses for each log row. It differs from the intended step 10
      only in the send log. */
  function RekeyTablesAsWritten(db: Db, pick: int -> (int, int)): (r: Result<Db, DbError>)
    ensures r.Failure? ==> r.error.NoSuchTable? && r.error.table !in db.tables
    ensures r.Success? ==> r.value.tables == db.tables && r.value.recipients == db.recipients
  {
    match Missing(db, STEP_10_TABLES)
    case Some(t) => Failure(NoSuchTable(t))
    case None =>
      var rs := db.recipients;
      Success(db.(identities := Rekey(rs, db.identities),
                  senderKeys := Rekey(rs, db.senderKeys),
                  senderKeysShared := Rekey(rs, db.senderKeysShared),
                  sessions := Rekey(rs, db.sessions),
                  sendLog := SendLogAsWritten(rs, db.sendLog, pick)))
  }

  /** Step 10 as written fails exactly as the intended step does, and on
      success differs from it in the send log alone. */
  lemma RekeyTablesAsWrittenDiffers(db: Db, pick: int -> (int, int))
    ensures RekeyTablesAsWritten(db, pick).Success? <==> Missing(db, STEP_10_TABLES).None?
    ensures RekeyTablesAsWritten(db, pick).Failure? ==> RekeyTablesAsWritten(db, pick) == RekeyTables(db)
    ensures RekeyTablesAsWritten(db, pick).Success? ==>
      RekeyTablesAsWritten(db, pick).value
        == RekeyTables(db).value.(sendLog := SendLogAsWritten(db.recipients, db.sendLog, pick))
  {
  }

  /** Step `n` of the ladder, as written; `pick` is the join row step 10's
      send-log update takes for each log row. Only steps 2 to 8 create
      tables, and only by `CREATE TABLE`; no step drops a recipient or
      changes its UUID. */
  function Step(n: int, db: Db, pick: int -> (int, int)): (r: Result<Db, DbError>)
    requires FIRST_STEP <= n <= DATABASE_VERSION
    ensures r.Failure? ==> (r.error.TableExists? <==> n <= 8)
  {
    if n <= 8 then CreateTables(db, CreatedBy(n))
    else if n == 9 then AddUrgent(db)
    else if n == 10 then RekeyTablesAsWritten(db, pick)
    else AddPni(db)
  }

  /** A step that succeeds adds exactly the tables it creates and keeps
      every recipient with its UUID; a step fails on an existing table
      exactly when it creates tables. */
  lemma StepEffect(n: int, db: Db, pick: int -> (int, int))
    requires FIRST_STEP <= n <= DATABASE_VERSION
    ensures Step(n, db, pick).Success? ==> Step(n, db, pick).value.tables == db.tables + set t | t in CreatedBy(n)
    ensures Step(n, db, pick).Success? ==> UuidsOf(Step(n, db, pick).value.recipients) == UuidsOf(db.recipients)
    ensures Step(n, db, pick).Failure? ==> (Step(n, db, pick).error.TableExists? <==> n <= 8)
  {
    if n <= 8 {
      CreatingStepEffect(n, db, pick);
    } else {
      AlteringStepEffect(n, db, pick);
    }
  }

  /** `StepEffect` for steps 2 to 8, which only create tables. */
  lemma CreatingStepEffect(n: int, db: Db, pick: int -> (int, int))
    requires FIRST_STEP <= n <= 8
    ensures Step(n, db, pick).Success? ==> Step(n, db, pick).value == db.(tables := db.tables + set t | t in CreatedBy(n))
    ensures Step(n, db, pick).Failure? ==> Step(n, db, pick).error.TableExists?
  {
    CreateTablesEffect(db, CreatedBy(n));
  }

  /** `StepEffect` for steps 9 to 11, which alter tables. */
  lemma AlteringStepEffect(n: int, db: Db, pick: int -> (int, int))
    requires 9 <= n <= DATABASE_VERSION
    ensures Step(n, db, pick).Success? ==> Step(n, db, pick).value.tables == db.tables
    ensures Step(n, db, pick).Success? ==> UuidsOf(Step(n, db, pick).value.recipients) == UuidsOf(db.recipients)
    ensures Step(n, db, pick).Failure? ==> !Step(n, db, pick).error.TableExists?
  {
    if n == 11 {
      AddPniKeeps(db);
    }
  }

  lemma AddPniKeeps(db: Db)
    ensures AddPni(db).Success? ==> UuidsOf(AddPni(db).value.recipients) == UuidsOf(db.recipients)
  {
  }

  /** The UUID of each recipient row, by `_id`. */
  function UuidsOf(recipients: map<int, RecipientRow>): map<int, Option<Uuid>> {
    map id | id in recipients :: recipients[id].uuid
  }

  /** Every row of a table is keyed by UUID. */
  predicate AllByUuid(t: RowTable) {
    forall id | id in t :: t[id].owner.ByUuid?
  }

  /** The key tables and the send log are keyed by UUID, as step 10 leaves them. */
  predicate KeyedByUuid(db: Db) {
    && AllByUuid(db.identities) && AllByUuid(db.senderKeys) && AllByUuid(db.senderKeysShared)
    && AllByUuid(db.sessions) && AllByUuid(db.sendLog)
  }

  /** Steps `n` to 11 of the ladder, each run when `oldVersion` is below it.
      When they all succeed, every table a step run creates exists, no
      recipient is lost or changes its UUID, and once step 10 has run every
      key row is keyed by UUID. */
  function UpgradeFrom(db: Db, oldVersion: int, n: int, pick: int -> (int, int)): (r: Result<Db, DbError>)
    requires FIRST_STEP <= n <= DATABASE_VERSION + 1
    ensures r.Success? ==> db.tables <= r.value.tables
    ensures r.Success? ==> forall k, t | n <= k <= DATABASE_VERSION && oldVersion < k && t in CreatedBy(k) :: t in r.value.tables
    ensures r.Success? ==> UuidsOf(r.value.recipients) == UuidsOf(db.recipients)
    ensures r.Success? && KeyedByUuid(db) ==> KeyedByUuid(r.value)
    ensures r.Success? && oldVersion < 10 && n <= 10 ==> KeyedByUuid(r.value)
    decreases DATABASE_VERSION + 1 - n
  {
    if n > DATABASE_VERSION then Success(db)
    else if oldVersion < n then
      StepEffect(n, db, pick);
      match Step(n, db, pick)
      case Success(d) => UpgradeFrom(d, oldVersion, n + 1, pick)
      case Failure(e) => Failure(e)
    else UpgradeFrom(db, oldVersion, n + 1, pick)
  }

  /** `upgradeDatabase(connection, oldVersion)`: on success every table
      of the steps above `oldVersion` exists, the recipients keep their
      UUIDs, and a database older than version 10 comes out keyed by UUID. */
  function Upgrade(db: Db, oldVersion: int, pick: int -> (int, int)): (r: Result<Db, DbError>)
    ensures r.Success? ==> forall k, t | k in StepsRun(oldVersion) && t in CreatedBy(k) :: t in r.value.tables
    ensures r.Success? ==> UuidsOf(r.value.recipients) == UuidsOf(db.recipients)
    ensures r.Success? && oldVersion < 10 ==> KeyedByUuid(r.value)
  {
    UpgradeFrom(db, oldVersion, FIRST_STEP, pick)
  }

  /** The steps run from `n` on, in the order they run. */
  function StepsFrom(oldVersion: int, n: int): seq<StepNumber>
    requires FIRST_STEP <= n <= DATABASE_VERSION + 1
    decreases DATABASE_VERSION + 1 - n
  {
    if n > DATABASE_VERSION then []
    else if oldVersion < n then [n] + StepsFrom(oldVersion, n + 1)
    else StepsFrom(oldVersion, n + 1)
  }

  predicate Ascending(steps: seq<StepNumber>) {
    forall i, j | 0 <= i < j < |steps| :: steps[i] < steps[j]
  }

  /** From `n` on, the steps run are those above `oldVersion`. */
  lemma {:induction false} StepsFromContents(oldVersion: int, n: int)
    requires FIRST_STEP <= n <= DATABASE_VERSION + 1
    ensures forall k :: k in StepsFrom(oldVersion, n) <==> n <= k <= DATABASE_VERSION && oldVersion < k
    decreases DATABASE_VERSION + 1 - n
  {
    if n <= DATABASE_VERSION {
      StepsFromContents(oldVersion, n + 1);
      var rest := StepsFrom(oldVersion, n + 1);
      if oldVersion < n {
        assert StepsFrom(oldVersion, n) == [n as StepNumber] + rest;
      } else {
        assert StepsFrom(oldVersion, n) == rest;
      }
    }
  }

  /** The steps run from `n` on come in ascending order. */
  lemma {:induction false} StepsFromAscending(oldVersion: int, n: int)
    requires FIRST_STEP <= n <= DATABASE_VERSION + 1
    ensures Ascending(StepsFrom(oldVersion, n))
    decreases DATABASE_VERSION + 1 - n
  {
    if n <= DATABASE_VERSION {
      StepsFromAscending(oldVersion, n + 1);
      StepsFromContents(oldVersion, n + 1);
      var rest := StepsFrom(oldVersion, n + 1);
      if oldVersion < n {
        assert StepsFrom(oldVersion, n) == [n as StepNumber] + rest;
        assert forall i | 0 <= i < |rest| :: n < rest[i] by {
          forall i | 0 <= i < |rest| ensures n < rest[i] {
            assert rest[i] in rest;
          }
        }
      } else {
        assert StepsFrom(oldVersion, n) == rest;
      }
    }
  }


  /** The steps `upgradeDatabase(oldVersion)` runs. */
  function StepsRun(oldVersion: int): (steps: seq<StepNumber>)
    ensures forall k :: k in steps <==> FIRST_STEP <= k <= DATABASE_VERSION && oldVersion < k
    ensures Ascending(steps)
  {
    StepsFromContents(oldVersion, FIRST_STEP);
    StepsFromAscending(oldVersion, FIRST_STEP);
    StepsFrom(oldVersion, FIRST_STEP)
  }

  // ---------------------------------------------------------------------
  // Properties of the ladder

  /** The given steps run one after the other; the first failure ends the run. */
  function ApplySteps(db: Db, steps: seq<StepNumber>, pick: int -> (int, int)): Result<Db, DbError>
    decreases |steps|
  {
    if steps == [] then Success(db)
    else
      match Step(steps[0], db, pick)
      case Success(d) => ApplySteps(d, steps[1..], pick)
      case Failure(e) => Failure(e)
  }

  /** The ladder from `n` on runs exactly the steps `StepsFrom` lists, in
      that order. */
  lemma {:induction false} LadderRunsListedSteps(db: Db, oldVersion: int, n: int, pick: int -> (int, int))
    requires FIRST_STEP <= n <= DATABASE_VERSION + 1
    ensures UpgradeFrom(db, oldVersion, n, pick) == ApplySteps(db, StepsFrom(oldVersion, n), pick)
    decreases DATABASE_VERSION + 1 - n, 1
  {
    if n <= DATABASE_VERSION {
      if oldVersion < n {
        ListedStepRuns(db, oldVersion, n, pick);
      } else {
        LadderAdvances(db, oldVersion, n, pick);
        LadderSkips(db, oldVersion, n, pick);
        LadderRunsListedSteps(db, oldVersion, n + 1, pick);
      }
    }
  }

  /** The case of `LadderRunsListedSteps` where step `n` runs. */
  lemma {:induction false} ListedStepRuns(db: Db, oldVersion: int, n: int, pick: int -> (int, int))
    requires FIRST_STEP <= n <= DATABASE_VERSION && oldVersion < n
    ensures UpgradeFrom(db, oldVersion, n, pick) == ApplySteps(db, StepsFrom(oldVersion, n), pick)
    decreases DATABASE_VERSION + 1 - n, 0
  {
    LadderAdvances(db, oldVersion, n, pick);
    LadderRuns(db, oldVersion, n, pick);
    var s := Step(n, db, pick);
    if s.Success? {
      LadderRunsListedSteps(s.value, oldVersion, n + 1, pick);
    }
  }




  /** Running a list of steps runs its first step, then the rest. */
  lemma ApplyFirst(db: Db, n: StepNumber, rest: seq<StepNumber>, pick: int -> (int, int))
    ensures Step(n, db, pick).Success? ==>
      ApplySteps(db, [n] + rest, pick) == ApplySteps(Step(n, db, pick).value, rest, pick)
    ensures Step(n, db, pick).Failure? ==> ApplySteps(db, [n] + rest, pick) == Failure(Step(n, db, pick).error)
  {
    assert ([n] + rest)[1..] == rest;
  }

  /** One rung of the listed steps: a step above `oldVersion` runs, and
      the rest run on its result; a step at or below it is skipped. */
  lemma LadderAdvances(db: Db, oldVersion: int, n: StepNumber, pick: int -> (int, int))
    ensures oldVersion < n && Step(n, db, pick).Success? ==>
      ApplySteps(db, StepsFrom(oldVersion, n), pick)
        == ApplySteps(Step(n, db, pick).value, StepsFrom(oldVersion, n + 1), pick)
    ensures oldVersion < n && Step(n, db, pick).Failure? ==>
      ApplySteps(db, StepsFrom(oldVersion, n), pick) == Failure(Step(n, db, pick).error)
    ensures n <= oldVersion ==>
      ApplySteps(db, StepsFrom(oldVersion, n), pick) == ApplySteps(db, StepsFrom(oldVersion, n + 1), pick)
  {
    var rest := StepsFrom(oldVersion, n + 1);
    if oldVersion < n {
      assert StepsFrom(oldVersion, n) == [n] + rest;
      ApplyFirst(db, n, rest, pick);
    } else {
      assert StepsFrom(oldVersion, n) == rest;
    }
  }

  /** `upgradeDatabase(oldVersion)` runs step N exactly when `oldVersion <
      N`, in ascending order of N. */
  lemma UpgradeRunsSteps(db: Db, oldVersion: int, pick: int -> (int, int))
    ensures Upgrade(db, oldVersion, pick) == ApplySteps(db, StepsRun(oldVersion), pick)
  {
    LadderRunsListedSteps(db, oldVersion, FIRST_STEP, pick);
  }

  /** A step above `oldVersion` runs, and the ladder goes on from its result. */
  lemma LadderRuns(db: Db, oldVersion: int, n: int, pick: int -> (int, int))
    requires FIRST_STEP <= n <= DATABASE_VERSION && oldVersion < n
    ensures Step(n, db, pick).Success? ==>
      UpgradeFrom(db, oldVersion, n, pick) == UpgradeFrom(Step(n, db, pick).value, oldVersion, n + 1, pick)
    ensures Step(n, db, pick).Failure? ==> UpgradeFrom(db, oldVersion, n, pick) == Failure(Step(n, db, pick).error)
  {
  }

  /** A step at or below `oldVersion` is skipped. */
  lemma LadderSkips(db: Db, oldVersion: int, n: int, pick: int -> (int, int))
    requires FIRST_STEP <= n <= DATABASE_VERSION && n <= oldVersion
    ensures UpgradeFrom(db, oldVersion, n, pick) == UpgradeFrom(db, oldVersion, n + 1, pick)
  {
  }

  /** A database at version 11 or later runs no step and is unchanged. */
  lemma {:induction false} CurrentVersionUnchanged(db: Db, oldVersion: int, n: int, pick: int -> (int, int))
    requires oldVersion >= DATABASE_VERSION && FIRST_STEP <= n <= DATABASE_VERSION + 1
    ensures UpgradeFrom(db, oldVersion, n, pick) == Success(db)
    ensures StepsFrom(oldVersion, n) == []
    decreases DATABASE_VERSION + 1 - n
  {
    if n <= DATABASE_VERSION {
      CurrentVersionUnchanged(db, oldVersion, n + 1, pick);
    }
  }

  /** The rows step 10 keeps: those whose recipient has a UUID. Each keeps
      its `_id`, its other columns, and gets that UUID as owner. */
  lemma RekeyEffect(recipients: map<int, RecipientRow>, t: RowTable, id: int)
    ensures id in Rekey(recipients, t) <==> id in t && OwnerUuid(recipients, t[id].owner).Some?
    ensures id in Rekey(recipients, t) ==>
      && Rekey(recipients, t)[id].owner == ByUuid(OwnerUuid(recipients, t[id].owner).value)
      && Rekey(recipients, t)[id].key == t[id].key
      && Rekey(recipients, t)[id].columns == t[id].columns
  {
  }

  /** recipient.uuid is UNIQUE. */
  predicate UniqueUuids(recipients: map<int, RecipientRow>) {
    forall i, j | i in recipients && j in recipients && i != j && recipients[i].uuid.Some? ::
      recipients[i].uuid != recipients[j].uuid
  }

  /** A table's UNIQUE constraint over its owner and key columns. */
  predicate UniqueRows(t: RowTable) {
    forall i, j | i in t && j in t && i != j :: (t[i].owner, t[i].key) != (t[j].owner, t[j].key)
  }

  /** No row is keyed by UUID yet. */
  predicate KeyedByRecipient(t: RowTable) {
    forall i | i in t :: t[i].owner.ByRecipient?
  }

  /** Re-keying cannot break a UNIQUE constraint: distinct recipients have
      distinct UUIDs, so the INSERT ... SELECT of step 10 never conflicts. */
  lemma RekeyKeepsUnique(recipients: map<int, RecipientRow>, t: RowTable)
    requires UniqueUuids(recipients) && UniqueRows(t) && KeyedByRecipient(t)
    ensures UniqueRows(Rekey(recipients, t))
  {
    var t' := Rekey(recipients, t);
    forall i, j | i in t' && j in t' && i != j
      ensures (t'[i].owner, t'[i].key) != (t'[j].owner, t'[j].key)
    {
      var ri, rj := t[i].owner.recipientId, t[j].owner.recipientId;
      if ri != rj && t'[i].key == t'[j].key {
        assert recipients[ri].uuid != recipients[rj].uuid;
      }
    }
  }

  /** Re-keying twice changes nothing more. */
  lemma RekeyIdempotent(recipients: map<int, RecipientRow>, t: RowTable)
    ensures Rekey(recipients, Rekey(recipients, t)) == Rekey(recipients, t)
  {
    var once := Rekey(recipients, t);
    var twice := Rekey(recipients, once);
    forall id | id in once ensures id in twice && twice[id] == once[id] {
      assert once[id].owner.ByUuid?;
    }
    assert twice.Keys == once.Keys;
  }

  /** Step 9 leaves every existing content row urgent. */
  lemma AddUrgentEffect(db: Db)
    requires AddUrgent(db).Success?
    ensures var d := AddUrgent(db).value;
      && d.urgentColumn
      && d.contents.Keys == db.contents.Keys
      && forall id | id in d.contents :: d.contents[id] == db.contents[id].(urgent := true)
  {
  }

  /** Step 11 leaves no recipient with a pni and keeps their UUIDs. */
  lemma AddPniEffect(db: Db)
    requires AddPni(db).Success?
    ensures var d := AddPni(db).value;
      && d.pniColumn
      && d.recipients.Keys == db.recipients.Keys
      && forall id | id in d.recipients :: d.recipients[id].pni.None? && d.recipients[id].uuid == db.recipients[id].uuid
  {
  }

  // ---------------------------------------------------------------------
  // The send-log update of step 10 as written

  /** `UPDATE message_send_log SET uuid = r.uuid FROM message_send_log i,
      (SELECT _id, uuid FROM recipient) AS r WHERE i.recipient_id = r._id`:
      the updated table is not joined to `i`, so every row takes `r.uuid`
      from some row of the join, whichever SQLite picks (`pick`); with an
      empty join no row is updated. Then rows whose uuid is NULL go. */
  function SendLogAsWritten(recipients: map<int, RecipientRow>, log: RowTable,
                            pick: int -> (int, int)): (t: RowTable)
    ensures t.Keys <= log.Keys && AllByUuid(t)
    ensures forall id | id in t :: t[id].key == log[id].key && t[id].columns == log[id].columns
    ensures !JoinNonEmpty(recipients, log) ==> t == map[]
  {
    var joined := JoinNonEmpty(recipients, log);
    map id | id in log && joined && PickedUuid(recipients, log, pick, id).Some?
      :: log[id].(owner := ByUuid(PickedUuid(recipients, log, pick, id).value))
  }

  /** Some log row's recipient id names a recipient row. */
  predicate JoinNonEmpty(recipients: map<int, RecipientRow>, log: RowTable) {
    exists i | i in log :: log[i].owner.ByRecipient? && log[i].owner.recipientId in recipients
  }

  /** `pick(id)` is a pair (log row `i`, recipient row `r`) of the join. */
  predicate PicksFromJoin(recipients: map<int, RecipientRow>, log: RowTable, pick: int -> (int, int)) {
    forall id | id in log ::
      var (i, r) := pick(id);
      i in log && log[i].owner == ByRecipient(r) && r in recipients
  }

  /** The uuid of the recipient in the join row picked for `id`. */
  function PickedUuid(recipients: map<int, RecipientRow>, log: RowTable, pick: int -> (int, int), id: int)
    : Option<Uuid>
  {
    var r := pick(id).1;
    if r in recipients then recipients[r].uuid else None
  }

  /** Two log rows of two recipients with distinct UUIDs: whatever join row
      SQLite picks for both rows, one of them ends up with the other's
      UUID, which the intended row-by-row re-keying does not do. */
  lemma SendLogMisattributed()
    ensures var a, b := Uuid(0, 1), Uuid(0, 2);
      var recipients := map[10 := RecipientRow(Some(a), None), 20 := RecipientRow(Some(b), None)];
      var log := map[1 := KeyedRow(ByRecipient(10), [], []), 2 := KeyedRow(ByRecipient(20), [], [])];
      var first := (id: int) => (1, 10);
      && PicksFromJoin(recipients, log, first)
      && SendLogAsWritten(recipients, log, first)[2].owner == ByUuid(a)
      && Rekey(recipients, log)[2].owner == ByUuid(b)
  {
    var a, b := Uuid(0, 1), Uuid(0, 2);
    var recipients := map[10 := RecipientRow(Some(a), None), 20 := RecipientRow(Some(b), None)];
    var log := map[1 := KeyedRow(ByRecipient(10), [], []), 2 := KeyedRow(ByRecipient(20), [], [])];
    var first := (id: int) => (1, 10);
    assert log[1].owner.ByRecipient? && log[1].owner.recipientId in recipients;
    assert JoinNonEmpty(recipients, log);
  }

  /** With the join row picked from the join, every kept log row carries
      the UUID of a recipient that has rows in the log. */
  lemma SendLogAsWrittenOwners(recipients: map<int, RecipientRow>, log: RowTable, pick: int -> (int, int))
    requires PicksFromJoin(recipients, log, pick)
    ensures var t := SendLogAsWritten(recipients, log, pick);
      forall id | id in t :: exists i | i in log && log[i].owner.ByRecipient? ::
        OwnerUuid(recipients, log[i].owner) == Some(t[id].owner.uuid)
  {
    var t := SendLogAsWritten(recipients, log, pick);
    forall id | id in t
      ensures exists i | i in log && log[i].owner.ByRecipient? :: OwnerUuid(recipients, log[i].owner) == Some(t[id].owner.uuid)
    {
      var (i, r) := pick(id);
      assert log[i].owner == ByRecipient(r);
      assert OwnerUuid(recipients, log[i].owner) == Some(t[id].owner.uuid);
    }
  }

  /** When all log rows belong to one recipient, the update as written
      gives the same table as re-keying row by row: the defect needs two
      recipients. */
  lemma SendLogAsWrittenOneRecipient(recipients: map<int, RecipientRow>, log: RowTable,
                                     pick: int -> (int, int), owner: int)
    requires forall id | id in log :: log[id].owner == ByRecipient(owner)
    requires owner in recipients ==> PicksFromJoin(recipients, log, pick)
    ensures SendLogAsWritten(recipients, log, pick) == Rekey(recipients, log)
  {
    if owner in recipients && exists i :: i in log {
      var i :| i in log;
      assert log[i].owner.ByRecipient? && log[i].owner.recipientId in recipients;
      OneRecipientJoined(recipients, log, pick, owner);
    } else {
      OneRecipientUnjoined(recipients, log, pick, owner);
    }
  }

  /** The joined case: every row's picked uuid is its own recipient's. */
  lemma OneRecipientJoined(recipients: map<int, RecipientRow>, log: RowTable,
                           pick: int -> (int, int), owner: int)
    requires forall id | id in log :: log[id].owner == ByRecipient(owner)
    requires PicksFromJoin(recipients, log, pick) && JoinNonEmpty(recipients, log)
    ensures SendLogAsWritten(recipients, log, pick) == Rekey(recipients, log)
  {
    var t, u := SendLogAsWritten(recipients, log, pick), Rekey(recipients, log);
    forall id | id in log
      ensures PickedUuid(recipients, log, pick, id) == OwnerUuid(recipients, log[id].owner)
    {
      var (i, r) := pick(id);
      assert log[i].owner == ByRecipient(r);
    }
    forall id ensures id in t.Keys <==> id in u.Keys {
      if id in log {
        assert PickedUuid(recipients, log, pick, id) == OwnerUuid(recipients, log[id].owner);
      }
    }
    forall id | id in t ensures t[id] == u[id] {
      assert PickedUuid(recipients, log, pick, id) == OwnerUuid(recipients, log[id].owner);
    }
    SameRows(t, u);
  }

  /** The unjoined case: the owner is unknown or the log is empty, so both
      tables are empty. */
  lemma OneRecipientUnjoined(recipients: map<int, RecipientRow>, log: RowTable,
                             pick: int -> (int, int), owner: int)
    requires forall id | id in log :: log[id].owner == ByRecipient(owner)
    requires owner !in recipients || log == map[]
    ensures SendLogAsWritten(recipients, log, pick) == Rekey(recipients, log)
  {
    var t, u := SendLogAsWritten(recipients, log, pick), Rekey(recipients, log);
    assert !JoinNonEmpty(recipients, log);
    forall id | id in log ensures OwnerUuid(recipients, log[id].owner).None? {
      assert log[id].owner == ByRecipient(owner);
    }
    assert u.Keys == {};
  }

  /** Two tables with the same `_id`s and the same row at each are equal. */
  lemma SameRows(t: RowTable, u: RowTable)
    requires t.Keys == u.Keys
    requires forall id | id in t :: t[id] == u[id]
    ensures t == u
  {
    assert forall id | id in t.Keys :: t[id] == u[id];
  }

  /** As written, every kept log row carries the same UUID whenever SQLite
      picks the same join row for all rows, as a nested-loop join does. */
  lemma SendLogAsWrittenUniform(recipients: map<int, RecipientRow>, log: RowTable, i: int, r: int)
    ensures var t := SendLogAsWritten(recipients, log, (id: int) => (i, r));
      forall x, y | x in t && y in t :: t[x].owner == t[y].owner
  {
  }

  // ---------------------------------------------------------------------
  // The database

  /** The stores whose `createSql` `createDatabase` calls, in order. */
  datatype Store =
    | RecipientStore | MessageSendLogStore | StickerStore | PreKeyStore | SignedPreKeyStore
    | GroupStore | SessionStore | IdentityKeyStore | SenderKeyRecordStore | SenderKeySharedStore

  const CREATE_ORDER: seq<Store> := [
    RecipientStore, MessageSendLogStore, StickerStore, PreKeyStore, SignedPreKeyStore,
    GroupStore, SessionStore, IdentityKeyStore, SenderKeyRecordStore, SenderKeySharedStore]

  /** The tables a store's `createSql` creates, in order, by the names the
      ladder gives them. */
  function TablesOf(s: Store): seq<TableName> {
    match s
    case RecipientStore => [Recipient]
    case MessageSendLogStore => [MessageSendLog, MessageSendLogContent]
    case StickerStore => [Sticker]
    case PreKeyStore => [PreKey]
    case SignedPreKeyStore => [SignedPreKey]
    case GroupStore => [GroupV2, GroupV1, GroupV1Member]
    case SessionStore => [Session]
    case IdentityKeyStore => [Identity]
    case SenderKeyRecordStore => [SenderKey]
    case SenderKeySharedStore => [SenderKeyShared]
  }

  /** Every table the given stores own. */
  function StoreTables(stores: seq<Store>): set<TableName> {
    set s, t | s in stores && t in TablesOf(s) :: t
  }

  /** The store whose `createSql` creates a table. */
  function OwnerOf(t: TableName): Store {
    match t
    case Recipient => RecipientStore
    case MessageSendLog => MessageSendLogStore
    case MessageSendLogContent => MessageSendLogStore
    case Sticker => StickerStore
    case PreKey => PreKeyStore
    case SignedPreKey => SignedPreKeyStore
    case GroupV2 => GroupStore
    case GroupV1 => GroupStore
    case GroupV1Member => GroupStore
    case Session => SessionStore
    case Identity => IdentityKeyStore
    case SenderKey => SenderKeyRecordStore
    case SenderKeyShared => SenderKeySharedStore
  }

  /** No table is owned twice: the stores are distinct, no store lists a
      table twice, and every table a store lists is its own. */
  predicate OwnedOnce(stores: seq<Store>) {
    && (forall i, j | 0 <= i < j < |stores| :: stores[i] != stores[j])
    && (forall s, i, j | s in stores && 0 <= i < j < |TablesOf(s)| :: TablesOf(s)[i] != TablesOf(s)[j])
    && (forall s, t | s in stores && t in TablesOf(s) :: OwnerOf(t) == s)
  }

  /** Each store's plain `CREATE TABLE`s in turn; the first table that
      already exists fails. */
  function CreateStores(db: Db, stores: seq<Store>): Result<Db, DbError>
    decreases |stores|
  {
    if stores == [] then Success(db)
    else
      var next :- CreateTables(db, TablesOf(stores[0]));
      CreateStores(next, stores[1..])
  }

  /** On success exactly the stores' tables are added and nothing else
      changes; a failure names one of them. */
  lemma {:induction false} CreateStoresEffect(db: Db, stores: seq<Store>)
    ensures CreateStores(db, stores).Success? ==>
      CreateStores(db, stores).value == db.(tables := db.tables + StoreTables(stores))
    ensures CreateStores(db, stores).Failure? ==>
      CreateStores(db, stores).error.TableExists? && CreateStores(db, stores).error.table in StoreTables(stores)
    decreases |stores|
  {
    if stores != [] {
      StoreTablesFirst(stores);
      if CreateTables(db, TablesOf(stores[0])).Success? {
        CreateStoresEffect(CreateTables(db, TablesOf(stores[0])).value, stores[1..]);
      }
    }
  }

  /** From the store at `i` on, that store's tables are created first, and
      the rest go on from the result. */
  lemma CreateStoresAt(db: Db, stores: seq<Store>, i: int)
    requires 0 <= i < |stores|
    ensures CreateTables(db, TablesOf(stores[i])).Failure? ==>
      CreateStores(db, stores[i..]) == Failure(CreateTables(db, TablesOf(stores[i])).error)
    ensures CreateTables(db, TablesOf(stores[i])).Success? ==>
      CreateStores(db, stores[i..]) == CreateStores(CreateTables(db, TablesOf(stores[i])).value, stores[i + 1..])
  {
    assert stores[i..][0] == stores[i] && stores[i..][1..] == stores[i + 1..];
  }

  /** The first store's tables and those of the rest. */
  lemma StoreTablesFirst(stores: seq<Store>)
    requires stores != []
    ensures StoreTables(stores) == (set t | t in TablesOf(stores[0])) + StoreTables(stores[1..])
  {
    assert forall s | s in stores :: s == stores[0] || s in stores[1..];
  }

  /** The stores after the first still own their tables once. */
  lemma OwnedOnceRest(stores: seq<Store>)
    requires stores != [] && OwnedOnce(stores)
    ensures OwnedOnce(stores[1..])
  {
    forall i, j | 0 <= i < j < |stores[1..]|
      ensures stores[1..][i] != stores[1..][j]
    {
      assert stores[1..][i] == stores[i + 1] && stores[1..][j] == stores[j + 1];
    }
  }

  /** What the first store owns, no later store owns. */
  lemma FirstOwnedAlone(stores: seq<Store>)
    requires stores != [] && OwnedOnce(stores)
    ensures forall t | t in StoreTables(stores[1..]) :: t !in TablesOf(stores[0])
  {
    forall t | t in StoreTables(stores[1..])
      ensures t !in TablesOf(stores[0])
    {
      var s :| s in stores[1..] && t in TablesOf(s);
      var j :| 0 <= j < |stores[1..]| && stores[1..][j] == s;
      assert stores[j + 1] == s;
      assert OwnerOf(t) == s != stores[0];
    }
  }

  /** Creating the stores of a database that holds none of their tables
      succeeds, and creating them where one of their tables exists fails. */
  lemma {:induction false} CreateStoresSucceeds(db: Db, stores: seq<Store>)
    requires OwnedOnce(stores)
    ensures CreateStores(db, stores).Success? <==> forall t | t in StoreTables(stores) :: t !in db.tables
    decreases |stores|
  {
    if stores != [] {
      CreateTablesEffect(db, TablesOf(stores[0]));
      StoreTablesFirst(stores);
      OwnedOnceRest(stores);
      FirstOwnedAlone(stores);
      if CreateTables(db, TablesOf(stores[0])).Success? {
        CreateStoresSucceeds(CreateTables(db, TablesOf(stores[0])).value, stores[1..]);
      }
    }
  }

  /** The position of a store in `createDatabase`. */
  function Rank(s: Store): nat {
    match s
    case RecipientStore => 0
    case MessageSendLogStore => 1
    case StickerStore => 2
    case PreKeyStore => 3
    case SignedPreKeyStore => 4
    case GroupStore => 5
    case SessionStore => 6
    case IdentityKeyStore => 7
    case SenderKeyRecordStore => 8
    case SenderKeySharedStore => 9
  }

  /** Every store lists its tables once, and they are its own. */
  lemma TablesOwned(s: Store)
    ensures forall i, j | 0 <= i < j < |TablesOf(s)| :: TablesOf(s)[i] != TablesOf(s)[j]
    ensures forall t | t in TablesOf(s) :: OwnerOf(t) == s
  {
  }

  /** No table belongs to two stores. */
  lemma CreateOrderOwnedOnce()
    ensures OwnedOnce(CREATE_ORDER)
  {
    forall i | 0 <= i < |CREATE_ORDER|
      ensures Rank(CREATE_ORDER[i]) == i
    {
    }
    forall s | s in CREATE_ORDER {
      TablesOwned(s);
    }
  }

  /** `createDatabase` succeeds exactly on a database that holds none of
      the stores' tables, a fresh one in particular. */
  lemma CreateDatabaseSucceeds(db: Db)
    ensures CreateStores(db, CREATE_ORDER).Success? <==> db.tables !! StoreTables(CREATE_ORDER)
  {
    CreateOrderOwnedOnce();
    CreateStoresSucceeds(db, CREATE_ORDER);
  }

  class AccountDatabase {
    var db: Db
    /** The stores whose tables `createDatabase` created, in order. */
    ghost var storesCreated: seq<Store>

    constructor(db: Db)
      ensures this.db == db && storesCreated == []
    {
      this.db := db;
      storesCreated := [];
    }

    /** `createDatabase`: every store runs its `createSql`, creating its
        tables in their current form; no ladder step runs. A table that
        already exists fails its plain `CREATE TABLE` and ends it. */
    method CreateDatabase() returns (r: Outcome<DbError>)
      modifies this
      ensures CreateStores(old(db), CREATE_ORDER).Success? ==>
        && r.Pass?
        && db == CreateStores(old(db), CREATE_ORDER).value.(urgentColumn := true, pniColumn := true)
        && storesCreated == old(storesCreated) + CREATE_ORDER
      ensures CreateStores(old(db), CREATE_ORDER).Failure? ==>
        r == Fail(CreateStores(old(db), CREATE_ORDER).error)
    {
      r := RunCreateSql(CREATE_ORDER);
      if r.Pass? {
        db := db.(urgentColumn := true, pniColumn := true);
      }
    }

    /** The `createSql` calls of `stores`, in order; the first failing
        statement ends them. */
    method RunCreateSql(stores: seq<Store>) returns (r: Outcome<DbError>)
      modifies this
      ensures CreateStores(old(db), stores).Success? ==>
        r.Pass? && db == CreateStores(old(db), stores).value && storesCreated == old(storesCreated) + stores
      ensures CreateStores(old(db), stores).Failure? ==> r == Fail(CreateStores(old(db), stores).error)
    {
      var i := 0;
      while i < |stores|
        invariant 0 <= i <= |stores|
        invariant CreateStores(old(db), stores) == CreateStores(db, stores[i..])
        invariant storesCreated == old(storesCreated) + stores[..i]
      {
        var s := stores[i];
        CreateStoresAt(db, stores, i);
        var next := CreateTables(db, TablesOf(s));
        if next.Failure? {
          return Fail(next.error);
        }
        assert stores[..i + 1] == stores[..i] + [s];
        db := next.value;
        storesCreated := storesCreated + [s];
        i := i + 1;
      }
      assert stores[..i] == stores;
      return Pass;
    }

    /** One step of the ladder. */
    method RunStep(n: int, pick: int -> (int, int)) returns (r: Outcome<DbError>)
      requires FIRST_STEP <= n <= DATABASE_VERSION
      modifies this
      ensures Step(n, old(db), pick).Success? ==> r.Pass? && db == Step(n, old(db), pick).value
      ensures Step(n, old(db), pick).Failure? ==> r == Fail(Step(n, old(db), pick).error) && db == old(db)
    {
      var next := Step(n, db, pick);
      if next.Failure? {
        return Fail(next.error);
      }
      db := next.value;
      return Pass;
    }

    /** One block `if (oldVersion < N)` of `upgradeDatabase`: step `n`
        runs when `oldVersion` is below it, and the ladder's listed steps
        go on from the new state. */
    method RunBlock(oldVersion: int, n: int, pick: int -> (int, int)) returns (r: Outcome<DbError>)
      requires FIRST_STEP <= n <= DATABASE_VERSION
      modifies this
      ensures r.Pass? ==> ApplySteps(old(db), StepsFrom(oldVersion, n), pick)
                            == ApplySteps(db, StepsFrom(oldVersion, n + 1), pick)
      ensures r.Fail? ==> ApplySteps(old(db), StepsFrom(oldVersion, n), pick) == Failure(r.error)
    {
      LadderAdvances(db, oldVersion, n, pick);
      if oldVersion < n {
        r := RunStep(n, pick);
      } else {
        r := Pass;
      }
    }

    /** `upgradeDatabase(connection, oldVersion)`: the blocks `if
        (oldVersion < N)` for N from 2 to 11, in order; the first failing
        statement ends it. `pick` is the join row step 10's send-log update
        takes for each log row. The outcome is that of running the listed
        steps in order, which `UpgradeRunsSteps` shows is `Upgrade`. */
    method UpgradeDatabase(oldVersion: int, pick: int -> (int, int)) returns (r: Outcome<DbError>)
      modifies this
      ensures ApplySteps(old(db), StepsFrom(oldVersion, FIRST_STEP), pick).Success? ==>
                r.Pass? && db == ApplySteps(old(db), StepsFrom(oldVersion, FIRST_STEP), pick).value
      ensures ApplySteps(old(db), StepsFrom(oldVersion, FIRST_STEP), pick).Failure? ==>
                r == Fail(ApplySteps(old(db), StepsFrom(oldVersion, FIRST_STEP), pick).error)
    {
      ghost var upgraded := ApplySteps(db, StepsFrom(oldVersion, FIRST_STEP), pick);
      var n := FIRST_STEP;
      while n <= DATABASE_VERSION
        invariant FIRST_STEP <= n <= DATABASE_VERSION + 1
        invariant upgraded == ApplySteps(db, StepsFrom(oldVersion, n), pick)
      {
        r := RunBlock(oldVersion, n, pick);
        if r.Fail? {
          return;
        }
        n := n + 1;
      }
      return Pass;
    }
  }
}
