/** `LegacyGroupStore`: import of groups from the old JSON account file.
    The JSON tree is given as `JsonNode` values; the two custom
    deserializers sort group and member nodes, and `migrate` turns each
    group into a `GroupInfoV1` or `GroupInfoV2`. Base64, the master-key
    check, the recipient resolvers and the group cache directory are
    inputs (`Env`); deleting the cache is not part of this model. */
module LegacyGroupStore {
  import opened Wrappers
  import opened JavaTypes
  import SRA = StorageRecipientAddress

  // ---------------------------------------------------------------------
  // JSON trees

  /** A Jackson `JsonNode`; numbers are integral. */
  datatype JsonNode =
    | JNull
    | JBool(b: bool)
    | JNumber(value: int)
    | JText(text: string)
    | JArray(items: seq<JsonNode>)
    | JObject(fields: map<string, JsonNode>)

  /** What reading the tree throws: a `NullPointerException` on a node
      Jackson turned into `null`, or its mismatched-input exception. */
  datatype JsonError = NullNode | Mismatch

  /** `n.hasNonNull(name)`. */
  predicate HasNonNull(n: JsonNode, name: string) {
    n.JObject? && name in n.fields && !n.fields[name].JNull?
  }

  /** A `String` property: absent or `null` gives `null`. */
  function TextField(fields: map<string, JsonNode>, name: string): (r: Result<Option<string>, JsonError>)
    ensures (name !in fields || fields[name].JNull?) ==> r == Success(None)
    ensures r.Success? && r.value.Some? ==> name in fields && fields[name] == JText(r.value.value)
  {
    if name !in fields then Success(None)
    else match fields[name]
      case JNull => Success(None)
      case JText(t) => Success(Some(t))
      case _ => Failure(Mismatch)
  }

  /** A `boolean` property: absent or `null` gives `false`. */
  function BoolField(fields: map<string, JsonNode>, name: string): (r: Result<bool, JsonError>)
    ensures (name !in fields || fields[name].JNull?) ==> r == Success(false)
  {
    if name !in fields then Success(false)
    else match fields[name]
      case JNull => Success(false)
      case JBool(b) => Success(b)
      case _ => Failure(Mismatch)
  }

  /** An `int` property: absent or `null` gives `0`. */
  function IntField(fields: map<string, JsonNode>, name: string): (r: Result<Int32, JsonError>)
    ensures (name !in fields || fields[name].JNull?) ==> r == Success(0)
  {
    if name !in fields then Success(0)
    else match fields[name]
      case JNull => Success(0)
      case JNumber(v) => if INT32_MIN <= v <= INT32_MAX then Success(v) else Failure(Mismatch)
      case _ => Failure(Mismatch)
  }

  /** `numberValue().longValue()`: the low 64 bits. */
  function LongValue(v: int): (x: Int64)
    ensures INT64_MIN <= v <= INT64_MAX ==> x == v
  {
    Signed64(v % TWO_64)
  }

  /** Each element in turn through `f`; the first failure ends the walk,
      as in a sequential stream or a loop that throws. */
  function Traverse<T, U, E>(f: T -> Result<U, E>, xs: seq<T>): Result<seq<U>, E>
    decreases |xs|
  {
    if xs == [] then Success([])
    else
      var init :- Traverse(f, xs[..|xs| - 1]);
      var last :- f(xs[|xs| - 1]);
      Success(init + [last])
  }

  /** A walk that gets through gives one result per element. */
  lemma {:induction false} TraverseSuccess<T, U, E>(f: T -> Result<U, E>, xs: seq<T>)
    requires Traverse(f, xs).Success?
    ensures |Traverse(f, xs).value| == |xs|
    ensures forall i | 0 <= i < |xs| :: f(xs[i]) == Success(Traverse(f, xs).value[i])
    decreases |xs|
  {
    if xs != [] {
      var init := xs[..|xs| - 1];
      TraverseSuccess(f, init);
      forall i | 0 <= i < |init|
        ensures xs[i] == init[i]
      {
      }
    }
  }

  /** A walk that fails fails with the error of the first element that
      fails, and every element before it succeeds. */
  lemma {:induction false} TraverseFailure<T, U, E>(f: T -> Result<U, E>, xs: seq<T>)
    requires Traverse(f, xs).Failure?
    ensures exists i | 0 <= i < |xs| ::
      (f(xs[i]) == Failure(Traverse(f, xs).error) && forall k | 0 <= k < i :: f(xs[k]).Success?)
    decreases |xs|
  {
    var init := xs[..|xs| - 1];
    var n := |xs| - 1;
    if Traverse(f, init).Failure? {
      TraverseFailure(f, init);
      var i :| 0 <= i < |init| && f(init[i]) == Failure(Traverse(f, init).error)
        && forall k | 0 <= k < i :: f(init[k]).Success?;
      assert xs[i] == init[i];
      forall k | 0 <= k < i
        ensures f(xs[k]).Success?
      {
        assert xs[k] == init[k];
      }
    } else {
      TraverseSuccess(f, init);
      assert f(xs[n]) == Failure(Traverse(f, xs).error);
      forall k | 0 <= k < n
        ensures f(xs[k]).Success?
      {
        assert xs[k] == init[k];
      }
    }
  }

  /** Once a prefix fails, the whole walk fails the same way. */
  lemma {:induction false} TraversePrefixFailure<T, U, E>(f: T -> Result<U, E>, xs: seq<T>, n: nat)
    requires n <= |xs| && Traverse(f, xs[..n]).Failure?
    ensures Traverse(f, xs) == Traverse(f, xs[..n])
    decreases |xs| - n
  {
    if n < |xs| {
      assert xs[..n + 1][..n] == xs[..n];
      TraversePrefixFailure(f, xs, n + 1);
    } else {
      assert xs[..n] == xs;
    }
  }

  // ---------------------------------------------------------------------
  // Members

  /** `Storage.GroupV1.Member`. */
  datatype Member = Member(recipientId: Option<Int64>, uuid: Option<string>, number: Option<string>)

  /** One element of a `members` array, sorted as `MembersDeserializer`
      does: text is a number, a number is a recipient id, and anything
      else is read as a `{uuid, number}` object. */
  function MemberOf(n: JsonNode): (r: Result<Member, JsonError>)
    ensures r.Success? && r.value.recipientId.Some? <==> n.JNumber?
    ensures n.JText? ==> r == Success(Member(None, None, Some(n.text)))
    ensures n.JObject? && r.Success? ==>
      (r.value.recipientId.None? && Success(r.value.uuid) == TextField(n.fields, "uuid")
       && Success(r.value.number) == TextField(n.fields, "number"))
    ensures n.JNull? ==> r == Failure(NullNode)
    ensures n.JBool? || n.JArray? ==> r == Failure(Mismatch)
  {
    match n
    case JText(t) => Success(Member(None, None, Some(t)))
    case JNumber(v) => Success(Member(Some(LongValue(v)), None, None))
    case JNull => Failure(NullNode)
    case JObject(fields) =>
      var uuid :- TextField(fields, "uuid");
      var number :- TextField(fields, "number");
      Success(Member(None, uuid, number))
    case _ => Failure(Mismatch)
  }

  /** `MembersDeserializer.deserialize`: one member per element, in order. */
  method DeserializeMembers(nodes: seq<JsonNode>) returns (r: Result<seq<Member>, JsonError>)
    ensures r == Traverse(MemberOf, nodes)
  {
    var addresses: seq<Member> := [];
    for i := 0 to |nodes|
      invariant Traverse(MemberOf, nodes[..i]) == Success(addresses)
    {
      var n := nodes[i];
      assert nodes[..i + 1][..i] == nodes[..i];
      if n.JText? {
        addresses := addresses + [Member(None, None, Some(n.text))];
      } else if n.JNumber? {
        addresses := addresses + [Member(Some(LongValue(n.value)), None, None)];
      } else if n.JObject? {
        var uuid := TextField(n.fields, "uuid");
        var number := TextField(n.fields, "number");
        if uuid.Failure? || number.Failure? {
          r := if uuid.Failure? then Failure(uuid.error) else Failure(number.error);
          TraversePrefixFailure(MemberOf, nodes, i + 1);
          return;
        }
        addresses := addresses + [Member(None, uuid.value, number.value)];
      } else {
        r := if n.JNull? then Failure(NullNode) else Failure(Mismatch);
        TraversePrefixFailure(MemberOf, nodes, i + 1);
        return;
      }
    }
    assert nodes[..|nodes|] == nodes;
    r := Success(addresses);
  }

  // ---------------------------------------------------------------------
  // Groups

  /** `Storage.GroupV1`; `members` is `null` when the property is absent. */
  datatype GroupV1 = GroupV1(
    groupId: Option<string>,
    expectedV2Id: Option<string>,
    name: Option<string>,
    color: Option<string>,
    messageExpirationTime: Int32,
    blocked: bool,
    archived: bool,
    members: Option<seq<Member>>)

  /** `Storage.GroupV2`; its master key is present, since that is what
      makes a node a v2 group. */
  datatype GroupV2 = GroupV2(
    groupId: Option<string>,
    masterKey: string,
    distributionId: Option<string>,
    blocked: bool,
    permissionDenied: bool)

  /** `Storage.GroupVx`. */
  datatype GroupVx = V1(v1: GroupV1) | V2(v2: GroupV2)

  /** Whether a node is a scalar, whose iterator is empty. */
  predicate IsScalar(node: JsonNode) {
    node.JBool? || node.JNumber? || node.JText?
  }

  /** The `members` property, read by `MembersDeserializer` when present:
      its `for (var n : node)` walks an array's items, and no child of a
      scalar. An object, whose values it would walk in document order,
      is read as a mismatch, since objects here are unordered maps. */
  function MembersField(fields: map<string, JsonNode>): (r: Result<Option<seq<Member>>, JsonError>)
    ensures ("members" !in fields || fields["members"].JNull?) ==> r == Success(None)
    ensures "members" in fields && IsScalar(fields["members"]) ==> r == Success(Some([]))
    ensures "members" in fields && fields["members"].JArray? ==>
      (r.Success? <==> Traverse(MemberOf, fields["members"].items).Success?)
    ensures r.Success? && r.value.Some? && r.value.value != [] ==>
      && "members" in fields && fields["members"].JArray?
      && Traverse(MemberOf, fields["members"].items) == Success(r.value.value)
  {
    if "members" !in fields then Success(None)
    else match fields["members"]
      case JNull => Success(None)
      case JArray(items) =>
        var members :- Traverse(MemberOf, items);
        Success(Some(members))
      case JObject(_) => Failure(Mismatch)
      case _ => Success(Some([]))
  }

  /** `Storage.GroupV1` bound from its properties: it is read exactly when
      every property reads, each by its own rule, whatever the others hold. */
  function GroupV1Of(fields: map<string, JsonNode>): (r: Result<GroupV1, JsonError>)
    ensures r.Success? <==>
      && TextField(fields, "groupId").Success? && TextField(fields, "expectedV2Id").Success?
      && TextField(fields, "name").Success? && TextField(fields, "color").Success?
      && IntField(fields, "messageExpirationTime").Success?
      && BoolField(fields, "blocked").Success? && BoolField(fields, "archived").Success?
      && MembersField(fields).Success?
    ensures r.Success? ==>
      && TextField(fields, "groupId") == Success(r.value.groupId)
      && TextField(fields, "expectedV2Id") == Success(r.value.expectedV2Id)
      && TextField(fields, "name") == Success(r.value.name)
      && TextField(fields, "color") == Success(r.value.color)
      && IntField(fields, "messageExpirationTime") == Success(r.value.messageExpirationTime)
      && BoolField(fields, "blocked") == Success(r.value.blocked)
      && BoolField(fields, "archived") == Success(r.value.archived)
      && MembersField(fields) == Success(r.value.members)
  {
    var groupId :- TextField(fields, "groupId");
    var expectedV2Id :- TextField(fields, "expectedV2Id");
    var name :- TextField(fields, "name");
    var color :- TextField(fields, "color");
    var messageExpirationTime :- IntField(fields, "messageExpirationTime");
    var blocked :- BoolField(fields, "blocked");
    var archived :- BoolField(fields, "archived");
    var members :- MembersField(fields);
    Success(GroupV1(groupId, expectedV2Id, name, color, messageExpirationTime, blocked, archived, members))
  }

  /** `Storage.GroupV2` bound from its properties: it is read exactly when
      every property reads and the master key is not `null`. */
  function GroupV2Of(fields: map<string, JsonNode>): (r: Result<GroupV2, JsonError>)
    ensures r.Success? <==>
      && TextField(fields, "groupId").Success? && TextField(fields, "masterKey").Success?
      && TextField(fields, "distributionId").Success?
      && BoolField(fields, "blocked").Success? && BoolField(fields, "permissionDenied").Success?
      && TextField(fields, "masterKey").value.Some?
    ensures r.Success? ==>
      && TextField(fields, "groupId") == Success(r.value.groupId)
      && TextField(fields, "masterKey") == Success(Some(r.value.masterKey))
      && TextField(fields, "distributionId") == Success(r.value.distributionId)
      && BoolField(fields, "blocked") == Success(r.value.blocked)
      && BoolField(fields, "permissionDenied") == Success(r.value.permissionDenied)
  {
    var groupId :- TextField(fields, "groupId");
    var masterKey :- TextField(fields, "masterKey");
    var distributionId :- TextField(fields, "distributionId");
    var blocked :- BoolField(fields, "blocked");
    var permissionDenied :- BoolField(fields, "permissionDenied");
    if masterKey.None? then Failure(Mismatch)
    else Success(GroupV2(groupId, masterKey.value, distributionId, blocked, permissionDenied))
  }

  /** One element of the `groups` array, sorted as `GroupsDeserializer`
      does: a non-null `masterKey` makes a v2 group, anything else is read
      as a v1 group, and a `null` element becomes a `null` group. */
  function GroupOf(n: JsonNode): (r: Result<Option<GroupVx>, JsonError>)
    ensures r.Success? ==> (r.value.None? <==> n.JNull?)
    ensures r.Success? && r.value.Some? ==> (r.value.value.V2? <==> HasNonNull(n, "masterKey"))
    ensures HasNonNull(n, "masterKey") ==> r == (var g :- GroupV2Of(n.fields); Success(Some(V2(g))))
    ensures n.JObject? && !HasNonNull(n, "masterKey") ==> r == (var g :- GroupV1Of(n.fields); Success(Some(V1(g))))
  {
    if HasNonNull(n, "masterKey") then
      var g :- GroupV2Of(n.fields);
      Success(Some(V2(g)))
    else match n
      case JObject(fields) =>
        var g :- GroupV1Of(fields);
        Success(Some(V1(g)))
      case JNull => Success(None)
      case _ => Failure(Mismatch)
  }

  /** `GroupsDeserializer.deserialize`: one group per element, in order. */
  method DeserializeGroups(nodes: seq<JsonNode>) returns (r: Result<seq<Option<GroupVx>>, JsonError>)
    ensures r == Traverse(GroupOf, nodes)
  {
    var groups: seq<Option<GroupVx>> := [];
    for i := 0 to |nodes|
      invariant Traverse(GroupOf, nodes[..i]) == Success(groups)
    {
      var n := nodes[i];
      assert nodes[..i + 1][..i] == nodes[..i];
      var g: Result<Option<GroupVx>, JsonError>;
      if HasNonNull(n, "masterKey") {
        var v2 := GroupV2Of(n.fields);
        g := if v2.Failure? then Failure(v2.error) else Success(Some(V2(v2.value)));
      } else if n.JObject? {
        var v1 := GroupV1Of(n.fields);
        g := if v1.Failure? then Failure(v1.error) else Success(Some(V1(v1.value)));
      } else {
        g := if n.JNull? then Success(None) else Failure(Mismatch);
      }
      if g.Failure? {
        r := Failure(g.error);
        TraversePrefixFailure(GroupOf, nodes, i + 1);
        return;
      }
      groups := groups + [g.value];
    }
    assert nodes[..|nodes|] == nodes;
    r := Success(groups);
  }

  /** After a successful read, the i-th group is v2 exactly when the i-th
      node has a non-null `masterKey`, and `null` exactly when the node
      is `null`. */
  lemma GroupKinds(nodes: seq<JsonNode>, i: nat)
    requires Traverse(GroupOf, nodes).Success? && i < |nodes|
    ensures var groups := Traverse(GroupOf, nodes).value;
      && |groups| == |nodes|
      && (groups[i].None? <==> nodes[i].JNull?)
      && (groups[i].Some? ==> (groups[i].value.V2? <==> HasNonNull(nodes[i], "masterKey")))
  {
    TraverseSuccess(GroupOf, nodes);
  }

  // ---------------------------------------------------------------------
  // Migration

  /** A `GroupMasterKey`, opaque. */
  datatype MasterKey = MasterKey(bytes: seq<Byte>)

  /** A cached `DecryptedGroup`, opaque. */
  datatype DecryptedGroup = DecryptedGroup(serialized: seq<Byte>)

  datatype GroupInfo =
    | GroupInfoV1(groupId: seq<Byte>, expectedV2Id: Option<seq<Byte>>, name: Option<string>,
                  members: set<RecipientId>, color: Option<string>, messageExpirationTime: Int32,
                  blocked: bool, archived: bool)
    | GroupInfoV2(groupId: seq<Byte>, masterKey: MasterKey, group: Option<DecryptedGroup>,
                  distributionId: Uuid, blocked: bool, permissionDenied: bool)

  /** What `migrate` throws. */
  datatype MigrateError =
    | NullPointer                        // a null group, member list or group id
    | IllegalArgument                    // text that is not Base64 or not a UUID
    | InvalidMasterKey(groupId: seq<Byte>)  // the `AssertionError` for a bad master key
    | NoServiceIdNorNumber               // the `AssertionError` of `RecipientAddress`

  /** What `migrate` reads besides the groups. */
  datatype Env = Env(
    byId: Int64 -> Option<RecipientId>,                     // resolveRecipient(long)
    byAddress: SRA.RecipientAddress -> Option<RecipientId>,  // resolveRecipient(address)
    decodeBase64: string -> Option<seq<Byte>>,
    encodeBase64: seq<Byte> -> string,
    masterKeyOf: seq<Byte> -> Option<MasterKey>,            // new GroupMasterKey(bytes)
    cache: map<string, Option<DecryptedGroup>>)              // the cache files; None: unreadable

  /** The member's uuid text as a service id, `null` when absent or not
      a service id. */
  function MemberServiceId(uuid: Option<string>): Option<ServiceId> {
    if uuid.Some? then ParseServiceId(uuid.value) else None
  }

  /** The member-to-recipient lambda: by recipient id when there is one,
      else by the address made of the parsed uuid and the number. */
  function ResolveMember(m: Member, env: Env): (r: Result<Option<RecipientId>, MigrateError>)
    ensures m.recipientId.Some? ==> r == Success(env.byId(m.recipientId.value))
    ensures m.recipientId.None? ==>
      (r.Failure? <==> m.number.None? && !SRA.Known(MemberServiceId(m.uuid)))
    ensures r.Failure? ==> r.error == NoServiceIdNorNumber
  {
    match m.recipientId
    case Some(id) => Success(env.byId(id))
    case None =>
      match SRA.Create(MemberServiceId(m.uuid), None, m.number)
      case Failure(_) => Failure(NoServiceIdNorNumber)
      case Success(address) => Success(env.byAddress(address))
  }

  /** `.map(...).filter(Objects::nonNull).collect(Collectors.toSet())`:
      the first member that throws ends it; otherwise every member
      resolved to a recipient is in the set. */
  function ResolveMembers(members: seq<Member>, env: Env): (r: Result<set<RecipientId>, MigrateError>)
    ensures r.Failure? ==> exists i | 0 <= i < |members| ::
      && ResolveMember(members[i], env) == Failure(r.error)
      && forall k | 0 <= k < i :: ResolveMember(members[k], env).Success?
    ensures r.Success? ==> forall i | 0 <= i < |members| :: ResolveMember(members[i], env).Success?
    ensures r.Success? ==> forall i | 0 <= i < |members| && ResolveMember(members[i], env).value.Some? ::
      ResolveMember(members[i], env).value.value in r.value
  {
    var f := (m: Member) => ResolveMember(m, env);
    match Traverse(f, members)
    case Failure(e) =>
      TraverseFailure(f, members);
      Failure(e)
    case Success(ids) =>
      TraverseSuccess(f, members);
      Success(set i | 0 <= i < |ids| && ids[i].Some? :: ids[i].value)
  }

  /** The member set holds exactly the recipients some member resolves
      to; unresolved members are left out and duplicates collapse. */
  lemma ResolvedMembers(members: seq<Member>, env: Env, id: RecipientId)
    requires ResolveMembers(members, env).Success?
    ensures id in ResolveMembers(members, env).value <==>
      exists i | 0 <= i < |members| :: ResolveMember(members[i], env) == Success(Some(id))
  {
    var f := (m: Member) => ResolveMember(m, env);
    TraverseSuccess(f, members);
    var ids := Traverse(f, members).value;
    if id in ResolveMembers(members, env).value {
      var i :| 0 <= i < |ids| && ids[i].Some? && ids[i].value == id;
      assert f(members[i]) == Success(ids[i]);
    }
    if exists i | 0 <= i < |members| :: ResolveMember(members[i], env) == Success(Some(id)) {
      var i :| 0 <= i < |members| && ResolveMember(members[i], env) == Success(Some(id));
      assert f(members[i]) == Success(ids[i]);
    }
  }

  /** `GroupIdV1.fromBase64` / `GroupIdV2.fromBase64`. */
  function GroupIdOf(text: Option<string>, env: Env): (r: Result<seq<Byte>, MigrateError>)
    ensures text.None? ==> r == Failure(NullPointer)
    ensures text.Some? ==> (r.Success? <==> env.decodeBase64(text.value).Some?)
    ensures r.Success? ==> r.value == env.decodeBase64(text.value).value
  {
    match text
    case None => Failure(NullPointer)
    case Some(t) => if env.decodeBase64(t).Some? then Success(env.decodeBase64(t).value) else Failure(IllegalArgument)
  }

  /** `replace("/", "_")`. */
  function ReplaceSlashes(s: string): (r: string)
    ensures |r| == |s| && '/' !in r
    ensures forall i | 0 <= i < |s| :: s[i] != '/' ==> r[i] == s[i]
  {
    seq(|s|, i requires 0 <= i < |s| => if s[i] == '/' then '_' else s[i])
  }

  /** On Base64 text, which has no `_`, the replacement keeps names apart. */
  lemma ReplaceSlashesInjective(s: string, t: string)
    requires '_' !in s && '_' !in t && ReplaceSlashes(s) == ReplaceSlashes(t)
    ensures s == t
  {
    forall i | 0 <= i < |s|
      ensures s[i] == t[i]
    {
      assert ReplaceSlashes(s)[i] == ReplaceSlashes(t)[i];
      assert s[i] in s && t[i] in t;
    }
  }

  /** `Hex.toStringCondensed(bytes)`: two lower-case digits per byte. */
  function HexCondensed(bytes: seq<Byte>): (s: string)
    ensures |s| == 2 * |bytes|
    ensures forall i | 0 <= i < |s| :: IsLowerHexDigit(s[i])
  {
    if bytes == [] then ""
    else
      assert Pow16(2) == 256;
      HexCondensed(bytes[..|bytes| - 1]) + Hex(bytes[|bytes| - 1], 2)
  }

  /** `getGroupV2File`: the Base64 id with `/` made `_`, so a plain file
      name of the same length. */
  function CacheFileName(groupId: seq<Byte>, env: Env): (name: string)
    ensures |name| == |env.encodeBase64(groupId)| && '/' !in name
  {
    ReplaceSlashes(env.encodeBase64(groupId))
  }

  /** `getGroupV2FileLegacy`: the id in hex, two lower-case digits per
      byte. */
  function LegacyCacheFileName(groupId: seq<Byte>): (name: string)
    ensures |name| == 2 * |groupId|
    ensures forall i | 0 <= i < |name| :: IsLowerHexDigit(name[i])
  {
    HexCondensed(groupId)
  }

  /** `loadDecryptedGroupLocked`: the cache file under the current name,
      else under the legacy name; `null` when neither exists or the file
      cannot be read. */
  function LoadDecryptedGroup(groupId: seq<Byte>, env: Env): (r: Option<DecryptedGroup>)
    ensures CacheFileName(groupId, env) in env.cache ==> r == env.cache[CacheFileName(groupId, env)]
    ensures CacheFileName(groupId, env) !in env.cache && LegacyCacheFileName(groupId) in env.cache ==>
      r == env.cache[LegacyCacheFileName(groupId)]
    ensures CacheFileName(groupId, env) !in env.cache && LegacyCacheFileName(groupId) !in env.cache ==> r.None?
  {
    var name := CacheFileName(groupId, env);
    var legacy := LegacyCacheFileName(groupId);
    if name in env.cache then env.cache[name]
    else if legacy in env.cache then env.cache[legacy]
    else None
  }

  /** The group lambda of `migrate`; `newId` is what
      `DistributionId.create()` returns for this group. */
  function MigrateGroup(g: Option<GroupVx>, newId: Uuid, env: Env): (r: Result<GroupInfo, MigrateError>)
    ensures g.None? ==> r == Failure(NullPointer)
    ensures r.Success? ==> (r.value.GroupInfoV2? <==> g.value.V2?)
    ensures g.Some? && g.value.V1? ==>
      (r.Success? <==>
        && g.value.v1.members.Some? && ResolveMembers(g.value.v1.members.value, env).Success?
        && GroupIdOf(g.value.v1.groupId, env).Success?
        && (g.value.v1.expectedV2Id.Some? ==> GroupIdOf(g.value.v1.expectedV2Id, env).Success?))
    ensures r.Success? && g.value.V1? ==>
      && g.value.v1.members.Some?
      && ResolveMembers(g.value.v1.members.value, env) == Success(r.value.members)
      && GroupIdOf(g.value.v1.groupId, env) == Success(r.value.groupId)
      && (g.value.v1.expectedV2Id.None? <==> r.value.expectedV2Id.None?)
      && (g.value.v1.expectedV2Id.Some? ==> GroupIdOf(g.value.v1.expectedV2Id, env) == Success(r.value.expectedV2Id.value))
      && r.value.name == g.value.v1.name && r.value.color == g.value.v1.color
      && r.value.messageExpirationTime == g.value.v1.messageExpirationTime
      && r.value.blocked == g.value.v1.blocked && r.value.archived == g.value.v1.archived
    ensures g.Some? && g.value.V2? ==>
      (r.Success? <==>
        && GroupIdOf(g.value.v2.groupId, env).Success?
        && env.decodeBase64(g.value.v2.masterKey).Some?
        && env.masterKeyOf(env.decodeBase64(g.value.v2.masterKey).value).Some?
        && (g.value.v2.distributionId.Some? ==> ParseUuid(g.value.v2.distributionId.value).Some?))
    ensures r.Success? && g.value.V2? ==>
      r.value.blocked == g.value.v2.blocked && r.value.permissionDenied == g.value.v2.permissionDenied
    ensures r.Success? && g.value.V2? ==>
      && GroupIdOf(g.value.v2.groupId, env) == Success(r.value.groupId)
      && env.decodeBase64(g.value.v2.masterKey).Some?
      && env.masterKeyOf(env.decodeBase64(g.value.v2.masterKey).value) == Some(r.value.masterKey)
      && r.value.group == LoadDecryptedGroup(r.value.groupId, env)
      && (g.value.v2.distributionId.None? ==> r.value.distributionId == newId)
      && (g.value.v2.distributionId.Some? ==> ParseUuid(g.value.v2.distributionId.value) == Some(r.value.distributionId))
    ensures (&& g.Some? && g.value.V2? && GroupIdOf(g.value.v2.groupId, env).Success?
             && (|| env.decodeBase64(g.value.v2.masterKey).None?
                 || env.masterKeyOf(env.decodeBase64(g.value.v2.masterKey).value).None?)) ==>
      r == Failure(InvalidMasterKey(GroupIdOf(g.value.v2.groupId, env).value))
  {
    match g
    case None => Failure(NullPointer)
    case Some(V1(g1)) =>
      if g1.members.None? then Failure(NullPointer)
      else
        var members :- ResolveMembers(g1.members.value, env);
        var groupId :- GroupIdOf(g1.groupId, env);
        var expectedV2Id :- if g1.expectedV2Id.None? then Success(None)
                            else var id :- GroupIdOf(g1.expectedV2Id, env); Success(Some(id));
        Success(GroupInfoV1(groupId, expectedV2Id, g1.name, members, g1.color,
                            g1.messageExpirationTime, g1.blocked, g1.archived))
    case Some(V2(g2)) =>
      var groupId :- GroupIdOf(g2.groupId, env);
      var keyBytes := env.decodeBase64(g2.masterKey);
      if keyBytes.None? || env.masterKeyOf(keyBytes.value).None? then Failure(InvalidMasterKey(groupId))
      else
        var distributionId :- if g2.distributionId.None? then Success(newId)
                              else if ParseUuid(g2.distributionId.value).Some? then Success(ParseUuid(g2.distributionId.value).value)
                              else Failure(IllegalArgument);
        Success(GroupInfoV2(groupId, env.masterKeyOf(keyBytes.value).value, LoadDecryptedGroup(groupId, env),
                            distributionId, g2.blocked, g2.permissionDenied))
  }

  /** `migrate`: the list handed to `addLegacyGroups`, one entry per
      group in order, unless some group throws. */
  function MigrateGroups(groups: seq<Option<GroupVx>>, newIds: seq<Uuid>, env: Env): (r: Result<seq<GroupInfo>, MigrateError>)
    requires |newIds| == |groups|
    ensures r.Success? ==> |r.value| == |groups|
    ensures r.Failure? ==> exists i | 0 <= i < |groups| :: MigrateGroup(groups[i], newIds[i], env) == Failure(r.error)
  {
    if groups == [] then Success([])
    else
      var first :- MigrateGroup(groups[0], newIds[0], env);
      var rest :- MigrateGroups(groups[1..], newIds[1..], env);
      Success([first] + rest)
  }

  /** A successful migration keeps the groups' order and kinds. */
  lemma {:induction false} MigratedInOrder(groups: seq<Option<GroupVx>>, newIds: seq<Uuid>, env: Env)
    requires |newIds| == |groups| && MigrateGroups(groups, newIds, env).Success?
    ensures |MigrateGroups(groups, newIds, env).value| == |groups|
    ensures forall i | 0 <= i < |groups| ::
      MigrateGroup(groups[i], newIds[i], env) == Success(MigrateGroups(groups, newIds, env).value[i])
    ensures forall i | 0 <= i < |groups| ::
      (MigrateGroups(groups, newIds, env).value[i].GroupInfoV2? <==> groups[i].Some? && groups[i].value.V2?)
  {
    if groups != [] {
      MigratedInOrder(groups[1..], newIds[1..], env);
      var r := MigrateGroups(groups, newIds, env).value;
      forall i | 0 <= i < |groups|
        ensures MigrateGroup(groups[i], newIds[i], env) == Success(r[i])
      {
        if i > 0 {
          assert groups[i] == groups[1..][i - 1] && newIds[i] == newIds[1..][i - 1];
        }
      }
    }
  }
}
