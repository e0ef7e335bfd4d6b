/** `api.RecipientAddress`: the address handed to library users, a UUID
    and/or a phone number with at least one of them known. */
module ApiRecipientAddress {
  import opened Wrappers
  import opened JavaTypes

  /** The `AssertionError` thrown when neither a UUID nor a number is known. */
  datatype AddressError = NoUuidNorNumber

  datatype RecipientAddress = RecipientAddress(uuid: Option<Uuid>, number: Option<string>)

  /** What the constructor guarantees of every address it returns. */
  predicate Valid(a: RecipientAddress) {
    (a.uuid.Some? || a.number.Some?) && a.uuid != Some(UNKNOWN_UUID)
  }

  /** The main constructor: the unknown UUID counts as absent, and an
      address with neither a UUID nor a number is refused. */
  function Create(uuid: Option<Uuid>, number: Option<string>): (r: Result<RecipientAddress, AddressError>)
    ensures r.Success? <==> (uuid.Some? && uuid != Some(UNKNOWN_UUID)) || number.Some?
    ensures r.Success? ==> Valid(r.value) && r.value.number == number
    ensures r.Success? && uuid != Some(UNKNOWN_UUID) ==> r.value.uuid == uuid
    ensures r.Success? && uuid == Some(UNKNOWN_UUID) ==> r.value.uuid.None?
  {
    var u := if uuid == Some(UNKNOWN_UUID) then None else uuid;
    if u.None? && number.None? then Failure(NoUuidNorNumber)
    else Success(RecipientAddress(u, number))
  }

  /** The constructor from a `SignalServiceAddress`. */
  function FromServiceAddress(address: SignalServiceAddress): (r: Result<RecipientAddress, AddressError>)
    ensures r.Success? <==> address.serviceId != UNKNOWN || address.number.Some?
    ensures r.Success? ==> r.value.number == address.number
    ensures r.Success? && address.serviceId != UNKNOWN ==> r.value.uuid == Some(address.serviceId.uuid)
  {
    Create(Some(address.serviceId.uuid), address.number)
  }

  /** The constructor from a UUID alone. */
  function FromUuid(uuid: Uuid): (r: Result<RecipientAddress, AddressError>)
    ensures r.Success? <==> uuid != UNKNOWN_UUID
    ensures r.Success? ==> r.value == RecipientAddress(Some(uuid), None)
  {
    Create(Some(uuid), None)
  }

  /** `getServiceId()`: the service id of the UUID, `UNKNOWN` when there is none. */
  function GetServiceId(a: RecipientAddress): (s: ServiceId)
    requires Valid(a)
    ensures s == UNKNOWN <==> a.uuid.None?
    ensures a.uuid.Some? ==> s.uuid == a.uuid.value
  {
    ServiceIdFrom(a.uuid.GetOr(UNKNOWN_UUID))
  }

  /** `getIdentifier()`: the UUID text, which reads back as the UUID, else
      the number; it throws only when neither is known. */
  function GetIdentifier(a: RecipientAddress): (r: Result<string, AddressError>)
    ensures r.Success? <==> a.uuid.Some? || a.number.Some?
    ensures a.uuid.Some? ==> r.Success? && ParseUuid(r.value) == a.uuid
    ensures a.uuid.None? && r.Success? ==> r.value == a.number.value
  {
    match a.uuid
    case Some(u) =>
      ParseUuidToString(u);
      Success(UuidToString(u))
    case None =>
      if a.number.Some? then Success(a.number.value)
      else Failure(NoUuidNorNumber)
  }

  /** `getLegacyIdentifier()`: the number, else the UUID text, which reads
      back as the UUID; it throws only when neither is known. */
  function GetLegacyIdentifier(a: RecipientAddress): (r: Result<string, AddressError>)
    ensures r.Success? <==> a.uuid.Some? || a.number.Some?
    ensures a.number.Some? ==> r == Success(a.number.value)
    ensures a.number.None? && a.uuid.Some? ==> r.Success? && ParseUuid(r.value) == a.uuid
  {
    if a.number.Some? then Success(a.number.value)
    else match a.uuid
      case Some(u) =>
        ParseUuidToString(u);
        Success(UuidToString(u))
      case None => Failure(NoUuidNorNumber)
  }

  /** `matches(other)`: the addresses share a UUID or a number. Every
      constructed address matches itself. */
  predicate Matches(a: RecipientAddress, b: RecipientAddress)
    ensures Valid(a) && a == b ==> Matches(a, b)
  {
    || (a.uuid.Some? && b.uuid.Some? && a.uuid.value == b.uuid.value)
    || (a.number.Some? && b.number.Some? && a.number.value == b.number.value)
  }

  /** The assertion in both identifier getters is unreachable for any
      address the constructor returns; the two getters differ only when
      both a UUID and a number are known. */
  lemma IdentifiersTotal(uuid: Option<Uuid>, number: Option<string>)
    requires Create(uuid, number).Success?
    ensures var a := Create(uuid, number).value;
      && GetIdentifier(a).Success? && GetLegacyIdentifier(a).Success?
      && (GetIdentifier(a) != GetLegacyIdentifier(a) ==> a.uuid.Some? && a.number.Some?)
  {
  }

  /** The identifier prefers the UUID, the legacy identifier the number. */
  lemma IdentifierPreference(a: RecipientAddress)
    requires Valid(a)
    ensures a.uuid.Some? ==> GetIdentifier(a) == Success(UuidToString(a.uuid.value))
    ensures a.number.Some? ==> GetLegacyIdentifier(a) == Success(a.number.value)
    ensures a.uuid.Some? ==> ParseUuid(GetIdentifier(a).value) == a.uuid
  {
    if a.uuid.Some? {
      ParseUuidToString(a.uuid.value);
    }
  }

  lemma MatchesSymmetric(a: RecipientAddress, b: RecipientAddress)
    ensures Matches(a, b) <==> Matches(b, a)
  {
  }

  lemma MatchesReflexive(a: RecipientAddress)
    requires Valid(a)
    ensures Matches(a, a)
  {
  }

  /** Two matching addresses agree on their identifier (when they share the
      UUID) or on their legacy identifier (when they share the number). */
  lemma MatchingAddressesShareAnIdentifier(a: RecipientAddress, b: RecipientAddress)
    requires Matches(a, b)
    ensures || (GetIdentifier(a).Success? && GetIdentifier(a) == GetIdentifier(b))
            || (GetLegacyIdentifier(a).Success? && GetLegacyIdentifier(a) == GetLegacyIdentifier(b))
  {
  }
}
