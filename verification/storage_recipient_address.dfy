/** `storage.recipients.RecipientAddress`: the stored identity of a
    recipient, an optional service id (ACI, or the PNI when no ACI is
    known), an optional PNI and an optional phone number. */
module StorageRecipientAddress {
  import opened Wrappers
  import opened JavaTypes
  import Api = ApiRecipientAddress

  /** The `AssertionError` thrown when neither a service id nor a number is known. */
  datatype AddressError = NoServiceIdNorNumber

  datatype RecipientAddress = RecipientAddress(
    serviceId: Option<ServiceId>,
    pni: Option<ServiceId>,
    number: Option<string>)

  /** What the constructor guarantees of every address it returns. */
  predicate Valid(a: RecipientAddress) {
    && (a.serviceId.Some? || a.number.Some?)
    && a.serviceId != Some(UNKNOWN)
    && a.pni != Some(UNKNOWN)
    && (a.pni.Some? ==> a.serviceId.Some?)
  }

  /** A service id other than `UNKNOWN`. */
  predicate Known(s: Option<ServiceId>) {
    s.Some? && s.value != UNKNOWN
  }

  /** The main constructor: `UNKNOWN` counts as absent, a known PNI stands
      in for a missing service id, and an address with neither a service id
      nor a number is refused. */
  function Create(serviceId: Option<ServiceId>, pni: Option<ServiceId>, number: Option<string>)
    : (r: Result<RecipientAddress, AddressError>)
    ensures r.Success? <==> Known(serviceId) || Known(pni) || number.Some?
    ensures r.Success? ==> Valid(r.value) && r.value.number == number
    ensures r.Success? ==> (r.value.pni == if Known(pni) then pni else None)
    ensures r.Success? && Known(serviceId) ==> r.value.serviceId == serviceId
    ensures r.Success? && !Known(serviceId) ==> r.value.serviceId == r.value.pni
  {
    var s := if serviceId == Some(UNKNOWN) then None else serviceId;
    var p := if pni == Some(UNKNOWN) then None else pni;
    var s' := if s.None? && p.Some? then p else s;
    if s'.None? && number.None? then Failure(NoServiceIdNorNumber)
    else Success(RecipientAddress(s', p, number))
  }

  /** The constructor from a `SignalServiceAddress` (no PNI). */
  function FromServiceAddress(address: SignalServiceAddress): (r: Result<RecipientAddress, AddressError>)
    ensures r.Success? <==> address.serviceId != UNKNOWN || address.number.Some?
    ensures r.Success? ==> r.value.pni.None? && r.value.number == address.number
    ensures r.Success? ==> (r.value.serviceId.Some? <==> address.serviceId != UNKNOWN)
    ensures r.Success? && address.serviceId != UNKNOWN ==> r.value.serviceId == Some(address.serviceId)
  {
    Create(Some(address.serviceId), None, address.number)
  }

  /** The constructor from a service id alone. */
  function FromServiceId(serviceId: ServiceId): (r: Result<RecipientAddress, AddressError>)
    ensures r.Success? <==> serviceId != UNKNOWN
    ensures r.Success? ==> r.value == RecipientAddress(Some(serviceId), None, None)
  {
    Create(Some(serviceId), None, None)
  }

  /** `getServiceId()`: the service id, `UNKNOWN` when there is none. */
  function GetServiceId(a: RecipientAddress): (s: ServiceId)
    requires Valid(a)
    ensures s == UNKNOWN <==> a.serviceId.None?
    ensures a.serviceId.Some? ==> s == a.serviceId.value
  {
    a.serviceId.GetOr(UNKNOWN)
  }

  /** `getIdentifier()`: the service id text, which reads back as the
      service id, else the number; it throws only when neither is known. */
  function GetIdentifier(a: RecipientAddress): (r: Result<string, AddressError>)
    ensures r.Success? <==> a.serviceId.Some? || a.number.Some?
    ensures a.serviceId.Some? ==> r.Success? && ParseServiceId(r.value) == a.serviceId
    ensures a.serviceId.None? && r.Success? ==> r.value == a.number.value
  {
    if a.serviceId.Some? then Success(ServiceIdToString(a.serviceId.value))
    else if a.number.Some? then Success(a.number.value)
    else Failure(NoServiceIdNorNumber)
  }

  /** `getLegacyIdentifier()`: the number, else the service id text, which
      reads back as the service id; it throws only when neither is known. */
  function GetLegacyIdentifier(a: RecipientAddress): (r: Result<string, AddressError>)
    ensures r.Success? <==> a.serviceId.Some? || a.number.Some?
    ensures a.number.Some? ==> r == Success(a.number.value)
    ensures a.number.None? && a.serviceId.Some? ==> r.Success? && ParseServiceId(r.value) == a.serviceId
  {
    if a.number.Some? then Success(a.number.value)
    else if a.serviceId.Some? then Success(ServiceIdToString(a.serviceId.value))
    else Failure(NoServiceIdNorNumber)
  }

  /** `matches(other)`: a service id or PNI of one equals a service id or
      PNI of the other, or both have the same number. Every constructed
      address matches itself. */
  predicate Matches(a: RecipientAddress, b: RecipientAddress)
    ensures Valid(a) && a == b ==> Matches(a, b)
  {
    || (a.serviceId.Some? && b.serviceId.Some? && a.serviceId.value == b.serviceId.value)
    || (a.pni.Some? && b.serviceId.Some? && a.pni.value == b.serviceId.value)
    || (a.serviceId.Some? && b.pni.Some? && a.serviceId.value == b.pni.value)
    || (a.pni.Some? && b.pni.Some? && a.pni.value == b.pni.value)
    || (a.number.Some? && b.number.Some? && a.number.value == b.number.value)
  }

  /** `toSignalServiceAddress()`. */
  function ToServiceAddress(a: RecipientAddress): (r: SignalServiceAddress)
    requires Valid(a)
    ensures r.number == a.number
    ensures r.serviceId == UNKNOWN <==> a.serviceId.None?
  {
    SignalServiceAddress(GetServiceId(a), a.number)
  }

  /** `toApiRecipientAddress()`: keeps the service id's UUID and the number, drops the PNI. */
  function ToApi(a: RecipientAddress): (r: Result<Api.RecipientAddress, Api.AddressError>)
    requires Valid(a)
    ensures r.Success? && Api.Valid(r.value)
    ensures r.value.number == a.number
    ensures r.value.uuid.Some? <==> a.serviceId.Some?
    ensures a.serviceId.Some? ==> r.value.uuid == Some(a.serviceId.value.uuid)
  {
    var uuid := match a.serviceId case Some(s) => Some(s.uuid) case None => None;
    Api.Create(uuid, a.number)
  }

  /** The getters' assertion is unreachable for constructed addresses. */
  lemma IdentifiersTotal(serviceId: Option<ServiceId>, pni: Option<ServiceId>, number: Option<string>)
    requires Create(serviceId, pni, number).Success?
    ensures var a := Create(serviceId, pni, number).value;
      GetIdentifier(a).Success? && GetLegacyIdentifier(a).Success?
  {
  }

  /** The identifier prefers the service id and the legacy identifier the
      number, each falling back on the other; the service id text reads
      back as the service id. */
  lemma IdentifierPreference(a: RecipientAddress)
    requires Valid(a)
    ensures a.serviceId.Some? ==> GetIdentifier(a) == Success(ServiceIdToString(a.serviceId.value))
    ensures a.serviceId.None? ==> GetIdentifier(a) == Success(a.number.value)
    ensures a.number.Some? ==> GetLegacyIdentifier(a) == Success(a.number.value)
    ensures a.number.None? ==> GetLegacyIdentifier(a) == Success(ServiceIdToString(a.serviceId.value))
    ensures a.serviceId.Some? ==> ParseServiceId(GetIdentifier(a).value) == a.serviceId
  {
  }

  lemma MatchesSymmetric(a: RecipientAddress, b: RecipientAddress)
    ensures Matches(a, b) <==> Matches(b, a)
  {
  }

  lemma MatchesReflexive(a: RecipientAddress)
    requires Valid(a)
    ensures Matches(a, a)
  {
  }

  /** An address whose PNI is known matches the PNI-only address built from it. */
  lemma PniAddressMatches(a: RecipientAddress)
    requires Valid(a) && a.pni.Some?
    ensures Create(None, a.pni, None).Success?
    ensures Matches(a, Create(None, a.pni, None).value)
  {
  }

  /** Going through `SignalServiceAddress` and back loses nothing but the PNI. */
  lemma ServiceAddressRoundTrip(a: RecipientAddress)
    requires Valid(a)
    ensures FromServiceAddress(ToServiceAddress(a)) == Success(a.(pni := None))
  {
  }

  /** The API address keeps the identifiers of the stored one. */
  lemma ToApiKeepsIdentifiers(a: RecipientAddress)
    requires Valid(a)
    ensures Api.GetIdentifier(ToApi(a).value) == Result.Success(GetIdentifier(a).value)
    ensures Api.GetLegacyIdentifier(ToApi(a).value) == Result.Success(GetLegacyIdentifier(a).value)
  {
  }

  /** API addresses match only if the stored ones do; without PNIs the two
      notions of matching coincide. */
  lemma ToApiMatches(a: RecipientAddress, b: RecipientAddress)
    requires Valid(a) && Valid(b)
    ensures Api.Matches(ToApi(a).value, ToApi(b).value) ==> Matches(a, b)
    ensures a.pni.None? && b.pni.None? ==>
              (Matches(a, b) <==> Api.Matches(ToApi(a).value, ToApi(b).value))
  {
  }
}
