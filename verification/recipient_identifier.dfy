/** `api.RecipientIdentifier`: how a library user names the target of an
    operation — the own account, one recipient by UUID or phone number,
    or a group. */
module RecipientIdentifier {
  import opened Wrappers
  import J = JavaTypes
  import Api = ApiRecipientAddress

  /** A group id, carried in its base64 text form. */
  datatype GroupId = GroupId(base64: string)

  datatype RecipientIdentifier =
    | NoteToSelf
    | Uuid(uuid: J.Uuid)
    | Number(number: string)
    | Group(groupId: GroupId)

  /** `RecipientIdentifier.Single`: one recipient, by UUID or number. */
  type Single = r: RecipientIdentifier | r.Uuid? || r.Number? witness Number("")

  const NOTE_TO_SELF_IDENTIFIER: string := "Note-To-Self"

  datatype IdentifierError =
    | InvalidNumber(message: string)   // `InvalidNumberException`, wrapping the formatter's
    | NoIdentifier                     // the `AssertionError` of `fromAddress`

  /** `getIdentifier()` of each variant. */
  function GetIdentifier(r: RecipientIdentifier): (s: string)
    ensures r.NoteToSelf? ==> s == NOTE_TO_SELF_IDENTIFIER
    ensures r.Uuid? ==> J.ParseUuid(s) == Some(r.uuid)
    ensures r.Number? ==> s == r.number
    ensures r.Group? ==> s == r.groupId.base64
  {
    match r
    case NoteToSelf => NOTE_TO_SELF_IDENTIFIER
    case Uuid(u) => J.ParseUuidToString(u); J.UuidToString(u)
    case Number(n) => n
    case Group(g) => g.base64
  }

  /** `Single.fromString(identifier, localNumber)`: UUID text becomes a
      UUID recipient; anything else goes through the phone number formatter
      (a library function, given here as `formatNumber`), whose failure is
      rethrown as `InvalidNumber` with the same message. */
  function FromString(identifier: string, localNumber: string,
                      formatNumber: (string, string) -> Result<string, string>)
    : (r: Result<Single, IdentifierError>)
    ensures J.IsUuid(identifier) ==> r.Success? && r.value.Uuid?
    ensures r.Success? && r.value.Uuid? ==> J.ParseUuid(identifier) == Some(r.value.uuid)
    ensures !J.IsUuid(identifier) ==>
      match formatNumber(identifier, localNumber)
      case Success(n) => r == Success(Number(n))
      case Failure(m) => r == Failure(InvalidNumber(m))
  {
    if J.IsUuid(identifier) then Success(Uuid(J.ParseUuid(identifier).value))
    else
      match formatNumber(identifier, localNumber)
      case Success(n) => Success(Number(n))
      case Failure(m) => Failure(InvalidNumber(m))
  }

  /** `Single.fromAddress(address)`: the number when known, else the UUID. */
  function FromAddress(a: Api.RecipientAddress): (r: Result<Single, IdentifierError>)
    ensures r.Success? <==> a.uuid.Some? || a.number.Some?
    ensures a.number.Some? ==> r == Success(Number(a.number.value))
    ensures a.number.None? && a.uuid.Some? ==> r == Success(Uuid(a.uuid.value))
  {
    if a.number.Some? then Success(Number(a.number.value))
    else if a.uuid.Some? then Success(Uuid(a.uuid.value))
    else Failure(NoIdentifier)
  }

  /** `toPartialRecipientAddress()`; for the unknown UUID the address
      constructor throws. */
  function ToPartialRecipientAddress(s: Single): (r: Result<Api.RecipientAddress, Api.AddressError>)
    ensures r.Success? <==> !(s.Uuid? && s.uuid == J.UNKNOWN_UUID)
    ensures r.Success? ==> Api.Valid(r.value)
    ensures s.Uuid? && r.Success? ==> r.value == Api.RecipientAddress(Some(s.uuid), None)
    ensures s.Number? ==> r == Success(Api.RecipientAddress(None, Some(s.number)))
  {
    match s
    case Uuid(u) => Api.FromUuid(u)
    case Number(n) => Api.Create(None, Some(n))
  }

  /** A single recipient survives the trip through its partial address, and
      that address has the recipient's identifier. */
  lemma PartialAddressRoundTrip(s: Single)
    requires !(s.Uuid? && s.uuid == J.UNKNOWN_UUID)
    ensures FromAddress(ToPartialRecipientAddress(s).value) == Success(s)
    ensures Api.GetIdentifier(ToPartialRecipientAddress(s).value) == Success(GetIdentifier(s))
  {
  }

  /** An address turned into a recipient and back still matches itself. */
  lemma FromAddressMatches(a: Api.RecipientAddress)
    requires Api.Valid(a)
    ensures FromAddress(a).Success?
    ensures ToPartialRecipientAddress(FromAddress(a).value).Success?
    ensures Api.Matches(a, ToPartialRecipientAddress(FromAddress(a).value).value)
  {
  }

  /** The identifier of a UUID recipient parses back to it, and so does
      a number the formatter leaves unchanged. */
  lemma FromStringOfIdentifier(s: Single, localNumber: string,
                               formatNumber: (string, string) -> Result<string, string>)
    requires s.Number? ==> !J.IsUuid(s.number) && formatNumber(s.number, localNumber) == Success(s.number)
    ensures FromString(GetIdentifier(s), localNumber, formatNumber) == Success(s)
  {
    if s.Uuid? {
      J.ParseUuidToString(s.uuid);
    }
  }
}
