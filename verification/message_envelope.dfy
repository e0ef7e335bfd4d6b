/** `api.MessageEnvelope.from` and the nested `from` conversions it relies
    on: how a received service envelope, its decrypted content (if any) and
    a decryption exception (if any) become the envelope handed to library
    users. */
module MessageEnvelope {
  import opened Wrappers
  import opened JavaTypes
  import Api = ApiRecipientAddress

  // ---------------------------------------------------------------------
  // Enum conversions. Each service-side enum carries one extra constant,
  // `...Unnamed`, that stands for any constant the switch does not name;
  // those reach the `default` arm.

  /** `Receipt.Type`. */
  datatype ReceiptType = DELIVERY | READ | VIEWED | UNKNOWN

  /** `SignalServiceReceiptMessage.Type`. */
  datatype ServiceReceiptType = ReceiptDelivery | ReceiptRead | ReceiptViewed | ReceiptUnknown | ReceiptUnnamed

  /** The service constant each API constant is named after. */
  function ServiceReceiptTypeOf(t: ReceiptType): ServiceReceiptType {
    match t
    case DELIVERY => ReceiptDelivery
    case READ => ReceiptRead
    case VIEWED => ReceiptViewed
    case UNKNOWN => ReceiptUnknown
  }

  /** `Receipt.Type.from`: the constant of the same name, `UNKNOWN` for
      any other. */
  function ReceiptTypeFrom(t: ServiceReceiptType): (r: ReceiptType)
    ensures t != ReceiptUnnamed ==> ServiceReceiptTypeOf(r) == t
    ensures t == ReceiptUnnamed ==> r == UNKNOWN
  {
    match t
    case ReceiptDelivery => DELIVERY
    case ReceiptRead => READ
    case ReceiptViewed => VIEWED
    case _ => UNKNOWN
  }

  /** `Offer.Type`. */
  datatype OfferType = AUDIO_CALL | VIDEO_CALL

  /** `OfferMessage.Type`. */
  datatype ServiceOfferType = OfferAudioCall | OfferVideoCall | OfferUnnamed

  function ServiceOfferTypeOf(t: OfferType): ServiceOfferType {
    match t
    case AUDIO_CALL => OfferAudioCall
    case VIDEO_CALL => OfferVideoCall
  }

  /** `Offer.Type.from`: the constant of the same name, `VIDEO_CALL` for
      any other. */
  function OfferTypeFrom(t: ServiceOfferType): (r: OfferType)
    ensures t != OfferUnnamed ==> ServiceOfferTypeOf(r) == t
    ensures t == OfferUnnamed ==> r == VIDEO_CALL
  {
    match t
    case OfferAudioCall => AUDIO_CALL
    case _ => VIDEO_CALL
  }

  /** `Hangup.Type`. */
  datatype HangupType = NORMAL | ACCEPTED | DECLINED | BUSY | NEED_PERMISSION

  /** `HangupMessage.Type`. */
  datatype ServiceHangupType =
    HangupNormal | HangupAccepted | HangupDeclined | HangupBusy | HangupNeedPermission | HangupUnnamed

  function ServiceHangupTypeOf(t: HangupType): ServiceHangupType {
    match t
    case NORMAL => HangupNormal
    case ACCEPTED => HangupAccepted
    case DECLINED => HangupDeclined
    case BUSY => HangupBusy
    case NEED_PERMISSION => HangupNeedPermission
  }

  /** `Hangup.Type.from`: the constant of the same name, `NEED_PERMISSION`
      for any other. */
  function HangupTypeFrom(t: ServiceHangupType): (r: HangupType)
    ensures t != HangupUnnamed ==> ServiceHangupTypeOf(r) == t
    ensures t == HangupUnnamed ==> r == NEED_PERMISSION
  {
    match t
    case HangupNormal => NORMAL
    case HangupAccepted => ACCEPTED
    case HangupDeclined => DECLINED
    case HangupBusy => BUSY
    case _ => NEED_PERMISSION
  }

  /** `MessageRequestResponse.Type`. */
  datatype RequestResponseType = RESPONSE_UNKNOWN | ACCEPT | DELETE | BLOCK | BLOCK_AND_DELETE | UNBLOCK_AND_ACCEPT

  /** `MessageRequestResponseMessage.Type`. */
  datatype ServiceRequestResponseType =
    | ResponseUnknown | ResponseAccept | ResponseDelete | ResponseBlock | ResponseBlockAndDelete
    | ResponseUnblockAndAccept | ResponseUnnamed

  function ServiceRequestResponseTypeOf(t: RequestResponseType): ServiceRequestResponseType {
    match t
    case RESPONSE_UNKNOWN => ResponseUnknown
    case ACCEPT => ResponseAccept
    case DELETE => ResponseDelete
    case BLOCK => ResponseBlock
    case BLOCK_AND_DELETE => ResponseBlockAndDelete
    case UNBLOCK_AND_ACCEPT => ResponseUnblockAndAccept
  }

  /** `MessageRequestResponse.Type.from`: the constant of the same name,
      `UNBLOCK_AND_ACCEPT` for any other. */
  function RequestResponseTypeFrom(t: ServiceRequestResponseType): (r: RequestResponseType)
    ensures t != ResponseUnnamed ==> ServiceRequestResponseTypeOf(r) == t
    ensures t == ResponseUnnamed ==> r == UNBLOCK_AND_ACCEPT
  {
    match t
    case ResponseUnknown => RESPONSE_UNKNOWN
    case ResponseAccept => ACCEPT
    case ResponseDelete => DELETE
    case ResponseBlock => BLOCK
    case ResponseBlockAndDelete => BLOCK_AND_DELETE
    case _ => UNBLOCK_AND_ACCEPT
  }

  /** `TextStyle.Style`. */
  datatype Style = NONE | BOLD | ITALIC | SPOILER | STRIKETHROUGH | MONOSPACE

  /** `BodyRange.Style`. */
  datatype BodyRangeStyle =
    StyleNone | StyleBold | StyleItalic | StyleSpoiler | StyleStrikethrough | StyleMonospace | StyleUnnamed

  function BodyRangeStyleOf(s: Style): BodyRangeStyle {
    match s
    case NONE => StyleNone
    case BOLD => StyleBold
    case ITALIC => StyleItalic
    case SPOILER => StyleSpoiler
    case STRIKETHROUGH => StyleStrikethrough
    case MONOSPACE => StyleMonospace
  }

  /** `TextStyle.Style.from`: the constant of the same name; this switch
      has no `default`, so any other constant gives `null`. */
  function StyleFrom(s: BodyRangeStyle): (r: Option<Style>)
    ensures r.None? <==> s == StyleUnnamed
    ensures r.Some? ==> BodyRangeStyleOf(r.value) == s
  {
    match s
    case StyleNone => Some(NONE)
    case StyleBold => Some(BOLD)
    case StyleItalic => Some(ITALIC)
    case StyleSpoiler => Some(SPOILER)
    case StyleStrikethrough => Some(STRIKETHROUGH)
    case StyleMonospace => Some(MONOSPACE)
    case StyleUnnamed => None
  }

  /** Every API constant is reached, each from exactly its namesake:
      the conversions are onto and, on named constants, one to one. */
  lemma EnumConversionsOnto(rt: ReceiptType, ot: OfferType, ht: HangupType, qt: RequestResponseType, st: Style)
    ensures ReceiptTypeFrom(ServiceReceiptTypeOf(rt)) == rt
    ensures OfferTypeFrom(ServiceOfferTypeOf(ot)) == ot
    ensures HangupTypeFrom(ServiceHangupTypeOf(ht)) == ht
    ensures RequestResponseTypeFrom(ServiceRequestResponseTypeOf(qt)) == qt
    ensures StyleFrom(BodyRangeStyleOf(st)) == Some(st)
  {
  }

  // ---------------------------------------------------------------------
  // Postal addresses of shared contacts

  /** `SharedContact.Address.Type`. */
  datatype AddressType = HOME | WORK | CUSTOM

  /** `SharedContact.PostalAddress.Type` of the service library. */
  datatype PostalType = PostalHome | PostalWork | PostalCustom | PostalUnnamed

  function PostalTypeOf(t: AddressType): PostalType {
    match t
    case HOME => PostalHome
    case WORK => PostalWork
    case CUSTOM => PostalCustom
  }

  /** `Address.Type.from`: the constant of the same name, `CUSTOM` for any
      other. */
  function AddressTypeFrom(t: PostalType): (r: AddressType)
    ensures t != PostalUnnamed ==> PostalTypeOf(r) == t
    ensures t == PostalUnnamed ==> r == CUSTOM
  {
    match t
    case PostalHome => HOME
    case PostalWork => WORK
    case _ => CUSTOM
  }

  /** The service library's postal address. */
  datatype PostalAddress = PostalAddress(
    kind: PostalType, labelText: Option<string>, street: Option<string>, pobox: Option<string>,
    neighborhood: Option<string>, city: Option<string>, region: Option<string>,
    postcode: Option<string>, country: Option<string>)

  /** `SharedContact.Address`. */
  datatype Address = Address(
    kind: AddressType, labelText: Option<string>, street: Option<string>, pobox: Option<string>,
    neighborhood: Option<string>, city: Option<string>, region: Option<string>,
    postcode: Option<string>, country: Option<string>)

  /** `Address.from` as written: the label is passed for every one of the
      eight text fields. */
  function AddressFromAsWritten(a: PostalAddress): (r: Address)
    ensures r.kind == AddressTypeFrom(a.kind)
    ensures r.labelText == r.street == r.pobox == r.neighborhood == r.city == r.region == r.postcode == r.country == a.labelText
  {
    Address(AddressTypeFrom(a.kind), a.labelText, a.labelText, a.labelText, a.labelText, a.labelText, a.labelText, a.labelText, a.labelText)
  }

  /** `Address.from` with each field taken from its namesake, as the
      constructor's parameter names intend. */
  function AddressFrom(a: PostalAddress): (r: Address)
    ensures r.kind == AddressTypeFrom(a.kind)
    ensures r.labelText == a.labelText && r.street == a.street && r.pobox == a.pobox && r.neighborhood == a.neighborhood
    ensures r.city == a.city && r.region == a.region && r.postcode == a.postcode && r.country == a.country
  {
    Address(AddressTypeFrom(a.kind), a.labelText, a.street, a.pobox, a.neighborhood, a.city, a.region, a.postcode,
            a.country)
  }

  /** The service library's address of a converted contact address. */
  function PostalOf(a: Address): PostalAddress {
    PostalAddress(PostalTypeOf(a.kind), a.labelText, a.street, a.pobox, a.neighborhood, a.city, a.region, a.postcode,
                  a.country)
  }

  /** The corrected conversion loses nothing: converting back gives the
      address received, whenever its type is a named one. */
  lemma AddressRoundTrip(a: PostalAddress)
    requires a.kind != PostalUnnamed
    ensures PostalOf(AddressFrom(a)) == a
  {
  }

  /** As written, a street without a label is lost, and the label shows up
      as the street. */
  lemma AddressFromLosesFields()
    ensures var a := PostalAddress(PostalHome, None, Some("1 Main St"), None, None, Some("Springfield"), None, None, None);
      && AddressFromAsWritten(a).street == None
      && AddressFromAsWritten(a).city == None
      && AddressFrom(a).street == Some("1 Main St")
      && PostalOf(AddressFromAsWritten(a)) != a
    ensures var b := PostalAddress(PostalWork, Some("Office"), None, None, None, None, None, None, None);
      AddressFromAsWritten(b).street == Some("Office")
  {
  }

  // ---------------------------------------------------------------------
  // Attachments

  /** A file of the attachment store, by directory and name. */
  datatype FileRef = FileRef(directory: string, name: string)

  /** `SignalServiceAttachmentPointer`: an attachment not yet downloaded. */
  datatype PointerAttachment = PointerAttachment(
    remoteId: string, fileName: Option<string>, contentType: string, uploadTimestamp: Int64,
    size: Option<Int32>, preview: Option<seq<Byte>>, caption: Option<string>, width: Int32, height: Int32,
    voiceNote: bool, gif: bool, borderless: bool)

  /** `SignalServiceAttachmentStream`: an attachment held locally. */
  datatype StreamAttachment = StreamAttachment(
    fileName: Option<string>, contentType: string, uploadTimestamp: Int64, length: Int64,
    preview: Option<seq<Byte>>, caption: Option<string>, width: Int32, height: Int32,
    voiceNote: bool, gif: bool, borderless: bool)

  /** `SignalServiceAttachment`: a pointer or a stream. */
  datatype ServiceAttachment = Pointer(pointer: PointerAttachment) | Stream(stream: StreamAttachment)

  /** `Data.Attachment`. */
  datatype Attachment = Attachment(
    id: Option<string>, file: Option<FileRef>, fileName: Option<string>, contentType: string,
    uploadTimestamp: Option<Int64>, size: Option<Int64>, preview: Option<seq<Byte>>,
    thumbnail: Option<Attachment>, caption: Option<string>, width: Option<Int32>, height: Option<Int32>,
    isVoiceNote: bool, isGif: bool, isBorderless: bool)

  /** A count that is `0` when unknown, as absent when it is `0`. */
  function NonZero(n: int): (r: Option<int>)
    ensures r.None? <==> n == 0
    ensures r.Some? ==> r.value == n
  {
    if n == 0 then None else Some(n)
  }

  /** A text that is empty when unknown, as absent when it is empty. */
  function NonEmpty(caption: Option<string>): (r: Option<string>)
    ensures r.None? <==> caption.None? || caption.value == ""
    ensures r.Some? ==> r == caption
  {
    if caption.Some? && caption.value == "" then None else caption
  }

  /** `Attachment.from(SignalServiceAttachment, AttachmentFileProvider)`.
      A pointer gets its local file from `fileOf` and the file's name as
      its id; an upload timestamp, width or height of `0` becomes absent,
      and so does an empty caption of a pointer. A stream keeps its
      caption as it is. */
  function AttachmentFrom(a: ServiceAttachment, fileOf: PointerAttachment -> FileRef): (r: Attachment)
    ensures a.Pointer? ==>
      && r.file == Some(fileOf(a.pointer)) && r.id == Some(fileOf(a.pointer).name)
      && r.fileName == a.pointer.fileName && r.contentType == a.pointer.contentType
      && (r.uploadTimestamp.None? <==> a.pointer.uploadTimestamp == 0)
      && (r.uploadTimestamp.Some? ==> r.uploadTimestamp.value == a.pointer.uploadTimestamp)
      && (r.size.Some? <==> a.pointer.size.Some?)
      && (r.size.Some? ==> r.size.value == a.pointer.size.value)
      && (r.caption.None? <==> a.pointer.caption.None? || a.pointer.caption.value == "")
      && (r.caption.Some? ==> r.caption == a.pointer.caption)
      && (r.width.None? <==> a.pointer.width == 0) && (r.width.Some? ==> r.width.value == a.pointer.width)
      && (r.height.None? <==> a.pointer.height == 0) && (r.height.Some? ==> r.height.value == a.pointer.height)
      && r.preview == a.pointer.preview
      && r.isVoiceNote == a.pointer.voiceNote && r.isGif == a.pointer.gif && r.isBorderless == a.pointer.borderless
    ensures a.Stream? ==>
      && r.file.None? && r.id.None?
      && r.fileName == a.stream.fileName && r.contentType == a.stream.contentType
      && (r.uploadTimestamp.None? <==> a.stream.uploadTimestamp == 0)
      && (r.uploadTimestamp.Some? ==> r.uploadTimestamp.value == a.stream.uploadTimestamp)
      && r.size == Some(a.stream.length)
      && r.caption == a.stream.caption
      && (r.width.None? <==> a.stream.width == 0) && (r.width.Some? ==> r.width.value == a.stream.width)
      && (r.height.None? <==> a.stream.height == 0) && (r.height.Some? ==> r.height.value == a.stream.height)
      && r.preview == a.stream.preview
      && r.isVoiceNote == a.stream.voiceNote && r.isGif == a.stream.gif && r.isBorderless == a.stream.borderless
    ensures r.thumbnail.None?
  {
    match a
    case Pointer(p) =>
      var file := fileOf(p);
      var size: Option<Int64> := if p.size.Some? then Some(p.size.value) else None;
      Attachment(Some(file.name), Some(file), p.fileName, p.contentType, NonZero(p.uploadTimestamp), size,
                 p.preview, None, NonEmpty(p.caption), NonZero(p.width), NonZero(p.height), p.voiceNote, p.gif,
                 p.borderless)
    case Stream(s) =>
      Attachment(None, None, s.fileName, s.contentType, NonZero(s.uploadTimestamp), Some(s.length), s.preview,
                 None, s.caption, NonZero(s.width), NonZero(s.height), s.voiceNote, s.gif, s.borderless)
  }

  /** No converted attachment holds a zero that meant "unknown"; only a
      converted pointer is sure to have no empty caption. */
  lemma AttachmentHasNoPlaceholders(a: ServiceAttachment, fileOf: PointerAttachment -> FileRef)
    ensures AttachmentFrom(a, fileOf).uploadTimestamp != Some(0)
    ensures AttachmentFrom(a, fileOf).width != Some(0) && AttachmentFrom(a, fileOf).height != Some(0)
    ensures a.Pointer? ==> AttachmentFrom(a, fileOf).caption != Some("")
    ensures a.Stream? && a.stream.caption == Some("") ==> AttachmentFrom(a, fileOf).caption == Some("")
  {
  }

  /** The `attachments` list: each element converted, in order. */
  function AttachmentsFrom(xs: seq<ServiceAttachment>, fileOf: PointerAttachment -> FileRef): (r: seq<Attachment>)
    ensures |r| == |xs|
    ensures forall i | 0 <= i < |xs| :: r[i] == AttachmentFrom(xs[i], fileOf)
  {
    if xs == [] then [] else [AttachmentFrom(xs[0], fileOf)] + AttachmentsFrom(xs[1..], fileOf)
  }

  // ---------------------------------------------------------------------
  // Text styles

  /** A `BodyRange`; a range with no style (a mention) has `style` absent. */
  datatype BodyRange = BodyRange(start: Int32, length: Int32, style: Option<BodyRangeStyle>)

  /** `Data.TextStyle`; the style is `null` when `Style.from` gives none. */
  datatype TextStyle = TextStyle(style: Option<Style>, start: Int32, length: Int32)

  /** `TextStyle.from`. */
  function TextStyleFrom(range: BodyRange): (r: TextStyle)
    requires range.style.Some?
    ensures r.start == range.start && r.length == range.length
    ensures r.style.None? <==> range.style.value == StyleUnnamed
  {
    TextStyle(StyleFrom(range.style.value), range.start, range.length)
  }

  /** `filter(BodyRange::hasStyle).map(TextStyle::from)`. */
  function TextStylesFrom(ranges: seq<BodyRange>): (r: seq<TextStyle>)
    ensures |r| <= |ranges|
  {
    if ranges == [] then []
    else
      var last := ranges[|ranges| - 1];
      TextStylesFrom(ranges[..|ranges| - 1]) + if last.style.Some? then [TextStyleFrom(last)] else []
  }

  /** The text styles are exactly the conversions of the styled ranges:
      ranges without a style leave nothing behind. */
  lemma {:induction false} TextStylesMembership(ranges: seq<BodyRange>, t: TextStyle)
    ensures t in TextStylesFrom(ranges) <==>
      exists i | 0 <= i < |ranges| :: ranges[i].style.Some? && t == TextStyleFrom(ranges[i])
  {
    if ranges != [] {
      var n := |ranges| - 1;
      var init := ranges[..n];
      var last := if ranges[n].style.Some? then [TextStyleFrom(ranges[n])] else [];
      assert TextStylesFrom(ranges) == TextStylesFrom(init) + last;
      TextStylesMembership(init, t);
      if t in TextStylesFrom(init) {
        var j :| 0 <= j < |init| && init[j].style.Some? && t == TextStyleFrom(init[j]);
        assert ranges[j] == init[j];
      }
      if exists i | 0 <= i < |ranges| :: ranges[i].style.Some? && t == TextStyleFrom(ranges[i]) {
        var i :| 0 <= i < |ranges| && ranges[i].style.Some? && t == TextStyleFrom(ranges[i]);
        if i < n {
          assert init[i] == ranges[i];
          assert t in TextStylesFrom(init);
        } else {
          assert t in last;
        }
      }
    }
  }

  /** The indices of the styled ranges. */
  function StyledIndices(ranges: seq<BodyRange>): set<int> {
    set i | 0 <= i < |ranges| && ranges[i].style.Some?
  }

  /** One text style per styled range. */
  lemma {:induction false} TextStylesCount(ranges: seq<BodyRange>)
    ensures |TextStylesFrom(ranges)| == |StyledIndices(ranges)|
  {
    if ranges != [] {
      var n := |ranges| - 1;
      var init := ranges[..n];
      TextStylesCount(init);
      assert StyledIndices(ranges) == StyledIndices(init) + (if ranges[n].style.Some? then {n} else {}) by {
        forall i | 0 <= i < n
          ensures ranges[i] == init[i]
        {
        }
      }
    }
  }

  // ---------------------------------------------------------------------
  // Group contexts

  /** `GroupId`: a 16-byte v1 id or a 32-byte v2 id. */
  datatype GroupId = GroupIdV1(bytes: seq<Byte>) | GroupIdV2(bytes: seq<Byte>)

  /** `SignalServiceGroup.Type`. */
  datatype GroupV1Type = GroupUnknown | GroupUpdate | GroupDeliver | GroupQuit | GroupRequestInfo

  datatype ServiceGroupV1 = ServiceGroupV1(groupId: seq<Byte>, kind: GroupV1Type)

  datatype ServiceGroupV2 = ServiceGroupV2(masterKey: seq<Byte>, hasSignedGroupChange: bool, revision: Int32)

  /** `SignalServiceGroupContext`: a v1 group, a v2 group, or (in a
      malformed state) neither. */
  datatype ServiceGroupContext = ServiceGroupContext(groupV1: Option<ServiceGroupV1>, groupV2: Option<ServiceGroupV2>)

  /** `Data.GroupContext`. */
  datatype GroupContext = GroupContext(groupId: GroupId, isGroupUpdate: bool, revision: Int32)

  /** The `RuntimeException` a context with neither group raises. */
  datatype EnvelopeError = InvalidGroupContext

  /** `GroupContext.from`. A v1 group has revision 0 and is an update when
      its type is `UPDATE`; a v2 group takes its id from the master key
      (`groupIdOfMasterKey`), its revision from the message and counts as an
      update when it carries a signed group change. */
  function GroupContextFrom(g: ServiceGroupContext, groupIdOfMasterKey: seq<Byte> -> GroupId)
    : (r: Result<GroupContext, EnvelopeError>)
    ensures r.Failure? <==> g.groupV1.None? && g.groupV2.None?
    ensures g.groupV1.Some? ==> r == Success(GroupContext(GroupIdV1(g.groupV1.value.groupId),
                                                          g.groupV1.value.kind == GroupUpdate, 0))
    ensures g.groupV1.None? && g.groupV2.Some? ==>
      && r.Success? && r.value.groupId == groupIdOfMasterKey(g.groupV2.value.masterKey)
      && r.value.revision == g.groupV2.value.revision
      && r.value.isGroupUpdate == g.groupV2.value.hasSignedGroupChange
  {
    if g.groupV1.Some? then
      Success(GroupContext(GroupIdV1(g.groupV1.value.groupId), g.groupV1.value.kind == GroupUpdate, 0))
    else if g.groupV2.Some? then
      var v2 := g.groupV2.value;
      Success(GroupContext(groupIdOfMasterKey(v2.masterKey), v2.hasSignedGroupChange, v2.revision))
    else Failure(InvalidGroupContext)
  }

  // ---------------------------------------------------------------------
  // Messages

  /** `SignalServiceReceiptMessage`. */
  datatype ReceiptMessage = ReceiptMessage(kind: ServiceReceiptType, when: Int64, timestamps: seq<Int64>)

  /** `MessageEnvelope.Receipt`. */
  datatype Receipt = Receipt(when: Int64, kind: ReceiptType, timestamps: seq<Int64>)

  /** `Receipt.from`. */
  function ReceiptFrom(m: ReceiptMessage): (r: Receipt)
    ensures r.when == m.when && r.timestamps == m.timestamps
    ensures r.kind == ReceiptTypeFrom(m.kind)
  {
    Receipt(m.when, ReceiptTypeFrom(m.kind), m.timestamps)
  }

  /** `SignalServiceTypingMessage`. */
  datatype TypingMessage = TypingMessage(timestamp: Int64, started: bool, groupId: Option<seq<Byte>>)

  datatype TypingType = STARTED | STOPPED

  /** `MessageEnvelope.Typing`. */
  datatype Typing = Typing(timestamp: Int64, kind: TypingType, groupId: Option<GroupId>)

  /** `Typing.from`; `groupIdOf` is `GroupId.unknownVersion`. */
  function TypingFrom(m: TypingMessage, groupIdOf: seq<Byte> -> GroupId): (r: Typing)
    ensures r.timestamp == m.timestamp
    ensures r.kind == STARTED <==> m.started
    ensures r.groupId.Some? <==> m.groupId.Some?
    ensures r.groupId.Some? ==> r.groupId.value == groupIdOf(m.groupId.value)
  {
    Typing(m.timestamp, if m.started then STARTED else STOPPED,
           if m.groupId.Some? then Some(groupIdOf(m.groupId.value)) else None)
  }

  /** `SignalServiceDataMessage.PaymentNotification`. */
  datatype PaymentNotification = PaymentNotification(note: string, receipt: seq<Byte>)

  /** `SignalServiceDataMessage.Payment`: a notification or some other
      payment item. */
  datatype PaymentMessage = PaymentMessage(notification: Option<PaymentNotification>)

  /** `Data.Payment`. */
  datatype Payment = Payment(note: string, receipt: seq<Byte>)

  /** The `payment` of `Data.from`: `Payment.from` for a payment with a
      notification; a `null` from the mapping lambda makes it absent. */
  function PaymentFrom(p: Option<PaymentMessage>): (r: Option<Payment>)
    ensures r.Some? <==> p.Some? && p.value.notification.Some?
    ensures r.Some? ==> r.value.note == p.value.notification.value.note
                        && r.value.receipt == p.value.notification.value.receipt
  {
    if p.Some? && p.value.notification.Some? then
      Some(Payment(p.value.notification.value.note, p.value.notification.value.receipt))
    else None
  }

  /** `SignalServiceDataMessage`, with the parts this model covers. */
  datatype DataMessage = DataMessage(
    timestamp: Int64, groupContext: Option<ServiceGroupContext>, body: Option<string>,
    expiresInSeconds: Int32, isExpirationUpdate: bool, isViewOnce: bool, isEndSession: bool,
    isProfileKeyUpdate: bool, profileKey: Option<seq<Byte>>, payment: Option<PaymentMessage>,
    attachments: Option<seq<ServiceAttachment>>, remoteDelete: Option<Int64>,
    bodyRanges: Option<seq<BodyRange>>)

  /** `MessageEnvelope.Data`, with the parts this model covers. */
  datatype Data = Data(
    timestamp: Int64, groupContext: Option<GroupContext>, body: Option<string>, expiresInSeconds: Int32,
    isExpirationUpdate: bool, isViewOnce: bool, isEndSession: bool, isProfileKeyUpdate: bool,
    hasProfileKey: bool, payment: Option<Payment>, attachments: seq<Attachment>,
    remoteDeleteId: Option<Int64>, textStyles: seq<TextStyle>)

  /** The library's lookups that the conversion calls. */
  datatype Resolvers = Resolvers(
    byAddress: SignalServiceAddress -> RecipientId,     // resolveRecipient(SignalServiceAddress)
    byIdentifier: string -> RecipientId,                // resolveRecipient(String)
    addressOf: RecipientId -> Api.RecipientAddress,     // resolveRecipientAddress(..).toApiRecipientAddress()
    fileOf: PointerAttachment -> FileRef,               // AttachmentFileProvider.getFile
    groupIdOf: seq<Byte> -> GroupId,                    // GroupId.unknownVersion
    groupIdOfMasterKey: seq<Byte> -> GroupId,           // GroupUtils.getGroupIdV2
    syncOf: SyncMessage -> Sync,                        // Sync.from
    callOf: CallMessage -> Call,                        // Call.from
    storyOf: StoryMessage -> Story)                     // Story.from

  /** `Data.from`: throws only when the group context is malformed; a
      missing attachment or body-range list becomes an empty one. */
  function DataFrom(m: DataMessage, env: Resolvers): (r: Result<Data, EnvelopeError>)
    ensures r.Failure? <==> m.groupContext.Some? && GroupContextFrom(m.groupContext.value, env.groupIdOfMasterKey).Failure?
    ensures r.Success? ==>
      && r.value.timestamp == m.timestamp && r.value.body == m.body
      && r.value.expiresInSeconds == m.expiresInSeconds
      && r.value.hasProfileKey == m.profileKey.Some?
      && r.value.payment == PaymentFrom(m.payment)
      && r.value.remoteDeleteId == m.remoteDelete
      && r.value.isExpirationUpdate == m.isExpirationUpdate && r.value.isViewOnce == m.isViewOnce
      && r.value.isEndSession == m.isEndSession && r.value.isProfileKeyUpdate == m.isProfileKeyUpdate
      && (r.value.groupContext.Some? <==> m.groupContext.Some?)
      && (m.groupContext.Some? ==>
            GroupContextFrom(m.groupContext.value, env.groupIdOfMasterKey) == Success(r.value.groupContext.value))
      && (m.attachments.None? ==> r.value.attachments == [])
      && (m.attachments.Some? ==> r.value.attachments == AttachmentsFrom(m.attachments.value, env.fileOf))
      && (m.bodyRanges.None? ==> r.value.textStyles == [])
      && (m.bodyRanges.Some? ==> r.value.textStyles == TextStylesFrom(m.bodyRanges.value))
  {
    var groupContext :- if m.groupContext.None? then Success(None)
                        else var g :- GroupContextFrom(m.groupContext.value, env.groupIdOfMasterKey); Success(Some(g));
    Success(Data(m.timestamp, groupContext, m.body, m.expiresInSeconds, m.isExpirationUpdate, m.isViewOnce,
                 m.isEndSession, m.isProfileKeyUpdate, m.profileKey.Some?, PaymentFrom(m.payment),
                 if m.attachments.Some? then AttachmentsFrom(m.attachments.value, env.fileOf) else [],
                 m.remoteDelete,
                 if m.bodyRanges.Some? then TextStylesFrom(m.bodyRanges.value) else []))
  }

  /** Service-side sync, call and story messages, and their API forms;
      their conversions are resolvers of this model. */
  datatype SyncMessage = SyncMessage(serialized: seq<Byte>)
  datatype Sync = Sync(serialized: seq<Byte>)
  datatype CallMessage = CallMessage(serialized: seq<Byte>)
  datatype Call = Call(serialized: seq<Byte>)
  datatype StoryMessage = StoryMessage(serialized: seq<Byte>)
  datatype Story = Story(serialized: seq<Byte>)

  // ---------------------------------------------------------------------
  // Envelopes

  /** `SignalServiceEnvelope`: `source` is present when the envelope has a
      source uuid, `sourceDevice` when it has a source device. */
  datatype ServiceEnvelope = ServiceEnvelope(
    isUnidentifiedSender: bool, source: Option<SignalServiceAddress>, sourceDevice: Option<Int32>,
    timestamp: Int64, serverReceivedTimestamp: Int64, serverDeliveredTimestamp: Int64, isReceipt: bool)

  /** `SignalServiceContent`: the decrypted content. */
  datatype Content = Content(
    sender: SignalServiceAddress, senderDevice: Int32,
    receipt: Option<ReceiptMessage>, typing: Option<TypingMessage>, data: Option<DataMessage>,
    sync: Option<SyncMessage>, call: Option<CallMessage>, story: Option<StoryMessage>)

  /** The exception passed along when decryption failed: a
      `ProtocolException` names the sender, any other does not. */
  datatype DecryptionError = ProtocolException(sender: string, senderDevice: Int32) | OtherException

  /** `MessageEnvelope`. */
  datatype MessageEnvelope = MessageEnvelope(
    sourceAddress: Option<Api.RecipientAddress>, sourceDevice: Int32, timestamp: Int64,
    serverReceivedTimestamp: Int64, serverDeliveredTimestamp: Int64, isUnidentifiedSender: bool,
    receipt: Option<Receipt>, typing: Option<Typing>, data: Option<Data>, sync: Option<Sync>,
    call: Option<Call>, story: Option<Story>)

  function IsProtocolException(exception: Option<DecryptionError>): bool {
    exception.Some? && exception.value.ProtocolException?
  }

  /** The sender: the envelope's source when the sender is identified and
      known, else the content's sender when there is content for a sealed
      sender, else the sender a `ProtocolException` names, else none. */
  function SourceOf(envelope: ServiceEnvelope, content: Option<Content>, exception: Option<DecryptionError>,
                    env: Resolvers): (r: Option<RecipientId>)
    ensures !envelope.isUnidentifiedSender && envelope.source.Some? ==>
      r == Some(env.byAddress(envelope.source.value))
    ensures envelope.isUnidentifiedSender && content.Some? ==> r == Some(env.byAddress(content.value.sender))
    ensures (!envelope.isUnidentifiedSender || content.None?) && (envelope.isUnidentifiedSender || envelope.source.None?) ==>
      r == (if IsProtocolException(exception) then Some(env.byIdentifier(exception.value.sender)) else None)
  {
    if !envelope.isUnidentifiedSender && envelope.source.Some? then Some(env.byAddress(envelope.source.value))
    else if envelope.isUnidentifiedSender && content.Some? then Some(env.byAddress(content.value.sender))
    else if IsProtocolException(exception) then Some(env.byIdentifier(exception.value.sender))
    else None
  }

  /** The sender's device: the envelope's, else the content's, else the
      one a `ProtocolException` names, else `0`. */
  function SourceDeviceOf(envelope: ServiceEnvelope, content: Option<Content>, exception: Option<DecryptionError>)
    : (r: Int32)
    ensures envelope.sourceDevice.Some? ==> r == envelope.sourceDevice.value
    ensures envelope.sourceDevice.None? && content.Some? ==> r == content.value.senderDevice
    ensures envelope.sourceDevice.None? && content.None? ==>
      r == (if IsProtocolException(exception) then exception.value.senderDevice else 0)
  {
    if envelope.sourceDevice.Some? then envelope.sourceDevice.value
    else if content.Some? then content.value.senderDevice
    else if IsProtocolException(exception) then exception.value.senderDevice
    else 0
  }

  /** `MessageEnvelope.from`. With content, each part present in it is
      converted; without, only a receipt envelope yields something: a
      delivery receipt for the envelope's own timestamp. */
  function EnvelopeFrom(envelope: ServiceEnvelope, content: Option<Content>, exception: Option<DecryptionError>,
                        env: Resolvers): (r: Result<MessageEnvelope, EnvelopeError>)
    ensures r.Failure? <==> content.Some? && content.value.data.Some? && DataFrom(content.value.data.value, env).Failure?
    ensures r.Success? ==>
      && (r.value.sourceAddress.Some? <==> SourceOf(envelope, content, exception, env).Some?)
      && (r.value.sourceAddress.Some? ==>
            r.value.sourceAddress.value == env.addressOf(SourceOf(envelope, content, exception, env).value))
      && r.value.sourceDevice == SourceDeviceOf(envelope, content, exception)
      && r.value.timestamp == envelope.timestamp
      && r.value.serverReceivedTimestamp == envelope.serverReceivedTimestamp
      && r.value.serverDeliveredTimestamp == envelope.serverDeliveredTimestamp
      && r.value.isUnidentifiedSender == envelope.isUnidentifiedSender
    ensures content.None? ==>
      && r.Success?
      && (r.value.receipt.Some? <==> envelope.isReceipt)
      && (envelope.isReceipt ==>
            r.value.receipt == Some(Receipt(envelope.serverReceivedTimestamp, DELIVERY, [envelope.timestamp])))
      && r.value.typing.None? && r.value.data.None? && r.value.sync.None? && r.value.call.None? && r.value.story.None?
    ensures content.Some? && r.Success? ==>
      && (r.value.receipt.Some? <==> content.value.receipt.Some?)
      && (r.value.receipt.Some? ==> r.value.receipt.value == ReceiptFrom(content.value.receipt.value))
      && (r.value.typing.Some? <==> content.value.typing.Some?)
      && (r.value.typing.Some? ==> r.value.typing.value == TypingFrom(content.value.typing.value, env.groupIdOf))
      && (r.value.data.Some? <==> content.value.data.Some?)
      && (r.value.data.Some? ==> Success(r.value.data.value) == DataFrom(content.value.data.value, env))
      && (r.value.sync.Some? <==> content.value.sync.Some?)
      && (r.value.sync.Some? ==> r.value.sync.value == env.syncOf(content.value.sync.value))
      && (r.value.call.Some? <==> content.value.call.Some?)
      && (r.value.call.Some? ==> r.value.call.value == env.callOf(content.value.call.value))
      && (r.value.story.Some? <==> content.value.story.Some?)
      && (r.value.story.Some? ==> r.value.story.value == env.storyOf(content.value.story.value))
  {
    var source := SourceOf(envelope, content, exception, env);
    var sourceDevice := SourceDeviceOf(envelope, content, exception);
    var sourceAddress := if source.Some? then Some(env.addressOf(source.value)) else None;
    match content
    case None =>
      var receipt := if envelope.isReceipt
                     then Some(Receipt(envelope.serverReceivedTimestamp, DELIVERY, [envelope.timestamp]))
                     else None;
      Success(MessageEnvelope(sourceAddress, sourceDevice, envelope.timestamp, envelope.serverReceivedTimestamp,
                              envelope.serverDeliveredTimestamp, envelope.isUnidentifiedSender, receipt,
                              None, None, None, None, None))
    case Some(c) =>
      var data :- if c.data.None? then Success(None)
                  else var d :- DataFrom(c.data.value, env); Success(Some(d));
      var header := MessageEnvelope(sourceAddress, sourceDevice, envelope.timestamp,
                                    envelope.serverReceivedTimestamp, envelope.serverDeliveredTimestamp,
                                    envelope.isUnidentifiedSender, None, None, None, None, None, None);
      Success(WithContent(header, c, data, env))
  }

  /** The envelope `header` carrying the parts of `c`, each converted, with
      `data` as its already converted data message. */
  function WithContent(header: MessageEnvelope, c: Content, data: Option<Data>, env: Resolvers): (r: MessageEnvelope)
    ensures r.sourceAddress == header.sourceAddress && r.sourceDevice == header.sourceDevice
    ensures r.timestamp == header.timestamp && r.serverReceivedTimestamp == header.serverReceivedTimestamp
    ensures r.serverDeliveredTimestamp == header.serverDeliveredTimestamp
    ensures r.isUnidentifiedSender == header.isUnidentifiedSender
    ensures r.data == data
    ensures r.receipt.Some? <==> c.receipt.Some?
    ensures r.receipt.Some? ==> r.receipt.value == ReceiptFrom(c.receipt.value)
    ensures r.typing.Some? <==> c.typing.Some?
    ensures r.typing.Some? ==> r.typing.value == TypingFrom(c.typing.value, env.groupIdOf)
    ensures r.sync.Some? <==> c.sync.Some?
    ensures r.sync.Some? ==> r.sync.value == env.syncOf(c.sync.value)
    ensures r.call.Some? <==> c.call.Some?
    ensures r.call.Some? ==> r.call.value == env.callOf(c.call.value)
    ensures r.story.Some? <==> c.story.Some?
    ensures r.story.Some? ==> r.story.value == env.storyOf(c.story.value)
  {
    MessageEnvelope(
      header.sourceAddress, header.sourceDevice, header.timestamp, header.serverReceivedTimestamp,
      header.serverDeliveredTimestamp, header.isUnidentifiedSender,
      if c.receipt.Some? then Some(ReceiptFrom(c.receipt.value)) else None,
      if c.typing.Some? then Some(TypingFrom(c.typing.value, env.groupIdOf)) else None,
      data,
      if c.sync.Some? then Some(env.syncOf(c.sync.value)) else None,
      if c.call.Some? then Some(env.callOf(c.call.value)) else None,
      if c.story.Some? then Some(env.storyOf(c.story.value)) else None)
  }

  /** The sender of an identified envelope with a known source is that
      source, whatever the content and exception; and an exception only
      matters when neither the envelope nor the content names a sender. */
  lemma SourcePrecedence(envelope: ServiceEnvelope, c1: Option<Content>, c2: Option<Content>,
                         x1: Option<DecryptionError>, x2: Option<DecryptionError>, env: Resolvers)
    ensures !envelope.isUnidentifiedSender && envelope.source.Some? ==>
      SourceOf(envelope, c1, x1, env) == SourceOf(envelope, c2, x2, env)
    ensures envelope.isUnidentifiedSender && c1.Some? ==>
      SourceOf(envelope, c1, x1, env) == SourceOf(envelope, c1, x2, env)
    ensures envelope.sourceDevice.Some? ==> SourceDeviceOf(envelope, c1, x1) == SourceDeviceOf(envelope, c2, x2)
    ensures SourceOf(envelope, c1, x1, env).None? <==>
      (!envelope.isUnidentifiedSender || c1.None?) && (envelope.isUnidentifiedSender || envelope.source.None?)
      && !IsProtocolException(x1)
  {
  }
}
