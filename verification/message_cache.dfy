/** `MessageCacheUtils`: the binary file in which a received envelope is
    cached before it is decrypted. `storeEnvelope` always writes version 8;
    `loadEnvelope` reads every version up to 8, supplying defaults for the
    fields older versions lack, and gives no envelope for a newer version. */
module MessageCache {
  import opened Wrappers
  import opened JavaTypes
  import opened DataStreams

  const CURRENT_VERSION: Int32 := 8

  /** The source of an envelope: `SignalServiceAddress(serviceId, e164)`. */
  datatype SourceAddress = SourceAddress(serviceId: ServiceId, number: Option<JString>)

  /** The parts of a `SignalServiceEnvelope` the cache stores. */
  datatype Envelope = Envelope(
    envelopeType: Int32,
    source: Option<SourceAddress>,
    sourceDevice: Int32,
    timestamp: Int64,
    content: Option<seq<Byte>>,
    serverReceivedTimestamp: Int64,
    serverDeliveredTimestamp: Int64,
    serverGuid: Option<JString>,
    destinationUuid: Option<JString>,
    urgent: bool,
    updatedPni: Option<JString>,
    story: bool)

  /** Every field a cache file of some version may hold, in file order. */
  datatype CacheFile = CacheFile(
    version: Int32,
    envelopeType: Int32,
    source: JString,                 // the legacy source number
    sourceServiceId: JString,        // version 3 and later
    sourceDevice: Int32,
    relay: JString,                  // version 1 only
    destinationUuid: JString,        // version 5 and later
    timestamp: Int64,
    content: seq<Byte>,
    legacyMessage: seq<Byte>,
    serverReceivedTimestamp: Int64,  // version 2 and later
    serverGuid: JString,             // version 2 and later
    serverDeliveredTimestamp: Int64, // version 4 and later
    urgent: bool,                    // version 6 and later
    story: bool,                     // version 7 and later
    updatedPni: JString)             // version 8 and later

  /** `UuidUtil.UNKNOWN_UUID.toString()`, the destination of files older
      than version 5. */
  function UnknownUuidText(): (us: JString)
    ensures |us| == 36
  {
    UnitsOf(UuidToString(UNKNOWN_UUID))
  }

  /** `ServiceId.parseOrNull` of a Java string. */
  function ParseServiceIdText(us: JString): (r: Option<ServiceId>)
    ensures |us| != 36 ==> r.None?
  {
    match TextOf(us)
    case Some(s) => ParseServiceId(s)
    case None => None
  }

  /** The text `getSourceUuid()` gives for a service id. */
  function ServiceIdText(s: ServiceId): (us: JString)
    ensures ParseServiceIdText(us) == Some(s)
    ensures |us| == 36
  {
    TextOfUnitsOf(ServiceIdToString(s));
    UnitsOf(ServiceIdToString(s))
  }

  // ---------------------------------------------------------------------
  // The layout, written back to front: each function puts its fields in
  // front of the bytes that follow them.

  /** `writeUTF` accepts the string. */
  predicate Fits(us: JString) {
    |ModifiedUtf8(us)| <= MAX_UTF_LENGTH
  }

  function Utf(us: JString, rest: seq<Byte>): seq<Byte>
    requires Fits(us)
  {
    EncodeUtf(us).value + rest
  }

  function UtfIf(present: bool, us: JString, rest: seq<Byte>): seq<Byte>
    requires present ==> Fits(us)
  {
    if present then Utf(us, rest) else rest
  }

  function LongIf(present: bool, x: Int64, rest: seq<Byte>): seq<Byte> {
    if present then EncodeLong(x) + rest else rest
  }

  function BoolIf(present: bool, b: bool, rest: seq<Byte>): seq<Byte> {
    if present then EncodeBool(b) + rest else rest
  }

  /** The strings of the header fit `writeUTF`. */
  predicate HeaderWritable(f: CacheFile) {
    var v := f.version;
    && Fits(f.source)
    && (v >= 3 ==> Fits(f.sourceServiceId))
    && (v == 1 ==> Fits(f.relay))
    && (v >= 5 ==> Fits(f.destinationUuid))
  }

  /** The byte runs have Java array lengths. */
  predicate PayloadWritable(f: CacheFile) {
    |f.content| <= INT32_MAX && |f.legacyMessage| <= INT32_MAX
  }

  /** The strings of the later fields fit `writeUTF`. */
  predicate TrailerWritable(f: CacheFile) {
    var v := f.version;
    && (v >= 2 ==> Fits(f.serverGuid))
    && (v >= 8 ==> Fits(f.updatedPni))
  }

  /** The file can be written. */
  predicate Writable(f: CacheFile) {
    HeaderWritable(f) && PayloadWritable(f) && TrailerWritable(f)
  }

  /** Type, source, source service id, device, relay, destination, timestamp. */
  function HeaderBytes(f: CacheFile, rest: seq<Byte>): seq<Byte>
    requires HeaderWritable(f)
  {
    var v := f.version;
    EncodeInt(f.envelopeType) + Utf(f.source,
      UtfIf(v >= 3, f.sourceServiceId,
        EncodeInt(f.sourceDevice) + UtfIf(v == 1, f.relay,
          UtfIf(v >= 5, f.destinationUuid,
            EncodeLong(f.timestamp) + rest))))
  }

  /** The content and the legacy message, each after its length. */
  function PayloadBytes(f: CacheFile, rest: seq<Byte>): seq<Byte>
    requires PayloadWritable(f)
  {
    EncodeInt(|f.content|) + (f.content + (EncodeInt(|f.legacyMessage|) + (f.legacyMessage + rest)))
  }

  /** The fields later versions appended. */
  function TrailerBytes(f: CacheFile, rest: seq<Byte>): seq<Byte>
    requires TrailerWritable(f)
  {
    var v := f.version;
    LongIf(v >= 2, f.serverReceivedTimestamp,
      UtfIf(v >= 2, f.serverGuid,
        LongIf(v >= 4, f.serverDeliveredTimestamp,
          BoolIf(v >= 6, f.urgent,
            BoolIf(v >= 7, f.story,
              UtfIf(v >= 8, f.updatedPni, rest))))))
  }

  /** The bytes of a cache file of version `f.version`, followed by `rest`. */
  function LayoutThen(f: CacheFile, rest: seq<Byte>): seq<Byte>
    requires Writable(f)
  {
    EncodeInt(f.version) + HeaderBytes(f, PayloadBytes(f, TrailerBytes(f, rest)))
  }

  function Layout(f: CacheFile): seq<Byte>
    requires Writable(f)
  {
    LayoutThen(f, [])
  }

  // ---------------------------------------------------------------------
  // Reading

  datatype Header = Header(
    envelopeType: Int32, source: JString, sourceServiceId: Option<JString>,
    sourceDevice: Int32, destinationUuid: Option<JString>, timestamp: Int64)

  datatype Payload = Payload(contentLength: Int32, content: seq<Byte>)

  datatype Trailer = Trailer(
    serverReceivedTimestamp: Option<Int64>, serverGuid: Option<JString>,
    serverDeliveredTimestamp: Option<Int64>, urgent: Option<bool>, story: Option<bool>,
    updatedPni: Option<JString>)

  function ReadUtfIf(present: bool, s: seq<Byte>): Result<Read<Option<JString>>, IoError> {
    if !present then Success(Read(None, s))
    else
      var r :- ReadUtf(s);
      Success(Read(Some(r.value), r.rest))
  }

  function ReadLongIf(present: bool, s: seq<Byte>): Result<Read<Option<Int64>>, IoError> {
    if !present then Success(Read(None, s))
    else
      var r :- ReadLong(s);
      Success(Read(Some(r.value), r.rest))
  }

  function ReadBoolIf(present: bool, s: seq<Byte>): Result<Read<Option<bool>>, IoError> {
    if !present then Success(Read(None, s))
    else
      var r :- ReadBool(s);
      Success(Read(Some(r.value), r.rest))
  }

  /** The bytes that follow a length read by `readInt`: only a positive
      length is followed by any. */
  function RunLength(n: Int32): nat {
    if n > 0 then n else 0
  }

  function ReadHeader(version: Int32, s: seq<Byte>): Result<Read<Header>, IoError> {
    var envelopeType :- ReadInt(s);
    var source :- ReadUtf(envelopeType.rest);
    var sourceServiceId :- ReadUtfIf(version >= 3, source.rest);
    var sourceDevice :- ReadInt(sourceServiceId.rest);
    var relay :- ReadUtfIf(version == 1, sourceDevice.rest);
    var destination :- ReadUtfIf(version >= 5, relay.rest);
    var timestamp :- ReadLong(destination.rest);
    Success(Read(Header(envelopeType.value, source.value, sourceServiceId.value, sourceDevice.value,
                        destination.value, timestamp.value), timestamp.rest))
  }

  function ReadPayload(s: seq<Byte>): Result<Read<Payload>, IoError> {
    var contentLength :- ReadInt(s);
    var content :- ReadBytes(contentLength.rest, RunLength(contentLength.value));
    var legacyLength :- ReadInt(content.rest);
    var legacy :- ReadBytes(legacyLength.rest, RunLength(legacyLength.value));
    Success(Read(Payload(contentLength.value, content.value), legacy.rest))
  }

  function ReadTrailer(version: Int32, s: seq<Byte>): Result<Read<Trailer>, IoError> {
    var received :- ReadLongIf(version >= 2, s);
    var guid :- ReadUtfIf(version >= 2, received.rest);
    var delivered :- ReadLongIf(version >= 4, guid.rest);
    var urgent :- ReadBoolIf(version >= 6, delivered.rest);
    var story :- ReadBoolIf(version >= 7, urgent.rest);
    var updatedPni :- ReadUtfIf(version >= 8, story.rest);
    Success(Read(Trailer(received.value, guid.value, delivered.value, urgent.value, story.value,
                         updatedPni.value), updatedPni.rest))
  }

  /** The number a `SignalServiceAddress` keeps of the legacy source
      number: an empty one is absent. */
  function NumberOf(us: JString): (r: Option<JString>)
    ensures r.None? <==> us == []
    ensures r.Some? ==> r.value == us
  {
    if us == [] then None else Some(us)
  }

  /** The envelope `loadEnvelope` builds from the fields it read: a source
      only with a parsable service id, and the defaults of the fields the
      file lacks. */
  function Assemble(h: Header, p: Payload, t: Trailer): (e: Envelope)
    ensures e.source.Some? <==> h.sourceServiceId.Some? && ParseServiceIdText(h.sourceServiceId.value).Some?
    ensures e.source.Some? ==> e.source.value.number != Some([])
    ensures e.content.Some? <==> p.contentLength > 0
    ensures e.serverGuid.Some? ==> e.serverGuid.value != []
    ensures e.destinationUuid.Some? && e.updatedPni.Some?
    ensures h.destinationUuid.None? ==> e.destinationUuid == Some(UnknownUuidText())
    ensures t.serverReceivedTimestamp.None? ==> e.serverReceivedTimestamp == 0
    ensures t.serverDeliveredTimestamp.None? ==> e.serverDeliveredTimestamp == 0
    ensures t.urgent.None? ==> e.urgent
    ensures t.story.None? ==> e.story
    ensures t.updatedPni.None? ==> e.updatedPni == Some([])
  {
    var serviceId := if h.sourceServiceId.Some? then ParseServiceIdText(h.sourceServiceId.value) else None;
    Envelope(
      h.envelopeType,
      if serviceId.Some? then Some(SourceAddress(serviceId.value, NumberOf(h.source))) else None,
      h.sourceDevice,
      h.timestamp,
      if p.contentLength > 0 then Some(p.content) else None,
      t.serverReceivedTimestamp.GetOr(0),
      t.serverDeliveredTimestamp.GetOr(0),
      if t.serverGuid.Some? && t.serverGuid.value != [] then t.serverGuid else None,
      Some(h.destinationUuid.GetOr(UnknownUuidText())),
      t.urgent.GetOr(true),
      Some(t.updatedPni.GetOr([])),
      t.story.GetOr(true))
  }

  /** What `loadEnvelope` makes of a file's bytes: an envelope, no envelope
      for an unsupported version, or the I/O error that stops it. */
  function Decode(bs: seq<Byte>): Result<Option<Envelope>, IoError> {
    var version :- ReadInt(bs);
    if version.value > CURRENT_VERSION then Success(None)
    else
      var header :- ReadHeader(version.value, version.rest);
      var payload :- ReadPayload(header.rest);
      var trailer :- ReadTrailer(version.value, payload.rest);
      Success(Some(Assemble(header.value, payload.value, trailer.value)))
  }

  /** The envelope a file of version at most 8 describes, with the
      defaults of the fields its version lacks. */
  function Expected(f: CacheFile): Envelope {
    var v := f.version;
    var serviceId := if v >= 3 then ParseServiceIdText(f.sourceServiceId) else None;
    Envelope(
      f.envelopeType,
      if serviceId.Some? then Some(SourceAddress(serviceId.value, NumberOf(f.source))) else None,
      f.sourceDevice,
      f.timestamp,
      if |f.content| > 0 then Some(f.content) else None,
      if v >= 2 then f.serverReceivedTimestamp else 0,
      if v >= 4 then f.serverDeliveredTimestamp else 0,
      if v >= 2 && f.serverGuid != [] then Some(f.serverGuid) else None,
      Some(if v >= 5 then f.destinationUuid else UnknownUuidText()),
      if v >= 6 then f.urgent else true,
      Some(if v >= 8 then f.updatedPni else []),
      if v >= 7 then f.story else true)
  }

  // ---------------------------------------------------------------------
  // Each part reads back what was written

  /** The header fields a file of version `f.version` holds. */
  function HeaderOf(f: CacheFile): Header {
    var v := f.version;
    Header(f.envelopeType, f.source, if v >= 3 then Some(f.sourceServiceId) else None,
           f.sourceDevice, if v >= 5 then Some(f.destinationUuid) else None, f.timestamp)
  }

  function PayloadOf(f: CacheFile): Payload
    requires PayloadWritable(f)
  {
    Payload(|f.content|, f.content)
  }

  /** The later fields a file of version `f.version` holds. */
  function TrailerOf(f: CacheFile): Trailer {
    var v := f.version;
    Trailer(
      if v >= 2 then Some(f.serverReceivedTimestamp) else None,
      if v >= 2 then Some(f.serverGuid) else None,
      if v >= 4 then Some(f.serverDeliveredTimestamp) else None,
      if v >= 6 then Some(f.urgent) else None,
      if v >= 7 then Some(f.story) else None,
      if v >= 8 then Some(f.updatedPni) else None)
  }

  lemma ReadUtfIfWritten(present: bool, us: JString, rest: seq<Byte>)
    requires present ==> Fits(us)
    ensures ReadUtfIf(present, UtfIf(present, us, rest)) == Success(Read(if present then Some(us) else None, rest))
  {
    if present {
      ReadUtfEncoded(us, rest);
    }
  }

  lemma ReadLongIfWritten(present: bool, x: Int64, rest: seq<Byte>)
    ensures ReadLongIf(present, LongIf(present, x, rest)) == Success(Read(if present then Some(x) else None, rest))
  {
    if present {
      ReadLongEncoded(x, rest);
    }
  }

  lemma ReadBoolIfWritten(present: bool, b: bool, rest: seq<Byte>)
    ensures ReadBoolIf(present, BoolIf(present, b, rest)) == Success(Read(if present then Some(b) else None, rest))
  {
    if present {
      ReadBoolEncoded(b, rest);
    }
  }

  lemma ReadHeaderWritten(f: CacheFile, rest: seq<Byte>)
    requires HeaderWritable(f)
    ensures ReadHeader(f.version, HeaderBytes(f, rest)) == Success(Read(HeaderOf(f), rest))
  {
    var v := f.version;
    var afterDestination := EncodeLong(f.timestamp) + rest;
    var afterRelay := UtfIf(v >= 5, f.destinationUuid, afterDestination);
    var afterDevice := UtfIf(v == 1, f.relay, afterRelay);
    var afterServiceId := EncodeInt(f.sourceDevice) + afterDevice;
    var afterSource := UtfIf(v >= 3, f.sourceServiceId, afterServiceId);
    var afterType := Utf(f.source, afterSource);
    ReadIntEncoded(f.envelopeType, afterType);
    ReadUtfEncoded(f.source, afterSource);
    ReadUtfIfWritten(v >= 3, f.sourceServiceId, afterServiceId);
    ReadIntEncoded(f.sourceDevice, afterDevice);
    ReadUtfIfWritten(v == 1, f.relay, afterRelay);
    ReadUtfIfWritten(v >= 5, f.destinationUuid, afterDestination);
    ReadLongEncoded(f.timestamp, rest);
  }

  lemma ReadPayloadWritten(f: CacheFile, rest: seq<Byte>)
    requires PayloadWritable(f)
    ensures ReadPayload(PayloadBytes(f, rest)) == Success(Read(PayloadOf(f), rest))
  {
    var afterLegacyLength := f.legacyMessage + rest;
    var afterContent := EncodeInt(|f.legacyMessage|) + afterLegacyLength;
    var afterContentLength := f.content + afterContent;
    ReadIntEncoded(|f.content|, afterContentLength);
    ReadBytesEncoded(f.content, afterContent);
    ReadIntEncoded(|f.legacyMessage|, afterLegacyLength);
    ReadBytesEncoded(f.legacyMessage, rest);
  }

  lemma ReadTrailerWritten(f: CacheFile, rest: seq<Byte>)
    requires TrailerWritable(f)
    ensures ReadTrailer(f.version, TrailerBytes(f, rest)) == Success(Read(TrailerOf(f), rest))
  {
    var v := f.version;
    var afterStory := UtfIf(v >= 8, f.updatedPni, rest);
    var afterUrgent := BoolIf(v >= 7, f.story, afterStory);
    var afterDelivered := BoolIf(v >= 6, f.urgent, afterUrgent);
    var afterGuid := LongIf(v >= 4, f.serverDeliveredTimestamp, afterDelivered);
    var afterReceived := UtfIf(v >= 2, f.serverGuid, afterGuid);
    assert TrailerBytes(f, rest) == LongIf(v >= 2, f.serverReceivedTimestamp, afterReceived);
    ReadLongIfWritten(v >= 2, f.serverReceivedTimestamp, afterReceived);
    ReadUtfIfWritten(v >= 2, f.serverGuid, afterGuid);
    ReadLongIfWritten(v >= 4, f.serverDeliveredTimestamp, afterDelivered);
    ReadBoolIfWritten(v >= 6, f.urgent, afterUrgent);
    ReadBoolIfWritten(v >= 7, f.story, afterStory);
    ReadUtfIfWritten(v >= 8, f.updatedPni, rest);
    var received := ReadLongIf(v >= 2, TrailerBytes(f, rest)).value;
    assert received.rest == afterReceived;
    var guid := ReadUtfIf(v >= 2, received.rest).value;
    assert guid.rest == afterGuid;
    var delivered := ReadLongIf(v >= 4, guid.rest).value;
    assert delivered.rest == afterDelivered;
    var urgent := ReadBoolIf(v >= 6, delivered.rest).value;
    assert urgent.rest == afterUrgent;
    var story := ReadBoolIf(v >= 7, urgent.rest).value;
    assert story.rest == afterStory;
    var updatedPni := ReadUtfIf(v >= 8, story.rest).value;
    assert updatedPni.rest == rest;
  }

  // ---------------------------------------------------------------------
  // Properties of the format

  /** A file of a newer version yields no envelope, whatever follows its
      version number. */
  lemma NewerVersionRejected(version: Int32, rest: seq<Byte>)
    requires version > CURRENT_VERSION
    ensures Decode(EncodeInt(version) + rest) == Success(None)
  {
    ReadIntEncoded(version, rest);
  }

  /** Every file of version at most 8 reads back as the envelope its
      fields describe, with the defaults of the fields its version lacks;
      bytes after the last field are ignored. */
  lemma DecodeLayout(f: CacheFile, rest: seq<Byte>)
    requires f.version <= CURRENT_VERSION && Writable(f)
    ensures Decode(LayoutThen(f, rest)) == Success(Some(Expected(f)))
  {
    var trailer := TrailerBytes(f, rest);
    var payload := PayloadBytes(f, trailer);
    var header := HeaderBytes(f, payload);
    ReadIntEncoded(f.version, header);
    ReadHeaderWritten(f, payload);
    ReadPayloadWritten(f, trailer);
    ReadTrailerWritten(f, rest);
    var version := ReadInt(LayoutThen(f, rest)).value;
    assert version == Read(f.version, header);
    var h := ReadHeader(f.version, version.rest).value;
    assert h == Read(HeaderOf(f), payload);
    var p := ReadPayload(h.rest).value;
    assert p == Read(PayloadOf(f), trailer);
    var t := ReadTrailer(f.version, p.rest).value;
    assert t == Read(TrailerOf(f), rest);
    AssembleExpected(f);
  }

  lemma AssembleExpected(f: CacheFile)
    requires f.version <= CURRENT_VERSION && PayloadWritable(f)
    ensures Assemble(HeaderOf(f), PayloadOf(f), TrailerOf(f)) == Expected(f)
  {
  }

  // ---------------------------------------------------------------------
  // What storeEnvelope writes

  /** The text `getSourceUuid()` gives, or the empty string. */
  function SourceText(e: Envelope): (us: JString)
    ensures us == [] || |us| == 36
  {
    if e.source.Some? then ServiceIdText(e.source.value.serviceId) else []
  }

  /** `storeEnvelope` can write the envelope: its strings fit `writeUTF`. */
  predicate Storable(e: Envelope) {
    && Fits(e.destinationUuid.GetOr([]))
    && Fits(e.serverGuid.GetOr([]))
    && Fits(e.updatedPni.GetOr([]))
  }

  lemma ShortFits(us: JString)
    requires |us| <= 36
    ensures Fits(us)
  {
  }

  /** The version-8 file `storeEnvelope` writes for an envelope: the legacy
      number, the relay and the legacy message are left empty. */
  function FileOf(e: Envelope): (f: CacheFile)
    ensures f.version == CURRENT_VERSION
    ensures HeaderWritable(f) <==> Fits(e.destinationUuid.GetOr([]))
    ensures PayloadWritable(f) <==> |e.content.GetOr([])| <= INT32_MAX
    ensures TrailerWritable(f) <==> Fits(e.serverGuid.GetOr([])) && Fits(e.updatedPni.GetOr([]))
  {
    ShortFits([]);
    ShortFits(SourceText(e));
    CacheFile(CURRENT_VERSION, e.envelopeType, [], SourceText(e), e.sourceDevice, [],
              e.destinationUuid.GetOr([]), e.timestamp, e.content.GetOr([]), [],
              e.serverReceivedTimestamp, e.serverGuid.GetOr([]), e.serverDeliveredTimestamp,
              e.urgent, e.story, e.updatedPni.GetOr([]))
  }

  /** The envelope a stored file loads as: the legacy source number is
      absent, empty content and an empty server GUID are absent, and absent
      destination and updated PNI are empty. */
  function Reloaded(e: Envelope): Envelope {
    e.(source := if e.source.Some? then Some(SourceAddress(e.source.value.serviceId, None)) else None,
       content := if e.content.Some? && e.content.value != [] then e.content else None,
       serverGuid := if e.serverGuid.Some? && e.serverGuid.value != [] then e.serverGuid else None,
       destinationUuid := Some(e.destinationUuid.GetOr([])),
       updatedPni := Some(e.updatedPni.GetOr([])))
  }

  lemma ExpectedOfFile(e: Envelope)
    requires |e.content.GetOr([])| <= INT32_MAX
    ensures Expected(FileOf(e)) == Reloaded(e)
  {
    assert ParseServiceIdText([]) == None;
  }

  /** Storing an envelope and loading the file back gives the envelope
      with its type, device, timestamps, urgency, story flag, updated PNI,
      destination and source service id; non-empty content comes back
      exactly and empty content as none; the legacy source number comes
      back absent; an empty server GUID comes back as none. */
  lemma LoadOfStore(e: Envelope)
    requires |e.content.GetOr([])| <= INT32_MAX && Storable(e)
    ensures Decode(Layout(FileOf(e))) == Success(Some(Reloaded(e)))
    ensures var l := Reloaded(e);
      && l.envelopeType == e.envelopeType
      && l.sourceDevice == e.sourceDevice
      && l.timestamp == e.timestamp
      && l.serverReceivedTimestamp == e.serverReceivedTimestamp
      && l.serverDeliveredTimestamp == e.serverDeliveredTimestamp
      && l.urgent == e.urgent
      && l.story == e.story
      && l.updatedPni == Some(e.updatedPni.GetOr([]))
      && l.destinationUuid == Some(e.destinationUuid.GetOr([]))
      && (e.source.Some? <==> l.source.Some?)
      && (e.source.Some? ==> l.source.value == SourceAddress(e.source.value.serviceId, None))
      && (e.content.Some? && e.content.value != [] ==> l.content == e.content)
      && (e.content.None? || e.content.value == [] ==> l.content.None?)
      && (e.serverGuid.Some? && e.serverGuid.value != [] ==> l.serverGuid == e.serverGuid)
      && (e.serverGuid.None? || e.serverGuid.value == [] ==> l.serverGuid.None?)
  {
    DecodeLayout(FileOf(e), []);
    ExpectedOfFile(e);
  }

  /** A loaded envelope stored again loads back unchanged: one store and
      load cycle reaches a fixed point. */
  lemma StoreLoadFixedPoint(e: Envelope)
    requires |e.content.GetOr([])| <= INT32_MAX && Storable(e)
    ensures Storable(Reloaded(e)) && |Reloaded(e).content.GetOr([])| <= INT32_MAX
    ensures Decode(Layout(FileOf(Reloaded(e)))) == Success(Some(Reloaded(e)))
  {
    var l := Reloaded(e);
    assert Reloaded(l) == l;
    LoadOfStore(l);
  }

  // ---------------------------------------------------------------------
  // The two operations

  lemma HeaderBytesThen(f: CacheFile, rest: seq<Byte>)
    requires HeaderWritable(f)
    ensures HeaderBytes(f, rest) == HeaderBytes(f, []) + rest
  {
  }

  lemma PayloadBytesThen(f: CacheFile, rest: seq<Byte>)
    requires PayloadWritable(f)
    ensures PayloadBytes(f, rest) == PayloadBytes(f, []) + rest
  {
  }

  lemma UtfIfThen(present: bool, us: JString, a: seq<Byte>, rest: seq<Byte>)
    requires present ==> Fits(us)
    ensures UtfIf(present, us, a + rest) == UtfIf(present, us, a) + rest
  {
  }

  lemma LongIfThen(present: bool, x: Int64, a: seq<Byte>, rest: seq<Byte>)
    ensures LongIf(present, x, a + rest) == LongIf(present, x, a) + rest
  {
  }

  lemma BoolIfThen(present: bool, b: bool, a: seq<Byte>, rest: seq<Byte>)
    ensures BoolIf(present, b, a + rest) == BoolIf(present, b, a) + rest
  {
  }

  lemma TrailerBytesThen(f: CacheFile, rest: seq<Byte>)
    requires TrailerWritable(f)
    ensures TrailerBytes(f, rest) == TrailerBytes(f, []) + rest
  {
    var v := f.version;
    assert [] + rest == rest;
    UtfIfThen(v >= 8, f.updatedPni, [], rest);
    var afterStory := UtfIf(v >= 8, f.updatedPni, []);
    BoolIfThen(v >= 7, f.story, afterStory, rest);
    var afterUrgent := BoolIf(v >= 7, f.story, afterStory);
    BoolIfThen(v >= 6, f.urgent, afterUrgent, rest);
    var afterDelivered := BoolIf(v >= 6, f.urgent, afterUrgent);
    LongIfThen(v >= 4, f.serverDeliveredTimestamp, afterDelivered, rest);
    var afterGuid := LongIf(v >= 4, f.serverDeliveredTimestamp, afterDelivered);
    UtfIfThen(v >= 2, f.serverGuid, afterGuid, rest);
    var afterReceived := UtfIf(v >= 2, f.serverGuid, afterGuid);
    LongIfThen(v >= 2, f.serverReceivedTimestamp, afterReceived, rest);
  }

  /** A layout is its version, header, payload and trailer written one
      after another. */
  lemma LayoutOfParts(f: CacheFile)
    requires Writable(f)
    ensures Layout(f) == ((EncodeInt(f.version) + HeaderBytes(f, [])) + PayloadBytes(f, [])) + TrailerBytes(f, [])
  {
    var t := TrailerBytes(f, []);
    PayloadBytesThen(f, t);
    HeaderBytesThen(f, PayloadBytes(f, t));
  }

  /** Six writes one after another put the same bytes as the nested form. */
  lemma Appended(out: seq<Byte>, a: seq<Byte>, b: seq<Byte>, c: seq<Byte>, d: seq<Byte>, g: seq<Byte>, h: seq<Byte>)
    ensures out + a + b + c + d + g + h == out + (a + (b + (c + (d + (g + (h + []))))))
  {
  }

  /** The header of a version-8 file. */
  lemma HeaderBytes8(f: CacheFile)
    requires f.version == CURRENT_VERSION && HeaderWritable(f)
    ensures HeaderBytes(f, []) == EncodeInt(f.envelopeType) + (EncodeUtf(f.source).value
      + (EncodeUtf(f.sourceServiceId).value + (EncodeInt(f.sourceDevice)
      + (EncodeUtf(f.destinationUuid).value + (EncodeLong(f.timestamp) + [])))))
  {
  }

  /** The trailer of a version-8 file. */
  lemma TrailerBytes8(f: CacheFile)
    requires f.version == CURRENT_VERSION && TrailerWritable(f)
    ensures TrailerBytes(f, []) == EncodeLong(f.serverReceivedTimestamp) + (EncodeUtf(f.serverGuid).value
      + (EncodeLong(f.serverDeliveredTimestamp) + (EncodeBool(f.urgent) + (EncodeBool(f.story)
      + (EncodeUtf(f.updatedPni).value + [])))))
  {
  }

  /** The header of `storeEnvelope`: the version-8 header fields after `out`. */
  method WriteHeader(e: Envelope, out: seq<Byte>) returns (r: Result<seq<Byte>, IoError>)
    ensures r.Success? <==> HeaderWritable(FileOf(e))
    ensures r.Success? ==> r.value == out + HeaderBytes(FileOf(e), [])
    ensures r.Failure? ==> r.error == EncodedTooLong
  {
    ghost var f := FileOf(e);
    var destination := EncodeUtf(e.destinationUuid.GetOr([]));
    var written := out;
    written := written + EncodeInt(e.envelopeType);
    written := written + EncodeUtf([]).value;
    written := written + EncodeUtf(SourceText(e)).value;
    written := written + EncodeInt(e.sourceDevice);
    if destination.Failure? {
      return Failure(destination.error);
    }
    written := written + destination.value;
    written := written + EncodeLong(e.timestamp);
    HeaderBytes8(f);
    Appended(out, EncodeInt(e.envelopeType), EncodeUtf([]).value, EncodeUtf(SourceText(e)).value,
             EncodeInt(e.sourceDevice), destination.value, EncodeLong(e.timestamp));
    return Success(written);
  }

  /** The content, or an empty run, and an empty legacy message. */
  method WritePayload(e: Envelope, out: seq<Byte>) returns (r: seq<Byte>)
    requires |e.content.GetOr([])| <= INT32_MAX
    ensures r == out + PayloadBytes(FileOf(e), [])
  {
    ghost var c := FileOf(e).content;
    r := out;
    if e.content.Some? {
      r := r + EncodeInt(|e.content.value|);
      r := r + e.content.value;
    } else {
      r := r + EncodeInt(0);
      assert r == out + EncodeInt(|c|) + c;
    }
    r := r + EncodeInt(0);
    PayloadAppended(out, EncodeInt(|c|), c, EncodeInt(0));
  }

  lemma PayloadAppended(out: seq<Byte>, a: seq<Byte>, b: seq<Byte>, c: seq<Byte>)
    ensures out + a + b + c == out + (a + (b + (c + ([] + []))))
  {
  }

  /** The fields versions 2 to 8 added. */
  method WriteTrailer(e: Envelope, out: seq<Byte>) returns (r: Result<seq<Byte>, IoError>)
    ensures r.Success? <==> TrailerWritable(FileOf(e))
    ensures r.Success? ==> r.value == out + TrailerBytes(FileOf(e), [])
    ensures r.Failure? ==> r.error == EncodedTooLong
  {
    ghost var f := FileOf(e);
    var written := out;
    written := written + EncodeLong(e.serverReceivedTimestamp);
    var guid := EncodeUtf(e.serverGuid.GetOr([]));
    if guid.Failure? {
      return Failure(guid.error);
    }
    written := written + guid.value;
    written := written + EncodeLong(e.serverDeliveredTimestamp);
    written := written + EncodeBool(e.urgent);
    written := written + EncodeBool(e.story);
    var pni := EncodeUtf(e.updatedPni.GetOr([]));
    if pni.Failure? {
      return Failure(pni.error);
    }
    written := written + pni.value;
    TrailerBytes8(f);
    Appended(out, EncodeLong(e.serverReceivedTimestamp), guid.value, EncodeLong(e.serverDeliveredTimestamp),
             EncodeBool(e.urgent), EncodeBool(e.story), pni.value);
    return Success(written);
  }

  /** `storeEnvelope`: the version, then the fields one after another; a
      string too long for `writeUTF` stops the write. */
  method StoreEnvelope(e: Envelope) returns (r: Result<seq<Byte>, IoError>)
    requires |e.content.GetOr([])| <= INT32_MAX
    ensures r.Success? <==> Storable(e)
    ensures r.Success? ==> r.value == Layout(FileOf(e))
    ensures r.Failure? ==> r.error == EncodedTooLong
  {
    var f := FileOf(e);
    var out := EncodeInt(CURRENT_VERSION);
    var header := WriteHeader(e, out);
    if header.Failure? {
      return Failure(header.error);
    }
    out := WritePayload(e, header.value);
    var trailer := WriteTrailer(e, out);
    if trailer.Failure? {
      return Failure(trailer.error);
    }
    LayoutOfParts(f);
    return Success(trailer.value);
  }

  /** The header fields of a file of version `v`, read from `input`. */
  method LoadHeader(v: Int32, input: seq<Byte>) returns (r: Result<Read<Header>, IoError>)
    ensures r == ReadHeader(v, input)
  {
    var input := input;
    var envelopeType := ReadInt(input);
    if envelopeType.Failure? { return Failure(envelopeType.error); }
    input := envelopeType.value.rest;
    var source := ReadUtf(input);
    if source.Failure? { return Failure(source.error); }
    input := source.value.rest;
    var sourceServiceId: Option<JString> := None;
    if v >= 3 {
      var text := ReadUtf(input);
      if text.Failure? { return Failure(text.error); }
      input := text.value.rest;
      sourceServiceId := Some(text.value.value);
    }
    var sourceDevice := ReadInt(input);
    if sourceDevice.Failure? { return Failure(sourceDevice.error); }
    input := sourceDevice.value.rest;
    if v == 1 {
      var relay := ReadUtf(input);
      if relay.Failure? { return Failure(relay.error); }
      input := relay.value.rest;
    }
    var destinationUuid: Option<JString> := None;
    if v >= 5 {
      var text := ReadUtf(input);
      if text.Failure? { return Failure(text.error); }
      input := text.value.rest;
      destinationUuid := Some(text.value.value);
    }
    var timestamp := ReadLong(input);
    if timestamp.Failure? { return Failure(timestamp.error); }
    return Success(Read(Header(envelopeType.value.value, source.value.value, sourceServiceId,
                               sourceDevice.value.value, destinationUuid, timestamp.value.value),
                        timestamp.value.rest));
  }

  /** The content and the legacy message, each read only when its length
      is positive; the legacy message is skipped. */
  method LoadPayload(input: seq<Byte>) returns (r: Result<Read<Payload>, IoError>)
    ensures r == ReadPayload(input)
  {
    var input := input;
    var contentLength := ReadInt(input);
    if contentLength.Failure? { return Failure(contentLength.error); }
    input := contentLength.value.rest;
    var content: seq<Byte> := [];
    if contentLength.value.value > 0 {
      var run := ReadBytes(input, contentLength.value.value);
      if run.Failure? { return Failure(run.error); }
      input := run.value.rest;
      content := run.value.value;
    }
    var legacyLength := ReadInt(input);
    if legacyLength.Failure? { return Failure(legacyLength.error); }
    input := legacyLength.value.rest;
    if legacyLength.value.value > 0 {
      var run := ReadBytes(input, legacyLength.value.value);
      if run.Failure? { return Failure(run.error); }
      input := run.value.rest;
    }
    return Success(Read(Payload(contentLength.value.value, content), input));
  }

  /** The fields versions 2 to 8 added, each only if version `v` has it. */
  method LoadTrailer(v: Int32, input: seq<Byte>) returns (r: Result<Read<Trailer>, IoError>)
    ensures r == ReadTrailer(v, input)
  {
    var input := input;
    var serverReceivedTimestamp: Option<Int64> := None;
    var serverGuid: Option<JString> := None;
    if v >= 2 {
      var received := ReadLong(input);
      if received.Failure? { return Failure(received.error); }
      input := received.value.rest;
      serverReceivedTimestamp := Some(received.value.value);
      var guid := ReadUtf(input);
      if guid.Failure? { return Failure(guid.error); }
      input := guid.value.rest;
      serverGuid := Some(guid.value.value);
    }
    var serverDeliveredTimestamp: Option<Int64> := None;
    if v >= 4 {
      var delivered := ReadLong(input);
      if delivered.Failure? { return Failure(delivered.error); }
      input := delivered.value.rest;
      serverDeliveredTimestamp := Some(delivered.value.value);
    }
    var urgent: Option<bool> := None;
    if v >= 6 {
      var flag := ReadBool(input);
      if flag.Failure? { return Failure(flag.error); }
      input := flag.value.rest;
      urgent := Some(flag.value.value);
    }
    var story: Option<bool> := None;
    if v >= 7 {
      var flag := ReadBool(input);
      if flag.Failure? { return Failure(flag.error); }
      input := flag.value.rest;
      story := Some(flag.value.value);
    }
    var updatedPni: Option<JString> := None;
    if v >= 8 {
      var text := ReadUtf(input);
      if text.Failure? { return Failure(text.error); }
      input := text.value.rest;
      updatedPni := Some(text.value.value);
    }
    return Success(Read(Trailer(serverReceivedTimestamp, serverGuid, serverDeliveredTimestamp, urgent, story,
                                updatedPni), input));
  }

  /** `loadEnvelope`: the version, then the fields that version holds; the
      first failed read ends it. */
  method LoadEnvelope(bytes: seq<Byte>) returns (r: Result<Option<Envelope>, IoError>)
    ensures r == Decode(bytes)
  {
    var version := ReadInt(bytes);
    if version.Failure? { return Failure(version.error); }
    var v := version.value.value;
    if v > CURRENT_VERSION {
      return Success(None);
    }
    var header := LoadHeader(v, version.value.rest);
    if header.Failure? { return Failure(header.error); }
    var payload := LoadPayload(header.value.rest);
    if payload.Failure? { return Failure(payload.error); }
    var trailer := LoadTrailer(v, payload.value.rest);
    if trailer.Failure? { return Failure(trailer.error); }
    return Success(Some(Assemble(header.value.value, payload.value.value, trailer.value.value)));
  }
}
