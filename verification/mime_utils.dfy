/** `MimeUtils.guessExtensionFromMimeType`: the file extension for a
    MIME type the app knows, compared by exact string equality. */
module MimeUtils {
  import opened Wrappers

  const LONG_TEXT: string := "text/x-signal-plain"
  const PLAIN_TEXT: string := "text/plain"
  const OCTET_STREAM: string := "application/octet-stream"

  /** The MIME types the switch names. */
  const KNOWN_TYPES: set<string> := {
    "application/vnd.android.package-archive", "application/json", "image/png", "image/jpeg",
    "image/heic", "image/heif", "image/webp", "image/gif", "audio/aac", "video/mp4",
    "text/x-vcard", PLAIN_TEXT, LONG_TEXT, OCTET_STREAM }

  /** As written: the `OCTET_STREAM` case sets `"bin"` and, lacking a
      `break`, falls into `default`, which sets `null`. */
  function GuessExtensionAsWritten(mimeType: string): (r: Option<string>)
    ensures mimeType == OCTET_STREAM ==> r.None?
    ensures r.Some? ==> mimeType in KNOWN_TYPES && mimeType != OCTET_STREAM
  {
    if mimeType == "application/vnd.android.package-archive" then Some("apk")
    else if mimeType == "application/json" then Some("json")
    else if mimeType == "image/png" then Some("png")
    else if mimeType == "image/jpeg" then Some("jpg")
    else if mimeType == "image/heic" then Some("heic")
    else if mimeType == "image/heif" then Some("heif")
    else if mimeType == "image/webp" then Some("webp")
    else if mimeType == "image/gif" then Some("gif")
    else if mimeType == "audio/aac" then Some("aac")
    else if mimeType == "video/mp4" then Some("mp4")
    else if mimeType == "text/x-vcard" then Some("vcf")
    else if mimeType == PLAIN_TEXT || mimeType == LONG_TEXT then Some("txt")
    else None
  }

  /** With the `break` the `OCTET_STREAM` case evidently intends. */
  function GuessExtension(mimeType: string): (r: Option<string>)
    ensures r.Some? <==> mimeType in KNOWN_TYPES
    ensures mimeType == OCTET_STREAM ==> r == Some("bin")
    ensures mimeType != OCTET_STREAM ==> r == GuessExtensionAsWritten(mimeType)
  {
    if mimeType == OCTET_STREAM then Some("bin") else GuessExtensionAsWritten(mimeType)
  }

  /** The written switch never yields `"bin"`, although one case sets it. */
  lemma OctetStreamHasNoExtension()
    ensures GuessExtensionAsWritten(OCTET_STREAM) == None
    ensures GuessExtension(OCTET_STREAM) == Some("bin")
    ensures forall m :: GuessExtensionAsWritten(m) != Some("bin")
  {
  }

  /** Both text types give `"txt"`; any other extension comes from exactly
      one MIME type. */
  lemma ExtensionsDistinct(a: string, b: string)
    requires GuessExtension(a).Some? && GuessExtension(a) == GuessExtension(b)
    ensures a == b || {a, b} == {PLAIN_TEXT, LONG_TEXT}
    ensures GuessExtension(a) == Some("txt") <==> a == PLAIN_TEXT || a == LONG_TEXT
  {
  }
}
