/** `JsonStickerPack`: the manifest of a downloaded sticker pack, and the
    conversion of one of its stickers to the api form. */
module JsonStickerPack {
  import opened Wrappers
  import opened JavaTypes
  import opened JavaNumbers

  /** `JsonStickerPack.JsonSticker`; `id` may be null, and so may `file`. */
  datatype JsonSticker = JsonSticker(id: Option<Int32>, emoji: string, file: Option<string>, contentType: string)

  datatype JsonStickerPack = JsonStickerPack(title: string, author: string, cover: JsonSticker, stickers: seq<JsonSticker>)

  /** `api.StickerPack.Sticker`. */
  datatype ApiSticker = ApiSticker(id: Int32, emoji: string, contentType: string)

  /** `Integer.parseInt(file)`, which refuses a null name. */
  function ParseFileId(file: Option<string>): (r: Result<Int32, NumberFormatError>)
    ensures file.None? ==> r.Failure?
    ensures file.Some? ==> r == ParseInt(file.value)
  {
    match file
    case None => Failure(NumberFormatError(""))
    case Some(name) => ParseInt(name)
  }

  /** `toApi()`: the sticker's id, or else its file name read as a number;
      emoji and content type are copied. */
  function ToApi(s: JsonSticker): (r: Result<ApiSticker, NumberFormatError>)
    ensures s.id.Some? ==> r == Success(ApiSticker(s.id.value, s.emoji, s.contentType))
    ensures s.id.None? ==> (r.Success? <==> s.file.Some? && ParseInt(s.file.value).Success?)
    ensures r.Success? ==> r.value.emoji == s.emoji && r.value.contentType == s.contentType
    ensures r.Success? && s.id.None? ==> r.value.id == ParseInt(s.file.value).value
  {
    var id :- if s.id.Some? then Success(s.id.value) else ParseFileId(s.file);
    Success(ApiSticker(id, s.emoji, s.contentType))
  }

  /** A sticker without an id, stored under its number as file name, gets
      that number as its id. */
  lemma ToApiOfNumberedFile(n: Int32, emoji: string, contentType: string)
    ensures ToApi(JsonSticker(None, emoji, Some(IntegerText(n)), contentType)) == Success(ApiSticker(n, emoji, contentType))
  {
    ParseIntOfText(n);
  }

  /** A file name that is not a number in `int` range fails the
      conversion; a stated id makes the file name irrelevant. */
  lemma ToApiFileName(s: JsonSticker, t: JsonSticker)
    requires s.id.Some? && t == s.(file := t.file)
    ensures ToApi(s) == ToApi(t)
    ensures ToApi(s.(id := None, file := Some("sticker.webp"))).Failure?
  {
    assert !IsDigit('s');
  }
}
