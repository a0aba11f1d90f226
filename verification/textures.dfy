/** `Texture` (Texture.h / Texture.cpp): a 2D texture object that loads an
    image file through stb_image. The decoder is an oracle: for a path it
    either yields the image's width, height and channel count, or nothing. */
module Textures {
  import opened Base
  import opened GL

  /** A decoded image as `stbi_load` reports it. */
  datatype Image = Image(width: int, height: int, channels: int)

  datatype Texture = Texture(id: nat, path: string)

  /** How a load ended: a supported channel count selects a format pair; any
      other count is reported and the format pair is left unset; a failed
      decode is reported with the path. */
  datatype Outcome =
    | Loaded(format: PixelFormat, internalFormat: InternalFormat)
    | UnsupportedFormat(channels: int)
    | DecodeFailed

  /** Channel count to (upload format, storage format). */
  function FormatFor(channels: int): Option<(PixelFormat, InternalFormat)>
  {
    if channels == 1 then Some((Red, R8))
    else if channels == 3 then Some((Rgb, Rgb4))
    else if channels == 4 then Some((Rgba, Rgba4))
    else None
  }

  /** Channels carried by an upload format. */
  function ChannelsOf(format: PixelFormat): nat
  {
    match format
    case Red => 1
    case Rgb => 3
    case Rgba => 4
  }

  /** Exactly the counts 1, 3 and 4 are supported, and the selected upload
      format carries that many channels; distinct counts get distinct
      formats. */
  lemma FormatSelection(channels: int)
    ensures FormatFor(channels).Some? <==> channels in {1, 3, 4}
    ensures FormatFor(channels).Some? ==> ChannelsOf(FormatFor(channels).value.0) == channels
    ensures channels == 1 ==> FormatFor(channels) == Some((Red, R8))
    ensures channels == 3 ==> FormatFor(channels) == Some((Rgb, Rgb4))
    ensures channels == 4 ==> FormatFor(channels) == Some((Rgba, Rgba4))
  {
  }

  datatype Load = Load(texture: Texture, outcome: Outcome, calls: seq<Call>)

  const UnsupportedMessage: string := "Texture Error: Unsupported image format\n"

  function FailedMessage(path: string): string
  {
    "Texture failed to load at path: " + path + "\n"
  }

  /** `loadTexture(path)`: records the path first; a decoded image gets
      single-level storage, an upload of level 0 and mipmaps, in that order,
      with the formats its channel count selects (unset for an unsupported
      count, which is reported first); a failed decode is reported and
      touches no storage. */
  function LoadTexture(t: Texture, path: string, decoded: Option<Image>): (r: Load)
    ensures r.texture == Texture(t.id, path)
    ensures decoded.None? ==> r.outcome == DecodeFailed && r.calls == [Log(FailedMessage(path))]
    ensures decoded.Some? ==>
      var img := decoded.value;
      var formats := FormatFor(img.channels);
      && (formats.Some? ==> r.outcome == Loaded(formats.value.0, formats.value.1))
      && (formats.None? ==> r.outcome == UnsupportedFormat(img.channels))
      && (formats.Some? ==> |r.calls| == 3)
      && (formats.None? ==> |r.calls| == 4 && r.calls[0] == Log(UnsupportedMessage))
      && r.calls[|r.calls| - 3..] ==
           [ TextureStorage2D(t.id, 1, if formats.Some? then Some(formats.value.1) else None, img.width, img.height),
             TextureSubImage2D(t.id, 0, img.width, img.height, if formats.Some? then Some(formats.value.0) else None),
             GenerateTextureMipmap(t.id) ]
  {
    match decoded
    case None => Load(Texture(t.id, path), DecodeFailed, [Log(FailedMessage(path))])
    case Some(img) =>
      var formats := FormatFor(img.channels);
      var format := if formats.Some? then Some(formats.value.0) else None;
      var internalFormat := if formats.Some? then Some(formats.value.1) else None;
      var upload := [ TextureStorage2D(t.id, 1, internalFormat, img.width, img.height),
                      TextureSubImage2D(t.id, 0, img.width, img.height, format),
                      GenerateTextureMipmap(t.id) ];
      if formats.Some? then Load(Texture(t.id, path), Loaded(formats.value.0, formats.value.1), upload)
      else Load(Texture(t.id, path), UnsupportedFormat(img.channels), [Log(UnsupportedMessage)] + upload)
  }

  /** Storage is written exactly when the decode succeeded; only the
      unsupported-count and failed-decode paths log. */
  lemma LoadWritesStorageIffDecoded(t: Texture, path: string, decoded: Option<Image>)
    ensures var r := LoadTexture(t, path, decoded);
      && ((exists k :: 0 <= k < |r.calls| && IsTextureWrite(r.calls[k])) <==> decoded.Some?)
      && ((exists k :: 0 <= k < |r.calls| && IsLog(r.calls[k])) <==> !r.outcome.Loaded?)
  {
    var r := LoadTexture(t, path, decoded);
    if decoded.Some? {
      assert IsTextureWrite(r.calls[|r.calls| - 1]);
      if FormatFor(decoded.value.channels).None? {
        assert IsLog(r.calls[0]);
      } else {
        forall k | 0 <= k < |r.calls| ensures !IsLog(r.calls[k]) {
        }
      }
    } else {
      assert IsLog(r.calls[0]);
    }
  }

  /** `bind(index)`: the texture goes to unit `index`. The `int` index
      reaches `glBindTextureUnit` as a `GLuint`, so a negative one wraps
      around 2^32. */
  function Bind(t: Texture, index: int): (c: Call)
    ensures c.BindTextureUnit? && c.texture == t.id && c.unit < UintRange
    ensures 0 <= index < UintRange ==> c.unit == index
    ensures index < 0 && -index <= UintRange ==> c.unit == index + UintRange
  {
    BindTextureUnit(ToUnsigned(index), t.id)
  }
}
