/**
 * The satellite image route (app/api/satellite/image/route.ts): the channel
 * table, the request, and how the downloaded bytes are recognised: a PNG is
 * passed through, a ZIP archive is searched for an image entry, anything
 * else is refused.  The clock, the request, the query encoding and the ZIP
 * reader are parameters.
 */
module SatelliteImageRoute {
  import opened Js
  import opened Text
  import opened KmaTime

  newtype Byte = b: int | 0 <= b < 256

  // -------------------------------------------------------------- channels

  /** `channelMap`'s entries: the processing level and the optional channel or data name. */
  datatype Channel = Channel(lvl: string, chn: Option<string>, dat: Option<string>)

  const DefaultType := "ir105"

  /** `channelMap[type]`: three known types, nothing for any other. */
  function ChannelOf(satType: string): (c: Option<Channel>)
    ensures c.Some? <==> satType in {"vi006", "ir105", "cld"}
    ensures c.Some? ==> (c.value.chn.Some? <==> satType != "cld") && (c.value.dat.Some? <==> satType == "cld")
    ensures c.Some? ==> c.value.lvl == (if satType == "cld" then "l2" else "l1b")
  {
    match satType
    case "vi006" => Some(Channel("l1b", Some("vi006"), None))
    case "ir105" => Some(Channel("l1b", Some("ir105"), None))
    case "cld" => Some(Channel("l2", None, Some("cld")))
    case _ => None
  }

  /** The query: the five fixed parameters, then `chn` and `dat` only when the channel names them. */
  function ImageQuery(c: Channel, tm: string, serviceKey: string): (q: seq<(string, string)>)
    ensures |q| == 5 + (if c.chn.Some? then 1 else 0) + (if c.dat.Some? then 1 else 0)
    ensures q[..5] == [("typ", "img"), ("lvl", c.lvl), ("are", "ko"), ("tm", tm), ("authKey", serviceKey)]
    ensures c.chn.Some? ==> q[5] == ("chn", c.chn.value)
    ensures c.dat.Some? ==> q[|q| - 1] == ("dat", c.dat.value)
    ensures forall i :: 5 <= i < |q| ==> q[i].0 in {"chn", "dat"}
  {
    var base := [("typ", "img"), ("lvl", c.lvl), ("are", "ko"), ("tm", tm), ("authKey", serviceKey)];
    var withChn := if c.chn.Some? then base + [("chn", c.chn.value)] else base;
    var q := if c.dat.Some? then withChn + [("dat", c.dat.value)] else withChn;
    assert q[..5] == base;
    q
  }

  // ------------------------------------------------------------ signatures

  /** The eight-byte PNG file signature (section 3.1 of RFC 2083). */
  const PngSignature: seq<Byte> := [0x89, 0x50, 0x4E, 0x47, 0x0D, 0x0A, 0x1A, 0x0A]

  /** The local file header signature 0x04034b50 (section 4.3.7 of PKWARE APPNOTE.TXT). */
  const LocalFileHeaderSignature: int := 0x04034b50

  /** Four bytes read as a little-endian unsigned 32-bit number, as ZIP stores them. */
  function LittleEndian32(b: seq<Byte>): (n: int)
    requires |b| == 4
    ensures 0 <= n < 0x1_0000_0000
  {
    b[0] as int + 0x100 * b[1] as int + 0x1_0000 * b[2] as int + 0x100_0000 * b[3] as int
  }

  /** `isPNG`: the body starts with the first four bytes of the PNG signature. */
  predicate IsPng(bytes: seq<Byte>)
  {
    |bytes| >= 4 && bytes[0] == 0x89 && bytes[1] == 0x50 && bytes[2] == 0x4E && bytes[3] == 0x47
  }

  /** `isZIP`: the body starts with the bytes 50 4B 03 04. */
  predicate IsZip(bytes: seq<Byte>)
  {
    |bytes| >= 4 && bytes[0] == 0x50 && bytes[1] == 0x4B && bytes[2] == 0x03 && bytes[3] == 0x04
  }

  /**
   * The test recognises exactly the bodies that open like a PNG file, so
   * every complete PNG file passes it.
   */
  lemma IsPngMatchesSignature(bytes: seq<Byte>)
    ensures IsPng(bytes) <==> |bytes| >= 4 && bytes[..4] == PngSignature[..4]
    ensures PngSignature <= bytes ==> IsPng(bytes)
  {
    if |bytes| >= 4 && bytes[..4] == PngSignature[..4] {
      assert bytes[0] == bytes[..4][0] && bytes[3] == bytes[..4][3];
      assert bytes[1] == bytes[..4][1] && bytes[2] == bytes[..4][2];
    }
  }

  /** The test recognises exactly the bodies that start with a local file header signature. */
  lemma IsZipMatchesSignature(bytes: seq<Byte>)
    ensures IsZip(bytes) <==> |bytes| >= 4 && LittleEndian32(bytes[..4]) == LocalFileHeaderSignature
  {
    if |bytes| >= 4 {
      var b := bytes[..4];
      if LittleEndian32(b) == LocalFileHeaderSignature {
        assert b[0] as int == LittleEndian32(b) % 0x100;
        assert b[1] as int == LittleEndian32(b) / 0x100 % 0x100;
        assert b[2] as int == LittleEndian32(b) / 0x1_0000 % 0x100;
        assert b[3] as int == LittleEndian32(b) / 0x100_0000;
      }
    }
  }

  /** No body is both: the first byte tells them apart. */
  lemma SignaturesExclusive(bytes: seq<Byte>)
    ensures !(IsPng(bytes) && IsZip(bytes))
    ensures IsPng(bytes) || IsZip(bytes) ==> |bytes| >= 4 && (IsPng(bytes) <==> bytes[0] == 0x89)
  {
  }

  // ------------------------------------------------------------ zip entries

  datatype ZipEntry = ZipEntry(name: string, data: seq<Byte>)

  predicate IsPngName(name: string) { EndsWith(ToLower(name), ".png") }

  /** A `.png` entry whose name mentions neither "thumbnail" nor "thumb". */
  predicate IsMainPng(name: string)
  {
    var lower := ToLower(name);
    EndsWith(lower, ".png") && !Contains(lower, "thumbnail") && !Contains(lower, "thumb")
  }

  predicate IsJpgName(name: string)
  {
    EndsWith(ToLower(name), ".jpg") || EndsWith(ToLower(name), ".jpeg")
  }

  /** The "thumbnail" test adds nothing: a name containing it also contains "thumb". */
  lemma MainPngIgnoresThumbnail(name: string)
    ensures IsMainPng(name) <==> IsPngName(name) && !Contains(ToLower(name), "thumb")
  {
    if Contains(ToLower(name), "thumbnail") {
      ContainsPrefixOfPattern(ToLower(name), "thumbnail", "thumb");
    }
  }

  function Names(entries: seq<ZipEntry>): (names: seq<string>)
    ensures |names| == |entries| && forall i :: 0 <= i < |entries| ==> names[i] == entries[i].name
  {
    if |entries| == 0 then [] else [entries[0].name] + Names(entries[1..])
  }

  /** Which entry is extracted. */
  datatype Pick = PngAt(index: nat) | JpgAt(index: nat) | NoImage

  /**
   * The first main PNG, else the first PNG, else the first JPEG; with none
   * of them the archive has no image.
   */
  function PickEntry(names: seq<string>): (p: Pick)
    ensures p.PngAt? <==> exists i :: 0 <= i < |names| && IsPngName(names[i])
    ensures p.PngAt? ==> p.index < |names| && IsPngName(names[p.index])
    ensures p.PngAt? && (exists i :: 0 <= i < |names| && IsMainPng(names[i])) ==>
      IsMainPng(names[p.index]) && forall j :: 0 <= j < p.index ==> !IsMainPng(names[j])
    ensures p.PngAt? && (forall i :: 0 <= i < |names| ==> !IsMainPng(names[i])) ==>
      forall j :: 0 <= j < p.index ==> !IsPngName(names[j])
    ensures p.JpgAt? ==> p.index < |names| && IsJpgName(names[p.index]) && forall j :: 0 <= j < p.index ==> !IsJpgName(names[j])
    ensures p.NoImage? <==> forall i :: 0 <= i < |names| ==> !IsPngName(names[i]) && !IsJpgName(names[i])
  {
    var main := FindIndex(names, IsMainPng);
    if main >= 0 then PngAt(main)
    else
      var png := FindIndex(names, IsPngName);
      if png >= 0 then PngAt(png)
      else
        var jpg := FindIndex(names, IsJpgName);
        if jpg >= 0 then JpgAt(jpg) else NoImage
  }

  // ----------------------------------------------------------------- route

  /** How the download ended. */
  datatype ImageReply = HttpFailure(status: int) | Threw(message: string) | Body(contentType: Option<string>, bytes: seq<Byte>)

  /** What the route adds to an error: the archive's entry names or the upstream content type. */
  datatype Detail = NoDetail | Files(names: seq<string>) | UpstreamType(contentType: Option<string>)

  datatype ImageResponse =
    | Image(contentType: string, body: seq<Byte>)
    | Failure(status: int, error: string, detail: Detail)

  const NoKey := "KMA_SERVICE_KEY env not set"
  const InvalidType := "Invalid satellite type"
  const NoImageInZip := "ZIP 파일에 이미지가 없습니다"
  const UnzipFailed := "ZIP 압축 해제 실패: "
  const Unsupported := "지원하지 않는 파일 형식입니다"

  function Status(r: ImageResponse): int
  {
    if r.Failure? then r.status else 200
  }

  /**
   * What a downloaded body becomes: a PNG unchanged; a ZIP archive the
   * chosen entry, its entry list when it has no image, or the reader's
   * error; anything else an unsupported-format error.
   */
  function FromBody(contentType: Option<string>, bytes: seq<Byte>, unzip: seq<Byte> -> Result<seq<ZipEntry>>): (r: ImageResponse)
    ensures IsPng(bytes) ==> r == Image("image/png", bytes)
    ensures IsZip(bytes) && unzip(bytes).Err? ==> r == Failure(500, UnzipFailed + unzip(bytes).message, NoDetail)
    ensures IsZip(bytes) && unzip(bytes).Ok? ==>
      var entries := unzip(bytes).value;
      var pick := PickEntry(Names(entries));
      (pick.PngAt? ==> r == Image("image/png", entries[pick.index].data))
      && (pick.JpgAt? ==> r == Image("image/jpeg", entries[pick.index].data))
      && (pick.NoImage? ==> r == Failure(500, NoImageInZip, Files(Names(entries))))
    ensures !IsPng(bytes) && !IsZip(bytes) ==> r == Failure(500, Unsupported, UpstreamType(contentType))
  {
    if IsPng(bytes) then Image("image/png", bytes)
    else if IsZip(bytes) then
      match unzip(bytes) {
        case Err(message) => Failure(500, UnzipFailed + message, NoDetail)
        case Ok(entries) =>
          match PickEntry(Names(entries)) {
            case PngAt(i) => Image("image/png", entries[i].data)
            case JpgAt(i) => Image("image/jpeg", entries[i].data)
            case NoImage => Failure(500, NoImageInZip, Files(Names(entries)))
          }
      }
    else Failure(500, Unsupported, UpstreamType(contentType))
  }

  /** The `tm` requested: thirty minutes back, in UTC, minutes floored to ten. */
  function ImageTm(nowMs: int, utc: int -> Clock): (tm: string)
    ensures forall k :: 0 <= k < |tm| ==> IsDigit(tm[k])
  {
    Stamp(utc(nowMs - 30 * MinuteMs), 10)
  }

  /**
   * `GET`: the type defaults to "ir105"; no key is a 500 before the type is
   * looked at; an unknown type is a 400; an HTTP failure passes its status
   * on; a thrown error is a 500; otherwise the body decides.
   */
  method Get(satType: Option<string>, serviceKey: Option<string>, nowMs: int, utc: int -> Clock,
             fetch: string -> ImageReply, formEncode: seq<(string, string)> -> string,
             unzip: seq<Byte> -> Result<seq<ZipEntry>>)
    returns (response: ImageResponse)
    ensures OrStr(serviceKey, "") == "" ==> response == Failure(500, NoKey, NoDetail)
    ensures OrStr(serviceKey, "") != "" && ChannelOf(OrStr(satType, DefaultType)).None? ==>
      response == Failure(400, InvalidType, NoDetail)
    ensures OrStr(serviceKey, "") != "" && ChannelOf(OrStr(satType, DefaultType)).Some? ==>
      var url := "https://apihub.kma.go.kr/api/typ01/url/sat_file_down2.php?"
                 + formEncode(ImageQuery(ChannelOf(OrStr(satType, DefaultType)).value, ImageTm(nowMs, utc), serviceKey.value));
      match fetch(url)
      case HttpFailure(status) => response == Failure(status, "Satellite API error: " + IntToString(status), NoDetail)
      case Threw(message) => response == Failure(500, OrStr(Some(message), "Unknown error"), NoDetail)
      case Body(contentType, bytes) => response == FromBody(contentType, bytes, unzip)
  {
    var t := OrStr(satType, DefaultType);
    if OrStr(serviceKey, "") == "" {
      return Failure(500, NoKey, NoDetail);
    }
    var config := ChannelOf(t);
    if config.None? {
      return Failure(400, InvalidType, NoDetail);
    }
    var params := ImageQuery(config.value, ImageTm(nowMs, utc), serviceKey.value);
    var url := "https://apihub.kma.go.kr/api/typ01/url/sat_file_down2.php?" + formEncode(params);
    var reply := fetch(url);
    match reply {
      case HttpFailure(status) =>
        response := Failure(status, "Satellite API error: " + IntToString(status), NoDetail);
      case Threw(message) =>
        response := Failure(500, OrStr(Some(message), "Unknown error"), NoDetail);
      case Body(contentType, bytes) =>
        response := FromBody(contentType, bytes, unzip);
    }
  }
}
