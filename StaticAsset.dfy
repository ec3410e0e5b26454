/**
 * The editor's static files: the table from file extension to MIME type, the
 * four files registered by URI, and the bytes of the 200 response that
 * serves one of them.
 */
module StaticAssets {
  import opened Wrappers
  import opened JavaText
  import opened JavaNumbers

  /** mimeTypes: the extensions the editor knows how to serve. */
  const MimeTypes: map<string, string> := map[
    "css" := "text/css",
    "html" := "text/html",
    "ttf" := "font/ttf",
    "svg" := "image/svg+xml",
    "js" := "text/javascript"]

  datatype StaticAsset = StaticAsset(location: string, mimetype: string)

  /** `String.lastIndexOf`: the position of the last c in s, or None for Java's -1. */
  function LastIndexOf(s: string, c: char): (r: Option<nat>)
    ensures r.None? <==> c !in s
    ensures r.Some? ==> r.value < |s| && s[r.value] == c && c !in s[r.value + 1..]
  {
    if |s| == 0 then None
    else if s[|s| - 1] == c then Some(|s| - 1)
    else
      var r := LastIndexOf(s[..|s| - 1], c);
      assert r.Some? ==> s[r.value + 1..] == s[..|s| - 1][r.value + 1..] + [s[|s| - 1]];
      assert s == s[..|s| - 1] + [s[|s| - 1]];
      r
  }

  /**
   * determineMimeType: the extension is the text after the last '.', and it
   * must be one of MimeTypes; either failure is a thrown RuntimeException.
   */
  function DetermineMimeType(location: string): (r: Result<string>)
    ensures '.' !in location ==> r == Err("Filename must have extension")
    ensures r.Ok? ==> r.value in MimeTypes.Values
  {
    match LastIndexOf(location, '.')
    case None => Err("Filename must have extension")
    case Some(dot) =>
      var extension := location[dot + 1..];
      if extension in MimeTypes then Ok(MimeTypes[extension]) else Err("Unknown extension: " + extension)
  }

  /** The last '.' of base + "." + extension is the one before the extension. */
  lemma LastDotBeforeExtension(base: string, extension: string)
    requires '.' !in extension
    ensures LastIndexOf(base + "." + extension, '.') == Some(|base|)
  {
    var s := base + "." + extension;
    assert s[|base|] == '.';
  }

  /** A location's MIME type is decided by the text after its last dot alone. */
  lemma MimeTypeOfExtension(base: string, extension: string)
    requires '.' !in extension
    ensures DetermineMimeType(base + "." + extension)
         == if extension in MimeTypes then Ok(MimeTypes[extension]) else Err("Unknown extension: " + extension)
  {
    LastDotBeforeExtension(base, extension);
    assert (base + "." + extension)[|base| + 1..] == extension;
  }

  /** StaticAsset.make: an asset whose MIME type comes from its location, or the exception. */
  function Make(location: string): (r: Result<StaticAsset>)
    ensures r.Ok? <==> DetermineMimeType(location).Ok?
    ensures r.Ok? ==> r.value == StaticAsset(location, DetermineMimeType(location).value)
  {
    match DetermineMimeType(location)
    case Ok(mimetype) => Ok(StaticAsset(location, mimetype))
    case Err(e) => Err(e)
  }

  /** A location whose last dot is at `dot` gets the MIME type of the text after it. */
  lemma MimeTypeAt(location: string, dot: nat)
    requires dot < |location| && location[dot] == '.' && '.' !in location[dot + 1..]
    ensures DetermineMimeType(location)
         == if location[dot + 1..] in MimeTypes then Ok(MimeTypes[location[dot + 1..]])
            else Err("Unknown extension: " + location[dot + 1..])
  {
    LastDotBeforeExtension(location[..dot], location[dot + 1..]);
    assert location == location[..dot] + "." + location[dot + 1..];
  }

  /** The URIs make_static_assets registers. */
  const RegisteredUris: set<string> := {"/", "/stats.html", "/editor.js", "/editor.css"}

  /** Every asset in m was made from its own location. */
  predicate AllMade(m: map<string, StaticAsset>)
  {
    forall k :: k in m ==> Make(m[k].location) == Ok(m[k])
  }

  /** `assetMap.put(key, StaticAsset.make(location))`, where make may throw. */
  function Put(assets: Result<map<string, StaticAsset>>, key: string, location: string): (r: Result<map<string, StaticAsset>>)
    ensures r.Ok? <==> assets.Ok? && Make(location).Ok?
    ensures r.Ok? ==> r.value.Keys == assets.value.Keys + {key}
    ensures r.Ok? && AllMade(assets.value) ==> AllMade(r.value)
  {
    match assets
    case Err(e) => Err(e)
    case Ok(m) =>
      match Make(location)
      case Err(e) => Err(e)
      case Ok(asset) => Ok(m[key := asset])
  }

  /** make_static_assets: the four puts in order. */
  function MakeStaticAssets(): (r: Result<map<string, StaticAsset>>)
    ensures r.Ok? ==> AllMade(r.value)
    ensures r.Ok? ==> r.value.Keys == RegisteredUris
  {
    var assets := Ok(map[]);
    var assets := Put(assets, "/", "/ui/html/editor.html");
    var assets := Put(assets, "/stats.html", "/ui/html/stats.html");
    var assets := Put(assets, "/editor.js", "/ui/js/editor.js");
    Put(assets, "/editor.css", "/ui/css/editor.css")
  }

  lemma EditorHtmlIsKnown()
    ensures Make("/ui/html/editor.html") == Ok(StaticAsset("/ui/html/editor.html", "text/html"))
  {
    assert "/ui/html/editor.html"[16..] == "html";
    MimeTypeAt("/ui/html/editor.html", 15);
  }

  lemma StatsHtmlIsKnown()
    ensures Make("/ui/html/stats.html") == Ok(StaticAsset("/ui/html/stats.html", "text/html"))
  {
    assert "/ui/html/stats.html"[15..] == "html";
    MimeTypeAt("/ui/html/stats.html", 14);
  }

  lemma EditorJsIsKnown()
    ensures Make("/ui/js/editor.js") == Ok(StaticAsset("/ui/js/editor.js", "text/javascript"))
  {
    assert "/ui/js/editor.js"[14..] == "js";
    MimeTypeAt("/ui/js/editor.js", 13);
  }

  lemma EditorCssIsKnown()
    ensures Make("/ui/css/editor.css") == Ok(StaticAsset("/ui/css/editor.css", "text/css"))
  {
    assert "/ui/css/editor.css"[15..] == "css";
    MimeTypeAt("/ui/css/editor.css", 14);
  }

  /** Every registered location has a known extension, so the static initialiser never throws. */
  lemma StaticAssetsAreMade()
    ensures MakeStaticAssets().Ok?
  {
    EditorHtmlIsKnown();
    StatsHtmlIsKnown();
    EditorJsIsKnown();
    EditorCssIsKnown();
  }

  /**
   * is_asset: `static_assets.containsKey`. The map's keys are the registered
   * URIs, as IsAssetIsContainsKey shows, so the test is stated on them.
   */
  predicate IsAsset(uri: string)
  {
    uri in RegisteredUris
  }

  /** is_asset answers whether static_assets, once built, holds the URI. */
  lemma IsAssetIsContainsKey(uri: string)
    ensures MakeStaticAssets().Ok?
    ensures IsAsset(uri) <==> uri in MakeStaticAssets().value
  {
    StaticAssetsAreMade();
  }

  /** serve_asset looks its URI up in static_assets: an asset made from its own location. */
  function AssetFor(uri: string): (asset: StaticAsset)
    requires IsAsset(uri)
    ensures Make(asset.location) == Ok(asset)
    ensures asset.mimetype in MimeTypes.Values
  {
    IsAssetIsContainsKey(uri);
    MakeStaticAssets().value[uri]
  }

  /**
   * int_bytes: the UTF-8 byte pattern of n taken as a code point, one to four
   * bytes by range. n is an array length, so a non-negative int: `>>` on it
   * is division by a power of two, `& 0x3F` is the remainder modulo 64, and
   * each `(byte)` cast keeps the low eight bits.
   */
  function IntBytes(n: nat): (r: seq<Byte>)
    requires n < 0x8000_0000
    ensures |r| == if n < 0x80 then 1 else if n < 0x800 then 2 else if n < 0x1_0000 then 3 else 4
  {
    if n < 0x80 then
      [ToOctet(n)]
    else if n < 0x800 then
      [ToOctet(BitOr(0xC0, n / 0x40)), ToOctet(BitOr(0x80, n % 0x40))]
    else if n < 0x1_0000 then
      [ToOctet(BitOr(0xE0, n / 0x1000)), ToOctet(BitOr(0x80, n / 0x40 % 0x40)), ToOctet(BitOr(0x80, n % 0x40))]
    else
      [ToOctet(BitOr(0xF0, n / 0x4_0000)), ToOctet(BitOr(0x80, n / 0x1000 % 0x40)),
       ToOctet(BitOr(0x80, n / 0x40 % 0x40)), ToOctet(BitOr(0x80, n % 0x40))]
  }

  /** A continuation byte carries the prefix 10 and six payload bits. */
  lemma ContinuationByte(v: nat)
    ensures ToOctet(BitOr(0x80, v % 0x40)) == 0x80 + v % 0x40
  {
    assert Pow2(7) == 0x80;
    ByteOfHighMaskOr(0x80, 7, v % 0x40);
    ModUnique(v % 0x40, 0x80, 0, v % 0x40);
  }

  /** The lead bytes: the prefix 110, 1110 or 11110 plus the remaining high bits. */
  lemma LeadBytes(v: nat)
    ensures ToOctet(BitOr(0xC0, v)) == 0xC0 + v % 0x40
    ensures ToOctet(BitOr(0xE0, v)) == 0xE0 + v % 0x20
    ensures ToOctet(BitOr(0xF0, v)) == 0xF0 + v % 0x10
  {
    ByteOfHighMaskOr(0xC0, 6, v);
    ByteOfHighMaskOr(0xE0, 5, v);
    ByteOfHighMaskOr(0xF0, 4, v);
  }

  /** Every byte after the first has the continuation form 10xxxxxx. */
  lemma IntBytesContinuation(n: nat)
    requires n < 0x8000_0000
    ensures forall i :: 1 <= i < |IntBytes(n)| ==> IntBytes(n)[i] / 0x40 == 2
  {
    ContinuationByte(n);
    ContinuationByte(n / 0x40);
    ContinuationByte(n / 0x1000);
  }

  /** The lead byte of a two-, three- or four-byte pattern, while the high bits fit the prefix. */
  lemma LeadByteValue(n: nat)
    requires 0x80 <= n < 0x20_0000
    ensures 0x80 <= n < 0x800 ==> IntBytes(n)[0] == 0xC0 + n / 0x40
    ensures 0x800 <= n < 0x1_0000 ==> IntBytes(n)[0] == 0xE0 + n / 0x1000
    ensures 0x1_0000 <= n ==> IntBytes(n)[0] == 0xF0 + n / 0x4_0000
  {
    if n < 0x800 {
      LeadBytes(n / 0x40);
      ModUnique(n / 0x40, 0x40, 0, n / 0x40);
    } else if n < 0x1_0000 {
      LeadBytes(n / 0x1000);
      ModUnique(n / 0x1000, 0x20, 0, n / 0x1000);
    } else {
      LeadBytes(n / 0x4_0000);
      ModUnique(n / 0x4_0000, 0x10, 0, n / 0x4_0000);
    }
  }

  /**
   * The first byte is 0xxxxxxx, 110xxxxx, 1110xxxx or 11110xxx by length;
   * the four-byte prefix survives the `(byte)` cast only below 2^21.
   */
  lemma IntBytesLead(n: nat)
    requires n < 0x8000_0000
    ensures n < 0x80 ==> IntBytes(n)[0] < 0x80
    ensures 0x80 <= n < 0x800 ==> IntBytes(n)[0] / 0x20 == 0x06
    ensures 0x800 <= n < 0x1_0000 ==> IntBytes(n)[0] / 0x10 == 0x0E
    ensures 0x1_0000 <= n < 0x20_0000 ==> IntBytes(n)[0] / 0x08 == 0x1E
  {
    if 0x80 <= n < 0x20_0000 {
      LeadByteValue(n);
    }
  }

  /**
   * From 2^21 on, the high bits of n spill into the lead byte: once bit 21
   * of n is set (as for n == 2^21) the lead byte reads 11111xxx.
   */
  lemma IntBytesLeadOverflow(n: nat)
    requires 0x20_0000 <= n < 0x8000_0000
    ensures IntBytes(n)[0] == 0xF0 + n / 0x4_0000 % 0x10
    ensures n / 0x4_0000 % 0x10 >= 8 ==> IntBytes(n)[0] / 0x08 == 0x1F
  {
    var lead := IntBytes(n)[0];
    assert lead == ToOctet(BitOr(0xF0, n / 0x4_0000));
    LeadBytes(n / 0x4_0000);
    if n / 0x4_0000 % 0x10 >= 8 {
      ModUnique(lead, 0x08, 0x1F, lead - 0xF8);
    }
  }

  /** The value a UTF-8 decoder reads from one encoded code point. */
  function CodePoint(b: seq<Byte>): int
    requires 1 <= |b| <= 4
  {
    var low: int := b[|b| - 1] % 0x40;
    if |b| == 1 then b[0]
    else if |b| == 2 then (b[0] as int) % 0x20 * 0x40 + low
    else if |b| == 3 then (b[0] as int) % 0x10 * 0x1000 + (b[1] as int) % 0x40 * 0x40 + low
    else (b[0] as int) % 0x08 * 0x4_0000 + (b[1] as int) % 0x40 * 0x1000 + (b[2] as int) % 0x40 * 0x40 + low
  }

  /** Each continuation byte read back as its six payload bits. */
  lemma ContinuationPayload(v: nat)
    ensures ToOctet(BitOr(0x80, v % 0x40)) % 0x40 == v % 0x40
  {
    ContinuationByte(v);
    ModUnique(0x80 + v % 0x40, 0x40, 2, v % 0x40);
  }

  lemma DecodeTwo(n: nat)
    requires 0x80 <= n < 0x800
    ensures CodePoint(IntBytes(n)) == n
  {
    LeadByteValue(n);
    ModUnique(0xC0 + n / 0x40, 0x20, 6, n / 0x40);
    ContinuationPayload(n);
  }

  lemma DecodeThree(n: nat)
    requires 0x800 <= n < 0x1_0000
    ensures CodePoint(IntBytes(n)) == n
  {
    var a, c0 := n / 0x40, n % 0x40;
    var b, c1 := a / 0x40, a % 0x40;
    ModUnique(n, 0x1000, b, 0x40 * c1 + c0);
    var bytes := IntBytes(n);
    assert bytes[0] % 0x10 == b by {
      LeadByteValue(n);
      ModUnique(0xE0 + b, 0x10, 14, b);
    }
    assert bytes[1] % 0x40 == c1 by {
      ContinuationPayload(a);
    }
    assert bytes[2] % 0x40 == c0 by {
      ContinuationPayload(n);
    }
  }

  lemma DecodeFour(n: nat)
    requires 0x1_0000 <= n < 0x20_0000
    ensures CodePoint(IntBytes(n)) == n
  {
    var a, c0 := n / 0x40, n % 0x40;
    var b, c1 := a / 0x40, a % 0x40;
    var c, c2 := b / 0x40, b % 0x40;
    ModUnique(n, 0x1000, b, 0x40 * c1 + c0);
    ModUnique(n, 0x4_0000, c, 0x1000 * c2 + 0x40 * c1 + c0);
    var bytes := IntBytes(n);
    assert bytes[0] % 0x08 == c by {
      LeadByteValue(n);
      ModUnique(0xF0 + c, 0x08, 30, c);
    }
    assert bytes[1] % 0x40 == c2 by {
      ContinuationPayload(b);
    }
    assert bytes[2] % 0x40 == c1 by {
      ContinuationPayload(a);
    }
    assert bytes[3] % 0x40 == c0 by {
      ContinuationPayload(n);
    }
  }

  /** Decoding int_bytes gives n back for every n that fits a four-byte pattern. */
  lemma IntBytesDecode(n: nat)
    requires n < 0x20_0000
    ensures CodePoint(IntBytes(n)) == n
  {
    if n < 0x80 {
    } else if n < 0x800 {
      DecodeTwo(n);
    } else if n < 0x1_0000 {
      DecodeThree(n);
    } else {
      DecodeFour(n);
    }
  }
}

module StaticAssetResponses {
  import opened Wrappers
  import opened JavaText
  import opened StaticAssets

  const Line200Ok: seq<Byte> := Ascii("HTTP/1.1 200 OK")
  const ContentType: seq<Byte> := Ascii("Content-Type: ")
  const ContentLength: seq<Byte> := Ascii("Content-Length: ")
  const CharsetUtf8: seq<Byte> := Ascii("; charset=utf-8")
  const Eol: seq<Byte> := [0x0D, 0x0A]

  lemma MimeTypesAreAscii(mimetype: string)
    requires mimetype in MimeTypes.Values
    ensures IsAscii(mimetype)
  {
  }

  /**
   * The bytes in front of the Content-Length value: the status line and the
   * Content-Type header with its charset.
   */
  function Head(mimetype: string): (h: seq<Byte>)
    requires mimetype in MimeTypes.Values
  {
    MimeTypesAreAscii(mimetype);
    Line200Ok + Eol + ContentType + Ascii(mimetype) + CharsetUtf8 + Eol + ContentLength
  }

  /** A 200 response whose Content-Length header carries the bytes `field`. */
  function Response(mimetype: string, field: seq<Byte>, data: seq<Byte>): seq<Byte>
    requires mimetype in MimeTypes.Values
  {
    Head(mimetype) + field + Eol + Eol + data
  }

  /** The Content-Length value of a response, given the length of its body. */
  function LengthField(mimetype: string, response: seq<Byte>, dataLength: nat): seq<Byte>
    requires mimetype in MimeTypes.Values
    requires |Head(mimetype)| + 4 + dataLength <= |response|
  {
    response[|Head(mimetype)|..|response| - 4 - dataLength]
  }

  /** The field can be read back out of any response, so it determines the response. */
  lemma LengthFieldOfResponse(mimetype: string, field: seq<Byte>, data: seq<Byte>)
    requires mimetype in MimeTypes.Values
    ensures LengthField(mimetype, Response(mimetype, field, data), |data|) == field
  {
    var r := Response(mimetype, field, data);
    assert r == Head(mimetype) + field + (Eol + Eol + data);
  }

  /** The response writeResourceResponse builds: the Content-Length value is int_bytes of the length. */
  function WrittenResponse(asset: StaticAsset, data: seq<Byte>): seq<Byte>
    requires asset.mimetype in MimeTypes.Values && |data| < 0x8000_0000
  {
    Response(asset.mimetype, IntBytes(|data|), data)
  }

  /** The response with the Content-Length value written as decimal digits. */
  function IntendedResponse(asset: StaticAsset, data: seq<Byte>): seq<Byte>
    requires asset.mimetype in MimeTypes.Values
  {
    DecimalIsAscii(|data|);
    Response(asset.mimetype, Ascii(Decimal(|data|)), data)
  }

  /**
   * writeResourceResponse: appends the status line, the headers and the data
   * to a buffer; a missing resource (the NullPointerException it catches)
   * writes nothing.
   */
  method WriteResourceResponse(asset: StaticAsset, data: Option<seq<Byte>>) returns (response: Option<seq<Byte>>)
    requires asset.mimetype in MimeTypes.Values
    requires data.Some? ==> |data.value| < 0x8000_0000
    ensures data.None? ==> response.None?
    ensures data.Some? ==> response == Some(WrittenResponse(asset, data.value))
  {
    if data.None? {
      return None;
    }
    var bytes := data.value;
    MimeTypesAreAscii(asset.mimetype);
    var buffer: seq<Byte> := [];
    buffer := buffer + Line200Ok;
    assert buffer == Line200Ok;
    buffer := buffer + Eol;
    buffer := buffer + ContentType;
    buffer := buffer + Ascii(asset.mimetype);
    buffer := buffer + CharsetUtf8;
    buffer := buffer + Eol;
    buffer := buffer + ContentLength;
    buffer := buffer + IntBytes(|bytes|);
    buffer := buffer + Eol;
    buffer := buffer + Eol;
    buffer := buffer + bytes;
    response := Some(buffer);
  }

  /** Decimal text of a number of ten or more has at least two digits. */
  lemma DecimalLength(n: nat)
    ensures n >= 10 ==> |Decimal(n)| >= 2
    ensures forall i :: 0 <= i < |Decimal(n)| ==> IsDigit(Decimal(n)[i])
  {
  }

  /** int_bytes of a length is never its decimal text, whatever the length. */
  lemma IntBytesAreNotDecimal(n: nat)
    requires n < 0x8000_0000
    ensures IntBytes(n) != Ascii((DecimalIsAscii(n); Decimal(n)))
  {
    DecimalIsAscii(n);
    DecimalLength(n);
    var written := IntBytes(n);
    var digits := Ascii(Decimal(n));
    if n < 10 {
      assert digits[0] == '0' as int + n;
    } else if n >= 0x80 {
      IntBytesLead(n);
      LeadBytes(n / 0x4_0000);
      assert written[0] >= 0xC0;
      assert digits[0] <= '9' as int;
    }
  }

  /** As written, the Content-Length value read back from a response is not the body length in decimal. */
  lemma WrittenContentLengthIsNotDecimal(asset: StaticAsset, data: seq<Byte>)
    requires asset.mimetype in MimeTypes.Values && |data| < 0x8000_0000
    ensures Text(LengthField(asset.mimetype, WrittenResponse(asset, data), |data|)) != Decimal(|data|)
  {
    MimeTypesAreAscii(asset.mimetype);
    LengthFieldOfResponse(asset.mimetype, IntBytes(|data|), data);
    IntBytesAreNotDecimal(|data|);
    DecimalIsAscii(|data|);
    TextOfAscii(Decimal(|data|));
    if Text(IntBytes(|data|)) == Decimal(|data|) {
      TextInjective(IntBytes(|data|), Ascii(Decimal(|data|)));
    }
  }

  /** Nine bytes of data, for one, are announced by a single TAB byte instead of "9". */
  lemma NineByteBodyIsAnnouncedAsTab(asset: StaticAsset, data: seq<Byte>)
    requires asset.mimetype in MimeTypes.Values && |data| == 9
    ensures LengthField(asset.mimetype, WrittenResponse(asset, data), 9) == [0x09]
  {
    MimeTypesAreAscii(asset.mimetype);
    LengthFieldOfResponse(asset.mimetype, IntBytes(9), data);
  }

  /** With decimal digits, the Content-Length value read back is the body length. */
  lemma IntendedContentLengthReadsBack(asset: StaticAsset, data: seq<Byte>)
    requires asset.mimetype in MimeTypes.Values
    ensures ParseDecimal(Text(LengthField(asset.mimetype, IntendedResponse(asset, data), |data|))) == |data|
  {
    MimeTypesAreAscii(asset.mimetype);
    DecimalIsAscii(|data|);
    LengthFieldOfResponse(asset.mimetype, Ascii(Decimal(|data|)), data);
    TextOfAscii(Decimal(|data|));
    DecimalRoundTrip(|data|);
  }
}
