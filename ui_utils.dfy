/** The helpers of the Streamlit front end (src/ui/utils.py): recognising
    image files by extension, assembling a message content from images and
    a prompt, and turning an image into a `data:` URL (section 3 of
    RFC 2397) around its base64 encoding (section 4 of RFC 4648), scaled so
    that its longer side is at most 720.

    Opening, converting and saving an image are library calls: the loaded
    image is a parameter (its size and its `format` attribute, None when
    opening failed) and saving is the parameter `save`, giving the bytes
    written or None when saving failed. */
module UiUtils {
  import opened Common
  import opened ApiUtils

  // ---------------------------------------------------------------------
  // File extensions
  // ---------------------------------------------------------------------

  /** `s.rfind(c)`: the last index of `c`, or -1. */
  function RFind(s: string, c: char): (r: int)
    ensures -1 <= r < |s|
    ensures r >= 0 ==> s[r] == c
    ensures forall k :: r < k < |s| ==> s[k] != c
  {
    if |s| == 0 then -1
    else if s[|s| - 1] == c then |s| - 1
    else RFind(s[..|s| - 1], c)
  }

  /** `os.path.splitext(p)[1]` on POSIX paths: from the last dot of the
      final component to the end, provided something other than a dot
      precedes that dot in the component; otherwise empty. */
  function SplitExt(p: string): (ext: string)
    ensures ext == [] || (ext[0] == '.' && EndsWith(p, ext))
    ensures NoChar(ext, '/') && (ext != [] ==> NoChar(ext[1..], '.'))
  {
    var sepIndex := RFind(p, '/');
    var dotIndex := RFind(p, '.');
    if dotIndex > sepIndex && exists k | sepIndex + 1 <= k < dotIndex :: p[k] != '.' then
      var ext := p[dotIndex..];
      assert ext[1..] == p[dotIndex + 1..];
      assert forall k :: 0 <= k < |ext| ==> ext[k] == p[dotIndex + k];
      ext
    else []
  }

  /** `get_file_extension`: the extension, lower-cased. */
  function GetFileExtension(filename: string): (r: string)
    ensures r == [] || r[0] == '.'
    ensures |r| == |SplitExt(filename)|
  {
    Lower(SplitExt(filename))
  }

  /** A final component `stem.ext`, whose stem has a character other than
      a dot and whose extension has no dot, has extension `.ext`,
      lower-cased, whatever directories come before it ("photo.PNG" gives
      ".png", "a.tar.gz" gives ".gz"). */
  lemma ExtensionOfNamedFile(dir: string, stem: string, ext: string)
    requires dir == [] || dir[|dir| - 1] == '/'
    requires NoChar(stem, '/') && exists k :: 0 <= k < |stem| && stem[k] != '.'
    requires NoChar(ext, '.') && NoChar(ext, '/')
    ensures GetFileExtension(dir + stem + "." + ext) == Lower("." + ext)
  {
    var p := dir + stem + "." + ext;
    var dot := |dir| + |stem|;
    assert p[dot] == '.';
    assert forall k :: dot < k < |p| ==> p[k] == ext[k - dot - 1];
    assert RFind(p, '.') == dot by {
      RFindLast(p, '.', dot);
    }
    assert forall k :: |dir| <= k < dot ==> p[k] == stem[k - |dir|];
    assert RFind(p, '/') == |dir| - 1 by {
      assert forall k :: |dir| <= k < |p| ==> p[k] != '/';
      if dir != [] {
        assert p[|dir| - 1] == '/';
        RFindLast(p, '/', |dir| - 1);
      }
    }
    var w :| 0 <= w < |stem| && stem[w] != '.';
    assert p[|dir| + w] != '.';
    assert p[dot..] == "." + ext;
  }

  /** A final component made of dots and then a dot-free name, like
      ".bashrc", "..x" or a name with no dot at all, has no extension. */
  lemma DotfileHasNoExtension(dir: string, dots: string, name: string)
    requires dir == [] || dir[|dir| - 1] == '/'
    requires forall i :: 0 <= i < |dots| ==> dots[i] == '.'
    requires NoChar(name, '.') && NoChar(name, '/')
    ensures GetFileExtension(dir + dots + name) == []
  {
    var p := dir + dots + name;
    var start := |dir| + |dots|;
    assert forall k :: |dir| <= k < start ==> p[k] == '.';
    assert forall k :: start <= k < |p| ==> p[k] == name[k - start];
    assert RFind(p, '/') == |dir| - 1 by {
      if dir != [] {
        assert p[|dir| - 1] == '/';
        RFindLast(p, '/', |dir| - 1);
      }
    }
    var dotIndex := RFind(p, '.');
    if dots != [] {
      RFindLast(p, '.', start - 1);
      assert !exists k | |dir| <= k < dotIndex :: p[k] != '.';
    } else {
      assert dotIndex <= |dir| - 1;
    }
    assert SplitExt(p) == [];
  }

  /** A bare upload name as the browser sends it: "photo.PNG" is a PNG file. */
  lemma PhotoPngExtension()
    ensures GetFileExtension("photo.PNG") == ".png"
  {
    PhotoPngParts();
    ExtensionOfNamedFile([], "photo", "PNG");
    var png := Lower(".PNG");
    assert png[0] == '.' && png[1] == 'p' && png[2] == 'n' && png[3] == 'g';
  }

  lemma PhotoPngParts()
    ensures "photo"[0] != '.' && NoChar("photo", '/')
    ensures NoChar("PNG", '.') && NoChar("PNG", '/')
    ensures [] + "photo" + "." + "PNG" == "photo.PNG"
  {
  }

  /** Only the last suffix counts: "a.tar.gz" is a ".gz" file. */
  lemma TarGzExtension()
    ensures GetFileExtension("a.tar.gz") == ".gz"
  {
    TarGzParts();
    ExtensionOfNamedFile([], "a.tar", "gz");
    var gz := Lower(".gz");
    assert gz[0] == '.' && gz[1] == 'g' && gz[2] == 'z';
  }

  lemma TarGzParts()
    ensures "a.tar"[0] != '.' && NoChar("a.tar", '/')
    ensures NoChar("gz", '.') && NoChar("gz", '/')
    ensures [] + "a.tar" + "." + "gz" == "a.tar.gz"
  {
  }

  /** A bare dotfile such as ".bashrc" has no extension. */
  lemma BashrcExtension()
    ensures GetFileExtension(".bashrc") == []
  {
    BashrcParts();
    DotfileHasNoExtension([], ".", "bashrc");
  }

  lemma BashrcParts()
    ensures forall i :: 0 <= i < |"."| ==> "."[i] == '.'
    ensures NoChar("bashrc", '.') && NoChar("bashrc", '/')
    ensures [] + "." + "bashrc" == ".bashrc"
  {
  }

  /** A name without any dot has no extension. */
  lemma NoDotNoExtension(p: string)
    requires NoChar(p, '.')
    ensures GetFileExtension(p) == []
  {
  }

  /** The last occurrence of `c` is at `i` when `s[i] == c` and no later
      character is `c`. */
  lemma {:induction false} RFindLast(s: string, c: char, i: nat)
    requires i < |s| && s[i] == c
    requires forall k :: i < k < |s| ==> s[k] != c
    ensures RFind(s, c) == i
    decreases |s|
  {
    if i < |s| - 1 {
      RFindLast(s[..|s| - 1], c, i);
    }
  }

  /** `is_image`: the extension is one of the configured image extensions. */
  predicate IsImage(filename: string, imageExtensions: set<string>)
  {
    GetFileExtension(filename) in imageExtensions
  }

  /** An uploaded file; only its name is looked at. */
  datatype UploadedFile = UploadedFile(name: string)

  /** `all_images`: every uploaded file is an image; true for none. */
  function AllImages(files: seq<UploadedFile>, imageExtensions: set<string>): (r: bool)
    ensures r <==> forall i :: 0 <= i < |files| ==> IsImage(files[i].name, imageExtensions)
  {
    if |files| == 0 then true
    else IsImage(files[0].name, imageExtensions) && AllImages(files[1..], imageExtensions)
  }

  // ---------------------------------------------------------------------
  // Message content
  // ---------------------------------------------------------------------

  /** `prepare_content_with_images`: the images in their order, then the
      prompt as one text part. */
  function PrepareContentWithImages(content: string, images: seq<Part>): (r: seq<Part>)
    ensures |r| == |images| + 1
    ensures r[..|images|] == images && r[|images|] == TextPart(content)
  {
    images + [TextPart(content)]
  }

  function ImageParts(urls: seq<string>): (r: seq<Part>)
    ensures |r| == |urls| && forall i :: 0 <= i < |urls| ==> r[i] == ImageUrlPart(urls[i])
  {
    seq(|urls|, i requires 0 <= i < |urls| => ImageUrlPart(urls[i]))
  }

  function PlaceholderRun(n: nat): (r: seq<OutPart>)
    ensures |r| == n && forall i :: 0 <= i < n ==> r[i] == ImagePlaceholder
  {
    seq(n, i => ImagePlaceholder)
  }

  /** What the server makes of a content prepared here: one placeholder per
      image, then the prompt, with the image URLs collected in order. */
  lemma PreparedContentOnServer(prompt: string, urls: seq<string>)
    ensures ProcessedParts(PrepareContentWithImages(prompt, ImageParts(urls)))
      == PlaceholderRun(|urls|) + [TextOut(prompt)]
    ensures ImageUrls(PrepareContentWithImages(prompt, ImageParts(urls))) == urls
  {
    var parts := PrepareContentWithImages(prompt, ImageParts(urls));
    ProcessedPartsPointwise(parts);
    ImagePartsUrls(urls);
    assert parts[..|urls|] == ImageParts(urls);
    assert parts == ImageParts(urls) + [TextPart(prompt)];
    PartsAppend(ImageParts(urls), [TextPart(prompt)]);
    assert ImageUrls([TextPart(prompt)]) == ImageUrls([TextPart(prompt)][..0]) + [];
  }

  lemma {:induction false} ImagePartsUrls(urls: seq<string>)
    ensures ImageUrls(ImageParts(urls)) == urls
    decreases |urls|
  {
    if |urls| > 0 {
      var front := urls[..|urls| - 1];
      ImagePartsUrls(front);
      assert ImageParts(urls)[..|urls| - 1] == ImageParts(front);
    }
  }

  // ---------------------------------------------------------------------
  // encode_image: size
  // ---------------------------------------------------------------------

  const MaxSize := 720

  /** The size `encode_image` asks for: when the longer side exceeds 720,
      that side becomes 720 and the other is scaled and truncated; a tie
      takes the second branch. */
  function TargetSize(size: Size): (r: Size)
    ensures (size.width <= MaxSize && size.height <= MaxSize) ==> r == size
    ensures r.width <= MaxSize && r.height <= MaxSize
    ensures size.width > MaxSize && size.width > size.height ==>
      && r.width == MaxSize
      && r.height * size.width <= size.height * MaxSize < (r.height + 1) * size.width
    ensures size.height > MaxSize && size.height >= size.width ==>
      && r.height == MaxSize
      && r.width * size.height <= size.width * MaxSize < (r.width + 1) * size.height
  {
    if size.width > MaxSize || size.height > MaxSize then
      if size.width > size.height then Size(MaxSize, ScaleDown(size.height, size.width))
      else Size(ScaleDown(size.width, size.height), MaxSize)
    else size
  }

  /** `int(a * 720 / b)` for the shorter side `a` of a box whose longer
      side is `b`: at most 720, and the floor of the exact quotient. */
  function ScaleDown(a: nat, b: nat): (q: nat)
    requires 0 < b && a <= b
    ensures q <= MaxSize
    ensures q * b <= a * MaxSize < (q + 1) * b
  {
    var n := a * MaxSize;
    assert n == (n / b) * b + n % b;
    assert n <= MaxSize * b;
    assert (n / b - MaxSize) * b <= 0;
    n / b
  }

  /** A square larger than the limit becomes exactly 720 by 720. */
  lemma SquareBecomesLimit(side: nat)
    requires side > MaxSize
    ensures TargetSize(Size(side, side)) == Size(MaxSize, MaxSize)
  {
  }

  // ---------------------------------------------------------------------
  // Base64, section 4 of RFC 4648
  // ---------------------------------------------------------------------

  newtype byte = x: int | 0 <= x < 256

  /** The character for a 6-bit value: A-Z, a-z, 0-9, '+', '/'. */
  function SextetChar(v: int): (c: char)
    requires 0 <= v < 64
    ensures IsBase64Char(c)
  {
    if v < 26 then ('A' as int + v) as char
    else if v < 52 then ('a' as int + v - 26) as char
    else if v < 62 then ('0' as int + v - 52) as char
    else if v == 62 then '+'
    else '/'
  }

  predicate IsBase64Char(c: char)
  {
    ('A' <= c <= 'Z') || ('a' <= c <= 'z') || ('0' <= c <= '9') || c == '+' || c == '/'
  }

  function SextetValue(c: char): (v: int)
    requires IsBase64Char(c)
    ensures 0 <= v < 64
  {
    if 'A' <= c <= 'Z' then c as int - 'A' as int
    else if 'a' <= c <= 'z' then c as int - 'a' as int + 26
    else if '0' <= c <= '9' then c as int - '0' as int + 52
    else if c == '+' then 62
    else 63
  }

  /** The characters an encoding is made of: the alphabet and the pad. */
  predicate IsEncodedChar(c: char)
  {
    IsBase64Char(c) || c == '='
  }

  /** The four characters for the 24 bits of `x`, `y`, `z`, most
      significant first. */
  function EncodeGroup(x: byte, y: byte, z: byte): (r: string)
    ensures |r| == 4 && forall i :: 0 <= i < 4 ==> IsBase64Char(r[i])
  {
    var x, y, z := x as int, y as int, z as int;
    [SextetChar(x / 4), SextetChar(x % 4 * 16 + y / 16), SextetChar(y % 16 * 4 + z / 64), SextetChar(z % 64)]
  }

  /** `base64.b64encode`: three bytes at a time become four characters; a
      final one or two bytes are filled up with zero bits and the missing
      characters written as "=". */
  function Base64Encode(b: seq<byte>): (r: string)
    ensures |r| == (|b| + 2) / 3 * 4
    ensures forall i :: 0 <= i < |r| ==> IsEncodedChar(r[i])
    decreases |b|
  {
    if |b| == 0 then ""
    else if |b| == 1 then EncodeGroup(b[0], 0, 0)[..2] + "=="
    else if |b| == 2 then EncodeGroup(b[0], b[1], 0)[..3] + "="
    else EncodeGroup(b[0], b[1], b[2]) + Base64Encode(b[3..])
  }

  /** The byte made of the six bits of `a` and the high two of `b`. */
  function HighByte(a: int, b: int): byte
    requires 0 <= a < 64 && 0 <= b < 64
  {
    (a * 4 + b / 16) as byte
  }

  /** The byte made of the low four bits of `b` and the high four of `c`. */
  function MidByte(b: int, c: int): byte
    requires 0 <= b < 64 && 0 <= c < 64
  {
    (b % 16 * 16 + c / 4) as byte
  }

  /** The byte made of the low two bits of `c` and the six of `d`. */
  function LowByte(c: int, d: int): byte
    requires 0 <= c < 64 && 0 <= d < 64
  {
    (c % 4 * 64 + d) as byte
  }

  /** Decoding, four characters at a time; None for text that is not a
      padded encoding. */
  function Base64Decode(s: string): (r: Option<seq<byte>>)
    decreases |s|
  {
    if |s| == 0 then Some([])
    else if |s| < 4 || !IsBase64Char(s[0]) || !IsBase64Char(s[1]) then None
    else
      var a, b := SextetValue(s[0]), SextetValue(s[1]);
      var x := HighByte(a, b);
      if |s| == 4 && s[2] == '=' && s[3] == '=' then Some([x])
      else if !IsBase64Char(s[2]) then None
      else
        var c := SextetValue(s[2]);
        var y := MidByte(b, c);
        if |s| == 4 && s[3] == '=' then Some([x, y])
        else if !IsBase64Char(s[3]) then None
        else
          var z := LowByte(c, SextetValue(s[3]));
          match Base64Decode(s[4..])
          case None => None
          case Some(rest) => Some([x, y, z] + rest)
  }

  lemma SextetInverse(v: int)
    requires 0 <= v < 64
    ensures SextetValue(SextetChar(v)) == v
  {
  }

  /** The decoder's bit shuffling undoes that of `EncodeGroup`. */
  lemma GroupInverse(x: byte, y: byte, z: byte)
    ensures var s := EncodeGroup(x, y, z);
      && HighByte(SextetValue(s[0]), SextetValue(s[1])) == x
      && MidByte(SextetValue(s[1]), SextetValue(s[2])) == y
      && LowByte(SextetValue(s[2]), SextetValue(s[3])) == z
  {
    var x, y, z := x as int, y as int, z as int;
    SextetInverse(x / 4);
    SextetInverse(x % 4 * 16 + y / 16);
    SextetInverse(y % 16 * 4 + z / 64);
    SextetInverse(z % 64);
  }

  /** Decoding undoes encoding. */
  lemma {:induction false} Base64RoundTrip(b: seq<byte>)
    ensures Base64Decode(Base64Encode(b)) == Some(b)
    decreases |b|
  {
    if |b| == 1 {
      LastGroupOne(b);
    } else if |b| == 2 {
      LastGroupTwo(b);
    } else if |b| >= 3 {
      Base64RoundTrip(b[3..]);
      FullGroup(b);
    }
  }

  lemma LastGroupOne(b: seq<byte>)
    requires |b| == 1
    ensures Base64Decode(Base64Encode(b)) == Some(b)
  {
    var g := EncodeGroup(b[0], 0, 0);
    GroupInverse(b[0], 0, 0);
    var s := Base64Encode(b);
    assert s[0] == g[0] && s[1] == g[1] && s[2] == '=' && s[3] == '=';
    assert [b[0]] == b;
  }

  lemma LastGroupTwo(b: seq<byte>)
    requires |b| == 2
    ensures Base64Decode(Base64Encode(b)) == Some(b)
  {
    var g := EncodeGroup(b[0], b[1], 0);
    GroupInverse(b[0], b[1], 0);
    var s := Base64Encode(b);
    assert s[0] == g[0] && s[1] == g[1] && s[2] == g[2] && s[3] == '=';
    assert [b[0], b[1]] == b;
  }

  /** A leading group of three bytes decodes back, given that the rest does. */
  lemma FullGroup(b: seq<byte>)
    requires |b| >= 3 && Base64Decode(Base64Encode(b[3..])) == Some(b[3..])
    ensures Base64Decode(Base64Encode(b)) == Some(b)
  {
    var g := EncodeGroup(b[0], b[1], b[2]);
    assert Base64Encode(b) == g + Base64Encode(b[3..]);
    GroupInverse(b[0], b[1], b[2]);
    DecodeGroup(g, Base64Encode(b[3..]));
    FirstThree(b);
  }

  /** Four alphabet characters in front decode to their three bytes. */
  lemma DecodeGroup(g: string, rest: string)
    requires |g| == 4 && forall i :: 0 <= i < 4 ==> IsBase64Char(g[i])
    ensures Base64Decode(rest).Some? ==> Base64Decode(g + rest) == Some([
      HighByte(SextetValue(g[0]), SextetValue(g[1])),
      MidByte(SextetValue(g[1]), SextetValue(g[2])),
      LowByte(SextetValue(g[2]), SextetValue(g[3]))] + Base64Decode(rest).value)
  {
    var s := g + rest;
    assert s[0] == g[0] && s[1] == g[1] && s[2] == g[2] && s[3] == g[3];
    assert s[4..] == rest;
  }

  lemma FirstThree(b: seq<byte>)
    requires |b| >= 3
    ensures [b[0], b[1], b[2]] + b[3..] == b
  {
  }

  // ---------------------------------------------------------------------
  // encode_image: the data URL
  // ---------------------------------------------------------------------

  /** The image as loaded and converted: its size and `format` attribute. */
  datatype Image = Image(size: Size, format: Option<string>)

  /** `f"data:image/{format.lower()};base64,{payload}"` */
  function DataUrl(format: string, data: seq<byte>): string
  {
    DataImagePrefix + Lower(format) + Base64Marker + Base64Encode(data)
  }

  /** `image.format if image.format else "JPEG"` */
  function FormatOrJpeg(format: Option<string>): (r: string)
    ensures |r| > 0
  {
    if format.Some? && format.value != "" then format.value else "JPEG"
  }

  /** `encode_image`: None when opening, resizing or saving failed
      (everything is caught). A resized image is a new image without a
      format, which is then saved as JPEG. */
  function EncodeImage(loaded: Option<Image>, save: (Size, string) -> Option<seq<byte>>): (r: Option<Part>)
    ensures loaded.None? ==> r.None?
    ensures loaded.Some? ==>
      var image := loaded.value;
      var target := TargetSize(image.size);
      var format := FormatOrJpeg(if target != image.size then None else image.format);
      && (r.Some? <==>
            && (target == image.size || (target.width > 0 && target.height > 0))
            && save(target, format).Some?)
      && (r.Some? ==>
            r.value == ImageUrlPart(DataImagePrefix + Lower(format) + Base64Marker + Base64Encode(save(target, format).value)))
    ensures r.Some? ==> r.value.ImageUrlPart? && StartsWith(r.value.url, DataImagePrefix)
  {
    match loaded
    case None => None
    case Some(image) =>
      var target := TargetSize(image.size);
      if target != image.size && (target.width == 0 || target.height == 0) then None
      else
        var format := FormatOrJpeg(if target != image.size then None else image.format);
        match save(target, format)
        case None => None
        case Some(data) =>
          var url := DataUrl(format, data);
          assert url[..|DataImagePrefix|] == DataImagePrefix;
          Some(ImageUrlPart(url))
  }

  /** An image whose longer side exceeds 720 is resized into a new image
      without a format, so its URL always says JPEG. */
  lemma ResizedIsJpeg(loaded: Option<Image>, save: (Size, string) -> Option<seq<byte>>)
    requires loaded.Some? && (loaded.value.size.width > MaxSize || loaded.value.size.height > MaxSize)
    requires EncodeImage(loaded, save).Some?
    ensures StartsWith(EncodeImage(loaded, save).value.url, "data:image/jpeg;base64,")
  {
    var image := loaded.value;
    var target := TargetSize(image.size);
    assert target != image.size;
    assert FormatOrJpeg(None) == "JPEG";
    assert Lower("JPEG") == "jpeg" by {
      LowerJpeg();
    }
    var url := EncodeImage(loaded, save).value.url;
    var rest := Base64Encode(save(target, "JPEG").value);
    assert url == "data:image/jpeg;base64," + rest;
    assert url[..|"data:image/jpeg;base64,"|] == "data:image/jpeg;base64,";
  }

  lemma LowerJpeg()
    ensures Lower("JPEG") == "jpeg"
  {
    var l := Lower("JPEG");
    assert l[0] == 'j' && l[1] == 'p' && l[2] == 'e' && l[3] == 'g';
  }

  /** A data URL built here is recognised as a base64 image URL by the
      server, whose `split(",")[1]` yields exactly the payload, which
      decodes to the saved bytes. The format must not contain a comma or a
      line break. */
  lemma DataUrlRoundTrip(format: string, data: seq<byte>)
    requires |format| > 0 && NoChar(format, ',') && NoChar(format, '\n')
    ensures ClassifySource(DataUrl(format, data)) == Base64Url(Base64Encode(data))
    ensures Base64Decode(Base64Encode(data)) == Some(data)
  {
    DataUrlRecognised(format, data);
    DataUrlPayload(format, data);
    Base64RoundTrip(data);
  }

  /** The URL matches the base64 pattern and not the http one. */
  lemma DataUrlRecognised(format: string, data: seq<byte>)
    requires |format| > 0 && NoChar(format, '\n')
    ensures IsBase64ImageUrl(DataUrl(format, data))
    ensures !StartsWith(DataUrl(format, data), "http://") && !StartsWith(DataUrl(format, data), "https://")
  {
    var url := DataUrl(format, data);
    var fmt := Lower(format);
    var j := |DataImagePrefix| + |fmt|;
    assert url == DataImagePrefix + fmt + Base64Marker + Base64Encode(data);
    assert url[..|DataImagePrefix|] == DataImagePrefix;
    assert url[0] == 'd';
    assert url[j..j + |Base64Marker|] == Base64Marker;
    assert OccursAt(url, Base64Marker, j);
    assert url[|DataImagePrefix|..j] == fmt;
  }

  /** `split(",")[1]` of the URL is the payload. */
  lemma DataUrlPayload(format: string, data: seq<byte>)
    requires NoChar(format, ',')
    ensures SecondField(DataUrl(format, data)) == Some(Base64Encode(data))
  {
    var fmt := Lower(format);
    var payload := Base64Encode(data);
    assert NoChar(payload, ',') by {
      forall i | 0 <= i < |payload| ensures payload[i] != ',' {
        assert IsEncodedChar(payload[i]);
      }
    }
    var head := DataImagePrefix + fmt + ";base64";
    assert NoChar(head, ',') by {
      forall i | 0 <= i < |head| ensures head[i] != ',' {
        if i >= |DataImagePrefix| && i < |DataImagePrefix| + |fmt| {
          assert head[i] == fmt[i - |DataImagePrefix|];
        }
      }
    }
    assert DataUrl(format, data) == head + "," + payload;
    SecondFieldAfterOnlyComma(head, payload);
  }

  /** When the only comma before `tail` is the one in front of it, the
      second comma-separated field is `tail` up to its first comma. */
  lemma {:induction false} SecondFieldAfterOnlyComma(head: string, tail: string)
    requires NoChar(head, ',') && NoChar(tail, ',')
    ensures SecondField(head + "," + tail) == Some(tail)
    decreases |head|
  {
    if |head| == 0 {
      assert head + "," + tail == [','] + tail;
      FirstFieldNoComma(tail);
    } else {
      assert (head + "," + tail)[1..] == head[1..] + "," + tail;
      SecondFieldAfterOnlyComma(head[1..], tail);
    }
  }

  lemma {:induction false} FirstFieldNoComma(s: string)
    requires NoChar(s, ',')
    ensures FirstField(s) == s
    decreases |s|
  {
    if |s| > 0 {
      FirstFieldNoComma(s[1..]);
    }
  }

  /** Every URL `encode_image` produces travels intact: the server takes
      the base64 branch of `read_image` and recovers the saved bytes. */
  lemma EncodeImageRoundTrip(loaded: Option<Image>, save: (Size, string) -> Option<seq<byte>>)
    requires loaded.Some? && loaded.value.format.Some? ==>
      NoChar(loaded.value.format.value, ',') && NoChar(loaded.value.format.value, '\n')
    requires EncodeImage(loaded, save).Some?
    ensures var image, url := loaded.value, EncodeImage(loaded, save).value.url;
      var target := TargetSize(image.size);
      && ClassifySource(url).Base64Url?
      && Base64Decode(ClassifySource(url).payload)
           == save(target, FormatOrJpeg(if target != image.size then None else image.format))
  {
    var image := loaded.value;
    var target := TargetSize(image.size);
    var format := FormatOrJpeg(if target != image.size then None else image.format);
    var data := save(target, format).value;
    assert NoChar("JPEG", ',') && NoChar("JPEG", '\n');
    DataUrlRoundTrip(format, data);
  }
}
