/** src/utils/texture_loader.rs: decoded PNG and JPEG images become
    textures in the texture pool. The decoders and the file reader are
    foreign code, so what they produce for a given file is a parameter: a
    `Decoded` image, or the panic the decoder raised. */
module TextureLoader {
  import opened Wrappers
  import opened Numeric
  import opened Resource
  import opened Textures
  import opened ResourceRegistry

  /** What a decoder hands back: the image size and its bytes. */
  datatype Decoded = Decoded(width: nat, height: nat, bytes: seq<u8>)

  /** The two loaders `load_with_filepath` can pick. */
  datatype ImageKind = Png | Jpeg

  const JpegDecodeFailed: string := "failed to decode image"
  const IndexOutOfBounds: string := "index out of bounds"
  const UnknownFormat: string := "Unknown texture image format, "
  const NoFormat: string := "Can not detect image file format from the file path, "
  const Opaque: u8 := 255

  /** The `match format`: `Uint8` when no format is given. */
  function FormatOrDefault(format: Option<TextureFormat>): (f: TextureFormat)
    ensures format.None? ==> f == Uint8
    ensures format.Some? ==> f == format.value
  {
    match format
    case Some(given) => given
    case None => Uint8
  }

  // ------------------------------------------------------------ RGB to RGBA

  /** The first `count` pixels of a packed RGB buffer, each followed by an
      opaque alpha byte. */
  function Rgba(pixels: seq<u8>, count: nat): (out: seq<u8>)
    requires 3 * count <= |pixels|
  {
    if count == 0 then []
    else
      var k := count - 1;
      Rgba(pixels, k) + [pixels[3 * k], pixels[3 * k + 1], pixels[3 * k + 2], Opaque]
  }

  /** The colour bytes of the first `count` pixels of an RGBA buffer,
      dropping each alpha byte: the inverse of `Rgba`. */
  function Rgb(rgba: seq<u8>, count: nat): (out: seq<u8>)
    requires 4 * count <= |rgba|
  {
    if count == 0 then []
    else
      var k := count - 1;
      Rgb(rgba, k) + rgba[4 * k..4 * k + 3]
  }

  /** The output holds four bytes per pixel: pixel `k`'s three colour bytes
      at `4 * k ..`, and an opaque alpha after them. */
  lemma {:induction false} RgbaLayout(pixels: seq<u8>, count: nat)
    requires 3 * count <= |pixels|
    ensures |Rgba(pixels, count)| == 4 * count
    ensures forall k | 0 <= k < count ::
              Rgba(pixels, count)[4 * k] == pixels[3 * k]
              && Rgba(pixels, count)[4 * k + 1] == pixels[3 * k + 1]
              && Rgba(pixels, count)[4 * k + 2] == pixels[3 * k + 2]
              && Rgba(pixels, count)[4 * k + 3] == Opaque
  {
    if count > 0 {
      RgbaLayout(pixels, count - 1);
      var prev := Rgba(pixels, count - 1);
      assert Rgba(pixels, count) == prev + [pixels[3 * (count - 1)], pixels[3 * (count - 1) + 1], pixels[3 * (count - 1) + 2], Opaque];
      forall k | 0 <= k < count - 1
        ensures Rgba(pixels, count)[4 * k] == prev[4 * k] && Rgba(pixels, count)[4 * k + 1] == prev[4 * k + 1]
        ensures Rgba(pixels, count)[4 * k + 2] == prev[4 * k + 2] && Rgba(pixels, count)[4 * k + 3] == prev[4 * k + 3]
      {
      }
    }
  }

  /** Four output bytes per pixel. */
  lemma {:induction false} RgbaLength(pixels: seq<u8>, count: nat)
    requires 3 * count <= |pixels|
    ensures |Rgba(pixels, count)| == 4 * count
  {
    if count > 0 {
      RgbaLength(pixels, count - 1);
    }
  }

  /** Dropping the alpha bytes gives back the RGB bytes that were expanded. */
  lemma {:induction false} RgbOfRgba(pixels: seq<u8>, count: nat)
    requires 3 * count <= |pixels|
    ensures |Rgba(pixels, count)| == 4 * count
    ensures Rgb(Rgba(pixels, count), count) == pixels[..3 * count]
  {
    RgbaLength(pixels, count);
    if count > 0 {
      var k := count - 1;
      var prev, out := Rgba(pixels, k), Rgba(pixels, count);
      var pixel := [pixels[3 * k], pixels[3 * k + 1], pixels[3 * k + 2]];
      RgbaLength(pixels, k);
      calc {
        Rgb(out, count);
        Rgb(out, k) + out[4 * k..4 * k + 3];
        { assert out == prev + (pixel + [Opaque]);
          RgbPrefix(prev, pixel + [Opaque], k);
          PixelSlice(prev, pixel, Opaque); }
        Rgb(prev, k) + pixel;
        { RgbOfRgba(pixels, k); }
        pixels[..3 * k] + pixel;
        { assert pixels[3 * k..3 * count] == pixel;
          assert pixels[..3 * count] == pixels[..3 * k] + pixels[3 * k..3 * count]; }
        pixels[..3 * count];
      }
    }
  }

  /** The colour bytes of a pixel appended after `prev`. */
  lemma PixelSlice(prev: seq<u8>, pixel: seq<u8>, alpha: u8)
    requires |pixel| == 3
    ensures (prev + (pixel + [alpha]))[|prev|..|prev| + 3] == pixel
  {
  }

  /** The RGB bytes of the first `count` pixels do not depend on what
      follows them. */
  lemma {:induction false} RgbPrefix(rgba: seq<u8>, more: seq<u8>, count: nat)
    requires 4 * count <= |rgba|
    ensures Rgb(rgba + more, count) == Rgb(rgba, count)
  {
    if count > 0 {
      var k := count - 1;
      RgbPrefix(rgba, more, k);
      assert (rgba + more)[4 * k..4 * k + 3] == rgba[4 * k..4 * k + 3];
    }
  }

  /** Pixel `y * width + x` comes before pixel `y * width + x + 1`, and the
      last pixel of row `y` before the first of row `y + 1`. */
  lemma RowMajor(width: nat, height: nat, y: nat, x: nat)
    requires y < height && x < width
    ensures y * width + x < width * height
    ensures y * width + x + 1 == if x + 1 < width then y * width + (x + 1) else (y + 1) * width
  {
    assert y * width + width == (y + 1) * width;
    assert (y + 1) * width <= height * width by {
      assert y + 1 <= height;
    }
  }

  /** Row `y + 1` starts `width` pixels after row `y`. */
  lemma NextRow(width: nat, y: nat)
    ensures (y + 1) * width == y * width + width
  {
  }

  /** The nested loop of `load_jpg`: rows in order, and pixels in order
      within a row, each pixel's three bytes and then 255. Reading a byte
      past the end of `pixels` panics. */
  method ExpandRgb(pixels: seq<u8>, width: nat, height: nat) returns (r: Outcome<seq<u8>>)
    ensures r.Ok? <==> 3 * (width * height) <= |pixels|
    ensures r.Ok? ==> r.value == Rgba(pixels, width * height)
    ensures r.Panic? ==> r.message == IndexOutOfBounds
  {
    var data: seq<u8> := [];
    ghost var start := 0;
    for y := 0 to height
      invariant start == y * width
      invariant 3 * start <= |pixels| && data == Rgba(pixels, start)
    {
      for x := 0 to width
        invariant 3 * (start + x) <= |pixels| && data == Rgba(pixels, start + x)
      {
        var k := y * width + x;
        RowMajor(width, height, y, x);
        if 3 * k + 2 >= |pixels| {
          return Panic(IndexOutOfBounds);
        }
        data := data + [pixels[k * 3 + 0], pixels[k * 3 + 1], pixels[k * 3 + 2], Opaque];
      }
      start := start + width;
      NextRow(width, y);
    }
    assert start == width * height;
    r := Ok(data);
  }

  // ---------------------------------------------------------------- loaders

  /** The texture a loader of `kind` makes from what its decoder returned,
      or the panic it raises: the decoder's own for PNG, the loader's
      message for JPEG, and the out-of-bounds read for a JPEG with fewer
      than three bytes per pixel. */
  function TextureOf(kind: ImageKind, image: Outcome<Decoded>, format: Option<TextureFormat>): (r: Outcome<Texture>)
    ensures image.Panic? ==> r.Panic?
    ensures kind == Png ==> (r.Ok? <==> image.Ok?)
    ensures kind == Jpeg ==> (r.Ok? <==> image.Ok? && 3 * (image.value.width * image.value.height) <= |image.value.bytes|)
    ensures r.Ok? ==> (r.value.format == FormatOrDefault(format)
                       && r.value.width == image.value.width && r.value.height == image.value.height)
    ensures r.Ok? && kind == Png ==> r.value.texels == image.value.bytes
    ensures r.Ok? && kind == Jpeg ==> (|r.value.texels| == 4 * (image.value.width * image.value.height)
                                      && Rgb(r.value.texels, image.value.width * image.value.height) == image.value.bytes[..3 * (image.value.width * image.value.height)])
  {
    match image
    case Panic(message) =>
      if kind == Png then Panic(message) else Panic(JpegDecodeFailed + ": " + message)
    case Ok(decoded) =>
      var count := decoded.width * decoded.height;
      if kind == Png then
        Ok(Texture(FormatOrDefault(format), decoded.height, decoded.bytes, decoded.width))
      else if 3 * count <= |decoded.bytes| then
        RgbaLength(decoded.bytes, count);
        RgbOfRgba(decoded.bytes, count);
        Ok(Texture(FormatOrDefault(format), decoded.height, Rgba(decoded.bytes, count), decoded.width))
      else
        Panic(IndexOutOfBounds)
  }

  /** `load_png`: a decoded PNG goes into the pool as it is. */
  method LoadPng(pools: ResourcePools, image: Outcome<Decoded>, format: Option<TextureFormat>)
    returns (r: Outcome<ResourceId<Texture>>)
    requires pools.Valid()
    modifies pools.TextureStore()
    ensures r.Ok? <==> TextureOf(Png, image, format).Ok?
    ensures r.Panic? ==> (r.message == TextureOf(Png, image, format).message
                          && pools.TextureStore().resources == old(pools.TextureStore().resources))
    ensures r.Ok? ==> (r.value.id == old(|pools.TextureStore().resources|)
                       && pools.TextureStore().resources == old(pools.TextureStore().resources) + [TextureOf(Png, image, format).value])
  {
    if image.Panic? {
      return Panic(image.message);
    }
    var decoded := image.value;
    var tid := pools.TextureStore().Add(Texture(FormatOrDefault(format), decoded.height, decoded.bytes, decoded.width));
    r := Ok(tid);
  }

  /** `load_jpg`: a decoded JPEG holds three bytes per pixel; the texture
      gets four. */
  method LoadJpg(pools: ResourcePools, image: Outcome<Decoded>, format: Option<TextureFormat>)
    returns (r: Outcome<ResourceId<Texture>>)
    requires pools.Valid()
    modifies pools.TextureStore()
    ensures r.Ok? <==> TextureOf(Jpeg, image, format).Ok?
    ensures r.Panic? ==> (r.message == TextureOf(Jpeg, image, format).message
                          && pools.TextureStore().resources == old(pools.TextureStore().resources))
    ensures r.Ok? ==> (r.value.id == old(|pools.TextureStore().resources|)
                       && pools.TextureStore().resources == old(pools.TextureStore().resources) + [TextureOf(Jpeg, image, format).value])
  {
    if image.Panic? {
      return Panic(JpegDecodeFailed + ": " + image.message);
    }
    var decoded := image.value;
    var data := ExpandRgb(decoded.bytes, decoded.width, decoded.height);
    if data.Panic? {
      return Panic(data.message);
    }
    var tid := pools.TextureStore().Add(Texture(FormatOrDefault(format), decoded.height, data.value, decoded.width));
    r := Ok(tid);
  }

  // ------------------------------------------------------------- extensions

  /** `to_lowercase` on ASCII letters. */
  function LowerAscii(s: string): (t: string)
    ensures |t| == |s|
    ensures forall i | 0 <= i < |s| :: t[i] == if 'A' <= s[i] <= 'Z' then (s[i] as int + 32) as char else s[i]
  {
    if s == [] then []
    else [if 'A' <= s[0] <= 'Z' then (s[0] as int + 32) as char else s[0]] + LowerAscii(s[1..])
  }

  /** The index of the last occurrence of `c` in `s`, if any. */
  function LastIndexOf(s: string, c: char): (r: Option<nat>)
    ensures r.Some? ==> r.value < |s| && s[r.value] == c && forall i | r.value < i < |s| :: s[i] != c
    ensures r.None? ==> forall i | 0 <= i < |s| :: s[i] != c
  {
    if s == [] then None
    else if s[|s| - 1] == c then Some(|s| - 1)
    else LastIndexOf(s[..|s| - 1], c)
  }

  /** The path without its trailing separators. */
  function TrimSeparators(path: string): (t: string)
    ensures |t| <= |path| && t == path[..|t|]
    ensures t == [] || t[|t| - 1] != '/'
  {
    if path != [] && path[|path| - 1] == '/' then TrimSeparators(path[..|path| - 1]) else path
  }

  /** `Path::file_name`: the last component, `None` when there is none or
      it is `..`. */
  function FileName(path: string): (r: Option<string>)
    ensures r.Some? ==> r.value != [] && r.value != ".." && forall i | 0 <= i < |r.value| :: r.value[i] != '/'
  {
    var trimmed := TrimSeparators(path);
    var name := match LastIndexOf(trimmed, '/')
                case Some(i) => trimmed[i + 1..]
                case None => trimmed;
    if name == [] || name == ".." then None else Some(name)
  }

  /** `Path::extension`: what follows the last dot of the file name, unless
      that dot is the name's first character. */
  function Extension(path: string): (r: Option<string>)
    ensures r.Some? ==> FileName(path).Some? && EndsWithDotted(FileName(path).value, r.value)
  {
    match FileName(path)
    case None => None
    case Some(name) => NameExtension(name)
  }

  /** The extension of a file name. */
  function NameExtension(name: string): (r: Option<string>)
    ensures r.Some? ==> EndsWithDotted(name, r.value)
    ensures r.Some? ==> forall i | 0 <= i < |r.value| :: r.value[i] != '.'
  {
    match LastIndexOf(name, '.')
    case None => None
    case Some(i) => if i == 0 then None else Some(name[i + 1..])
  }

  /** `name` is a non-empty stem, a dot, and `ext`. */
  predicate EndsWithDotted(name: string, ext: string)
  {
    |ext| + 2 <= |name| && name[|name| - |ext| - 1] == '.' && name[|name| - |ext|..] == ext
  }

  /** The match in `load_with_filepath`: the lower-cased extension picks the
      loader; anything else panics, naming the extension or the path. */
  function Dispatch(path: string): (r: Outcome<ImageKind>)
    ensures r == Ok(Png) <==> Extension(path).Some? && LowerAscii(Extension(path).value) == "png"
    ensures r == Ok(Jpeg) <==> Extension(path).Some? && LowerAscii(Extension(path).value) in {"jpg", "jpeg"}
    ensures Extension(path).None? ==> r == Panic(NoFormat + path)
    ensures Extension(path).Some? && LowerAscii(Extension(path).value) !in {"png", "jpg", "jpeg"} ==>
              r == Panic(UnknownFormat + "\"" + Extension(path).value + "\"")
  {
    match Extension(path)
    case None => Panic(NoFormat + path)
    case Some(ext) =>
      var lower := LowerAscii(ext);
      if lower == "png" then Ok(Png)
      else if lower == "jpg" || lower == "jpeg" then Ok(Jpeg)
      else Panic(UnknownFormat + "\"" + ext + "\"")
  }

  /** A file with a non-empty stem and a dot-free extension has that
      extension, whatever directory it is in. */
  lemma ExtensionOfDotted(dir: string, stem: string, ext: string)
    requires dir == [] || dir[|dir| - 1] == '/'
    requires stem != [] && ext != []
    requires forall i | 0 <= i < |stem| :: stem[i] != '/'
    requires forall i | 0 <= i < |ext| :: ext[i] != '/' && ext[i] != '.'
    ensures Extension(dir + stem + "." + ext) == Some(ext)
  {
    var name := stem + "." + ext;
    assert dir + stem + "." + ext == dir + name;
    FileNameInDirectory(dir, stem, ext);
    NameExtensionDotted(stem, ext);
  }

  /** An upper-case extension picks the same loader as a lower-case one. */
  lemma UpperCaseJpg(dir: string, stem: string)
    requires dir == [] || dir[|dir| - 1] == '/'
    requires stem != [] && forall i | 0 <= i < |stem| :: stem[i] != '/'
    ensures Dispatch(dir + stem + "." + "JPG") == Ok(Jpeg)
  {
    ExtensionOfDotted(dir, stem, "JPG");
    LowerJpg();
  }

  /** A file name whose only dot is its first character has no extension,
      so `Dispatch` panics naming the path. */
  lemma HiddenFileHasNoExtension(dir: string, ext: string)
    requires dir == [] || dir[|dir| - 1] == '/'
    requires ext != [] && forall i | 0 <= i < |ext| :: ext[i] != '/' && ext[i] != '.'
    ensures Extension(dir + "." + ext) == None
  {
    var name := "." + ext;
    assert dir + "." + ext == dir + name;
    forall i | 0 <= i < |name|
      ensures name[i] != '/'
    {
      if i > 0 {
        assert name[i] == ext[i - 1];
      }
    }
    assert name[1] == ext[0];
    FileNameAfterDirectory(dir, name);
    LastIndexOfAppend(".", ext, '.');
    assert LastIndexOf(".", '.') == Some(0);
  }

  /** A file name without a dot has no extension either. */
  lemma DotlessHasNoExtension(dir: string, name: string)
    requires dir == [] || dir[|dir| - 1] == '/'
    requires name != []
    requires forall i | 0 <= i < |name| :: name[i] != '/' && name[i] != '.'
    ensures Extension(dir + name) == None
  {
    assert name[0] != '.';
    FileNameAfterDirectory(dir, name);
    LastIndexOfAppend([], name, '.');
    assert [] + name == name;
  }

  lemma LowerJpg()
    ensures LowerAscii("JPG") == "jpg"
  {
    var lower := LowerAscii("JPG");
    assert lower[0] == 'j' && lower[1] == 'p' && lower[2] == 'g';
  }

  /** A name whose only dot is its first character has no extension. */
  lemma HiddenFileExample()
    ensures Dispatch("textures/.png") == Panic(NoFormat + "textures/.png")
  {
    assert "textures/.png" == "textures/" + ".png" && ".png" == "." + "png";
    assert TrimSeparators("textures/.png") == "textures/.png";
    LastIndexOfAppend("textures/", ".png", '/');
    assert FileName("textures/.png") == Some(".png");
    LastIndexOfAppend(".", "png", '.');
  }

  /** A name without a dot has no extension. */
  lemma NoDotExample()
    ensures Dispatch("image") == Panic(NoFormat + "image")
  {
    assert "image" == "" + "image";
    LastIndexOfAppend("", "image", '/');
    LastIndexOfAppend("", "image", '.');
  }

  /** The file name of `dir + stem + "." + ext` is everything after `dir`. */
  lemma FileNameInDirectory(dir: string, stem: string, ext: string)
    requires dir == [] || dir[|dir| - 1] == '/'
    requires stem != [] && ext != []
    requires forall i | 0 <= i < |stem| :: stem[i] != '/'
    requires forall i | 0 <= i < |ext| :: ext[i] != '/' && ext[i] != '.'
    ensures FileName(dir + (stem + "." + ext)) == Some(stem + "." + ext)
  {
    var name := stem + "." + ext;
    forall i | 0 <= i < |name|
      ensures name[i] != '/'
    {
      if i < |stem| {
        assert name[i] == stem[i];
      } else if i > |stem| {
        assert name[i] == ext[i - |stem| - 1];
      }
    }
    FileNameAfterDirectory(dir, name);
  }

  /** Below a directory that ends in a separator, the file name is the rest
      of the path. */
  lemma FileNameAfterDirectory(dir: string, name: string)
    requires dir == [] || dir[|dir| - 1] == '/'
    requires name != [] && name != ".."
    requires forall i | 0 <= i < |name| :: name[i] != '/'
    ensures FileName(dir + name) == Some(name)
  {
    var path := dir + name;
    assert path[|path| - 1] == name[|name| - 1];
    assert TrimSeparators(path) == path;
    LastIndexOfAppend(dir, name, '/');
    if dir != [] {
      assert LastIndexOf(dir, '/') == Some(|dir| - 1);
      assert path[|dir|..] == name;
    } else {
      assert LastIndexOf(dir, '/') == None;
      assert path == name;
    }
  }

  /** The extension of `stem + "." + ext` is `ext`. */
  lemma NameExtensionDotted(stem: string, ext: string)
    requires stem != []
    requires forall i | 0 <= i < |ext| :: ext[i] != '.'
    ensures NameExtension(stem + "." + ext) == Some(ext)
  {
    var name := stem + "." + ext;
    LastIndexOfAppend(stem + ".", ext, '.');
    assert name == (stem + ".") + ext;
    assert LastIndexOf(stem + ".", '.') == Some(|stem|);
    assert name[|stem| + 1..] == ext;
  }

  /** Appending text without `c` leaves the last `c` where it was. */
  lemma {:induction false} LastIndexOfAppend(a: string, b: string, c: char)
    requires forall i | 0 <= i < |b| :: b[i] != c
    ensures LastIndexOf(a + b, c) == LastIndexOf(a, c)
  {
    if b != [] {
      var front := b[..|b| - 1];
      assert (a + b)[..|a + b| - 1] == a + front;
      LastIndexOfAppend(a, front, c);
    } else {
      assert a + b == a;
    }
  }

  /** `load_with_filepath`: `image` is what the chosen decoder makes of the
      file's bytes. */
  method LoadWithFilepath(pools: ResourcePools, path: string, format: Option<TextureFormat>, image: Outcome<Decoded>)
    returns (r: Outcome<ResourceId<Texture>>)
    requires pools.Valid()
    modifies pools.TextureStore()
    ensures Dispatch(path).Panic? ==> r == Panic(Dispatch(path).message)
    ensures r.Panic? ==> pools.TextureStore().resources == old(pools.TextureStore().resources)
    ensures Dispatch(path).Ok? ==> (r.Ok? <==> TextureOf(Dispatch(path).value, image, format).Ok?)
    ensures Dispatch(path).Ok? && r.Panic? ==> r.message == TextureOf(Dispatch(path).value, image, format).message
    ensures r.Ok? ==> (r.value.id == old(|pools.TextureStore().resources|)
                       && pools.TextureStore().resources
                          == old(pools.TextureStore().resources) + [TextureOf(Dispatch(path).value, image, format).value])
  {
    var kind := Dispatch(path);
    if kind.Panic? {
      return Panic(kind.message);
    }
    if kind.value == Png {
      r := LoadPng(pools, image, format);
    } else {
      r := LoadJpg(pools, image, format);
    }
  }
}
