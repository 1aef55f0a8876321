/** The texture loader: reading and writing uncompressed true-colour
    images in the Truevision TGA format (image type 2, no colour map, 24 or
    32 bits per pixel), with the pixels kept in memory as RGBA bytes. */
module Textures {
  import opened Wrappers
  import opened CInt
  import opened Layout

  // ---------------------------------------------------------------- byte streams

  /** `istream::get`: the byte at `pos`, or -1 (end of file) past the end.
      Once the end is reached every later read also fails, so reading by
      position gives the same values as reading the stream in order. */
  function Get(file: seq<byte>, pos: nat): (c: int)
    ensures pos < |file| ==> c == file[pos]
    ensures pos >= |file| ==> c == -1
  {
    if pos < |file| then file[pos] else -1
  }

  /** `get` cast to `char` and stored in an `unsigned char`: end of file
      becomes 0xFF. */
  function GetByte(file: seq<byte>, pos: nat): byte
  {
    ToByte(Get(file, pos))
  }

  /** `read_short_le`: the low byte, or-ed with the high byte shifted left
      by 8; the two bytes do not overlap, so this is b0 + 256 b1. */
  function ShortOf(b0: byte, b1: byte): (r: int)
    ensures 0 <= r < 0x1_0000
    ensures r % 256 == b0 && r / 256 == b1
  {
    DivModUnique(b0 + 256 * b1, 256, b1, b0);
    b0 + 256 * b1
  }

  function ReadShortLE(file: seq<byte>, pos: nat): (r: int)
    ensures 0 <= r < 0x1_0000
  {
    ShortOf(GetByte(file, pos), GetByte(file, pos + 1))
  }

  /** `write_short_le`: `(unsigned char)value`, then
      `(unsigned char)(value >> 8)`; the shift rounds down, as `/` does on
      a positive divisor. */
  function WriteShortLE(value: int): (s: seq<byte>)
    ensures |s| == 2
  {
    [ToByte(value), ToByte(value / 256)]
  }

  /** Writing then reading a short gives back its low 16 bits: the value
      itself for 0 <= value < 65536. */
  lemma ShortRoundTrip(value: int)
    ensures ShortOf(WriteShortLE(value)[0], WriteShortLE(value)[1]) == value % 0x1_0000
    ensures 0 <= value < 0x1_0000 ==> ShortOf(WriteShortLE(value)[0], WriteShortLE(value)[1]) == value
  {
    var q, r := value / 256, value % 256;
    var qq, qr := q / 256, q % 256;
    assert value == 256 * q + r && q == 256 * qq + qr;
    assert value == 0x1_0000 * qq + (r + 256 * qr);
    DivModUnique(r + 256 * qr, 0x1_0000, 0, r + 256 * qr);
    assert (r + 256 * qr) - value == -0x1_0000 * qq;
  }

  /** Reading then writing a short gives back its two bytes. */
  lemma ShortBytesRoundTrip(b0: byte, b1: byte)
    ensures WriteShortLE(ShortOf(b0, b1)) == [b0, b1]
  {
  }

  // ---------------------------------------------------------------- the header

  /** The fields `load_tga` reads from the 18-byte header: id length, colour
      map type and image type at bytes 0 to 2, five colour-map bytes skipped,
      then x and y origin, width and height as little-endian shorts at 8, 10,
      12 and 14, bits per pixel at 16, and the descriptor byte skipped. */
  datatype TgaHeader = TgaHeader(idLength: int, mapType: int, typeCode: int, xOrigin: int, yOrigin: int,
                                 width: int, height: int, bpp: int)

  function ParseHeader(file: seq<byte>): (h: TgaHeader)
    ensures 0 <= h.width < 0x1_0000 && 0 <= h.height < 0x1_0000
    ensures -1 <= h.idLength < 256 && -1 <= h.bpp < 256
  {
    TgaHeader(Get(file, 0), Get(file, 1), Get(file, 2), ReadShortLE(file, 8), ReadShortLE(file, 10),
              ReadShortLE(file, 12), ReadShortLE(file, 14), Get(file, 16))
  }

  /** Why `load_tga` throws. */
  datatype LoadError = DataAlreadyExist | CannotOpen | NotUncompressedTrueColour | BadBitsPerPixel

  /** The two header checks, in order. */
  function HeaderError(h: TgaHeader): (e: Option<LoadError>)
    ensures e == None <==> h.typeCode == 2 && h.mapType == 0 && (h.bpp == 24 || h.bpp == 32)
    ensures e == Some(NotUncompressedTrueColour) <==> h.typeCode != 2 || h.mapType != 0
  {
    if h.typeCode != 2 || h.mapType != 0 then Some(NotUncompressedTrueColour)
    else if h.bpp != 24 && h.bpp != 32 then Some(BadBitsPerPixel)
    else None
  }

  /** The image-ID bytes are skipped, so the pixels start after them. */
  function PixelStart(h: TgaHeader): nat
  {
    18 + (if h.idLength > 0 then h.idLength else 0)
  }

  function BytesPerPixel(h: TgaHeader): nat
  {
    if h.bpp == 32 then 4 else 3
  }

  // ---------------------------------------------------------------- pixel conversion

  /** Byte x of s, total so that it can sit in a generator. */
  function At(s: seq<byte>, x: nat): byte
  {
    if x < |s| then s[x] else 0
  }

  /** `image_buffer` after `read`: the `bufferSize` bytes of the file from
      `start` on, as many as the file still holds; the rest of the buffer
      keeps whatever the allocation left there, given as `garbage`. */
  function ImageBuffer(file: seq<byte>, start: nat, bufferSize: nat, size: nat, garbage: nat -> byte): (image: seq<byte>)
    ensures |image| == size
    ensures forall x :: 0 <= x < size && x < bufferSize && start + x < |file| ==> image[x] == file[start + x]
  {
    seq(size, x requires 0 <= x < size => if x < bufferSize && start + x < |file| then file[start + x] else garbage(x))
  }

  /** Pixel i of an image of k-byte BGR or BGRA pixels, as RGBA; 24-bit
      pixels get alpha 0xFF. */
  function Rgba(image: seq<byte>, k: nat, i: nat): seq<byte>
  {
    [At(image, i * k + 2), At(image, i * k + 1), At(image, i * k), if k == 4 then At(image, i * k + 3) else 0xFF]
  }

  function RgbaGen(image: seq<byte>, k: nat): nat -> seq<byte>
  {
    (i: nat) => Rgba(image, k, i)
  }

  /** The pixel data `load_tga` builds from a buffer of n pixels. */
  function Converted(image: seq<byte>, k: nat, n: nat): seq<byte>
  {
    Concat(RgbaGen(image, k), n)
  }

  /** What `load_tga` leaves in `m_pixel_data` once the header is accepted:
      4 w h bytes (sizes computed without wrap-around; see `SizeAsWritten`). */
  function DecodePixels(file: seq<byte>, h: TgaHeader, garbage: nat -> byte): seq<byte>
    requires h.width >= 0 && h.height >= 0
  {
    var n := h.width * h.height;
    Converted(ImageBuffer(file, PixelStart(h), BytesPerPixel(h) * n, 4 * n, garbage), BytesPerPixel(h), n)
  }

  lemma {:induction false} ConvertedLength(image: seq<byte>, k: nat, n: nat)
    ensures |Converted(image, k, n)| == 4 * n
  {
    ConcatLength(RgbaGen(image, k), n, 4);
  }

  /** Pixel i of the loaded data is (R, G, B, A) taken from bytes 2, 1, 0
      and 3 of pixel i of the file, with A = 0xFF for 24-bit pixels,
      whenever the file holds those bytes. */
  lemma PixelAt(file: seq<byte>, h: TgaHeader, garbage: nat -> byte, i: nat)
    requires h.width >= 0 && h.height >= 0 && i < h.width * h.height
    requires PixelStart(h) + (i + 1) * BytesPerPixel(h) <= |file|
    ensures 4 * i + 4 <= |DecodePixels(file, h, garbage)|
    ensures var k, s := BytesPerPixel(h), PixelStart(h) + i * BytesPerPixel(h);
      DecodePixels(file, h, garbage)[4 * i..4 * i + 4] ==
        [file[s + 2], file[s + 1], file[s], if h.bpp == 32 then file[s + 3] else 0xFF]
  {
    var n, k := h.width * h.height, BytesPerPixel(h);
    var image := ImageBuffer(file, PixelStart(h), k * n, 4 * n, garbage);
    assert DecodePixels(file, h, garbage) == Converted(image, k, n);
    ConcatGroup(RgbaGen(image, k), n, 4, i);
    ImagePixel(file, PixelStart(h), k, n, garbage, i);
  }

  /** Pixel i of a buffer read whole from the file is made of the k bytes
      of the file at start + k i. */
  lemma ImagePixel(file: seq<byte>, start: nat, k: nat, n: nat, garbage: nat -> byte, i: nat)
    requires 3 <= k <= 4 && i < n && start + (i + 1) * k <= |file|
    ensures var s := start + i * k;
      Rgba(ImageBuffer(file, start, k * n, 4 * n, garbage), k, i) ==
        [file[s + 2], file[s + 1], file[s], if k == 4 then file[s + 3] else 0xFF]
  {
    MulSucc(i, k);
    MulMono(i + 1, n, k);
    MulMono(k, 4, n);
    assert k * n == n * k;
  }

  // ---------------------------------------------------------------- writing

  /** The 18 bytes `write_tga` puts first: no image id, no colour map,
      image type 2, zero colour-map information and origin, the width and
      height, 32 bits per pixel and descriptor 8. */
  function HeaderBytes(width: int, height: int): (s: seq<byte>)
    ensures |s| == 18
  {
    [0, 0, 2] + [0, 0, 0, 0, 0] + [0, 0] + [0, 0] + WriteShortLE(width) + WriteShortLE(height) + [32, 8]
  }

  /** Pixel i of RGBA data, written as B, G, R, A. */
  function Bgra(pixels: seq<byte>, i: nat): seq<byte>
  {
    [At(pixels, 4 * i + 2), At(pixels, 4 * i + 1), At(pixels, 4 * i), At(pixels, 4 * i + 3)]
  }

  function BgraGen(pixels: seq<byte>): nat -> seq<byte>
  {
    (i: nat) => Bgra(pixels, i)
  }

  lemma BgraUniform(pixels: seq<byte>)
    ensures Uniform(BgraGen(pixels), 4)
  {
    forall j: nat
      ensures |BgraGen(pixels)(j)| == 4
    {
      assert BgraGen(pixels)(j) == Bgra(pixels, j);
    }
  }

  /** The file `write_tga` produces for a w by h image. */
  function EncodeTga(width: int, height: int, pixels: seq<byte>): seq<byte>
    requires width >= 0 && height >= 0
  {
    HeaderBytes(width, height) + Concat(BgraGen(pixels), width * height)
  }

  /** The header `write_tga` describes: an uncompressed true-colour image
      of 32 bits per pixel, with no image id and no colour map. */
  function WrittenHeader(width: int, height: int): TgaHeader
  {
    TgaHeader(0, 0, 2, 0, 0, width, height, 32)
  }

  /** The header `load_tga` reads back from a written file is the one
      written, and it passes both checks. */
  lemma HeaderRoundTrip(width: int, height: int, pixels: seq<byte>)
    requires 0 <= width < 0x1_0000 && 0 <= height < 0x1_0000
    ensures ParseHeader(EncodeTga(width, height, pixels)) == WrittenHeader(width, height)
    ensures HeaderError(WrittenHeader(width, height)) == None
  {
    var file := EncodeTga(width, height, pixels);
    ShortRoundTrip(width);
    ShortRoundTrip(height);
    assert file[12..14] == WriteShortLE(width) && file[14..16] == WriteShortLE(height);
  }

  /** The image buffer `load_tga` reads from a written file holds exactly
      the pixel bytes that follow the header. */
  lemma EncodedImage(width: int, height: int, pixels: seq<byte>, garbage: nat -> byte)
    requires width >= 0 && height >= 0 && |pixels| == 4 * (width * height)
    ensures ImageBuffer(EncodeTga(width, height, pixels), 18, 4 * (width * height), 4 * (width * height), garbage)
      == Concat(BgraGen(pixels), width * height)
  {
    var n := width * height;
    var file := EncodeTga(width, height, pixels);
    var body := Concat(BgraGen(pixels), n);
    BgraUniform(pixels);
    ConcatLength(BgraGen(pixels), n, 4);
    var image := ImageBuffer(file, 18, 4 * n, 4 * n, garbage);
    forall x | 0 <= x < 4 * n
      ensures image[x] == body[x]
    {
      assert file[18 + x] == body[x];
    }
  }

  /** Decoding the pixels of a written file by the header written gives
      back the RGBA data, whatever the allocation left in the image buffer. */
  lemma PixelsRoundTrip(width: nat, height: nat, pixels: seq<byte>, garbage: nat -> byte)
    requires |pixels| == 4 * (width * height)
    ensures DecodePixels(EncodeTga(width, height, pixels), WrittenHeader(width, height), garbage) == pixels
  {
    var h := WrittenHeader(width, height);
    assert PixelStart(h) == 18 && BytesPerPixel(h) == 4;
    EncodedImage(width, height, pixels, garbage);
    ConvertedPrefix(pixels, width * height, width * height);
  }

  /** Reading back the first m written pixels gives the first 4 m bytes. */
  lemma {:induction false} ConvertedPrefix(pixels: seq<byte>, n: nat, m: nat)
    requires |pixels| == 4 * n && m <= n
    ensures Converted(Concat(BgraGen(pixels), n), 4, m) == pixels[..4 * m]
  {
    if m > 0 {
      var body := Concat(BgraGen(pixels), n);
      ConvertedPrefix(pixels, n, m - 1);
      ConcatGroup(BgraGen(pixels), n, 4, m - 1);
      var i := m - 1;
      assert body[i * 4..i * 4 + 4] == Bgra(pixels, i);
      assert Rgba(body, 4, i) == pixels[4 * i..4 * i + 4];
      assert pixels[..4 * m] == pixels[..4 * i] + pixels[4 * i..4 * i + 4];
    }
  }

  // ---------------------------------------------------------------- the 32-bit sizes

  /** `size = m_width * m_height * 4` as the code computes it, in 32-bit
      unsigned arithmetic. */
  function SizeAsWritten(width: int, height: int): u32
  {
    ToU32(ToU32(width * height) * 4)
  }

  /** A 32768 by 32768 image, which the header can describe, gets a
      pixel buffer of 0 bytes, although the conversion loop writes 4 bytes
      for each of its 2^30 pixels. */
  lemma SizeWraps()
    ensures SizeAsWritten(0x8000, 0x8000) == 0 && 4 * (0x8000 * 0x8000) == U32Limit
    ensures ParseHeader(HeaderBytes(0x8000, 0x8000)).width == 0x8000
  {
    ShortRoundTrip(0x8000);
    assert HeaderBytes(0x8000, 0x8000)[12..14] == WriteShortLE(0x8000);
  }

  /** Below 2^30 pixels the 32-bit size is exact, and the product of two
      16-bit sides never wraps. */
  lemma SizeExact(width: int, height: int)
    requires 0 <= width < 0x1_0000 && 0 <= height < 0x1_0000
    ensures width * height < U32Limit && ToU32(width * height) == width * height
    ensures width * height < 0x4000_0000 ==> SizeAsWritten(width, height) == 4 * (width * height)
  {
    MulMono(width, 0xFFFF, height);
    MulMono(height, 0xFFFF, 0xFFFF);
  }

  // ---------------------------------------------------------------- the texture

  /** `new GLubyte[size]` followed by `read(image_buffer, bufferSize)`:
      the stream stops at the end of the file, and the bytes it does not
      reach keep what the allocation left. */
  method ReadImage(f: seq<byte>, start: nat, bufferSize: nat, size: nat, garbage: nat -> byte)
    returns (imageBuffer: array<byte>)
    requires bufferSize <= size
    ensures fresh(imageBuffer) && imageBuffer[..] == ImageBuffer(f, start, bufferSize, size, garbage)
  {
    imageBuffer := new byte[size](x => garbage(x));
    ghost var initial := imageBuffer[..];
    assert forall x :: 0 <= x < size ==> imageBuffer[x] == garbage(x);
    var avail := if start + bufferSize <= |f| then bufferSize else if start <= |f| then |f| - start else 0;
    if avail > 0 {
      Store(imageBuffer, 0, 0, f[start..start + avail]);
    }
    assert imageBuffer[..] == ImageBuffer(f, start, bufferSize, size, garbage) by {
      forall x | 0 <= x < size
        ensures imageBuffer[x] == ImageBuffer(f, start, bufferSize, size, garbage)[x]
      {
        if x < avail {
          assert imageBuffer[..avail][x] == f[start + x];
        } else {
          assert imageBuffer[avail..][x - avail] == initial[avail..][x - avail] == initial[x] == garbage(x);
        }
      }
    }
  }

  /** The conversion loop of `load_tga`: pixel i of the image buffer, at
      i k, becomes bytes 4 i to 4 i + 3 of the pixel data, as RGBA. */
  method ConvertPixels(imageBuffer: array<byte>, bpp: int, bytesNum: nat, widthHeight: nat)
    returns (pixels: array<byte>)
    requires bytesNum == (if bpp == 32 then 4 else 3) && imageBuffer.Length == 4 * widthHeight
    ensures fresh(pixels) && pixels.Length == 4 * widthHeight
    ensures pixels[..] == Converted(imageBuffer[..], bytesNum, widthHeight)
  {
    pixels := new byte[4 * widthHeight];
    for i := 0 to widthHeight
      invariant pixels[..4 * i] == Converted(imageBuffer[..], bytesNum, i)
    {
      MulSucc(i, bytesNum);
      MulMono(i + 1, widthHeight, bytesNum);
      MulMono(bytesNum, 4, widthHeight);
      var src := i * bytesNum;
      var alpha := if bpp == 32 then imageBuffer[src + 3] else 0xFF;
      Store(pixels, 0, 4 * i, [imageBuffer[src + 2], imageBuffer[src + 1], imageBuffer[src], alpha]);
    }
    assert pixels[..] == pixels[..4 * widthHeight];
  }

  /** Why `write_tga` throws. */
  datatype WriteError = CannotOpenForWriting

  class Texture {
    var width: u32
    var height: u32
    var pixelData: array?<byte>

    /** The sides come from 16-bit header fields, and the pixel data holds
        four bytes for each pixel. */
    predicate Valid()
      reads this
    {
      width < 0x1_0000 && height < 0x1_0000 &&
      (pixelData != null ==> pixelData.Length == 4 * (width * height))
    }

    /** The pixel data as a sequence; none when there is no buffer. */
    function PixelBytes(): seq<byte>
      reads this, pixelData
    {
      if pixelData == null then [] else pixelData[..]
    }

    constructor()
      ensures width == 0 && height == 0 && pixelData == null && Valid()
    {
      width, height, pixelData := 0, 0, null;
    }

    /** `load_tga` on the contents of a file (`None`: it cannot be
        opened). `garbage` stands for what the freshly allocated image
        buffer holds before the file is read into it. The width and height
        are stored before the header checks, so a rejected file still
        changes them. */
    method LoadTga(file: Option<seq<byte>>, garbage: nat -> byte) returns (r: Result<(), LoadError>)
      requires Valid()
      modifies this
      ensures Valid()
      ensures old(pixelData) != null ==>
        r == Err(DataAlreadyExist) && width == old(width) && height == old(height) && pixelData == old(pixelData)
      ensures old(pixelData) == null && file == None ==>
        r == Err(CannotOpen) && width == old(width) && height == old(height) && pixelData == null
      ensures old(pixelData) == null && file.Some? ==>
        var h := ParseHeader(file.value);
        width == h.width && height == h.height &&
        (HeaderError(h).Some? ==> r == Err(HeaderError(h).value) && pixelData == null) &&
        (HeaderError(h) == None ==>
          r == Ok(()) && pixelData != null && fresh(pixelData) && pixelData[..] == DecodePixels(file.value, h, garbage))
    {
      if pixelData != null {
        return Err(DataAlreadyExist);
      }
      if file == None {
        return Err(CannotOpen);
      }
      var f := file.value;
      var h := ParseHeader(f);
      width, height := h.width, h.height;
      if h.typeCode != 2 || h.mapType != 0 {
        return Err(NotUncompressedTrueColour);
      }
      if h.bpp != 24 && h.bpp != 32 {
        return Err(BadBitsPerPixel);
      }
      SizeExact(h.width, h.height);
      var widthHeight := width * height;
      var bytesNum := BytesPerPixel(h);
      var imageBuffer := ReadImage(f, PixelStart(h), bytesNum * widthHeight, 4 * widthHeight, garbage);
      pixelData := ConvertPixels(imageBuffer, h.bpp, bytesNum, widthHeight);
      r := Ok(());
    }

    /** `write_tga` (`created`: whether the file could be created): the
        header and then every pixel as B, G, R, A. */
    method WriteTga(created: bool) returns (r: Result<seq<byte>, WriteError>)
      requires Valid() && (pixelData != null || width * height == 0)
      ensures !created ==> r == Err(CannotOpenForWriting)
      ensures created ==> r == Ok(EncodeTga(width, height, PixelBytes()))
      ensures created && width * height == 0 ==> r == Ok(HeaderBytes(width, height))
    {
      if !created {
        return Err(CannotOpenForWriting);
      }
      var out := [0, 0, 2] + [0, 0, 0, 0, 0] + [0, 0] + [0, 0];
      out := out + WriteShortLE(width);
      out := out + WriteShortLE(height);
      out := out + [32, 8];
      assert out == HeaderBytes(width, height);
      for i := 0 to width * height
        invariant out == HeaderBytes(width, height) + Concat(BgraGen(PixelBytes()), i)
      {
        assert pixelData != null;
        MulSucc(i, 4);
        MulMono(i + 1, width * height, 4);
        out := out + [pixelData[4 * i + 2], pixelData[4 * i + 1], pixelData[4 * i], pixelData[4 * i + 3]];
      }
      r := Ok(out);
    }
  }

  /** Writing a texture with `write_tga` and loading the file into a new
      texture with `load_tga` reproduces the sides and the RGBA data. */
  method FileRoundTrip(src: Texture, garbage: nat -> byte) returns (dst: Texture, r: Result<(), LoadError>)
    requires src.Valid() && src.pixelData != null
    ensures r == Ok(()) && dst.Valid()
    ensures dst.width == src.width && dst.height == src.height
    ensures dst.pixelData != null && dst.pixelData[..] == src.pixelData[..]
  {
    var written := src.WriteTga(true);
    var file := written.value;
    HeaderRoundTrip(src.width, src.height, src.pixelData[..]);
    PixelsRoundTrip(src.width, src.height, src.pixelData[..], garbage);
    dst := new Texture();
    r := dst.LoadTga(Some(file), garbage);
  }
}
