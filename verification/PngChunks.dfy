/**
 The PNG container (RFC 2083 sections 3 and 4.1): writing an RGBA image, and reading one
 back whatever filters its scanlines use and however its stream is split into IDAT chunks.

 `deflate` and `inflate` stand for zlib, `crc` for CRC-32.
 */
module PngChunks {
  import opened Wrappers
  import opened Bytes
  import opened PngFilters

  const SIGNATURE: seq<Byte> := [0x89, 0x50, 0x4E, 0x47, 0x0D, 0x0A, 0x1A, 0x0A]
  const IHDR: seq<Byte> := [0x49, 0x48, 0x44, 0x52]
  const IDAT: seq<Byte> := [0x49, 0x44, 0x41, 0x54]
  const IEND: seq<Byte> := [0x49, 0x45, 0x4E, 0x44]

  datatype PngError = NotPng | Truncated | Unsupported | NoHeader | BadStream | ShortScanlines | TooLarge

  datatype Image = Image(width: nat, height: nat, pixels: seq<Byte>)

  /** What the chunk loop has gathered. */
  datatype Parsed = Parsed(size: Option<(nat, nat)>, idat: seq<Byte>)

  /** A slice never fails: its bounds are cut to the data. */
  function Slice(b: seq<Byte>, from: nat, to: nat): (s: seq<Byte>)
    requires from <= to
  {
    b[Least(from, |b|)..Least(to, |b|)]
  }

  function Least(a: nat, b: nat): nat {
    if a <= b then a else b
  }

  /** The header's size and format fields; the bytes behind them are not looked at. */
  function HeaderSize(cdata: seq<Byte>): Result<(nat, nat), PngError> {
    if |cdata| < 10 then Err(Truncated)
    else if cdata[8] != 8 || cdata[9] != 6 then Err(Unsupported)
    else Ok((FromBigEndian(cdata[..4]), FromBigEndian(cdata[4..8])))
  }

  /** What one chunk adds; nothing further is read after IEND. */
  function Gathered(got: Parsed, ctype: seq<Byte>, cdata: seq<Byte>): Result<Parsed, PngError> {
    if ctype == IHDR then
      match HeaderSize(cdata)
      case Err(e) => Err(e)
      case Ok(size) => Ok(got.(size := Some(size)))
    else if ctype == IDAT then Ok(got.(idat := got.idat + cdata))
    else Ok(got)
  }

  /** The chunks of `data`, to the end of it or to IEND. Checksums are not compared. */
  function Chunks(data: seq<Byte>, got: Parsed): Result<Parsed, PngError>
    decreases |data|
  {
    if data == [] then Ok(got)
    else if |data| < 4 then Err(Truncated)
    else
      var length := FromBigEndian(data[..4]);
      var ctype := Slice(data, 4, 8);
      var got' := Gathered(got, ctype, Slice(data, 8, 8 + length));
      if got'.Err? || ctype == IEND then got' else Chunks(data[Least(12 + length, |data|)..], got'.value)
  }

  function Decoded(p: Parsed, inflate: seq<Byte> -> Option<seq<Byte>>): Result<Image, PngError> {
    if p.size.None? then Err(NoHeader)
    else
      var (width, height) := p.size.value;
      var raw := inflate(p.idat);
      if raw.None? then Err(BadStream)
      else if |raw.value| < Size(height, width * 4 + 1) then Err(ShortScanlines)
      else Ok(Image(width, height, Pixels(raw.value, width * 4, height, [])))
  }

  function Opened(data: seq<Byte>, inflate: seq<Byte> -> Option<seq<Byte>>): Result<Image, PngError> {
    if Slice(data, 0, 8) != SIGNATURE then Err(NotPng)
    else
      match Chunks(data[8..], Parsed(None, []))
      case Err(e) => Err(e)
      case Ok(p) => Decoded(p, inflate)
  }

  // ---- Reading -------------------------------------------------------------------------

  /** One turn of the chunk loop, in terms of the index into the file. */
  lemma ChunksAt(data: seq<Byte>, idx: nat, length: nat, got: Parsed)
    requires idx + 4 <= |data| && length == FromBigEndian(data[idx..idx + 4])
    ensures var ctype := Slice(data, idx + 4, idx + 8);
            var got' := Gathered(got, ctype, Slice(data, idx + 8, idx + 8 + length));
            Chunks(data[idx..], got)
            == if got'.Err? || ctype == IEND then got' else Chunks(data[Least(idx + 12 + length, |data|)..], got'.value)
  {
    var rest := data[idx..];
    assert rest[..4] == data[idx..idx + 4];
    assert Slice(rest, 4, 8) == Slice(data, idx + 4, idx + 8);
    assert Slice(rest, 8, 8 + length) == Slice(data, idx + 8, idx + 8 + length);
    assert rest[Least(12 + length, |rest|)..] == data[Least(idx + 12 + length, |data|)..];
  }

  method ReadHeader(cdata: seq<Byte>) returns (r: Result<(nat, nat), PngError>)
    ensures r == HeaderSize(cdata)
  {
    if |cdata| < 10 {
      return Err(Truncated);
    }
    if cdata[8] != 8 || cdata[9] != 6 {
      return Err(Unsupported);
    }
    r := Ok((FromBigEndian(cdata[..4]), FromBigEndian(cdata[4..8])));
  }

  /** The chunk loop, stepping an index through the file. */
  method ParseChunks(data: seq<Byte>) returns (r: Result<Parsed, PngError>)
    requires |data| >= 8
    ensures r == Chunks(data[8..], Parsed(None, []))
  {
    var idx := 8;
    var size: Option<(nat, nat)> := None;
    var idat: seq<Byte> := [];
    ghost var goal := Chunks(data[8..], Parsed(None, []));
    while idx < |data|
      invariant idx >= 8 && Chunks(data[Least(idx, |data|)..], Parsed(size, idat)) == goal
      decreases |data| - idx
    {
      if idx + 4 > |data| {
        return Err(Truncated);
      }
      var length := FromBigEndian(data[idx..idx + 4]);
      ChunksAt(data, idx, length, Parsed(size, idat));
      var ctype, cdata := Slice(data, idx + 4, idx + 8), Slice(data, idx + 8, idx + 8 + length);
      idx := idx + 12 + length;
      if ctype == IHDR {
        var header := ReadHeader(cdata);
        if header.Err? {
          return Err(header.error);
        }
        size := Some(header.value);
      } else if ctype == IDAT {
        idat := idat + cdata;
      } else if ctype == IEND {
        return Ok(Parsed(size, idat));
      }
    }
    r := Ok(Parsed(size, idat));
  }

  method ReadPng(data: seq<Byte>, inflate: seq<Byte> -> Option<seq<Byte>>) returns (r: Result<Image, PngError>)
    ensures r == Opened(data, inflate)
  {
    if Slice(data, 0, 8) != SIGNATURE {
      return Err(NotPng);
    }
    var parsed := ParseChunks(data);
    if parsed.Err? {
      return Err(parsed.error);
    }
    if parsed.value.size.None? {
      return Err(NoHeader);
    }
    var (width, height) := parsed.value.size.value;
    var raw := inflate(parsed.value.idat);
    if raw.None? {
      return Err(BadStream);
    }
    SizeIs(height, width * 4 + 1);
    if |raw.value| < height * (width * 4 + 1) {
      return Err(ShortScanlines);
    }
    var pixels := ReadPixels(raw.value, width, height);
    r := Ok(Image(width, height, pixels[..]));
  }

  // ---- Writing -------------------------------------------------------------------------

  function ChunkOf(ctype: seq<Byte>, cdata: seq<Byte>, crc: seq<Byte> -> int): (c: seq<Byte>)
    requires |ctype| == 4 && |cdata| < TWO_32
    ensures |c| == 12 + |cdata|
  {
    ToBigEndian(|cdata|) + ctype + cdata + ToBigEndian(crc(ctype + cdata) % TWO_32)
  }

  function Header(width: nat, height: nat): (h: seq<Byte>)
    requires width < TWO_32 && height < TWO_32
  {
    ToBigEndian(width) + ToBigEndian(height) + [8, 6, 0, 0, 0]
  }

  predicate Fit(parts: seq<seq<Byte>>) {
    forall i :: 0 <= i < |parts| ==> |parts[i]| < TWO_32
  }

  /** One IDAT chunk for each part. */
  function DataChunks(parts: seq<seq<Byte>>, crc: seq<Byte> -> int): seq<Byte>
    requires Fit(parts)
  {
    if parts == [] then [] else ChunkOf(IDAT, parts[0], crc) + DataChunks(parts[1..], crc)
  }

  function File(width: nat, height: nat, parts: seq<seq<Byte>>, crc: seq<Byte> -> int): seq<Byte>
    requires width < TWO_32 && height < TWO_32 && Fit(parts)
  {
    SIGNATURE + (ChunkOf(IHDR, Header(width, height), crc) + (DataChunks(parts, crc) + ChunkOf(IEND, [], crc)))
  }

  /** Every scanline unfiltered, with its type byte; a short buffer gives short lines. */
  function PlainLines(pixels: seq<Byte>, stride: nat, height: nat): (raw: seq<Byte>)
    decreases height
  {
    if height == 0 then []
    else [0] + Slice(pixels, 0, stride) + PlainLines(pixels[Least(stride, |pixels|)..], stride, height - 1)
  }

  method WritePng(image: Image, deflate: seq<Byte> -> seq<Byte>, crc: seq<Byte> -> int)
      returns (r: Result<seq<Byte>, PngError>)
    ensures var raw := PlainLines(image.pixels, image.width * 4, image.height);
            r == if image.width < TWO_32 && image.height < TWO_32 && |deflate(raw)| < TWO_32
                 then Ok(File(image.width, image.height, [deflate(raw)], crc)) else Err(TooLarge)
  {
    var stride := image.width * 4;
    var raw: seq<Byte> := [];
    var rest := image.pixels;
    for y := 0 to image.height
      invariant raw + PlainLines(rest, stride, image.height - y) == PlainLines(image.pixels, stride, image.height)
    {
      raw := raw + [0] + Slice(rest, 0, stride);
      rest := rest[Least(stride, |rest|)..];
    }
    assert raw + [] == raw;
    var compressed := deflate(raw);
    if image.width >= TWO_32 || image.height >= TWO_32 || |compressed| >= TWO_32 {
      return Err(TooLarge);
    }
    var file := SIGNATURE
      + ChunkOf(IHDR, Header(image.width, image.height), crc)
      + ChunkOf(IDAT, compressed, crc)
      + ChunkOf(IEND, [], crc);
    OnePart(image.width, image.height, compressed, crc);
    r := Ok(file);
  }

  lemma OnePart(width: nat, height: nat, part: seq<Byte>, crc: seq<Byte> -> int)
    requires width < TWO_32 && height < TWO_32 && |part| < TWO_32
    ensures File(width, height, [part], crc)
            == SIGNATURE + ChunkOf(IHDR, Header(width, height), crc) + ChunkOf(IDAT, part, crc) + ChunkOf(IEND, [], crc)
  {
    assert DataChunks([part], crc) == ChunkOf(IDAT, part, crc) + [];
  }

  // ---- Round trips ---------------------------------------------------------------------

  /** Reading a written chunk finds its type, its data and the rest of the file. */
  lemma ChunkRead(ctype: seq<Byte>, cdata: seq<Byte>, crc: seq<Byte> -> int, rest: seq<Byte>)
    requires |ctype| == 4 && |cdata| < TWO_32
    ensures var data := ChunkOf(ctype, cdata, crc) + rest;
            && |data| >= 12 + |cdata| && FromBigEndian(data[..4]) == |cdata|
            && Slice(data, 4, 8) == ctype && Slice(data, 8, 8 + |cdata|) == cdata
            && data[Least(12 + |cdata|, |data|)..] == rest
  {
    var data := ChunkOf(ctype, cdata, crc) + rest;
    BigEndianRoundTrip(|cdata|, ToBigEndian(|cdata|));
    assert data[..4] == ToBigEndian(|cdata|);
    assert data[4..8] == ctype && data[8..8 + |cdata|] == cdata;
  }

  lemma Append(a: seq<Byte>, b: seq<Byte>, c: seq<Byte>)
    ensures a + b + c == a + (b + c)
  {
  }

  function Joined(parts: seq<seq<Byte>>): seq<Byte> {
    if parts == [] then [] else parts[0] + Joined(parts[1..])
  }

  lemma DataChunk(part: seq<Byte>, crc: seq<Byte> -> int, got: Parsed, rest: seq<Byte>)
    requires |part| < TWO_32
    ensures Chunks(ChunkOf(IDAT, part, crc) + rest, got) == Chunks(rest, Parsed(got.size, got.idat + part))
  {
    ChunkRead(IDAT, part, crc, rest);
    assert IDAT[1] != IHDR[1] && IDAT[1] != IEND[1];
  }

  /** The stream is the same however it is split into IDAT chunks. */
  lemma {:induction false} DataChunksJoin(parts: seq<seq<Byte>>, crc: seq<Byte> -> int, got: Parsed, rest: seq<Byte>)
    requires Fit(parts)
    ensures Chunks(DataChunks(parts, crc) + rest, got) == Chunks(rest, Parsed(got.size, got.idat + Joined(parts)))
  {
    if parts == [] {
      assert got.idat + [] == got.idat && [] + rest == rest;
    } else {
      var more := DataChunks(parts[1..], crc);
      Append(ChunkOf(IDAT, parts[0], crc), more, rest);
      DataChunk(parts[0], crc, got, more + rest);
      DataChunksJoin(parts[1..], crc, Parsed(got.size, got.idat + parts[0]), rest);
      Append(got.idat, parts[0], Joined(parts[1..]));
    }
  }

  lemma HeaderRead(width: nat, height: nat)
    requires width < TWO_32 && height < TWO_32
    ensures |Header(width, height)| == 13 && HeaderSize(Header(width, height)) == Ok((width, height))
  {
    BigEndianRoundTrip(width, ToBigEndian(width));
    BigEndianRoundTrip(height, ToBigEndian(height));
    assert Header(width, height)[..4] == ToBigEndian(width) && Header(width, height)[4..8] == ToBigEndian(height);
  }

  lemma HeaderChunk(width: nat, height: nat, crc: seq<Byte> -> int, rest: seq<Byte>)
    requires width < TWO_32 && height < TWO_32
    ensures Chunks(ChunkOf(IHDR, Header(width, height), crc) + rest, Parsed(None, []))
            == Chunks(rest, Parsed(Some((width, height)), []))
  {
    HeaderRead(width, height);
    ChunkRead(IHDR, Header(width, height), crc, rest);
  }

  lemma EndChunk(crc: seq<Byte> -> int, got: Parsed)
    ensures Chunks(ChunkOf(IEND, [], crc), got) == Ok(got)
  {
    ChunkRead(IEND, [], crc, []);
    assert ChunkOf(IEND, [], crc) + [] == ChunkOf(IEND, [], crc);
    assert IEND[1] != IHDR[1] && IEND[1] != IDAT[1];
  }

  /** The chunk loop returns the header's size and the joined stream. */
  lemma FileParses(width: nat, height: nat, parts: seq<seq<Byte>>, crc: seq<Byte> -> int)
    requires width < TWO_32 && height < TWO_32 && Fit(parts)
    ensures var data := File(width, height, parts, crc);
            && Slice(data, 0, 8) == SIGNATURE
            && Chunks(data[8..], Parsed(None, [])) == Ok(Parsed(Some((width, height)), Joined(parts)))
  {
    var data, tail := File(width, height, parts, crc), DataChunks(parts, crc) + ChunkOf(IEND, [], crc);
    assert data[8..] == ChunkOf(IHDR, Header(width, height), crc) + tail;
    HeaderChunk(width, height, crc, tail);
    var got := Parsed(Some((width, height)), []);
    DataChunksJoin(parts, crc, got, ChunkOf(IEND, [], crc));
    assert got.idat + Joined(parts) == Joined(parts);
    EndChunk(crc, Parsed(got.size, Joined(parts)));
  }

  /**
   Any RGBA image, filtered row by row with any of the filters and its stream cut into
   IDAT chunks anywhere, reads back as itself.
   */
  lemma AnyEncodingReadsBack(rows: seq<seq<Byte>>, width: nat, kinds: seq<Byte>, parts: seq<seq<Byte>>,
                             deflate: seq<Byte> -> seq<Byte>, inflate: seq<Byte> -> Option<seq<Byte>>,
                                 crc: seq<Byte> -> int)
    requires forall b :: inflate(deflate(b)) == Some(b)
    requires Rows(rows, width * 4) && |kinds| == |rows| && width < TWO_32 && |rows| < TWO_32
    requires Fit(parts) && Joined(parts) == deflate(Scanlines(rows, kinds, []))
    ensures Opened(File(width, |rows|, parts, crc), inflate) == Ok(Image(width, |rows|, Flat(rows)))
  {
    FileParses(width, |rows|, parts, crc);
    DecodedImage(rows, width, kinds, deflate(Scanlines(rows, kinds, [])), inflate);
  }

  lemma DecodedImage(rows: seq<seq<Byte>>, width: nat, kinds: seq<Byte>, stream: seq<Byte>,
                     inflate: seq<Byte> -> Option<seq<Byte>>)
    requires Rows(rows, width * 4) && |kinds| == |rows| && inflate(stream) == Some(Scanlines(rows, kinds, []))
    ensures Decoded(Parsed(Some((width, |rows|)), stream), inflate) == Ok(Image(width, |rows|, Flat(rows)))
  {
    PixelsInvertScanlines(rows, kinds, [], width * 4);
  }

  function RowsOf(pixels: seq<Byte>, stride: nat, height: nat): (rows: seq<seq<Byte>>)
    requires |pixels| == Size(height, stride)
    ensures |rows| == height && Rows(rows, stride) && Flat(rows) == pixels
    decreases height
  {
    if height == 0 then [] else [pixels[..stride]] + RowsOf(pixels[stride..], stride, height - 1)
  }

  function Zeros(n: nat): (z: seq<Byte>)
    ensures |z| == n && forall i :: 0 <= i < n ==> z[i] == 0
  {
    seq(n, i => 0)
  }

  lemma NoFilter(row: seq<Byte>, prev: seq<Byte>)
    ensures FilterRow(0, row, prev) == row
  {
  }

  lemma {:induction false} PlainIsScanlines(pixels: seq<Byte>, stride: nat, height: nat, prev: seq<Byte>)
    requires |pixels| == Size(height, stride)
    ensures PlainLines(pixels, stride, height) == Scanlines(RowsOf(pixels, stride, height), Zeros(height), prev)
    decreases height
  {
    if height > 0 {
      NoFilter(pixels[..stride], prev);
      PlainIsScanlines(pixels[stride..], stride, height - 1, pixels[..stride]);
      assert Zeros(height)[1..] == Zeros(height - 1);
    }
  }

  /** Reading what the writer wrote returns the same width, height and pixels. */
  lemma WrittenReadsBack(image: Image, deflate: seq<Byte> -> seq<Byte>, inflate: seq<Byte> -> Option<seq<Byte>>,
                         crc: seq<Byte> -> int)
    requires forall b :: inflate(deflate(b)) == Some(b)
    requires image.width < TWO_32 && image.height < TWO_32 && |image.pixels| == Size(image.height, image.width * 4)
    requires |deflate(PlainLines(image.pixels, image.width * 4, image.height))| < TWO_32
    ensures Opened(File(image.width, image.height, [deflate(PlainLines(image.pixels, image.width * 4, image.height))],
                        crc), inflate)
            == Ok(image)
  {
    var rows := RowsOf(image.pixels, image.width * 4, image.height);
    var stream := deflate(PlainLines(image.pixels, image.width * 4, image.height));
    PlainIsScanlines(image.pixels, image.width * 4, image.height, []);
    assert Joined([stream]) == stream + Joined([]) == stream;
    AnyEncodingReadsBack(rows, image.width, Zeros(image.height), [stream], deflate, inflate, crc);
  }
}
