/**
 What the PNG reader and writer mean byte by byte, in the standard's own numbers
 (RFC 2083): the filters, the layout of a written file, and the files a reader accepts.
 */
module PngLaws {
  import opened Wrappers
  import opened Bytes
  import opened PngFilters
  import opened PngChunks

  // ---- Filters -------------------------------------------------------------------------

  /** The neighbour nearest to left plus up minus corner; ties go left, then up. */
  ghost predicate Nearest(p: int, left: int, up: int, corner: int) {
    var e := left + up - corner;
    && (p == left || p == up || p == corner)
    && Abs(e - p) <= Abs(e - left) && Abs(e - p) <= Abs(e - up) && Abs(e - p) <= Abs(e - corner)
    && (p != left ==> Abs(e - p) < Abs(e - left))
    && (p != left && p != up ==> Abs(e - p) < Abs(e - up))
  }

  /** The byte `b` that the filtered byte `f` stands for, given its neighbours. */
  ghost predicate Undone(kind: int, f: int, left: int, up: int, corner: int, b: int) {
    if kind == 1 then b == (f + left) % 256
    else if kind == 2 then b == (f + up) % 256
    else if kind == 3 then forall p :: 2 * p <= left + up <= 2 * p + 1 ==> b == (f + p) % 256
    else if kind == 4 then forall p :: Nearest(p, left, up, corner) ==> b == (f + p) % 256
    else b == f
  }

  /** The average and the nearest neighbour exist and are unique, so `Undone` names one byte. */
  lemma UndoneNamesOne(kind: Byte, f: Byte, left: Byte, up: Byte, corner: Byte, b: Byte, c: Byte)
    requires Undone(kind, f, left, up, corner, b) && Undone(kind, f, left, up, corner, c)
    ensures b == c
  {
    if kind == 3 {
      var p := (left as int + up as int) / 2;
      assert 2 * p <= left + up <= 2 * p + 1;
    } else if kind == 4 {
      PaethNearest(left, up, corner);
      assert Nearest(Paeth(left, up, corner), left, up, corner);
    }
  }

  lemma PredictUndoes(kind: Byte, f: Byte, left: Byte, up: Byte, corner: Byte)
    ensures Undone(kind, f, left, up, corner, Plus(f, Predict(kind, left, up, corner)))
  {
    if kind == 4 {
      PaethNearest(left, up, corner);
      forall p | Nearest(p, left, up, corner) ensures p == Paeth(left, up, corner) {
      }
    }
  }

  /** Each byte of a recovered row is undone against the bytes one pixel left, above, and both. */
  lemma RowUndone(kind: Byte, f: seq<Byte>, prev: seq<Byte>, i: nat)
    requires i < |f| && (|prev| == 0 || |prev| == |f|)
    ensures var row := RecoverRow(kind, f, prev);
            Undone(kind, f[i], if i >= 4 then row[i - 4] else 0, if prev != [] then prev[i] else 0,
                   if prev != [] && i >= 4 then prev[i - 4] else 0, row[i])
  {
    var row := RecoverRow(kind, f, prev);
    RecoveredAt(kind, f, prev, |f|, i);
    PredictUndoes(kind, f[i], LeftOf(row, i), Above(prev, i), if i >= 4 then Above(prev, i - 4) else 0);
  }

  // ---- Images --------------------------------------------------------------------------

  lemma {:induction false} SizeGrows(y: nat, n: nat, width: nat)
    requires y < n
    ensures Size(y, width) + width <= Size(n, width)
    decreases n
  {
    if y < n - 1 {
      SizeGrows(y, n - 1, width);
    }
  }

  /** Row `y` of rows of `width` bytes each. */
  function RowAt(b: seq<Byte>, width: nat, y: nat): (row: seq<Byte>)
    requires Size(y, width) + width <= |b|
    ensures |row| == width
  {
    b[Size(y, width)..Size(y, width) + width]
  }

  /** Byte `i` of the row is what the scanline, its type byte in front, stands for there. */
  ghost predicate ByteMeans(line: seq<Byte>, above: seq<Byte>, row: seq<Byte>, i: nat)
    requires |line| == |row| + 1 && (above == [] || |above| == |row|) && i < |row|
  {
    Undone(line[0], line[i + 1], if i >= 4 then row[i - 4] else 0, if above != [] then above[i] else 0,
           if above != [] && i >= 4 then above[i - 4] else 0, row[i])
  }

  ghost predicate RowMeans(line: seq<Byte>, above: seq<Byte>, row: seq<Byte>)
    requires |line| == |row| + 1 && (above == [] || |above| == |row|)
  {
    forall i :: 0 <= i < |row| ==> ByteMeans(line, above, row, i)
  }

  lemma RecoverMeans(line: seq<Byte>, above: seq<Byte>, row: seq<Byte>)
    requires |line| == |row| + 1 && (above == [] || |above| == |row|) && row == RecoverRow(line[0], line[1..], above)
    ensures RowMeans(line, above, row)
  {
    forall i | 0 <= i < |row| ensures ByteMeans(line, above, row, i) {
      RowUndone(line[0], line[1..], above, i);
      assert line[1..][i] == line[i + 1];
    }
  }

  lemma TailRow(b: seq<Byte>, width: nat, head: seq<Byte>, rest: seq<Byte>, y: nat)
    requires b == head + rest && |head| == width && Size(y, width) + width <= |rest|
    ensures Size(y + 1, width) + width <= |b| && RowAt(b, width, y + 1) == RowAt(rest, width, y)
  {
  }

  /** The row above row `y`; `prev` is above the first. */
  function AboveOf(pixels: seq<Byte>, stride: nat, prev: seq<Byte>, y: nat): seq<Byte>
    requires prev == [] || |prev| == stride
  {
    if y > 0 && Size(y - 1, stride) + stride <= |pixels| then RowAt(pixels, stride, y - 1) else prev
  }

  /** Row `y` of the pixels against its scanline and the row above. */
  ghost predicate RowReads(raw: seq<Byte>, stride: nat, pixels: seq<Byte>, prev: seq<Byte>, y: nat)
    requires prev == [] || |prev| == stride
  {
    && Size(y, stride + 1) + (stride + 1) <= |raw| && Size(y, stride) + stride <= |pixels|
    && RowMeans(RowAt(raw, stride + 1, y), AboveOf(pixels, stride, prev, y), RowAt(pixels, stride, y))
  }

  lemma FirstReads(raw: seq<Byte>, stride: nat, prev: seq<Byte>, row: seq<Byte>, more: seq<Byte>)
    requires |raw| >= stride + 1 && (prev == [] || |prev| == stride)
    requires row == RecoverRow(raw[0], raw[1..stride + 1], prev)
    ensures RowReads(raw, stride, row + more, prev, 0)
  {
    var line := raw[..stride + 1];
    assert line[1..] == raw[1..stride + 1];
    assert RowAt(raw, stride + 1, 0) == line && RowAt(row + more, stride, 0) == row;
    RecoverMeans(line, prev, row);
  }

  lemma LaterAbove(row: seq<Byte>, more: seq<Byte>, stride: nat, prev: seq<Byte>, y: nat)
    requires |row| == stride && (prev == [] || |prev| == stride) && y > 0 && Size(y - 1, stride) + stride <= |more|
    ensures AboveOf(row + more, stride, prev, y) == AboveOf(more, stride, row, y - 1)
  {
    if y == 1 {
      assert RowAt(row + more, stride, 0) == row;
    } else {
      SizeGrows(y - 2, y - 1, stride);
      TailRow(row + more, stride, row, more, y - 2);
    }
  }

  lemma LaterReads(raw: seq<Byte>, stride: nat, prev: seq<Byte>, row: seq<Byte>, more: seq<Byte>, y: nat)
    requires |raw| >= stride + 1 && |row| == stride && (prev == [] || |prev| == stride) && y > 0
    requires RowReads(raw[stride + 1..], stride, more, row, y - 1)
    ensures RowReads(raw, stride, row + more, prev, y)
  {
    assert raw == raw[..stride + 1] + raw[stride + 1..];
    TailRow(raw, stride + 1, raw[..stride + 1], raw[stride + 1..], y - 1);
    TailRow(row + more, stride, row, more, y - 1);
    LaterAbove(row, more, stride, prev, y);
  }

  lemma PixelsStep(raw: seq<Byte>, stride: nat, height: nat, prev: seq<Byte>, row: seq<Byte>)
    requires height > 0 && |raw| >= Size(height, stride + 1) && row == RecoverRow(raw[0], raw[1..stride + 1], prev)
    ensures |raw| >= stride + 1 && |raw[stride + 1..]| >= Size(height - 1, stride + 1)
    ensures Pixels(raw, stride, height, prev) == row + Pixels(raw[stride + 1..], stride, height - 1, row)
  {
  }

  lemma {:induction false} PixelsMean(raw: seq<Byte>, stride: nat, height: nat, prev: seq<Byte>, y: nat,
                                      pixels: seq<Byte>)
    requires |raw| >= Size(height, stride + 1) && y < height && (prev == [] || |prev| == stride)
    requires pixels == Pixels(raw, stride, height, prev)
    ensures RowReads(raw, stride, pixels, prev, y)
    decreases height
  {
    var row := RecoverRow(raw[0], raw[1..stride + 1], prev);
    var more := Pixels(raw[stride + 1..], stride, height - 1, row);
    PixelsStep(raw, stride, height, prev, row);
    if y == 0 {
      FirstReads(raw, stride, prev, row, more);
    } else {
      PixelsMean(raw[stride + 1..], stride, height - 1, row, y - 1, more);
      LaterReads(raw, stride, prev, row, more, y);
    }
  }

  /**
   Whatever file is read, every row of the image is what its scanline stands for under the
   row above it, and the first row's is zeros.
   */
  lemma ReadRowsMean(data: seq<Byte>, inflate: seq<Byte> -> Option<seq<Byte>>, image: Image, y: nat)
    requires Opened(data, inflate) == Ok(image) && y < image.height
    ensures exists raw: seq<Byte> :: Streams(data, inflate, raw) && RowReads(raw, image.width * 4, image.pixels, [], y)
  {
    var p := Chunks(data[8..], Parsed(None, [])).value;
    var raw := inflate(p.idat).value;
    PixelsMean(raw, image.width * 4, image.height, [], y, image.pixels);
    assert Streams(data, inflate, raw);
  }

  /** `raw` is the inflated stream of the file. */
  ghost predicate Streams(data: seq<Byte>, inflate: seq<Byte> -> Option<seq<Byte>>, raw: seq<Byte>) {
    |data| >= 8 && var p := Chunks(data[8..], Parsed(None, [])); p.Ok? && inflate(p.value.idat) == Some(raw)
  }

  // ---- Files ---------------------------------------------------------------------------

  datatype Chunk = Chunk(ctype: seq<Byte>, cdata: seq<Byte>, sum: seq<Byte>)

  ghost predicate ChunkOk(c: Chunk) {
    |c.ctype| == 4 && |c.cdata| < 0x1_0000_0000 && |c.sum| == 4
  }

  /** A number's four bytes, most significant first. */
  lemma MostSignificantFirst(n: nat, b: seq<Byte>)
    requires |b| == 4 && n == b[0] as int * 16777216 + b[1] as int * 65536 + b[2] as int * 256 + b[3] as int
    ensures n < TWO_32 && ToBigEndian(n) == b && FromBigEndian(b) == n
  {
    BigEndianRoundTrip(n, b);
  }

  ghost predicate Written4(n: nat, b: seq<Byte>) {
    |b| == 4 && n == b[0] as int * 16777216 + b[1] as int * 65536 + b[2] as int * 256 + b[3] as int
  }

  lemma ToBigEndianWrites(n: nat)
    requires n < TWO_32
    ensures Written4(n, ToBigEndian(n))
  {
    BigEndianRoundTrip(n, ToBigEndian(n));
    assert ToBigEndian(n)[3] == n % 0x100 && n / 0x100 % 0x100 == ToBigEndian(n)[2];
  }

  /** The chunk as bytes: length, type, data, checksum. */
  ghost predicate Lays(c: Chunk, b: seq<Byte>) {
    && ChunkOk(c) && |b| == 12 + |c.cdata| && Written4(|c.cdata|, b[..4])
    && b[4..8] == c.ctype && b[8..8 + |c.cdata|] == c.cdata && b[8 + |c.cdata|..] == c.sum
  }

  /**
   What one chunk does to a reader, whatever its checksum: a header of at least ten bytes
   with depth 8 and colour type 6 sets the size, image data is appended, the end ends it
   whatever follows, and every other chunk is passed over.
   */
  lemma ChunkMeans(c: Chunk, b: seq<Byte>, rest: seq<Byte>, got: Parsed)
    requires Lays(c, b)
    ensures c.ctype == [73, 69, 78, 68] ==> Chunks(b + rest, got) == Ok(got)
    ensures c.ctype == [73, 68, 65, 84] ==> Chunks(b + rest, got) == Chunks(rest, got.(idat := got.idat + c.cdata))
    ensures c.ctype == [73, 72, 68, 82] ==>
              if |c.cdata| < 10 then Chunks(b + rest, got) == Err(Truncated)
              else if c.cdata[8] != 8 || c.cdata[9] != 6 then Chunks(b + rest, got) == Err(Unsupported)
              else exists width: nat, height: nat ::
                     Written4(width, c.cdata[..4]) && Written4(height, c.cdata[4..8])
                     && Chunks(b + rest, got) == Chunks(rest, got.(size := Some((width, height))))
    ensures c.ctype !in {[73, 69, 78, 68], [73, 68, 65, 84], [73, 72, 68, 82]} ==>
            Chunks(b + rest, got) == Chunks(rest, got)
  {
    var data := b + rest;
    MostSignificantFirst(|c.cdata|, b[..4]);
    assert data[..4] == b[..4] && data[4..8] == b[4..8] && data[8..8 + |c.cdata|] == b[8..8 + |c.cdata|];
    assert data[Least(12 + |c.cdata|, |data|)..] == rest;
    if c.ctype == [73, 72, 68, 82] && |c.cdata| >= 10 {
      HeaderNumbers(c.cdata);
    }
  }

  lemma HeaderNumbers(cdata: seq<Byte>)
    requires |cdata| >= 10
    ensures Written4(FromBigEndian(cdata[..4]), cdata[..4]) && Written4(FromBigEndian(cdata[4..8]), cdata[4..8])
  {
    var a, b := cdata[..4], cdata[4..8];
    MostSignificantFirst(a[0] as int * 16777216 + a[1] as int * 65536 + a[2] as int * 256 + a[3] as int, a);
    MostSignificantFirst(b[0] as int * 16777216 + b[1] as int * 65536 + b[2] as int * 256 + b[3] as int, b);
  }

  /** A file that ends is read as far as it goes; one that ends within a length is refused. */
  lemma TailMeans(data: seq<Byte>, got: Parsed)
    ensures data == [] ==> Chunks(data, got) == Ok(got)
    ensures 0 < |data| < 4 ==> Chunks(data, got) == Err(Truncated)
  {
  }

  ghost predicate Lay(chunks: seq<Chunk>, b: seq<Byte>)
    decreases |chunks|
  {
    if chunks == [] then b == []
    else |chunks[0].cdata| + 12 <= |b| && Lays(chunks[0], b[..12 + |chunks[0].cdata|])
         && Lay(chunks[1..], b[12 + |chunks[0].cdata|..])
  }

  /** Neither a header nor the end. */
  ghost predicate Between(chunks: seq<Chunk>) {
    forall i :: 0 <= i < |chunks| ==> chunks[i].ctype != [73, 72, 68, 82] && chunks[i].ctype != [73, 69, 78, 68]
  }

  /** The image data of the chunks, put together. */
  function StreamOf(chunks: seq<Chunk>): seq<Byte> {
    if chunks == [] then []
    else (if chunks[0].ctype == [73, 68, 65, 84] then chunks[0].cdata else []) + StreamOf(chunks[1..])
  }

  lemma {:induction false} BetweenMeans(chunks: seq<Chunk>, b: seq<Byte>, rest: seq<Byte>, got: Parsed)
    requires Lay(chunks, b) && Between(chunks)
    ensures Chunks(b + rest, got) == Chunks(rest, got.(idat := got.idat + StreamOf(chunks)))
    decreases |chunks|
  {
    if chunks == [] {
      assert b + rest == rest && got.idat + [] == got.idat;
    } else {
      var k := 12 + |chunks[0].cdata|;
      var got' := if chunks[0].ctype == [73, 68, 65, 84] then got.(idat := got.idat + chunks[0].cdata) else got;
      assert b + rest == b[..k] + (b[k..] + rest);
      ChunkMeans(chunks[0], b[..k], b[k..] + rest, got);
      BetweenMeans(chunks[1..], b[k..], rest, got');
      PngChunks.Append(got.idat, if chunks[0].ctype == [73, 68, 65, 84] then chunks[0].cdata else [],
                       StreamOf(chunks[1..]));
      assert got'.idat == got.idat + if chunks[0].ctype == [73, 68, 65, 84] then chunks[0].cdata else [];
    }
  }

  const LETTERS: seq<Byte> := [137, 80, 78, 71, 13, 10, 26, 10]

  lemma {:induction false} PixelsExtra(raw: seq<Byte>, extra: seq<Byte>, stride: nat, height: nat, prev: seq<Byte>)
    requires |raw| >= Size(height, stride + 1)
    ensures Pixels(raw + extra, stride, height, prev) == Pixels(raw, stride, height, prev)
    decreases height
  {
    if height > 0 {
      var all := raw + extra;
      assert all[1..stride + 1] == raw[1..stride + 1] && all[stride + 1..] == raw[stride + 1..] + extra;
      PixelsExtra(raw[stride + 1..], extra, stride, height - 1, RecoverRow(raw[0], raw[1..stride + 1], prev));
    }
  }

  lemma Decodes(p: Parsed, width: nat, height: nat, raw: seq<Byte>, inflate: seq<Byte> -> Option<seq<Byte>>)
    requires p.size == Some((width, height)) && inflate(p.idat) == Some(raw) && |raw| >= Size(height, width * 4 + 1)
    ensures Decoded(p, inflate) == Ok(Image(width, height, Pixels(raw, width * 4, height, [])))
  {
  }

  lemma ExtraDecodes(p: Parsed, rows: seq<seq<Byte>>, width: nat, stride: nat, kinds: seq<Byte>, lines: seq<Byte>,
                     extra: seq<Byte>, inflate: seq<Byte> -> Option<seq<Byte>>)
    requires p.size == Some((width, |rows|)) && stride == width * 4 && Rows(rows, stride) && |kinds| == |rows|
    requires lines == Scanlines(rows, kinds, []) && inflate(p.idat) == Some(lines + extra)
    ensures Decoded(p, inflate) == Ok(Image(width, |rows|, Flat(rows)))
  {
    PixelsInvertScanlines(rows, kinds, [], stride);
    PixelsExtra(lines, extra, stride, |rows|, []);
    Decodes(p, width, |rows|, lines + extra, inflate);
  }

  lemma Opens(body: seq<Byte>, p: Parsed, inflate: seq<Byte> -> Option<seq<Byte>>)
    requires Chunks(body, Parsed(None, [])) == Ok(p)
    ensures Opened(LETTERS + body, inflate) == Decoded(p, inflate)
  {
    assert (LETTERS + body)[8..] == body && Slice(LETTERS + body, 0, 8) == LETTERS;
  }

  ghost predicate GoodHeader(c: Chunk, width: nat, height: nat) {
    && c.ctype == [73, 72, 68, 82] && |c.cdata| >= 10 && c.cdata[8] == 8 && c.cdata[9] == 6
    && Written4(width, c.cdata[..4]) && Written4(height, c.cdata[4..8])
  }

  /** Four bytes are one number. */
  lemma OneNumber(m: nat, n: nat, b: seq<Byte>)
    requires Written4(m, b) && Written4(n, b)
    ensures m == n
  {
  }

  lemma HeaderMeans(c: Chunk, b: seq<Byte>, rest: seq<Byte>, got: Parsed, width: nat, height: nat)
    requires Lays(c, b) && GoodHeader(c, width, height)
    ensures Chunks(b + rest, got) == Chunks(rest, got.(size := Some((width, height))))
  {
    ChunkMeans(c, b, rest, got);
    var w: nat, h: nat :| Written4(w, c.cdata[..4]) && Written4(h, c.cdata[4..8])
                          && Chunks(b + rest, got) == Chunks(rest, got.(size := Some((w, h))));
    OneNumber(w, width, c.cdata[..4]);
    OneNumber(h, height, c.cdata[4..8]);
  }

  /** The chunk loop over a header, chunks around it, an end and whatever follows. */
  lemma LayoutParses(pre: seq<Chunk>, header: Chunk, post: seq<Chunk>, end: Chunk, a: seq<Byte>, b: seq<Byte>,
                     c: seq<Byte>,
                     d: seq<Byte>, junk: seq<Byte>, width: nat, height: nat)
    requires Lay(pre, a) && Lays(header, b) && Lay(post, c) && Lays(end, d) && Between(pre) && Between(post)
    requires GoodHeader(header, width, height) && end.ctype == [73, 69, 78, 68]
    ensures Chunks(a + (b + (c + (d + junk))), Parsed(None, []))
            == Ok(Parsed(Some((width, height)), StreamOf(pre) + StreamOf(post)))
  {
    var got := Parsed(None, StreamOf(pre));
    BetweenMeans(pre, a, b + (c + (d + junk)), Parsed(None, []));
    assert [] + StreamOf(pre) == StreamOf(pre);
    HeaderMeans(header, b, c + (d + junk), got, width, height);
    BetweenMeans(post, c, d + junk, got.(size := Some((width, height))));
    ChunkMeans(end, d, junk, Parsed(Some((width, height)), StreamOf(pre) + StreamOf(post)));
  }

  /**
   Any RGBA image reads back as itself under any filters, with its stream cut anywhere, with
   other chunks before and between, a longer header, any checksums, bytes behind the end
   chunk and bytes behind the scanlines.
   */
  lemma AnyLayoutReadsBack(pre: seq<Chunk>, header: Chunk, post: seq<Chunk>, end: Chunk, a: seq<Byte>, b: seq<Byte>,
                           c: seq<Byte>, d: seq<Byte>, junk: seq<Byte>, rows: seq<seq<Byte>>, width: nat,
                           kinds: seq<Byte>, extra: seq<Byte>, inflate: seq<Byte> -> Option<seq<Byte>>)
    requires Lay(pre, a) && Lays(header, b) && Lay(post, c) && Lays(end, d) && Between(pre) && Between(post)
    requires GoodHeader(header, width, |rows|) && end.ctype == [73, 69, 78, 68]
    requires Rows(rows, width * 4) && |kinds| == |rows|
    requires inflate(StreamOf(pre) + StreamOf(post)) == Some(Scanlines(rows, kinds, []) + extra)
    ensures Opened(LETTERS + (a + (b + (c + (d + junk)))), inflate) == Ok(Image(width, |rows|, Flat(rows)))
  {
    var body := a + (b + (c + (d + junk)));
    LayoutParses(pre, header, post, end, a, b, c, d, junk, width, |rows|);
    var p := Parsed(Some((width, |rows|)), StreamOf(pre) + StreamOf(post));
    ExtraDecodes(p, rows, width, width * 4, kinds, Scanlines(rows, kinds, []), extra, inflate);
    Opens(body, p, inflate);
  }

  /** Anything else in front is refused, and so is a file without a header. */
  lemma Refused(data: seq<Byte>, pre: seq<Chunk>, end: Chunk, a: seq<Byte>, d: seq<Byte>,
                inflate: seq<Byte> -> Option<seq<Byte>>)
    requires Lay(pre, a) && Lays(end, d) && Between(pre) && end.ctype == [73, 69, 78, 68]
    ensures |data| < 8 || data[..8] != LETTERS ==> Opened(data, inflate) == Err(NotPng)
    ensures Opened(LETTERS + (a + d), inflate) == Err(NoHeader)
  {
    BetweenMeans(pre, a, d, Parsed(None, []));
    ChunkMeans(end, d, [], Parsed(None, [] + StreamOf(pre)));
    assert d + [] == d;
    Opens(a + d, Parsed(None, [] + StreamOf(pre)), inflate);
  }

  // ---- What is written -----------------------------------------------------------------

  /** The chunk closes with the checksum of its type and data. */
  ghost predicate Summed(c: Chunk, crc: seq<Byte> -> int) {
    Written4(crc(c.ctype + c.cdata) % 0x1_0000_0000, c.sum)
  }

  lemma ChunkLays(ctype: seq<Byte>, cdata: seq<Byte>, crc: seq<Byte> -> int) returns (c: Chunk)
    requires |ctype| == 4 && |cdata| < TWO_32
    ensures c.ctype == ctype && c.cdata == cdata && Lays(c, ChunkOf(ctype, cdata, crc)) && Summed(c, crc)
  {
    var sum := crc(ctype + cdata) % TWO_32;
    c := Chunk(ctype, cdata, ToBigEndian(sum));
    ToBigEndianWrites(|cdata|);
    ToBigEndianWrites(sum);
    var b := ChunkOf(ctype, cdata, crc);
    assert b[..4] == ToBigEndian(|cdata|) && b[4..8] == ctype && b[8..8 + |cdata|] == cdata
           && b[8 + |cdata|..] == c.sum;
  }

  lemma LayCons(c: Chunk, b: seq<Byte>, chunks: seq<Chunk>, rest: seq<Byte>)
    requires Lays(c, b) && Lay(chunks, rest)
    ensures Lay([c] + chunks, b + rest)
  {
    assert (b + rest)[..|b|] == b && (b + rest)[|b|..] == rest && ([c] + chunks)[1..] == chunks;
  }

  lemma {:induction false} DataLays(parts: seq<seq<Byte>>, tail: seq<Chunk>, rest: seq<Byte>, crc: seq<Byte> -> int)
      returns (chunks: seq<Chunk>)
    requires Fit(parts) && Lay(tail, rest)
    ensures Lay(chunks, DataChunks(parts, crc) + rest) && |chunks| == |parts| + |tail| && chunks[|parts|..] == tail
    ensures forall i :: 0 <= i < |parts| ==>
              chunks[i].ctype == [73, 68, 65, 84] && chunks[i].cdata == parts[i] && Summed(chunks[i], crc)
    decreases |parts|
  {
    if parts == [] {
      assert [] + rest == rest;
      chunks := tail;
    } else {
      var c := ChunkLays(IDAT, parts[0], crc);
      var more := DataLays(parts[1..], tail, rest, crc);
      LayCons(c, ChunkOf(IDAT, parts[0], crc), more, DataChunks(parts[1..], crc) + rest);
      PngChunks.Append(ChunkOf(IDAT, parts[0], crc), DataChunks(parts[1..], crc), rest);
      chunks := [c] + more;
      assert chunks[|parts|..] == more[|parts[1..]|..];
      forall i | 0 <= i < |parts|
        ensures chunks[i].ctype == [73, 68, 65, 84] && chunks[i].cdata == parts[i] && Summed(chunks[i], crc)
      {
        assert i > 0 ==> chunks[i] == more[i - 1] && parts[i] == parts[1..][i - 1];
      }
    }
  }

  /** A written file, byte for byte: signature, header, one data chunk for each part, end, each with its checksum. */
  lemma FileLays(width: nat, height: nat, parts: seq<seq<Byte>>, crc: seq<Byte> -> int) returns (chunks: seq<Chunk>)
    requires width < TWO_32 && height < TWO_32 && Fit(parts)
    ensures var file := File(width, height, parts, crc); |file| >= 8 && file[..8] == LETTERS && Lay(chunks, file[8..])
    ensures |chunks| == |parts| + 2 && forall i :: 0 <= i < |chunks| ==> Summed(chunks[i], crc)
    ensures chunks[0].ctype == [73, 72, 68, 82] && |chunks[0].cdata| == 13 && chunks[0].cdata[8..] == [8, 6, 0, 0, 0]
    ensures Written4(width, chunks[0].cdata[..4]) && Written4(height, chunks[0].cdata[4..8])
    ensures forall i :: 0 <= i < |parts| ==> chunks[i + 1].ctype == [73, 68, 65, 84] && chunks[i + 1].cdata == parts[i]
    ensures chunks[|parts| + 1].ctype == [73, 69, 78, 68] && chunks[|parts| + 1].cdata == []
  {
    var first := ChunkLays(IHDR, Header(width, height), crc);
    var last := ChunkLays(IEND, [], crc);
    var h, e := ChunkOf(IHDR, Header(width, height), crc), ChunkOf(IEND, [], crc);
    assert e + [] == e && [last] + [] == [last];
    LayCons(last, e, [], []);
    var rest := DataLays(parts, [last], e, crc);
    LayCons(first, h, rest, DataChunks(parts, crc) + e);
    chunks := [first] + rest;
    HeaderLays(width, height);
    var file := File(width, height, parts, crc);
    assert file[8..] == h + (DataChunks(parts, crc) + e) && file[..8] == LETTERS;
    assert rest[|parts|..][0] == last;
  }

  lemma HeaderLays(width: nat, height: nat)
    requires width < TWO_32 && height < TWO_32
    ensures var h := Header(width, height);
            |h| == 13 && Written4(width, h[..4]) && Written4(height, h[4..8]) && h[8..] == [8, 6, 0, 0, 0]
  {
    ToBigEndianWrites(width);
    ToBigEndianWrites(height);
    var h := Header(width, height);
    assert h[..4] == ToBigEndian(width) && h[4..8] == ToBigEndian(height) && h[8..] == [8, 6, 0, 0, 0];
  }
}
