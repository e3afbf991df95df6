/**
 Scanline filters (RFC 2083 section 6): a reader that undoes them in place over a byte
 buffer, and the filters themselves, which it inverts.
 */
module PngFilters {
  import opened Bytes

  // ---- Predictors ----------------------------------------------------------------------

  function Abs(x: int): int {
    if x < 0 then -x else x
  }

  /** The Paeth predictor (RFC 2083 section 6.6). */
  function Paeth(a: Byte, b: Byte, c: Byte): Byte {
    var p := a + b - c;
    var pa, pb, pc := Abs(p - a), Abs(p - b), Abs(p - c);
    if pa <= pb && pa <= pc then a else if pb <= pc then b else c
  }

  /** It picks the neighbour nearest to left plus up minus corner, ties going left, then up. */
  lemma PaethNearest(a: Byte, b: Byte, c: Byte)
    ensures var p, r := a + b - c, Paeth(a, b, c);
            && r in {a, b, c}
            && Abs(p - r) <= Abs(p - a) && Abs(p - r) <= Abs(p - b) && Abs(p - r) <= Abs(p - c)
            && (Abs(p - a) == Abs(p - r) ==> r == a)
            && (Abs(p - a) > Abs(p - r) == Abs(p - b) ==> r == b)
  {
  }

  /** What a filter type predicts; a type beyond the five predicts nothing. */
  function Predict(kind: Byte, a: Byte, b: Byte, c: Byte): Byte {
    match kind
    case 1 => a
    case 2 => b
    case 3 => (a + b) / 2
    case 4 => Paeth(a, b, c)
    case _ => 0
  }

  /** The byte one pixel to the left, or zero. */
  function LeftOf(row: seq<Byte>, i: int): Byte {
    if 4 <= i <= |row| + 3 then row[i - 4] else 0
  }

  /** The byte above; the row before the first counts as zeros. */
  function Above(prev: seq<Byte>, i: int): Byte {
    if 0 <= i < |prev| then prev[i] else 0
  }

  function Predicted(kind: Byte, row: seq<Byte>, prev: seq<Byte>, i: int): Byte {
    Predict(kind, LeftOf(row, i), Above(prev, i), if i >= 4 then Above(prev, i - 4) else 0)
  }

  // ---- Filtering and its inverse -------------------------------------------------------

  function FilterRow(kind: Byte, row: seq<Byte>, prev: seq<Byte>): (f: seq<Byte>)
    ensures |f| == |row|
  {
    seq(|row|, i requires 0 <= i < |row| => Minus(row[i], Predicted(kind, row, prev, i)))
  }

  /** The first `n` bytes recovered: each needs the ones before it. */
  function Recovered(kind: Byte, f: seq<Byte>, prev: seq<Byte>, n: nat): (row: seq<Byte>)
    requires n <= |f|
    ensures |row| == n
  {
    if n == 0 then []
    else
      var row := Recovered(kind, f, prev, n - 1);
      row + [Plus(f[n - 1], Predicted(kind, row, prev, n - 1))]
  }

  function RecoverRow(kind: Byte, f: seq<Byte>, prev: seq<Byte>): (row: seq<Byte>)
    ensures |row| == |f|
  {
    Recovered(kind, f, prev, |f|)
  }

  lemma {:induction false} RecoverPrefix(kind: Byte, row: seq<Byte>, prev: seq<Byte>, n: nat)
    requires n <= |row|
    ensures Recovered(kind, FilterRow(kind, row, prev), prev, n) == row[..n]
  {
    if n > 0 {
      RecoverPrefix(kind, row, prev, n - 1);
      PlusMinus(row[n - 1], Predicted(kind, row, prev, n - 1));
      assert LeftOf(row[..n - 1], n - 1) == LeftOf(row, n - 1);
      assert row[..n] == row[..n - 1] + [row[n - 1]];
    }
  }

  /** Undoing a filter recovers the row, whatever the type, the row and the row above. */
  lemma RecoverInvertsFilter(kind: Byte, row: seq<Byte>, prev: seq<Byte>)
    ensures RecoverRow(kind, FilterRow(kind, row, prev), prev) == row
  {
    RecoverPrefix(kind, row, prev, |row|);
  }

  lemma {:induction false} RecoveredAt(kind: Byte, f: seq<Byte>, prev: seq<Byte>, n: nat, i: nat)
    requires i < n <= |f|
    ensures Recovered(kind, f, prev, n)[i]
            == Plus(f[i], Predicted(kind, Recovered(kind, f, prev, n), prev, i))
  {
    if i < n - 1 {
      RecoveredAt(kind, f, prev, n - 1, i);
    }
  }

  /** No two filtered rows stand for one row: filtering the recovered row gives them back. */
  lemma FilterInvertsRecover(kind: Byte, f: seq<Byte>, prev: seq<Byte>)
    ensures FilterRow(kind, RecoverRow(kind, f, prev), prev) == f
  {
    var row := RecoverRow(kind, f, prev);
    forall i | 0 <= i < |f| ensures FilterRow(kind, row, prev)[i] == f[i] {
      RecoveredAt(kind, f, prev, |f|, i);
      PlusMinus(f[i], Predicted(kind, row, prev, i));
    }
  }

  // ---- The in-place loops --------------------------------------------------------------

  ghost predicate Done(kind: Byte, f: seq<Byte>, prev: seq<Byte>, i: nat, row: seq<Byte>) {
    i <= |f| == |row| && row[..i] == Recovered(kind, f, prev, i) && row[i..] == f[i..]
  }

  method UnfilterSub(row: array<Byte>, prev: seq<Byte>)
    modifies row
    ensures row[..] == RecoverRow(1, old(row[..]), prev)
  {
    ghost var f := row[..];
    var i := if row.Length < 4 then row.Length else 4;
    FirstPixelKept(f, prev, i);
    while i < row.Length
      invariant Done(1, f, prev, i, row[..]) && (i >= 4 || i == row.Length)
    {
      var v := Plus(row[i], row[i - 4]);
      Next(1, f, prev, i, row[..], v);
      row[i] := v;
      i := i + 1;
    }
    assert row[..i] == row[..];
  }

  method UnfilterUp(row: array<Byte>, prev: seq<Byte>)
    requires |prev| == row.Length
    modifies row
    ensures row[..] == RecoverRow(2, old(row[..]), prev)
  {
    ghost var f := row[..];
    var i := 0;
    while i < row.Length
      invariant Done(2, f, prev, i, row[..])
    {
      var v := Plus(row[i], prev[i]);
      Next(2, f, prev, i, row[..], v);
      row[i] := v;
      i := i + 1;
    }
    assert row[..i] == row[..];
  }

  method UnfilterAverage(row: array<Byte>, prev: seq<Byte>)
    requires |prev| == 0 || |prev| == row.Length
    modifies row
    ensures row[..] == RecoverRow(3, old(row[..]), prev)
  {
    ghost var f := row[..];
    var i := 0;
    while i < row.Length
      invariant Done(3, f, prev, i, row[..])
    {
      var a := if i >= 4 then row[i - 4] else 0;
      var b := if |prev| > 0 then prev[i] else 0;
      var v := Plus(row[i], (a as int + b as int) / 2);
      Next(3, f, prev, i, row[..], v);
      row[i] := v;
      i := i + 1;
    }
    assert row[..i] == row[..];
  }

  method UnfilterPaeth(row: array<Byte>, prev: seq<Byte>)
    requires |prev| == 0 || |prev| == row.Length
    modifies row
    ensures row[..] == RecoverRow(4, old(row[..]), prev)
  {
    ghost var f := row[..];
    var i := 0;
    while i < row.Length
      invariant Done(4, f, prev, i, row[..])
    {
      var a: int := if i >= 4 then row[i - 4] else 0;
      var b: int := if |prev| > 0 then prev[i] else 0;
      var c: int := if |prev| > 0 && i >= 4 then prev[i - 4] else 0;
      var p := a + b - c;
      var pa, pb, pc := Abs(p - a), Abs(p - b), Abs(p - c);
      var v := Plus(row[i], if pa <= pb && pa <= pc then a else if pb <= pc then b else c);
      Next(4, f, prev, i, row[..], v);
      row[i] := v;
      i := i + 1;
    }
    assert row[..i] == row[..];
  }

  /** Undoes one scanline's filter in its buffer. */
  method UnfilterRow(kind: Byte, row: array<Byte>, prev: seq<Byte>)
    requires |prev| == 0 || |prev| == row.Length
    modifies row
    ensures row[..] == RecoverRow(kind, old(row[..]), prev)
  {
    if kind == 1 {
      UnfilterSub(row, prev);
    } else if kind == 2 && |prev| > 0 {
      UnfilterUp(row, prev);
    } else if kind == 3 {
      UnfilterAverage(row, prev);
    } else if kind == 4 {
      UnfilterPaeth(row, prev);
    } else {
      NothingPredicted(kind, row[..], prev, row.Length);
    }
  }

  lemma Next(kind: Byte, f: seq<Byte>, prev: seq<Byte>, i: nat, row: seq<Byte>, v: Byte)
    requires i < |f| == |row| && row[..i] == Recovered(kind, f, prev, i) && row[i..] == f[i..]
    requires v == Plus(row[i], Predict(kind, if i >= 4 then row[i - 4] else 0, Above(prev, i),
                                       if i >= 4 then Above(prev, i - 4) else 0))
    ensures row[i := v][..i + 1] == Recovered(kind, f, prev, i + 1) && row[i := v][i + 1..] == f[i + 1..]
  {
    assert row[i..][0] == f[i..][0] && row[i..][1..] == f[i..][1..];
    assert LeftOf(row[..i], i) == (if i >= 4 then row[i - 4] else 0);
    assert row[i := v][..i + 1] == row[..i] + [v];
    assert row[i := v][i + 1..] == row[i..][1..] && f[i + 1..] == f[i..][1..];
  }

  lemma {:induction false} NothingPredicted(kind: Byte, f: seq<Byte>, prev: seq<Byte>, n: nat)
    requires n <= |f| && (kind == 0 || kind > 4 || (kind == 2 && prev == []))
    ensures Recovered(kind, f, prev, n) == f[..n]
  {
    if n > 0 {
      NothingPredicted(kind, f, prev, n - 1);
    }
  }

  /** The first pixel of a Sub row has nothing to its left. */
  lemma {:induction false} FirstPixelKept(f: seq<Byte>, prev: seq<Byte>, n: nat)
    requires n <= |f| && n <= 4
    ensures Recovered(1, f, prev, n) == f[..n]
  {
    if n > 0 {
      FirstPixelKept(f, prev, n - 1);
    }
  }

  // ---- Whole images --------------------------------------------------------------------

  predicate Rows(rows: seq<seq<Byte>>, stride: nat) {
    forall y :: 0 <= y < |rows| ==> |rows[y]| == stride
  }

  function Flat(rows: seq<seq<Byte>>): seq<Byte> {
    if rows == [] then [] else rows[0] + Flat(rows[1..])
  }

  /** The scanlines of an image, each under a filter type of the writer's choice. */
  function Scanlines(rows: seq<seq<Byte>>, kinds: seq<Byte>, prev: seq<Byte>): seq<Byte>
    requires |kinds| == |rows|
  {
    if rows == [] then []
    else [kinds[0]] + FilterRow(kinds[0], rows[0], prev) + Scanlines(rows[1..], kinds[1..], rows[0])
  }

  function Size(n: nat, width: nat): nat {
    if n == 0 then 0 else width + Size(n - 1, width)
  }

  lemma {:induction false} SizeIs(n: nat, width: nat)
    ensures Size(n, width) == n * width
  {
    if n > 0 {
      SizeIs(n - 1, width);
    }
  }

  lemma {:induction false} SizeSplits(n: nat, m: nat, width: nat)
    ensures Size(n + m, width) == Size(n, width) + Size(m, width)
  {
    if n > 0 {
      SizeSplits(n - 1, m, width);
    }
  }

  /** The pixels of `height` scanlines. */
  function Pixels(raw: seq<Byte>, stride: nat, height: nat, prev: seq<Byte>): (pixels: seq<Byte>)
    requires |raw| >= Size(height, stride + 1)
    ensures |pixels| == Size(height, stride)
    decreases height
  {
    if height == 0 then []
    else
      var row := RecoverRow(raw[0], raw[1..stride + 1], prev);
      row + Pixels(raw[stride + 1..], stride, height - 1, row)
  }

  lemma {:induction false} ScanlinesLength(rows: seq<seq<Byte>>, kinds: seq<Byte>, prev: seq<Byte>, stride: nat)
    requires |kinds| == |rows| && Rows(rows, stride)
    ensures |Scanlines(rows, kinds, prev)| == Size(|rows|, stride + 1)
  {
    if rows != [] {
      ScanlinesLength(rows[1..], kinds[1..], rows[0], stride);
    }
  }

  /** Reading what any choice of filters wrote gives the image back, first row included. */
  lemma {:induction false} PixelsInvertScanlines(rows: seq<seq<Byte>>, kinds: seq<Byte>, prev: seq<Byte>, stride: nat)
    requires |kinds| == |rows| && Rows(rows, stride)
    ensures |Scanlines(rows, kinds, prev)| == Size(|rows|, stride + 1)
    ensures Pixels(Scanlines(rows, kinds, prev), stride, |rows|, prev) == Flat(rows)
  {
    ScanlinesLength(rows, kinds, prev, stride);
    if rows != [] {
      var f := FilterRow(kinds[0], rows[0], prev);
      var raw := Scanlines(rows, kinds, prev);
      PixelsInvertScanlines(rows[1..], kinds[1..], rows[0], stride);
      assert raw[1..stride + 1] == f;
      assert raw[stride + 1..] == Scanlines(rows[1..], kinds[1..], rows[0]);
      RecoverInvertsFilter(kinds[0], rows[0], prev);
    }
  }

  predicate Enough(raw: seq<Byte>, src: int, stride: nat, n: int) {
    0 <= src <= |raw| && n >= 0 && |raw| - src >= Size(n, stride + 1)
  }

  /** The pixels stored so far, then those the `n` scanlines from `src` still hold. */
  function Complete(stored: seq<Byte>, raw: seq<Byte>, src: int, stride: nat, n: int, prev: seq<Byte>): seq<Byte> {
    if Enough(raw, src, stride, n) then stored + Pixels(raw[src..], stride, n, prev) else []
  }

  /** Storing one more recovered row leaves the outcome as it was. */
  lemma RowStored(raw: seq<Byte>, stride: nat, row: seq<Byte>, stored: seq<Byte>, src: nat, n: nat, prev: seq<Byte>)
    requires n > 0 && Enough(raw, src, stride, n)
    requires row == RecoverRow(raw[src], raw[src + 1..src + 1 + stride], prev)
    ensures Enough(raw, src + (stride + 1), stride, n - 1)
    ensures Complete(stored + row, raw, src + (stride + 1), stride, n - 1, row)
            == Complete(stored, raw, src, stride, n, prev)
  {
    assert raw[src..][1..stride + 1] == raw[src + 1..src + 1 + stride];
    assert raw[src..][stride + 1..] == raw[src + (stride + 1)..];
    Append(stored, row, Pixels(raw[src + (stride + 1)..], stride, n - 1, row));
  }

  lemma Append(a: seq<Byte>, b: seq<Byte>, c: seq<Byte>)
    ensures a + (b + c) == a + b + c
  {
  }

  lemma CompleteEnds(stored: seq<Byte>, raw: seq<Byte>, src: nat, stride: nat, height: nat, prev: seq<Byte>)
    requires src <= |raw| && Enough(raw, 0, stride, height)
    ensures Complete(stored, raw, src, stride, 0, prev) == stored
    ensures Complete([], raw, 0, stride, height, []) == Pixels(raw, stride, height, [])
  {
    assert raw[0..] == raw;
  }

  method RecoverAt(raw: seq<Byte>, src: nat, stride: nat, prev: seq<Byte>) returns (row: array<Byte>)
    requires src + 1 + stride <= |raw| && (|prev| == 0 || |prev| == stride)
    ensures fresh(row) && row.Length == stride
    ensures row[..] == RecoverRow(raw[src], raw[src + 1..src + 1 + stride], prev)
  {
    row := new Byte[stride](i requires 0 <= i < stride => raw[src + 1 + i]);
    assert row[..] == raw[src + 1..src + 1 + stride];
    UnfilterRow(raw[src], row, prev);
  }

  /** Recovers the scanline at `src` and stores it behind the rows stored so far. */
  method StoreRow(raw: seq<Byte>, src: nat, stride: nat, ghost left: nat, prev: seq<Byte>, pixels: array<Byte>, at: nat)
    requires left > 0 && Enough(raw, src, stride, left) && (|prev| == 0 || |prev| == stride)
    requires at + Size(left, stride) == pixels.Length
    modifies pixels
    ensures Enough(raw, src + (stride + 1), stride, left - 1) && at + stride + Size(left - 1, stride) == pixels.Length
    ensures Complete(pixels[..at + stride], raw, src + (stride + 1), stride, left - 1, pixels[at..at + stride])
            == Complete(old(pixels[..at]), raw, src, stride, left, prev)
  {
    var row := RecoverAt(raw, src, stride, prev);
    RowStored(raw, stride, row[..], pixels[..at], src, left, prev);
    Store(pixels, at, row);
  }

  /** One turn of the outer loop: the stored row is the one above the next. */
  method ReadRow(raw: seq<Byte>, src: nat, stride: nat, ghost left: nat, prev: seq<Byte>, pixels: array<Byte>, at: nat)
      returns (src': nat, at': nat, row: seq<Byte>)
    requires left > 0 && Enough(raw, src, stride, left) && (|prev| == 0 || |prev| == stride)
    requires at + Size(left, stride) == pixels.Length
    modifies pixels
    ensures Enough(raw, src', stride, left - 1) && |row| == stride
    ensures at' <= pixels.Length && at' + Size(left - 1, stride) == pixels.Length
    ensures Complete(pixels[..at'], raw, src', stride, left - 1, row)
            == Complete(old(pixels[..at]), raw, src, stride, left, prev)
  {
    StoreRow(raw, src, stride, left, prev, pixels, at);
    src', at', row := src + (stride + 1), at + stride, pixels[at..at + stride];
  }

  /** The reader's outer loop: each row is undone against the row above, then stored. */
  method ReadRows(raw: seq<Byte>, stride: nat, height: nat, pixels: array<Byte>)
    requires |raw| >= Size(height, stride + 1) && pixels.Length == Size(height, stride)
    modifies pixels
    ensures pixels[..] == Pixels(raw, stride, height, [])
  {
    var src: nat, at: nat := 0, 0;
    var prev: seq<Byte> := [];
    ghost var goal := Complete([], raw, 0, stride, height, []);
    for y := 0 to height
      invariant at <= pixels.Length && at + Size(height - y, stride) == pixels.Length
      invariant (|prev| == 0 || |prev| == stride) && Enough(raw, src, stride, height - y)
      invariant Complete(pixels[..at], raw, src, stride, height - y, prev) == goal
    {
      src, at, prev := ReadRow(raw, src, stride, height - y, prev, pixels, at);
    }
    CompleteEnds(pixels[..at], raw, src, stride, height, prev);
    assert pixels[..at] == pixels[..];
  }

  method ReadPixels(raw: seq<Byte>, width: nat, height: nat) returns (pixels: array<Byte>)
    requires |raw| >= Size(height, width * 4 + 1)
    ensures pixels[..] == Pixels(raw, width * 4, height, [])
  {
    var stride := width * 4;
    SizeIs(height, stride);
    pixels := new Byte[height * stride];
    ReadRows(raw, stride, height, pixels);
  }

  /** The slice assignment. */
  method Store(pixels: array<Byte>, at: nat, row: array<Byte>)
    requires pixels != row && at + row.Length <= pixels.Length
    modifies pixels
    ensures pixels[..at + row.Length] == old(pixels[..at]) + row[..] && pixels[at..at + row.Length] == row[..]
    ensures pixels[at + row.Length..] == old(pixels[at + row.Length..])
  {
    forall i | 0 <= i < row.Length {
      pixels[at + i] := row[i];
    }
  }
}
