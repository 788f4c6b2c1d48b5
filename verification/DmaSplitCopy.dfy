/**
 The Vulkan DMA copy: a linear source image in a file is imported as one GPU buffer, except that a
 driver may demand more memory than the file holds.  Then only the complete rows that fit are
 imported, and the remaining rows are staged through a small host buffer (the tail).

 The first part is the 64-bit arithmetic of the import, with every wrap-around written out.  The
 second part is the copy itself, proved to be the plain rectangle copy it stands for.
 */
module DmaSplitCopy {

  // ---------- import: how many rows the GPU may see ----------

  const INT_MAX: int := 0x7FFF_FFFF
  const OFF_MAX: int := 0x7FFF_FFFF_FFFF_FFFF

  type Int32 = x: int | -0x8000_0000 <= x <= 0x7FFF_FFFF
  type Off64 = x: int | -0x8000_0000_0000_0000 <= x <= 0x7FFF_FFFF_FFFF_FFFF
  type Size64 = x: int | 0 <= x < 0x1_0000_0000_0000_0000

  function U64(x: int): nat { x % 0x1_0000_0000_0000_0000 }
  function U32(x: int): nat { x % 0x1_0000_0000 }

  datatype Import =
    | Refused
    | Whole(size: nat)
    | Split(gpuRows: nat, size: nat, tailSize: nat)

  // `need` is the driver's memory requirement for a buffer of a given size.
  function ImportSource(offset: Off64, width: Int32, height: Int32, stride: Int32, fileSize: Off64, need: nat -> Size64): Import {
    if offset < 0 || offset % 4 != 0 || width <= 0 || height <= 0 || stride < width * 4 || stride % 4 != 0
       || fileSize <= 0 then Refused
    else SizedSource(offset, width, height, stride, fileSize, LinearSize(offset, width, stride, height), need)
  }

  function SizedSource(offset: nat, width: nat, height: nat, stride: nat, fileSize: nat, all: nat, need: nat -> Size64): Import
    requires stride > 0
  {
    if all > fileSize then Refused
    else if need(all) <= fileSize then Whole(all)
    else
      var overhead := U64(need(all) - all);
      if U64(U64(overhead + offset) + width * 4) >= fileSize then Refused
      else SplitSource(offset, width, height, stride, fileSize, overhead, need)
  }

  function SplitSource(offset: nat, width: nat, height: nat, stride: nat, fileSize: nat, overhead: nat, need: nat -> Size64): Import
    requires stride > 0
  {
    var rows := RowCount(offset, width, stride, fileSize, overhead);
    if rows == 0 || rows >= height then Refused
    else
      var size := LinearSize(offset, width, stride, rows);
      if need(size) > fileSize then Refused
      else Split(rows, size, LinearSize(0, width, stride, height - rows))
  }

  // Bytes up to the end of the last of `rows` rows, in 64-bit arithmetic.
  function LinearSize(offset: int, width: int, stride: int, rows: int): nat {
    U64(U64(offset + U64((rows - 1) * stride)) + width * 4)
  }

  // The complete rows that fit the file beside the driver's overhead, in 64-bit arithmetic.
  function RowCount(offset: int, width: int, stride: int, fileSize: int, overhead: nat): nat
    requires stride > 0
  {
    U32(U64(U64(U64(fileSize - overhead) - offset) - width * 4) / stride + 1)
  }

  predicate LayoutOk(offset: int, width: int, height: int, stride: int) {
    0 <= offset && 0 < width && 0 < height && width * 4 <= stride
  }

  // Bytes from the start of the file to the end of the last of `rows` rows.
  function Extent(offset: nat, width: nat, stride: nat, rows: nat): int
  {
    offset + (rows - 1) * stride + width * 4
  }

  lemma Product(a: int, b: int, bound: int)
    requires 0 <= a <= bound && 0 <= b <= bound
    ensures 0 <= a * b <= bound * bound
  {
    assert a * b <= bound * b;
    assert bound * b <= bound * bound;
  }

  lemma Small(x: int)
    requires 0 <= x < 0x1_0000_0000_0000_0000
    ensures U64(x) == x
  {}

  lemma NoWrap(offset: nat, span: nat, last: nat)
    requires offset + span + last < 0x1_0000_0000_0000_0000
    ensures U64(U64(offset + U64(span)) + last) == offset + span + last
  {
    Small(span);
    Small(offset + span);
    Small(offset + span + last);
  }

  // None of the sums of a row extent wraps.
  lemma ExtentFits(offset: nat, width: nat, stride: nat, rows: nat)
    requires offset <= OFF_MAX && width * 4 <= stride <= INT_MAX && 0 < rows <= INT_MAX
    ensures 0 <= Extent(offset, width, stride, rows)
    ensures LinearSize(offset, width, stride, rows) == Extent(offset, width, stride, rows)
  {
    Product(rows - 1, stride, INT_MAX);
    NoWrap(offset, (rows - 1) * stride, width * 4);
  }

  lemma RowQuotient(room: nat, stride: nat, rows: nat)
    requires stride > 0 && rows == room / stride + 1
    ensures (rows - 1) * stride <= room < rows * stride
  {
    var q := room / stride;
    assert room == stride * q + room % stride;
  }

  lemma RowsBelow(rows: nat, height: nat, stride: nat)
    requires stride > 0 && (rows - 1) * stride < (height - 1) * stride
    ensures rows < height
  {
    if rows >= height {
      RowOrder(stride, height - 1, rows - 1);
    }
  }

  // The split row count, in exact arithmetic: at least one row, fewer than all, fits the file
  // together with the driver's overhead, and one more row would not fit.
  ghost predicate BestSplit(offset: nat, width: nat, height: nat, stride: nat, fileSize: nat, overhead: nat, rows: nat) {
    && 0 < rows < height
    && Extent(offset, width, stride, rows) + overhead <= fileSize
    && Extent(offset, width, stride, rows + 1) + overhead > fileSize
  }

  lemma OverheadIsExact(all: nat, part: nat, needed: nat)
    requires part <= all < needed < 0x1_0000_0000_0000_0000
    ensures U64(needed - all) == needed - all
    ensures U64(U64(needed - all) + part) == needed - all + part
  {
    Small(needed - all);
    Small(needed - all + part);
  }

  lemma RoomIsExact(offset: nat, last: nat, fileSize: nat, overhead: nat)
    requires overhead + offset + last < fileSize < 0x1_0000_0000_0000_0000
    ensures U64(U64(U64(fileSize - overhead) - offset) - last) == fileSize - overhead - offset - last
  {
    Small(fileSize - overhead);
    Small(fileSize - overhead - offset);
    Small(fileSize - overhead - offset - last);
  }

  lemma RowsForRoom(height: nat, stride: nat, room: nat)
    requires 0 < stride && 0 < height <= INT_MAX && room < (height - 1) * stride
    ensures var rows := U32(room / stride + 1);
      0 < rows < height && (rows - 1) * stride <= room < rows * stride
  {
    var rows := room / stride + 1;
    RowQuotient(room, stride, rows);
    RowsBelow(rows, height, stride);
  }

  lemma RowCountForRoom(offset: nat, width: nat, stride: nat, fileSize: nat, overhead: nat)
    requires 0 < stride && overhead + offset + width * 4 < fileSize < 0x1_0000_0000_0000_0000
    ensures RowCount(offset, width, stride, fileSize, overhead) ==
      U32((fileSize - overhead - offset - width * 4) / stride + 1)
  {
    RoomIsExact(offset, width * 4, fileSize, overhead);
  }

  // The computed row count is the best split, so the check that follows it never fires.
  lemma RowCountIsBest(offset: nat, width: nat, height: nat, stride: nat, fileSize: nat, overhead: nat)
    requires 0 < stride && 0 < height <= INT_MAX && fileSize <= OFF_MAX
    requires overhead + offset + width * 4 < fileSize < Extent(offset, width, stride, height) + overhead
    ensures BestSplit(offset, width, height, stride, fileSize, overhead, RowCount(offset, width, stride, fileSize, overhead))
  {
    RowCountForRoom(offset, width, stride, fileSize, overhead);
    RowsForRoom(height, stride, fileSize - overhead - offset - width * 4);
  }

  lemma TailCompletes(width: nat, height: nat, stride: nat, rows: nat)
    requires rows < height
    ensures rows * stride + Extent(0, width, stride, height - rows) == Extent(0, width, stride, height)
  {
    assert rows * stride + (height - rows - 1) * stride == (height - 1) * stride;
  }

  ghost predicate ImportedWhole(offset: nat, width: nat, height: nat, stride: nat, fileSize: int, need: nat -> Size64, size: nat) {
    && LayoutOk(offset, width, height, stride)
    && size == Extent(offset, width, stride, height) <= fileSize && need(size) <= fileSize
  }

  ghost predicate ImportedSplit(offset: nat, width: nat, height: nat, stride: nat, fileSize: int, need: nat -> Size64,
                                rows: nat, size: nat, tailSize: nat) {
    && LayoutOk(offset, width, height, stride)
    && rows < height
    && Extent(offset, width, stride, height) >= 0
    && var all: nat := Extent(offset, width, stride, height);
       && all <= fileSize < need(all)
       && BestSplit(offset, width, height, stride, fileSize, need(all) - all, rows)
       && size == Extent(offset, width, stride, rows) <= fileSize && need(size) <= fileSize
       // the imported rows and the tail together are exactly the image
       && tailSize == Extent(0, width, stride, height - rows)
       && rows * stride + tailSize == all - offset
  }

  lemma SplitSizes(offset: nat, width: nat, height: nat, stride: nat, fileSize: nat, need: nat -> Size64, rows: nat)
    requires LayoutOk(offset, width, height, stride) && offset <= OFF_MAX && height <= INT_MAX && stride <= INT_MAX
    requires Extent(offset, width, stride, height) >= 0
    requires var all: nat := Extent(offset, width, stride, height);
      all <= fileSize < need(all) && BestSplit(offset, width, height, stride, fileSize, need(all) - all, rows)
    requires need(LinearSize(offset, width, stride, rows)) <= fileSize
    ensures ImportedSplit(offset, width, height, stride, fileSize, need, rows,
                          LinearSize(offset, width, stride, rows), LinearSize(0, width, stride, height - rows))
  {
    ExtentFits(offset, width, stride, rows);
    ExtentFits(0, width, stride, height - rows);
    TailCompletes(width, height, stride, rows);
  }

  // The guard in front of the split is exact.
  lemma GuardIsExact(all: nat, offset: nat, last: nat, needed: nat)
    requires offset + last <= all < needed < 0x1_0000_0000_0000_0000
    ensures U64(U64(U64(needed - all) + offset) + last) == needed - all + offset + last
    ensures U64(needed - all) == needed - all
  {
    OverheadIsExact(all, offset, needed);
    OverheadIsExact(all, offset + last, needed);
  }

  // Everything up to the split, in exact numbers: `all` is the size of the image.
  lemma SizedUnfolds(offset: nat, width: nat, height: nat, stride: nat, fileSize: nat, need: nat -> Size64, all: nat)
    requires 0 < stride && offset + width * 4 <= all
    ensures SizedSource(offset, width, height, stride, fileSize, all, need) ==
      if all > fileSize then Refused
      else if need(all) <= fileSize then Whole(all)
      else if need(all) - all + offset + width * 4 >= fileSize then Refused
      else SplitSource(offset, width, height, stride, fileSize, need(all) - all, need)
  {
    if all <= fileSize < need(all) {
      GuardIsExact(all, offset, width * 4, need(all));
    }
  }

  lemma SplitIsBest(offset: nat, width: nat, height: nat, stride: nat, fileSize: nat, need: nat -> Size64)
    requires LayoutOk(offset, width, height, stride) && offset <= OFF_MAX && fileSize <= OFF_MAX
    requires height <= INT_MAX && stride <= INT_MAX && Extent(offset, width, stride, height) >= 0
    requires var all: nat := Extent(offset, width, stride, height);
      all <= fileSize < need(all) && need(all) - all + offset + width * 4 < fileSize
    ensures var all: nat := Extent(offset, width, stride, height);
      var rows := RowCount(offset, width, stride, fileSize, need(all) - all);
      var r := SplitSource(offset, width, height, stride, fileSize, need(all) - all, need);
      && (r.Split? <==> need(LinearSize(offset, width, stride, rows)) <= fileSize)
      && (r.Split? ==> ImportedSplit(offset, width, height, stride, fileSize, need, r.gpuRows, r.size, r.tailSize))
  {
    var all: nat := Extent(offset, width, stride, height);
    var rows := RowCount(offset, width, stride, fileSize, need(all) - all);
    RowCountIsBest(offset, width, height, stride, fileSize, need(all) - all);
    if need(LinearSize(offset, width, stride, rows)) <= fileSize {
      SplitSizes(offset, width, height, stride, fileSize, need, rows);
    }
  }

  // The result of an import, whatever the driver asks for: the whole image when its demand fits the
  // file; the best split when it does not, one row fits beside the overhead, and the driver takes
  // the smaller buffer; and nothing otherwise.
  lemma ImportIsBest(offset: Off64, width: Int32, height: Int32, stride: Int32, fileSize: Off64, need: nat -> Size64)
    requires 0 <= offset && offset % 4 == 0 && 0 < width && 0 < height && width * 4 <= stride && stride % 4 == 0
    requires 0 < fileSize
    ensures 0 <= Extent(offset, width, stride, height)
    ensures var all: nat := Extent(offset, width, stride, height);
      var r := ImportSource(offset, width, height, stride, fileSize, need);
      && (all <= fileSize && need(all) <= fileSize ==> r == Whole(all))
      && (r.Whole? ==> ImportedWhole(offset, width, height, stride, fileSize, need, r.size))
      && (r.Split? ==> ImportedSplit(offset, width, height, stride, fileSize, need, r.gpuRows, r.size, r.tailSize))
      && (all <= fileSize < need(all) && need(all) - all + offset + width * 4 < fileSize ==>
           var rows := RowCount(offset, width, stride, fileSize, need(all) - all);
           r.Split? <==> need(LinearSize(offset, width, stride, rows)) <= fileSize)
  {
    ExtentFits(offset, width, stride, height);
    FirstRowFits(offset, width, stride, height);
    var all: nat := Extent(offset, width, stride, height);
    SizedUnfolds(offset, width, height, stride, fileSize, need, all);
    if all <= fileSize < need(all) && need(all) - all + offset + width * 4 < fileSize {
      SplitIsBest(offset, width, height, stride, fileSize, need);
    }
  }

  lemma FirstRowFits(offset: nat, width: nat, stride: nat, height: nat)
    requires offset <= OFF_MAX && width * 4 <= stride <= INT_MAX && 0 < height <= INT_MAX
    ensures offset + width * 4 <= LinearSize(offset, width, stride, height)
  {
    ExtentFits(offset, width, stride, height);
    RowOrder(stride, 0, height - 1);
  }

  // ---------- the copy ----------

  type Byte = b: int | 0 <= b < 256

  datatype Pixel = Pixel(b0: Byte, b1: Byte, b2: Byte, b3: Byte)

  const BLANK := Pixel(0, 0, 0, 0)

  datatype GpuOutcome = Complete | Declined | Unconfirmed

  // Position of pixel (x, y) in a linear image of `stride` pixels a row that starts at `base`.
  function At(base: int, stride: nat, x: int, y: int): int { base + y * stride + x }

  lemma RowsFit(base: int, stride: nat, w: nat, h: nat, x: nat, y: nat, n: int)
    requires x < w && y < h && At(base, stride, w, h - 1) <= n
    ensures At(base, stride, 0, 0) <= At(base, stride, x, y) < n
  {
    assert y * stride <= (h - 1) * stride;
    assert y * stride >= 0;
  }

  // A point of the destination rectangle.
  predicate In(x: int, y: int, dx: int, dy: int, w: int, h: int) {
    dx <= x < dx + w && dy <= y < dy + h
  }

  // vkCmdCopyBufferToImage, as the Vulkan specification defines its addressing.
  method CopyBufferToImage(buffer: seq<Pixel>, bufferOffset: int, rowLength: nat, image: array2<Pixel>,
                           dx: int, dy: int, w: nat, h: nat)
    requires w > 0 && h > 0 && 0 <= bufferOffset
    requires At(bufferOffset, rowLength, w, h - 1) <= |buffer| // every texel read lies in the buffer
    requires 0 <= dx && dx + w <= image.Length1 && 0 <= dy && dy + h <= image.Length0
    modifies image
    ensures forall x, y :: 0 <= x < image.Length1 && 0 <= y < image.Length0 ==>
      image[y, x] == if In(x, y, dx, dy, w, h)
                     then Texel(buffer, bufferOffset, rowLength, x - dx, y - dy)
                     else old(image[y, x])
  {
    forall x, y | dx <= x < dx + w && dy <= y < dy + h {
      image[y, x] := Texel(buffer, bufferOffset, rowLength, x - dx, y - dy);
    }
  }

  // The texel at (x, y) of a linear buffer; the callers below never leave the buffer.
  function Texel(buffer: seq<Pixel>, base: int, stride: nat, x: int, y: int): Pixel {
    var i := At(base, stride, x, y);
    if 0 <= i < |buffer| then buffer[i] else BLANK
  }

  // The pixels of a file's bytes.
  function PixelsOf(bytes: seq<Byte>): (pixels: seq<Pixel>)
    ensures |pixels| == |bytes| / 4
  {
    seq(|bytes| / 4, i requires 0 <= i < |bytes| / 4 =>
      Pixel(bytes[4 * i], bytes[4 * i + 1], bytes[4 * i + 2], bytes[4 * i + 3]))
  }

  // Byte extents of aligned layouts are four times their pixel extents.
  lemma InPixels(offset: int, width: nat, stride: nat, rows: int)
    requires offset % 4 == 0 && stride % 4 == 0
    ensures offset + rows * stride + width * 4 == 4 * At(offset / 4, stride / 4, width, rows)
  {
    var q := stride / 4;
    assert stride == 4 * q;
    Fours(rows, q);
  }

  lemma Fours(rows: int, q: nat)
    ensures rows * (4 * q) == 4 * (rows * q)
  {}

  // The rows that are imported.
  function RowsOf(r: Import, height: nat): nat { if r.Split? then r.gpuRows else height }

  lemma SizesInPixels(offset: Off64, width: Int32, height: Int32, stride: Int32, fileSize: Off64, need: nat -> Size64)
    requires !ImportSource(offset, width, height, stride, fileSize, need).Refused?
    ensures var r := ImportSource(offset, width, height, stride, fileSize, need);
      && 0 <= offset && 0 < width <= stride / 4 && 0 < RowsOf(r, height) <= height
      && (r.Split? ==> r.gpuRows < height && r.tailSize == 4 * At(0, stride / 4, width, height - r.gpuRows - 1))
      && r.size == 4 * At(offset / 4, stride / 4, width, RowsOf(r, height) - 1)
      && 4 * At(offset / 4, stride / 4, width, height - 1) <= fileSize
      && offset % 4 == 0 && stride % 4 == 0
  {
    var r := ImportSource(offset, width, height, stride, fileSize, need);
    ImportIsBest(offset, width, height, stride, fileSize, need);
    InPixels(offset, width, stride, RowsOf(r, height) - 1);
    InPixels(offset, width, stride, height - 1);
    InPixels(0, width, stride, height - RowsOf(r, height) - 1);
  }

  // A texel of an aligned image in a file is the four bytes at its byte position.
  lemma TexelBytes(bytes: seq<Byte>, offset: nat, width: nat, height: nat, stride: nat, x: nat, y: nat)
    requires offset % 4 == 0 && stride % 4 == 0 && x < width && y < height
    requires Extent(offset, width, stride, height) <= |bytes|
    ensures var k := offset + y * stride + x * 4;
      && 0 <= k && k + 4 <= |bytes|
      && Texel(PixelsOf(bytes), offset / 4, stride / 4, x, y) ==
           Pixel(bytes[k], bytes[k + 1], bytes[k + 2], bytes[k + 3])
  {
    InPixels(offset, x, stride, y);
    RowOrder(stride, y, height - 1);
    RowOrder(stride, 0, y);
  }

  // An imported source; all quantities in pixels.
  class DmaCopySource {
    const width: nat
    const height: nat
    const stride: nat
    const offset: nat
    const gpuRows: nat
    const tail: array<Pixel>
    var stagedPixels: nat

    constructor (width: nat, height: nat, stride: nat, offset: nat, gpuRows: nat)
      requires 0 < gpuRows <= height && 0 < width <= stride
      ensures this.width == width && this.height == height && this.stride == stride && this.offset == offset
      ensures this.gpuRows == gpuRows && stagedPixels == 0
      ensures Valid() && fresh(tail)
    {
      this.width, this.height, this.stride, this.offset, this.gpuRows := width, height, stride, offset, gpuRows;
      stagedPixels := 0;
      var size := if gpuRows == height then 0 else At(0, stride, width, height - gpuRows - 1);
      RowExtent(stride, width, height - gpuRows);
      tail := new Pixel[size];
    }

    ghost predicate Valid() {
      && 0 < gpuRows <= height && 0 < width <= stride
      && tail.Length == if gpuRows == height then 0 else At(0, stride, width, height - gpuRows - 1)
    }

    // dmaCopyImportSource: a source exactly when the import is not refused, with the imported and
    // staged byte sizes that the copies below read, and an image that lies in the file.
    static method FromFile(offset: Off64, width: Int32, height: Int32, stride: Int32, fileSize: Off64,
                           need: nat -> Size64) returns (source: DmaCopySource?, imported: Import)
      ensures imported == ImportSource(offset, width, height, stride, fileSize, need)
      ensures source == null <==> imported.Refused?
      ensures source != null ==>
        && fresh(source) && fresh(source.tail) && source.Valid() && source.stagedPixels == 0
        && source.width == width && source.height == height && 4 * source.stride == stride && 4 * source.offset == offset
        && source.gpuRows == RowsOf(imported, height)
        && imported.size == 4 * At(source.offset, source.stride, width, source.gpuRows - 1)
        && 4 * source.tail.Length == (if imported.Split? then imported.tailSize else 0)
        && 4 * At(source.offset, source.stride, width, height - 1) <= fileSize
    {
      source := null;
      imported := ImportSource(offset, width, height, stride, fileSize, need);
      if imported.Refused? { return; }
      SizesInPixels(offset, width, height, stride, fileSize, need);
      source := new DmaCopySource(width, height, stride / 4, offset / 4, RowsOf(imported, height));
    }

    // The rectangle lies in the source image.
    predicate Inside(sx: int, sy: int, w: int, h: int) {
      0 <= sx && 0 <= sy && 0 < w && 0 < h && sx + w <= width && sy + h <= height
    }

    // One recorded copy: from the tail, or from the imported rows of the file.
    method RecordCopy(file: seq<Pixel>, image: array2<Pixel>, sx: nat, sy: nat, dx: nat, dy: nat, w: nat, h: nat, fromTail: bool)
      requires Valid() && At(offset, stride, width, height - 1) <= |file|
      requires Inside(sx, sy, w, h)
      requires if fromTail then gpuRows <= sy && Staged(file) else sy + h <= gpuRows
      requires dx + w <= image.Length1 && dy + h <= image.Length0
      modifies image
      ensures forall x, y :: 0 <= x < image.Length1 && 0 <= y < image.Length0 ==>
        image[y, x] == if In(x, y, dx, dy, w, h)
                       then Texel(file, offset, stride, sx + x - dx, sy + y - dy)
                       else old(image[y, x])
    {
      var base := if fromTail then At(0, stride, sx, sy - gpuRows) else At(offset, stride, sx, sy);
      if fromTail {
        ghost var staged := tail[..];
        TailBounds(sx, sy, w, h);
        CopyBufferToImage(tail[..], base, stride, image, dx, dy, w, h);
        forall x: int, y: int | In(x, y, dx, dy, w, h)
          ensures Texel(staged, base, stride, x - dx, y - dy) == Texel(file, offset, stride, sx + x - dx, sy + y - dy)
        {
          TailTexel(file, staged, sx + x - dx, sy + y - dy);
          assert At(base, stride, x - dx, y - dy) == At(0, stride, sx + x - dx, sy + y - dy - gpuRows) by {
            Shift(0, stride, sx, sy - gpuRows, x - dx, y - dy);
          }
        }
      } else {
        ghost var imported := At(offset, stride, width, gpuRows - 1); // size of the imported buffer
        ImportedBounds(sx, sy, w, h, imported);
        RowOrder(stride, gpuRows - 1, height - 1);
        CopyBufferToImage(file[..At(offset, stride, width, gpuRows - 1)], base, stride, image, dx, dy, w, h);
        forall x: int, y: int | In(x, y, dx, dy, w, h)
          ensures Texel(file[..imported], base, stride, x - dx, y - dy) == Texel(file, offset, stride, sx + x - dx, sy + y - dy)
        {
          Shift(offset, stride, sx, sy, x - dx, y - dy);
          RowsFit(offset, stride, width, gpuRows, sx + x - dx, sy + y - dy, imported);
        }
      }
    }

    // The tail holds the file's rows from gpuRows on.
    ghost predicate Staged(file: seq<Pixel>)
      reads tail
    {
      && At(offset, stride, 0, gpuRows) + tail.Length <= |file|
      && tail[..] == file[At(offset, stride, 0, gpuRows)..At(offset, stride, 0, gpuRows) + tail.Length]
    }

    lemma TailTexel(file: seq<Pixel>, staged: seq<Pixel>, x: nat, y: nat)
      requires Valid() && x < width && gpuRows <= y < height
      requires At(offset, stride, 0, gpuRows) + tail.Length <= |file|
      requires staged == file[At(offset, stride, 0, gpuRows)..At(offset, stride, 0, gpuRows) + tail.Length]
      ensures Texel(staged, 0, stride, x, y - gpuRows) == Texel(file, offset, stride, x, y)
    {
      RowsFit(0, stride, width, height - gpuRows, x, y - gpuRows, tail.Length);
      Shift(offset, stride, 0, gpuRows, x, y - gpuRows);
    }

    lemma TailBounds(sx: nat, sy: nat, w: nat, h: nat)
      requires Valid() && Inside(sx, sy, w, h) && gpuRows <= sy
      ensures 0 <= At(0, stride, sx, sy - gpuRows)
      ensures At(At(0, stride, sx, sy - gpuRows), stride, w, h - 1) <= tail.Length
    {
      Shift(0, stride, sx, sy - gpuRows, w, h - 1);
      RowOrder(stride, sy - gpuRows + h - 1, height - gpuRows - 1);
      RowOrder(stride, 0, sy - gpuRows);
    }

    lemma ImportedBounds(sx: nat, sy: nat, w: nat, h: nat, imported: int)
      requires Valid() && Inside(sx, sy, w, h) && sy + h <= gpuRows && imported == At(offset, stride, width, gpuRows - 1)
      ensures 0 <= At(offset, stride, sx, sy)
      ensures At(At(offset, stride, sx, sy), stride, w, h - 1) <= imported
    {
      Shift(offset, stride, sx, sy, w, h - 1);
      RowOrder(stride, sy + h - 1, gpuRows - 1);
      RowOrder(stride, 0, sy);
    }

    // dmaCopyRect.  A completed copy is the plain rectangle copy of the image as it is in the file
    // now; the tail is staged exactly when rows of it are read; nothing else changes.
    method CopyRect(file: seq<Pixel>, image: array2<Pixel>, sx: int, sy: int, dx: int, dy: int, w: int, h: int,
                    gpu: GpuOutcome) returns (result: GpuOutcome)
      requires Valid() && At(offset, stride, width, height - 1) <= |file|
      modifies this, tail, image
      ensures result.Complete? ==>
        && Inside(sx, sy, w, h) && 0 <= dx && dx + w <= image.Length1 && 0 <= dy && dy + h <= image.Length0
        && forall x, y :: 0 <= x < image.Length1 && 0 <= y < image.Length0 ==>
             image[y, x] == if In(x, y, dx, dy, w, h)
                            then Texel(file, offset, stride, sx + x - dx, sy + y - dy)
                            else old(image[y, x])
      ensures gpu.Complete? && Inside(sx, sy, w, h) && 0 <= dx && dx + w <= image.Length1 && 0 <= dy && dy + h <= image.Length0
        ==> result.Complete?
      ensures stagedPixels == old(stagedPixels) +
        if Inside(sx, sy, w, h) && 0 <= dx && dx + w <= image.Length1 && 0 <= dy && dy + h <= image.Length0
           && sy + h > gpuRows then tail.Length else 0
    {
      if !Inside(sx, sy, w, h) || dx < 0 || dy < 0 || dx + w > image.Length1 || dy + h > image.Length0 {
        return Declined;
      }
      if sy + h > gpuRows {
        TailSource(|file|);
        var from := At(offset, stride, 0, gpuRows);
        forall i | 0 <= i < tail.Length {
          tail[i] := file[from + i];
        }
        stagedPixels := stagedPixels + tail.Length;
      }
      if !gpu.Complete? {
        return gpu;
      }
      var gpuHeight := if sy < gpuRows then gpuRows - sy else 0;
      if gpuHeight > h {
        gpuHeight := h;
      }
      if gpuHeight > 0 {
        RecordCopy(file, image, sx, sy, dx, dy, w, gpuHeight, false);
      }
      if gpuHeight < h {
        RecordCopy(file, image, sx, sy + gpuHeight, dx, dy + gpuHeight, w, h - gpuHeight, true);
      }
      return Complete;
    }

    lemma TailSource(n: int)
      requires Valid() && gpuRows < height && At(offset, stride, width, height - 1) <= n
      ensures 0 <= At(offset, stride, 0, gpuRows) && At(offset, stride, 0, gpuRows) + tail.Length <= n
    {
      Shift(offset, stride, 0, gpuRows, width, height - gpuRows - 1);
      RowOrder(stride, 0, gpuRows);
    }
  }

  lemma RowExtent(stride: nat, w: nat, rows: int)
    ensures rows > 0 ==> At(0, stride, w, rows - 1) >= 0
  {
    if rows > 0 {
      RowOrder(stride, 0, rows - 1);
    }
  }

  lemma RowOrder(stride: nat, a: int, b: int)
    requires a <= b
    ensures a * stride <= b * stride
  {}

  lemma Shift(base: int, stride: nat, x: int, y: int, i: int, j: int)
    ensures At(At(base, stride, x, y), stride, i, j) == At(base, stride, x + i, y + j)
  {
    assert (y + j) * stride == y * stride + j * stride;
  }
}
