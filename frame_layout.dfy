/**
  How the Python wrapper turns the raw frame buffer the native layer hands it
  into a height x width x 4 pixel array (windows_capture/__init__.py,
  on_frame_arrived).

  The buffer holds `height` rows of `pitch` bytes each. When the pitch is
  exactly `width * 4` the buffer is viewed as the frame unchanged; otherwise
  every row is cut to its first `width * 4` bytes and the rows are joined.
  A frame's pixels are kept flat, in row-major order: byte k of pixel (r, c)
  sits at PixelIndex(width, r, c, k).
 */
module FrameLayout {

  /** BGRA: four bytes per pixel. */
  const BytesPerPixel: nat := 4

  /** A frame as the Python `Frame` object holds it: the pixel bytes and the dimensions. */
  datatype Frame = Frame(pixels: seq<bv8>, width: nat, height: nat)

  /** Bytes of one de-padded row. */
  function RowBytes(width: nat): (n: nat)
  {
    width * BytesPerPixel
  }

  /**
    The buffers this model accepts: a positive number of rows, a whole
    number of bytes per row, and rows at least as long as the pixels they
    carry. (A fractional pitch or a too-short row makes numpy fail; that
    case is not modelled. The pitch is read as the integer quotient, where
    Python 3's `/` yields a float.)
   */
  predicate WellShaped(bufLen: nat, width: nat, height: nat)
  {
    height > 0 && bufLen % height == 0 && bufLen / height >= RowBytes(width)
  }

  /** The row pitch `buf_len / height`. */
  function RowPitch(bufLen: nat, height: nat): (pitch: nat)
    requires height > 0
  {
    bufLen / height
  }

  /** Position of byte k of pixel (r, c) in a flat frame of the given width. */
  function PixelIndex(width: nat, r: nat, c: nat, k: nat): (i: nat)
  {
    r * RowBytes(width) + c * BytesPerPixel + k
  }

  lemma RowsFit(pitch: nat, rows: nat)
    requires rows > 0
    ensures (rows - 1) * pitch + pitch == rows * pitch
  {
  }

  /**
    The first `rowLen` bytes of each of the first `rows` rows of `buf`,
    concatenated: `buf` viewed as rows x pitch, sliced to `[:, :rowLen]`.
   */
  function Depad(buf: seq<bv8>, pitch: nat, rowLen: nat, rows: nat): (r: seq<bv8>)
    requires rowLen <= pitch && rows * pitch <= |buf|
    ensures |r| == rows * rowLen
    decreases rows
  {
    if rows == 0 then []
    else
      RowsFit(pitch, rows);
      RowsFit(rowLen, rows);
      var start := (rows - 1) * pitch;
      Depad(buf, pitch, rowLen, rows - 1) + buf[start .. start + rowLen]
  }

  /** Byte j of de-padded row r is byte j of row r of the buffer. */
  lemma {:induction false} DepadAt(buf: seq<bv8>, pitch: nat, rowLen: nat, rows: nat, r: nat, j: nat)
    requires rowLen <= pitch && rows * pitch <= |buf|
    requires r < rows && j < rowLen
    ensures r * rowLen + j < |Depad(buf, pitch, rowLen, rows)|
    ensures r * pitch + j < |buf|
    ensures Depad(buf, pitch, rowLen, rows)[r * rowLen + j] == buf[r * pitch + j]
    decreases rows
  {
    RowsFit(pitch, rows);
    RowsFit(rowLen, rows);
    var prefix := Depad(buf, pitch, rowLen, rows - 1);
    assert Depad(buf, pitch, rowLen, rows) == prefix + buf[(rows - 1) * pitch .. (rows - 1) * pitch + rowLen];
    if r == rows - 1 {
      assert |prefix| == r * rowLen;
    } else {
      DepadAt(buf, pitch, rowLen, rows - 1, r, j);
      assert r * pitch + j < (rows - 1) * pitch by {
        RowsBelow(pitch, r, rows - 1, j);
      }
    }
  }

  lemma RowsBelow(pitch: nat, r: nat, rows: nat, j: nat)
    requires r < rows && j < pitch
    ensures r * pitch + j < rows * pitch
  {
    assert (r + 1) * pitch <= rows * pitch;
  }

  /** With no padding to drop, de-padding gives back the buffer's rows unchanged. */
  lemma {:induction false} DepadWithoutPadding(buf: seq<bv8>, pitch: nat, rows: nat)
    requires rows * pitch <= |buf|
    ensures Depad(buf, pitch, pitch, rows) == buf[.. rows * pitch]
    decreases rows
  {
    if rows > 0 {
      RowsFit(pitch, rows);
      DepadWithoutPadding(buf, pitch, rows - 1);
      assert buf[.. (rows - 1) * pitch] + buf[(rows - 1) * pitch .. rows * pitch] == buf[.. rows * pitch];
    }
  }

  lemma WholeRows(bufLen: nat, height: nat)
    requires height > 0 && bufLen % height == 0
    ensures height * RowPitch(bufLen, height) == bufLen
  {
  }

  /**
    The frame built for a buffer (windows_capture/__init__.py:95-108): the
    buffer itself when the pitch is exactly width * 4, the de-padded rows
    otherwise.
   */
  function FrameOf(buf: seq<bv8>, width: nat, height: nat): (f: Frame)
    requires WellShaped(|buf|, width, height)
    ensures f.width == width && f.height == height
    ensures |f.pixels| == height * RowBytes(width)
  {
    var pitch := RowPitch(|buf|, height);
    WholeRows(|buf|, height);
    if pitch == RowBytes(width) then Frame(buf, width, height)
    else Frame(Depad(buf, pitch, RowBytes(width), height), width, height)
  }

  /** Both branches of FrameOf agree: the frame is always the de-padded buffer. */
  lemma FrameOfIsDepad(buf: seq<bv8>, width: nat, height: nat)
    requires WellShaped(|buf|, width, height)
    ensures height * RowPitch(|buf|, height) == |buf|
    ensures FrameOf(buf, width, height).pixels == Depad(buf, RowPitch(|buf|, height), RowBytes(width), height)
  {
    var pitch := RowPitch(|buf|, height);
    WholeRows(|buf|, height);
    if pitch == RowBytes(width) {
      DepadWithoutPadding(buf, pitch, height);
    }
  }

  /** With no padding the frame is the buffer, no byte dropped or moved. */
  lemma FrameOfUnpadded(buf: seq<bv8>, width: nat, height: nat)
    requires WellShaped(|buf|, width, height)
    requires RowPitch(|buf|, height) == RowBytes(width)
    ensures FrameOf(buf, width, height).pixels == buf
  {
  }

  /**
    Byte k of pixel (r, c) of the frame is byte `r * pitch + 4 * c + k` of
    the buffer, whether or not the rows were padded.
   */
  lemma FrameOfAt(buf: seq<bv8>, width: nat, height: nat, r: nat, c: nat, k: nat)
    requires WellShaped(|buf|, width, height)
    requires r < height && c < width && k < BytesPerPixel
    ensures PixelIndex(width, r, c, k) < |FrameOf(buf, width, height).pixels|
    ensures r * RowPitch(|buf|, height) + c * BytesPerPixel + k < |buf|
    ensures FrameOf(buf, width, height).pixels[PixelIndex(width, r, c, k)]
         == buf[r * RowPitch(|buf|, height) + c * BytesPerPixel + k]
  {
    var pitch := RowPitch(|buf|, height);
    FrameOfIsDepad(buf, width, height);
    assert c * BytesPerPixel + k < RowBytes(width);
    DepadAt(buf, pitch, RowBytes(width), height, r, c * BytesPerPixel + k);
  }
}
