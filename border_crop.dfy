/**
 * `crop_transparent_borders`: four early-exit scans find the rows and columns that
 * hold pixels with non-zero alpha, and the image is cut down to that rectangle.
 *
 * The column scans only look at rows `top..bottom`, which leaves out the bottom row.
 */
module BorderCrop {
  import opened Types

  /** An RGBA pixel (`image::Rgba<u8>`); `a` is channel 3, the alpha. */
  datatype Pixel = Pixel(r: byte, g: byte, b: byte, a: byte)

  /** An `RgbaImage`: `width` x `height` pixels stored row by row. */
  datatype Image = Image(width: nat, height: nat, pixels: seq<Pixel>)

  /** The buffer holds exactly one pixel per coordinate. */
  predicate Valid(img: Image)
  {
    |img.pixels| == img.width * img.height
  }

  /** `RgbaImage::new(1, 1)`: one pixel, all channels zero. */
  const Blank: Image := Image(1, 1, [Pixel(0, 0, 0, 0)])

  lemma RowMajorBound(x: nat, y: nat, w: nat, h: nat)
    requires x < w && y < h
    ensures y * w + x < w * h
  {
    assert y * w + x < (y + 1) * w;
    assert (y + 1) * w <= h * w;
  }

  /** `get_pixel(x, y)`. */
  function At(img: Image, x: nat, y: nat): Pixel
    requires Valid(img) && x < img.width && y < img.height
  {
    RowMajorBound(x, y, img.width, img.height);
    img.pixels[y * img.width + x]
  }

  /** Row `y` holds a pixel with non-zero alpha. */
  predicate RowVisible(img: Image, y: nat)
    requires Valid(img)
  {
    y < img.height && exists x: nat | x < img.width :: At(img, x, y).a != 0
  }

  /** Column `x` holds a pixel with non-zero alpha among rows `top..bottom` (bottom excluded). */
  predicate ColumnVisible(img: Image, x: nat, top: nat, bottom: nat)
    requires Valid(img)
  {
    x < img.width && exists y: nat | top <= y < bottom && y < img.height :: At(img, x, y).a != 0
  }

  /** `i` is the first index of `lo..hi` that satisfies `p`. */
  ghost predicate IsFirst(lo: nat, hi: nat, p: nat -> bool, i: nat)
  {
    lo <= i < hi && p(i) && forall j :: lo <= j < i ==> !p(j)
  }

  /** `i` is the last index of `lo..hi` that satisfies `p`. */
  ghost predicate IsLast(lo: nat, hi: nat, p: nat -> bool, i: nat)
  {
    lo <= i < hi && p(i) && forall j :: i < j < hi ==> !p(j)
  }

  /** A forward scan of `lo..hi` that stops at the first hit. */
  function First(lo: nat, hi: nat, p: nat -> bool): (r: Option<nat>)
    decreases hi - lo
    ensures r.Some? ==> IsFirst(lo, hi, p, r.value)
    ensures r.None? ==> forall j :: lo <= j < hi ==> !p(j)
  {
    if hi <= lo then None else if p(lo) then Some(lo) else First(lo + 1, hi, p)
  }

  /** A backward scan of `lo..hi` (`(lo..hi).rev()`) that stops at the first hit. */
  function Last(lo: nat, hi: nat, p: nat -> bool): (r: Option<nat>)
    decreases hi
    ensures r.Some? ==> IsLast(lo, hi, p, r.value)
    ensures r.None? ==> forall j :: lo <= j < hi ==> !p(j)
  {
    if hi <= lo then None else if p(hi - 1) then Some(hi - 1) else Last(lo, hi - 1, p)
  }

  /** The scan result is the one index with the scan's defining property. */
  lemma FirstUnique(lo: nat, hi: nat, p: nat -> bool, i: nat)
    ensures First(lo, hi, p) == Some(i) <==> IsFirst(lo, hi, p, i)
  {
    if IsFirst(lo, hi, p, i) {
      assert First(lo, hi, p).Some?;
    }
  }

  lemma LastUnique(lo: nat, hi: nat, p: nat -> bool, i: nat)
    ensures Last(lo, hi, p) == Some(i) <==> IsLast(lo, hi, p, i)
  {
    if IsLast(lo, hi, p, i) {
      assert Last(lo, hi, p).Some?;
    }
  }

  /** The row test of the top and bottom scans. */
  function RowTest(img: Image): nat -> bool
    requires Valid(img)
  {
    (y: nat) => RowVisible(img, y)
  }

  /** The column test of the left and right scans, over rows `top..rowsEnd`. */
  function ColumnTest(img: Image, top: nat, rowsEnd: nat): nat -> bool
    requires Valid(img)
  {
    (x: nat) => ColumnVisible(img, x, top, rowsEnd)
  }

  /** The bounds found by the four scans; all four are inclusive. */
  datatype Bounds = Bounds(top: nat, bottom: nat, left: nat, right: nat)

  /**
   * The four scans. The column scans look at rows `top..bottom` as written in the
   * source, or at rows `top..=bottom` when `inclusive` is set (the corrected scan).
   */
  function ScanBounds(img: Image, inclusive: bool): (r: Option<Bounds>)
    requires Valid(img)
    ensures r.Some? ==> r.value.top <= r.value.bottom < img.height
    ensures r.Some? ==> r.value.left <= r.value.right < img.width
  {
    match First(0, img.height, RowTest(img))
    case None => None
    case Some(top) =>
      match Last(top, img.height, RowTest(img))
      case None => None
      case Some(bottom) =>
        var rowsEnd := if inclusive then bottom + 1 else bottom;
        match First(0, img.width, ColumnTest(img, top, rowsEnd))
        case None => None
        case Some(left) =>
          match Last(left, img.width, ColumnTest(img, top, rowsEnd))
          case None => None
          case Some(right) => Some(Bounds(top, bottom, left, right))
  }

  lemma MulMonotone(a: nat, b: nat, w: nat)
    requires a <= b
    ensures a * w <= b * w
  {
  }

  lemma RowMajorDivMod(i: nat, j: nat, w: nat)
    requires i < w
    ensures (j * w + i) / w == j && (j * w + i) % w == i
  {
    var x := j * w + i;
    var q, r := x / w, x % w;
    assert x == q * w + r;
    if q < j {
      MulMonotone(q + 1, j, w);
      assert false;
    } else if j < q {
      MulMonotone(j + 1, q, w);
      assert false;
    }
  }

  lemma RowMajorSplit(k: nat, w: nat, h: nat)
    requires k < w * h
    ensures w > 0 && k % w < w && k / w < h
  {
  }

  /** `view(left, top, w, h).to_image()`: a copy of the `w` x `h` rectangle at `(left, top)`. */
  function SubImage(img: Image, left: nat, top: nat, w: nat, h: nat): (r: Image)
    requires Valid(img) && left + w <= img.width && top + h <= img.height
    ensures Valid(r) && r.width == w && r.height == h
  {
    Image(w, h, seq(w * h, k requires 0 <= k < w * h =>
      RowMajorSplit(k, w, h); At(img, left + k % w, top + k / w)))
  }

  /** Every pixel of the copy is the pixel at the same offset in the source rectangle. */
  lemma SubImageAt(img: Image, left: nat, top: nat, w: nat, h: nat, i: nat, j: nat)
    requires Valid(img) && left + w <= img.width && top + h <= img.height
    requires i < w && j < h
    ensures At(SubImage(img, left, top, w, h), i, j) == At(img, left + i, top + j)
  {
    RowMajorDivMod(i, j, w);
    RowMajorBound(i, j, w, h);
  }

  /** The result of `crop_transparent_borders`, or of the corrected crop when `inclusive` is set. */
  function CropWith(img: Image, inclusive: bool): Image
    requires Valid(img)
  {
    match ScanBounds(img, inclusive)
    case None => Blank
    case Some(b) => SubImage(img, b.left, b.top, b.right - b.left + 1, b.bottom - b.top + 1)
  }

  /** `crop_transparent_borders` as written. */
  function Cropped(img: Image): Image
    requires Valid(img)
  {
    CropWith(img, false)
  }

  /** The pixel at `(x, y)` has non-zero alpha. */
  predicate VisibleAt(img: Image, x: nat, y: nat)
    requires Valid(img)
  {
    x < img.width && y < img.height && At(img, x, y).a != 0
  }

  /** With no pixel of non-zero alpha, the crop is the 1x1 transparent sentinel. */
  lemma {:induction false} CropNothingVisible(img: Image)
    requires Valid(img)
    requires forall x: nat, y: nat :: !VisibleAt(img, x, y)
    ensures Cropped(img) == Blank
  {
    var top := First(0, img.height, RowTest(img));
    if top.Some? {
      var x: nat :| x < img.width && At(img, x, top.value).a != 0;
      assert VisibleAt(img, x, top.value);
    }
  }

  /**
   * The scans find bounds exactly when two visible pixels sit on different rows;
   * otherwise (nothing visible, or everything visible on one row) the crop is the sentinel.
   */
  lemma {:induction false} CropFindsBoundsIff(img: Image)
    requires Valid(img)
    ensures ScanBounds(img, false).Some? <==>
      exists x1: nat, y1: nat, x2: nat, y2: nat :: y1 < y2 && VisibleAt(img, x1, y1) && VisibleAt(img, x2, y2)
    ensures ScanBounds(img, false).None? ==> Cropped(img) == Blank
  {
    var rows := RowTest(img);
    if b :| ScanBounds(img, false) == Some(b) {
      var columns := ColumnTest(img, b.top, b.bottom);
      assert columns(b.left);
      var y1: nat :| b.top <= y1 < b.bottom && y1 < img.height && At(img, b.left, y1).a != 0;
      assert rows(b.bottom);
      var x2: nat :| x2 < img.width && At(img, x2, b.bottom).a != 0;
      assert VisibleAt(img, b.left, y1) && VisibleAt(img, x2, b.bottom);
    }
    if exists x1: nat, y1: nat, x2: nat, y2: nat :: y1 < y2 && VisibleAt(img, x1, y1) && VisibleAt(img, x2, y2) {
      var x1: nat, y1: nat, x2: nat, y2: nat :| y1 < y2 && VisibleAt(img, x1, y1) && VisibleAt(img, x2, y2);
      assert rows(y1);
      var top := First(0, img.height, rows);
      assert top.Some? && top.value <= y1;
      assert rows(y2);
      var bottom := Last(top.value, img.height, rows);
      assert bottom.Some? && y2 <= bottom.value;
      var columns := ColumnTest(img, top.value, bottom.value);
      assert columns(x1);
      var left := First(0, img.width, columns);
      assert left.Some?;
      assert Last(left.value, img.width, columns).Some?;
    }
  }

  /** When every visible pixel lies on row `row`, the crop is the 1x1 transparent sentinel. */
  lemma CropSingleRow(img: Image, row: nat)
    requires Valid(img)
    requires forall x: nat, y: nat :: VisibleAt(img, x, y) ==> y == row
    ensures Cropped(img) == Blank
  {
    CropFindsBoundsIff(img);
  }

  /** An image whose only visible pixel is `(x, y)` crops to the sentinel, not to that pixel. */
  lemma CropSinglePixel(img: Image, x: nat, y: nat)
    requires Valid(img) && VisibleAt(img, x, y)
    requires forall i: nat, j: nat :: VisibleAt(img, i, j) ==> i == x && j == y
    ensures Cropped(img) == Blank && Blank != Image(1, 1, [At(img, x, y)])
  {
    CropSingleRow(img, y);
  }

  /**
   * The general case: `top` and `bottom` are the first and last rows with a visible
   * pixel, `left` and `right` the first and last columns with one in rows `top..bottom`;
   * the crop is the rectangle they span, copied pixel for pixel.
   */
  lemma {:induction false} CropGeneral(img: Image, top: nat, bottom: nat, left: nat, right: nat)
    requires Valid(img)
    requires RowVisible(img, top) && forall y: nat :: y < top ==> !RowVisible(img, y)
    requires top <= bottom && RowVisible(img, bottom)
    requires forall y: nat :: bottom < y ==> !RowVisible(img, y)
    requires ColumnVisible(img, left, top, bottom)
    requires forall x: nat :: x < left ==> !ColumnVisible(img, x, top, bottom)
    requires left <= right && ColumnVisible(img, right, top, bottom)
    requires forall x: nat :: right < x ==> !ColumnVisible(img, x, top, bottom)
    ensures Valid(Cropped(img))
    ensures Cropped(img).width == right - left + 1 && Cropped(img).height == bottom - top + 1
    ensures 1 <= Cropped(img).width <= img.width && 1 <= Cropped(img).height <= img.height
    ensures forall i: nat, j: nat :: i < Cropped(img).width && j < Cropped(img).height ==>
      At(Cropped(img), i, j) == At(img, left + i, top + j)
  {
    var rows := RowTest(img);
    var columns := ColumnTest(img, top, bottom);
    FirstUnique(0, img.height, rows, top);
    LastUnique(top, img.height, rows, bottom);
    FirstUnique(0, img.width, columns, left);
    LastUnique(left, img.width, columns, right);
    assert ScanBounds(img, false) == Some(Bounds(top, bottom, left, right));
    forall i: nat, j: nat | i < right - left + 1 && j < bottom - top + 1
      ensures At(Cropped(img), i, j) == At(img, left + i, top + j)
    {
      SubImageAt(img, left, top, right - left + 1, bottom - top + 1, i, j);
    }
  }

  /** Two images of the same size with the same pixel at every coordinate are equal. */
  lemma SamePixels(a: Image, b: Image)
    requires Valid(a) && Valid(b) && a.width == b.width && a.height == b.height
    requires forall i: nat, j: nat :: i < a.width && j < a.height ==> At(a, i, j) == At(b, i, j)
    ensures a == b
  {
    var w, h := a.width, a.height;
    forall k | 0 <= k < w * h
      ensures a.pixels[k] == b.pixels[k]
    {
      RowMajorSplit(k, w, h);
      var i, j := k % w, k / w;
      assert k == j * w + i;
      assert At(a, i, j) == At(b, i, j);
    }
  }

  /** A fully opaque image of at least two rows is returned unchanged. */
  lemma {:induction false} CropOpaque(img: Image)
    requires Valid(img) && img.width >= 1 && img.height >= 2
    requires forall x: nat, y: nat :: x < img.width && y < img.height ==> VisibleAt(img, x, y)
    ensures Cropped(img) == img
  {
    var w, h := img.width, img.height;
    assert VisibleAt(img, 0, 0) && VisibleAt(img, 0, h - 1) && VisibleAt(img, w - 1, 0);
    assert RowVisible(img, 0) && RowVisible(img, h - 1);
    assert ColumnVisible(img, 0, 0, h - 1) && ColumnVisible(img, w - 1, 0, h - 1);
    CropGeneral(img, 0, h - 1, 0, w - 1);
    SamePixels(Cropped(img), img);
  }

  /** The corrected crop: the column scans cover rows `top..=bottom`. */
  function CroppedInclusive(img: Image): Image
    requires Valid(img)
  {
    CropWith(img, true)
  }

  /**
   * The corrected crop is the bounding box of the visible pixels: each of its four
   * edges holds a visible pixel, and every visible pixel is inside it, copied unchanged.
   */
  lemma {:induction false} CroppedInclusiveKeepsVisible(img: Image, x: nat, y: nat)
    requires Valid(img) && VisibleAt(img, x, y)
    ensures ScanBounds(img, true).Some?
    ensures var b := ScanBounds(img, true).value;
      b.top <= y <= b.bottom && b.left <= x <= b.right &&
      RowVisible(img, b.top) && RowVisible(img, b.bottom) &&
      ColumnVisible(img, b.left, b.top, b.bottom + 1) && ColumnVisible(img, b.right, b.top, b.bottom + 1) &&
      CroppedInclusive(img) == SubImage(img, b.left, b.top, b.right - b.left + 1, b.bottom - b.top + 1) &&
      At(CroppedInclusive(img), x - b.left, y - b.top) == At(img, x, y)
  {
    var rows := RowTest(img);
    assert rows(y);
    var top := First(0, img.height, rows);
    assert top.Some? && top.value <= y;
    var bottom := Last(top.value, img.height, rows);
    assert bottom.Some? && y <= bottom.value;
    var columns := ColumnTest(img, top.value, bottom.value + 1);
    assert columns(x);
    var left := First(0, img.width, columns);
    assert left.Some? && left.value <= x;
    var right := Last(left.value, img.width, columns);
    assert right.Some? && x <= right.value;
    var b := Bounds(top.value, bottom.value, left.value, right.value);
    assert ScanBounds(img, true) == Some(b);
    SubImageAt(img, b.left, b.top, b.right - b.left + 1, b.bottom - b.top + 1, x - b.left, y - b.top);
  }

  /** With one visible pixel, the corrected crop is that pixel alone. */
  lemma CroppedInclusiveSinglePixel(img: Image, x: nat, y: nat)
    requires Valid(img) && VisibleAt(img, x, y)
    requires forall i: nat, j: nat :: VisibleAt(img, i, j) ==> i == x && j == y
    ensures CroppedInclusive(img) == Image(1, 1, [At(img, x, y)])
  {
    CroppedInclusiveKeepsVisible(img, x, y);
    var b := ScanBounds(img, true).value;
    var x1: nat :| x1 < img.width && At(img, x1, b.top).a != 0;
    assert VisibleAt(img, x1, b.top);
    var x2: nat :| x2 < img.width && At(img, x2, b.bottom).a != 0;
    assert VisibleAt(img, x2, b.bottom);
    var y1: nat :| b.top <= y1 < b.bottom + 1 && y1 < img.height && At(img, b.left, y1).a != 0;
    assert VisibleAt(img, b.left, y1);
    var y2: nat :| b.top <= y2 < b.bottom + 1 && y2 < img.height && At(img, b.right, y2).a != 0;
    assert VisibleAt(img, b.right, y2);
    var out := CroppedInclusive(img);
    assert out.width == 1 && out.height == 1;
    assert out.pixels[0] == At(out, 0, 0) == At(img, x, y);
    assert out.pixels == [At(img, x, y)];
  }

  /** The top scan: rows from the first down, stopping at the first row with a visible pixel. */
  method ScanTop(img: Image) returns (top: Option<nat>)
    requires Valid(img)
    ensures top == First(0, img.height, RowTest(img))
  {
    top := None;
    var y := 0;
    while y < img.height
      invariant y <= img.height
      invariant First(0, img.height, RowTest(img)) == First(y, img.height, RowTest(img))
    {
      var x := 0;
      while x < img.width
        invariant x <= img.width
        invariant forall i: nat :: i < x ==> At(img, i, y).a == 0
      {
        if At(img, x, y).a != 0 {
          top := Some(y);
          break break;
        }
        x := x + 1;
      }
      y := y + 1;
    }
  }

  /** The bottom scan: rows from the last up to `top`, stopping at the first row with a visible pixel. */
  method ScanBottom(img: Image, top: nat) returns (bottom: Option<nat>)
    requires Valid(img) && top <= img.height
    ensures bottom == Last(top, img.height, RowTest(img))
  {
    bottom := None;
    var y := img.height;
    while y > top
      invariant top <= y <= img.height
      invariant Last(top, img.height, RowTest(img)) == Last(top, y, RowTest(img))
    {
      var row := y - 1;
      var x := 0;
      while x < img.width
        invariant x <= img.width
        invariant forall i: nat :: i < x ==> At(img, i, row).a == 0
      {
        if At(img, x, row).a != 0 {
          bottom := Some(row);
          break break;
        }
        x := x + 1;
      }
      y := y - 1;
    }
  }

  /** The left scan: columns from the first, looking at rows `top..bottom` only. */
  method ScanLeft(img: Image, top: nat, bottom: nat) returns (left: Option<nat>)
    requires Valid(img) && top <= bottom <= img.height
    ensures left == First(0, img.width, ColumnTest(img, top, bottom))
  {
    left := None;
    var x := 0;
    while x < img.width
      invariant x <= img.width
      invariant First(0, img.width, ColumnTest(img, top, bottom)) == First(x, img.width, ColumnTest(img, top, bottom))
    {
      var y := top;
      while y < bottom
        invariant top <= y <= bottom
        invariant forall i: nat :: top <= i < y ==> At(img, x, i).a == 0
      {
        if At(img, x, y).a != 0 {
          left := Some(x);
          break break;
        }
        y := y + 1;
      }
      x := x + 1;
    }
  }

  /** The right scan: columns from the last down to `left`, looking at rows `top..bottom` only. */
  method ScanRight(img: Image, top: nat, bottom: nat, left: nat) returns (right: Option<nat>)
    requires Valid(img) && top <= bottom <= img.height && left <= img.width
    ensures right == Last(left, img.width, ColumnTest(img, top, bottom))
  {
    right := None;
    var x := img.width;
    while x > left
      invariant left <= x <= img.width
      invariant Last(left, img.width, ColumnTest(img, top, bottom)) == Last(left, x, ColumnTest(img, top, bottom))
    {
      var column := x - 1;
      var y := top;
      while y < bottom
        invariant top <= y <= bottom
        invariant forall i: nat :: top <= i < y ==> At(img, column, i).a == 0
      {
        if At(img, column, y).a != 0 {
          right := Some(column);
          break break;
        }
        y := y + 1;
      }
      x := x - 1;
    }
  }

  /** `crop_transparent_borders`: the four scans with early exit, then the copy. */
  method CropTransparentBorders(img: Image) returns (out: Image)
    requires Valid(img)
    ensures out == Cropped(img)
  {
    var top := ScanTop(img);
    if top.None? {
      return Blank;
    }
    var bottom := ScanBottom(img, top.value);
    if bottom.None? {
      return Blank;
    }
    var left := ScanLeft(img, top.value, bottom.value);
    if left.None? {
      return Blank;
    }
    var right := ScanRight(img, top.value, bottom.value, left.value);
    if right.None? {
      return Blank;
    }
    out := SubImage(img, left.value, top.value, right.value - left.value + 1, bottom.value - top.value + 1);
  }
}
