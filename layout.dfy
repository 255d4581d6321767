/** The widget's geometry: the size it asks for in onMeasure and the horizontal
    extent of each bar it paints in onDraw, with the exact formulas they compute
    whenever Java's int arithmetic does not overflow. */
module Layout {
  import opened JavaInt

  /** The mode of the container's height constraint (MeasureSpec mode). */
  datatype MeasureMode = Exactly | AtMost | Unspecified

  /** The view's padding in pixels. */
  datatype Padding = Padding(left: int, top: int, right: int, bottom: int)

  predicate PaddingIsInt(pad: Padding) {
    IsInt(pad.left) && IsInt(pad.top) && IsInt(pad.right) && IsInt(pad.bottom)
  }

  /** Width of `count` bars of width `width` separated by `count - 1` gaps of
      `margin`, in exact arithmetic and without padding. */
  function ContentWidth(count: int, width: int, margin: int): int {
    count * width + (count - 1) * margin
  }

  /** Height onMeasure asks for, in exact arithmetic: an exact constraint is
      honoured down to `minHeight` of drawing height; any other constraint gets
      `defaultHeight` of drawing height. Padding is added on top. */
  function ExactHeight(mode: MeasureMode, size: int, pad: Padding, minHeight: int, defaultHeight: int): (h: int)
    ensures mode == Exactly ==> h >= minHeight + pad.top + pad.bottom
    ensures mode == Exactly && size - pad.top - pad.bottom >= minHeight ==> h == size
    ensures mode == Exactly && size - pad.top - pad.bottom < minHeight ==> h == minHeight + pad.top + pad.bottom
    ensures mode != Exactly ==> h == defaultHeight + pad.top + pad.bottom
  {
    var drawHeight := if mode == Exactly then Max(minHeight, size - pad.bottom - pad.top) else defaultHeight;
    drawHeight + pad.top + pad.bottom
  }

  /** Width onMeasure computes, in int arithmetic:
      `count * width + (count - 1) * margin + paddingLeft + paddingRight`. */
  function MeasuredWidth(count: int, width: int, margin: int, pad: Padding): int {
    Add(Add(Add(Mul(count, width), Mul(Sub(count, 1), margin)), pad.left), pad.right)
  }

  /** Height onMeasure computes, in int arithmetic: under an exact constraint the
      size less vertical padding, raised to at least `minHeight`; otherwise
      `defaultHeight`; then vertical padding added back. */
  function MeasuredHeight(mode: MeasureMode, size: int, pad: Padding, minHeight: int, defaultHeight: int): int {
    var drawHeight := if mode == Exactly then Max(minHeight, Sub(Sub(size, pad.bottom), pad.top)) else defaultHeight;
    Add(Add(drawHeight, pad.top), pad.bottom)
  }

  /** The measured width is the exact row width plus padding, reduced to 32 bits;
      so it is exactly that sum whenever the sum is an int. */
  lemma MeasuredWidthWraps(count: int, width: int, margin: int, pad: Padding)
    requires IsInt(count) && IsInt(width) && IsInt(margin) && PaddingIsInt(pad)
    ensures MeasuredWidth(count, width, margin, pad) == Wrap(ContentWidth(count, width, margin) + pad.left + pad.right)
  {
    var bars, gaps := count * width, (count - 1) * margin;
    GapsWrap(count, margin);
    WrapSum(bars, gaps);
    AddToWrapped(bars + gaps, pad.left);
    AddToWrapped(bars + gaps + pad.left, pad.right);
  }

  lemma GapsWrap(count: int, margin: int)
    requires IsInt(count) && IsInt(margin)
    ensures Mul(Sub(count, 1), margin) == Wrap((count - 1) * margin)
  {
    WrapProduct(count - 1, margin);
  }

  lemma AddToWrapped(x: int, y: int)
    requires IsInt(y)
    ensures Add(Wrap(x), y) == Wrap(x + y)
  {
    WrapSum(x, y);
  }

  /** The measured height is ExactHeight reduced to 32 bits, provided the size
      less vertical padding does not itself overflow under an exact constraint. */
  lemma MeasuredHeightWraps(mode: MeasureMode, size: int, pad: Padding, minHeight: int, defaultHeight: int)
    requires IsInt(size) && PaddingIsInt(pad) && IsInt(minHeight) && IsInt(defaultHeight)
    requires mode == Exactly ==> IsInt(size - pad.bottom - pad.top)
    ensures MeasuredHeight(mode, size, pad, minHeight, defaultHeight) == Wrap(ExactHeight(mode, size, pad, minHeight, defaultHeight))
  {
    if mode == Exactly {
      var drawHeight := Max(minHeight, size - pad.bottom - pad.top);
      TwoDifferences(size, pad.bottom, pad.top);
      TwoSums(drawHeight, pad.top, pad.bottom);
    } else {
      TwoSums(defaultHeight, pad.top, pad.bottom);
    }
  }

  lemma TwoDifferences(a: int, b: int, c: int)
    requires IsInt(a) && IsInt(b) && IsInt(c) && IsInt(a - b - c)
    ensures Sub(Sub(a, b), c) == a - b - c
  {
    WrapDifference(a, b);
    WrapDifference(a - b, c);
  }

  lemma TwoSums(a: int, b: int, c: int)
    requires IsInt(a) && IsInt(b) && IsInt(c)
    ensures Add(Add(a, b), c) == Wrap(a + b + c)
  {
    WrapSum(a, b);
    WrapSum(a + b, c);
  }

  /** Left edge of bar i as onDraw computes it: `i * (width + margin)` in int arithmetic. */
  function BarLeft(i: int, width: int, margin: int): int {
    Mul(i, Add(width, margin))
  }

  /** Right edge of bar i as onDraw computes it: `i * (width + margin) + width`. */
  function BarRight(i: int, width: int, margin: int): int {
    Add(BarLeft(i, width, margin), width)
  }

  /** The edges onDraw computes are the exact edges reduced to 32 bits. */
  lemma BarEdgesWrap(i: int, width: int, margin: int)
    requires IsInt(i) && IsInt(width) && IsInt(margin)
    ensures BarLeft(i, width, margin) == Wrap(i * (width + margin))
    ensures BarRight(i, width, margin) == Wrap(i * (width + margin) + width)
  {
    WrapProduct(i, width + margin);
    WrapSum(i * (width + margin), width);
  }

  /** With non-negative width and margin and a row that fits in an int, bar i
      spans exactly [i*(w+m), i*(w+m)+w], lies inside the row, is followed by a
      gap of exactly `margin`, and the last bar ends where the row ends. */
  lemma {:induction false} BarGeometry(count: int, width: int, margin: int, i: int)
    requires IsInt(count) && IsInt(width) && IsInt(margin)
    requires width >= 0 && margin >= 0
    requires 0 <= i < count
    requires IsInt(ContentWidth(count, width, margin))
    ensures BarLeft(i, width, margin) == i * (width + margin)
    ensures BarRight(i, width, margin) == BarLeft(i, width, margin) + width
    ensures 0 <= BarLeft(i, width, margin) <= BarRight(i, width, margin) <= ContentWidth(count, width, margin)
    ensures i + 1 < count ==> BarLeft(i + 1, width, margin) - BarRight(i, width, margin) == margin
    ensures i == count - 1 ==> BarRight(i, width, margin) == ContentWidth(count, width, margin)
  {
    BarEdgesWrap(i, width, margin);
    RowPrefixFits(count, width, margin, i);
    if i + 1 < count {
      BarEdgesWrap(i + 1, width, margin);
      RowPrefixFits(count, width, margin, i + 1);
      assert (i + 1) * (width + margin) == i * (width + margin) + width + margin;
    }
    if i == count - 1 {
      assert i * (width + margin) + width == ContentWidth(count, width, margin);
    }
  }

  /** Every bar's exact right edge lies between 0 and the exact row width. */
  lemma RowPrefixFits(count: int, width: int, margin: int, i: int)
    requires width >= 0 && margin >= 0
    requires 0 <= i < count
    ensures 0 <= i * (width + margin)
    ensures i * (width + margin) + width <= ContentWidth(count, width, margin)
  {
    var step := width + margin;
    NonNegativeProduct(i, step);
    NonNegativeProduct(count - 1 - i, step);
    Distribute(count - 1, width, margin);
    Distribute2(i, count - 1 - i, step);
  }

  lemma NonNegativeProduct(a: int, b: int)
    requires a >= 0 && b >= 0
    ensures a * b >= 0
  {
  }

  lemma Distribute(n: int, width: int, margin: int)
    ensures ContentWidth(n + 1, width, margin) == n * (width + margin) + width
  {
  }

  lemma Distribute2(a: int, b: int, c: int)
    ensures (a + b) * c == a * c + b * c
  {
  }
}
