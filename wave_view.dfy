/** The WaveView widget: a row of bars whose heights follow one looping animator
    each. The class keeps the widget's configuration, its animator array and its
    ratio array, and every method keeps them consistent (Valid). */
module Widget {
  import opened JavaInt
  import opened Layout

  datatype Option<T> = None | Some(value: T) {
    function GetOr(default: T): T {
      match this
      case Some(v) => v
      case None => default
    }
  }

  /** Where the bars stand on the canvas: on its bottom edge or on its midline. */
  datatype Gravity = Bottom | Center

  /** A ValueAnimator reduced to what the widget sets and asks of it: the value
      range it animates over, its duration and start delay in milliseconds, and
      whether it has been started and not cancelled since. */
  datatype Animator = Animator(from: real, to: real, duration: int, startDelay: int, running: bool)

  /** A rectangle passed to Canvas.drawRect, in view coordinates. */
  datatype Rect = Rect(left: real, top: real, right: real, bottom: real)

  /** The attribute set read when the widget is inflated from a layout; None
      where the layout leaves the attribute out. Gravity is the enum's code. */
  datatype Attributes = Attributes(
    color: Option<int>,
    count: Option<int>,
    width: Option<int>,
    margin: Option<int>,
    duration: Option<int>,
    delay: Option<int>,
    gravity: Option<int>,
    minRatio: Option<real>)

  /** Color.WHITE (0xFFFFFFFF) as a Java int. */
  const WHITE: int := -1
  /** View.VISIBLE. */
  const VISIBLE: int := 0

  const DEFAULT_COUNT: int := 3
  const DEFAULT_DURATION: int := 240
  const DEFAULT_DELAY: int := 100
  const DEFAULT_MIN_RATIO: real := 0.3

  /** The values a minimum ratio may take: (0, 1]. */
  predicate ValidMinRatio(r: real) {
    0.0 < r <= 1.0
  }

  /** Every int attribute holds a Java int. */
  predicate AttributesAreInts(attrs: Attributes) {
    (attrs.color.Some? ==> IsInt(attrs.color.value))
    && (attrs.count.Some? ==> IsInt(attrs.count.value))
    && (attrs.width.Some? ==> IsInt(attrs.width.value))
    && (attrs.margin.Some? ==> IsInt(attrs.margin.value))
    && (attrs.duration.Some? ==> IsInt(attrs.duration.value))
    && (attrs.delay.Some? ==> IsInt(attrs.delay.value))
    && (attrs.gravity.Some? ==> IsInt(attrs.gravity.value))
  }

  /** The attribute is present and positive, so init takes it. */
  predicate Positive(attr: Option<int>) {
    attr.Some? && attr.value > 0
  }

  /** The gravity init keeps for attribute code `code`: -1 (absent) keeps
      `current`, 0 is BOTTOM and any other code CENTER. */
  function GravityAttribute(code: int, current: Option<Gravity>): Option<Gravity> {
    if code == -1 then current
    else if code == 0 then Some(Bottom)
    else Some(Center)
  }

  /** dp2px: dp * density + 0.5 narrowed to an int, i.e. rounded half up to
      whole pixels. */
  function Dp2Px(dp: real, density: real): (px: int)
    ensures IsInt(px)
    ensures 0.0 <= dp * density ==> 0 <= px && px as real - 0.5 <= dp * density
    ensures 0.0 <= dp * density < MAX_INT as real - 0.5 ==> dp * density < px as real + 0.5
  {
    FloatToInt(dp * density + 0.5)
  }

  /** The start delay given to animator i: the int product `i * delay`. */
  function StartDelay(i: int, delay: int): int {
    Mul(i, delay)
  }

  /** Without overflow, bar i starts `i * delay` after bar 0, and each bar lags
      the one before it by exactly `delay`. */
  lemma StartDelayStagger(i: int, delay: int)
    requires IsInt(delay) && delay > 0 && 0 <= i
    requires (i + 1) * delay <= MAX_INT
    ensures StartDelay(i, delay) == i * delay
    ensures StartDelay(i + 1, delay) == StartDelay(i, delay) + delay
    ensures 0 <= StartDelay(i, delay) < StartDelay(i + 1, delay)
  {
    assert (i + 1) * delay == i * delay + delay;
    assert 0 <= i * delay;
    assert i <= i * delay;
  }

  /** The rectangle onDraw paints for bar i with ratio `ratio` on a view of
      height `height`, after its canvas.translate to the midline or bottom edge. */
  function BarRect(gravity: Gravity, i: int, width: int, margin: int, ratio: real, height: int): Rect {
    var left := BarLeft(i, width, margin) as real;
    var right := BarRight(i, width, margin) as real;
    var h := height as real;
    match gravity
    case Center => Rect(left, h / 2.0 - ratio * h / 2.0, right, h / 2.0 + ratio * h / 2.0)
    case Bottom => Rect(left, h - ratio * h, right, h)
  }

  /** A bar with ratio in [0, 1] stays inside the view's height, is `ratio`
      times that height tall, and sits on the midline or on the bottom edge. */
  lemma BarRectInView(gravity: Gravity, i: int, width: int, margin: int, ratio: real, height: int)
    requires 0.0 <= ratio <= 1.0 && height >= 0
    ensures var r := BarRect(gravity, i, width, margin, ratio, height);
      0.0 <= r.top <= r.bottom <= height as real
      && r.bottom - r.top == ratio * height as real
      && (gravity == Center ==> r.top + r.bottom == height as real)
      && (gravity == Bottom ==> r.bottom == height as real)
  {
    var h := height as real;
    assert 0.0 <= ratio * h <= h by {
      assert ratio * h <= 1.0 * h;
    }
  }

  class WaveView {
    /** Display density used by dp2px. */
    const density: real
    /** MIN_HEIGHT: dp2px(3). */
    const minHeight: int
    /** DEFAULT_HEIGHT: dp2px(10). */
    const defaultHeight: int

    /** The color the Paint draws with. */
    var paintColor: int
    var waveColor: int
    var waveCount: int
    var waveWidth: int
    var waveMargin: int
    var animDuration: int
    var animDelay: int
    var waveMinRatio: real
    /** A Java enum field, so it may be null (None). */
    var waveGravity: Option<Gravity>
    /** The view height last reported to onSizeChanged. */
    var height: int
    var animators: array<Animator>
    var ratios: array<real>

    /** The configuration holds only what the filters let through. */
    ghost predicate ConfigValid()
      reads this
    {
      IsInt(waveCount) && waveCount >= 1
      && IsInt(waveWidth) && IsInt(waveMargin)
      && IsInt(animDuration) && animDuration > 0
      && IsInt(animDelay) && animDelay > 0
      && ValidMinRatio(waveMinRatio)
      && IsInt(minHeight) && IsInt(defaultHeight) && IsInt(height)
    }

    /** One animator and one ratio per bar; the animators share one value range
        and one running state; every ratio is still 0 or inside that range. */
    ghost predicate ArraysValid()
      reads this, animators, ratios
    {
      animators.Length == waveCount && ratios.Length == waveCount && waveCount >= 1
      && ValidMinRatio(animators[0].from)
      && (forall i :: 0 <= i < animators.Length ==>
            animators[i].from == animators[0].from && animators[i].to == 1.0
            && animators[i].running == animators[0].running)
      && (forall i :: 0 <= i < ratios.Length ==>
            ratios[i] == 0.0 || animators[0].from <= ratios[i] <= 1.0)
    }

    /** Every animator runs for animDuration. */
    ghost predicate DurationsMatch()
      reads this, animators
    {
      forall i :: 0 <= i < animators.Length ==> animators[i].duration == animDuration
    }

    /** Animator i starts i * animDelay late. */
    ghost predicate DelaysMatch()
      reads this, animators
    {
      forall i :: 0 <= i < animators.Length ==> animators[i].startDelay == StartDelay(i, animDelay)
    }

    ghost predicate Valid()
      reads this, animators, ratios
    {
      ConfigValid() && ArraysValid() && DurationsMatch() && DelaysMatch()
    }

    /** Animator 0's state, which the widget reads as the state of the whole set. */
    ghost predicate Running()
      reads this, animators
      requires animators.Length > 0
    {
      animators[0].running
    }

    /** Under the invariant animator 0 running means every animator is running
        and animator 0 stopped means every animator is stopped: the proxy that
        startAnim, stopAnim, setWaveCount and setWaveMinRatio read is exact. */
    lemma RunningIsWholeSet()
      requires Valid()
      ensures Running() <==> forall i :: 0 <= i < animators.Length ==> animators[i].running
      ensures !Running() <==> forall i :: 0 <= i < animators.Length ==> !animators[i].running
    {
    }

    /** The widget built in code: defaults, then initPaint and initAnim. */
    constructor (density: real)
      requires density > 0.0
      ensures Valid() && fresh(animators) && fresh(ratios)
      ensures this.density == density
      ensures minHeight == Dp2Px(3.0, density) && defaultHeight == Dp2Px(10.0, density)
      ensures waveColor == WHITE && paintColor == WHITE
      ensures waveCount == DEFAULT_COUNT
      ensures waveWidth == Dp2Px(1.0, density) && waveMargin == Dp2Px(1.0, density)
      ensures animDuration == DEFAULT_DURATION && animDelay == DEFAULT_DELAY
      ensures waveMinRatio == DEFAULT_MIN_RATIO && waveGravity == Some(Center) && height == 0
      ensures forall i :: 0 <= i < waveCount ==>
        animators[i] == Animator(DEFAULT_MIN_RATIO, 1.0, DEFAULT_DURATION, StartDelay(i, DEFAULT_DELAY), false)
        && ratios[i] == 0.0
    {
      this.density := density;
      minHeight := Dp2Px(3.0, density);
      defaultHeight := Dp2Px(10.0, density);
      waveColor := WHITE;
      waveCount := DEFAULT_COUNT;
      waveWidth := Dp2Px(1.0, density);
      waveMargin := Dp2Px(1.0, density);
      animDuration := DEFAULT_DURATION;
      animDelay := DEFAULT_DELAY;
      waveMinRatio := DEFAULT_MIN_RATIO;
      waveGravity := Some(Center);
      height := 0;
      // these empty arrays stand in for Java's null fields before initAnim
      animators := new Animator[0];
      ratios := new real[0];
      new;
      InitPaint();
      InitAnim();
    }

    /** The widget inflated from a layout: defaults, then init's attribute filters. */
    constructor FromAttributes(density: real, attrs: Attributes)
      requires density > 0.0 && AttributesAreInts(attrs)
      ensures Valid() && fresh(animators) && fresh(ratios)
      ensures this.density == density
      ensures minHeight == Dp2Px(3.0, density) && defaultHeight == Dp2Px(10.0, density)
      ensures BarAttributesApplied(attrs, WHITE, DEFAULT_COUNT, Dp2Px(1.0, density), Dp2Px(1.0, density))
      ensures AnimAttributesApplied(attrs, DEFAULT_DURATION, DEFAULT_DELAY, Some(Center), DEFAULT_MIN_RATIO)
      ensures paintColor == waveColor
      ensures height == 0
      ensures forall i :: 0 <= i < waveCount ==>
        animators[i] == Animator(waveMinRatio, 1.0, animDuration, StartDelay(i, animDelay), false)
        && ratios[i] == 0.0
    {
      this.density := density;
      minHeight := Dp2Px(3.0, density);
      defaultHeight := Dp2Px(10.0, density);
      waveColor := WHITE;
      waveCount := DEFAULT_COUNT;
      waveWidth := Dp2Px(1.0, density);
      waveMargin := Dp2Px(1.0, density);
      animDuration := DEFAULT_DURATION;
      animDelay := DEFAULT_DELAY;
      waveMinRatio := DEFAULT_MIN_RATIO;
      waveGravity := Some(Center);
      height := 0;
      animators := new Animator[0];
      ratios := new real[0];
      new;
      Init(attrs);
    }

    /** init: the attribute filters, then initPaint and initAnim. */
    method Init(attrs: Attributes)
      requires ConfigValid() && AttributesAreInts(attrs)
      modifies this
      ensures Valid() && fresh(animators) && fresh(ratios)
      ensures BarAttributesApplied(attrs, old(waveColor), old(waveCount), old(waveWidth), old(waveMargin))
      ensures AnimAttributesApplied(attrs, old(animDuration), old(animDelay), old(waveGravity), old(waveMinRatio))
      ensures paintColor == waveColor && height == old(height)
      ensures forall i :: 0 <= i < waveCount ==>
        animators[i] == Animator(waveMinRatio, 1.0, animDuration, StartDelay(i, animDelay), false)
        && ratios[i] == 0.0
    {
      ReadBarAttributes(attrs);
      ReadAnimAttributes(attrs);
      InitPaint();
      InitAnim();
    }

    /** The bar attributes (color, count, width, margin) hold their attribute
        when it passes init's filter (present, and > 0 for the sizes) and their
        previous value otherwise. */
    ghost predicate BarAttributesApplied(attrs: Attributes, color: int, count: int, width: int, margin: int)
      reads this
    {
      waveColor == attrs.color.GetOr(color)
      && waveCount == (if Positive(attrs.count) then attrs.count.value else count)
      && waveWidth == (if Positive(attrs.width) then attrs.width.value else width)
      && waveMargin == (if Positive(attrs.margin) then attrs.margin.value else margin)
    }

    /** The animation attributes hold their attribute when it passes init's
        filter (times > 0; minimum ratio in (0, 1]; gravity code -1 means
        absent, 0 is BOTTOM, anything else CENTER) and their previous value
        otherwise. */
    ghost predicate AnimAttributesApplied(attrs: Attributes, duration: int, delay: int, gravity: Option<Gravity>, minRatio: real)
      reads this
    {
      animDuration == (if Positive(attrs.duration) then attrs.duration.value else duration)
      && animDelay == (if Positive(attrs.delay) then attrs.delay.value else delay)
      && waveGravity == GravityAttribute(attrs.gravity.GetOr(-1), gravity)
      && waveMinRatio == (if attrs.minRatio.Some? && ValidMinRatio(attrs.minRatio.value)
                          then attrs.minRatio.value else minRatio)
    }

    /** The attribute-reading part of init, first half: the bars' look. */
    method ReadBarAttributes(attrs: Attributes)
      requires ConfigValid() && AttributesAreInts(attrs)
      modifies this`waveColor, this`waveCount, this`waveWidth, this`waveMargin
      ensures ConfigValid()
      ensures BarAttributesApplied(attrs, old(waveColor), old(waveCount), old(waveWidth), old(waveMargin))
    {
      waveColor := attrs.color.GetOr(waveColor);

      var count := attrs.count.GetOr(waveCount);
      waveCount := if count <= 0 then waveCount else count;

      var width := attrs.width.GetOr(waveWidth);
      waveWidth := if width <= 0 then waveWidth else width;

      var margin := attrs.margin.GetOr(waveMargin);
      waveMargin := if margin <= 0 then waveMargin else margin;
    }

    /** The attribute-reading part of init, second half: the animation. */
    method ReadAnimAttributes(attrs: Attributes)
      requires ConfigValid() && AttributesAreInts(attrs)
      modifies this`animDuration, this`animDelay, this`waveGravity, this`waveMinRatio
      ensures ConfigValid()
      ensures AnimAttributesApplied(attrs, old(animDuration), old(animDelay), old(waveGravity), old(waveMinRatio))
    {
      var duration := attrs.duration.GetOr(animDuration);
      animDuration := if duration <= 0 then animDuration else duration;

      var delay := attrs.delay.GetOr(animDelay);
      animDelay := if delay <= 0 then animDelay else delay;

      var gravity := attrs.gravity.GetOr(-1);
      if gravity != -1 {
        waveGravity := if gravity == 0 then Some(Bottom) else Some(Center);
      }

      var minRatio := attrs.minRatio.GetOr(waveMinRatio);
      if minRatio > 0.0 && minRatio <= 1.0 {
        waveMinRatio := minRatio;
      }
    }

    /** initPaint: the Paint takes the current wave color. */
    method InitPaint()
      modifies this`paintColor
      ensures paintColor == waveColor
    {
      paintColor := waveColor;
    }

    /** initAnim: fresh arrays of waveCount animators and waveCount ratios.
        Animator i animates from waveMinRatio to 1 over animDuration, starts
        i * animDelay late and is not running; every ratio is 0. */
    method InitAnim()
      requires ConfigValid()
      modifies this`animators, this`ratios
      ensures Valid()
      ensures fresh(animators) && fresh(ratios)
      ensures animators.Length == waveCount && ratios.Length == waveCount
      ensures forall i :: 0 <= i < waveCount ==>
        animators[i] == Animator(waveMinRatio, 1.0, animDuration, StartDelay(i, animDelay), false)
      ensures forall i :: 0 <= i < waveCount ==> ratios[i] == 0.0
    {
      var anims := new Animator[waveCount];
      var zeros := new real[waveCount](_ => 0.0);
      animators, ratios := anims, zeros;
      for i := 0 to animators.Length
        invariant animators == anims && ratios == zeros
        invariant forall j :: 0 <= j < i ==>
          animators[j] == Animator(waveMinRatio, 1.0, animDuration, StartDelay(j, animDelay), false)
        invariant forall j :: 0 <= j < ratios.Length ==> ratios[j] == 0.0
      {
        animators[i] := Animator(waveMinRatio, 1.0, animDuration, StartDelay(i, animDelay), false);
      }
    }

    /** onSizeChanged: remembers the new height. */
    method OnSizeChanged(h: int)
      requires Valid() && IsInt(h)
      modifies this`height
      ensures Valid() && height == h
    {
      height := h;
    }

    /** onMeasure: the width is the row of bars plus horizontal padding; the
        height is the exact constraint (never less than MIN_HEIGHT of drawing
        height) or DEFAULT_HEIGHT, plus vertical padding; both in int arithmetic. */
    method OnMeasure(mode: MeasureMode, size: int, pad: Padding) returns (width: int, h: int)
      requires Valid() && IsInt(size) && PaddingIsInt(pad)
      ensures width == Wrap(ContentWidth(waveCount, waveWidth, waveMargin) + pad.left + pad.right)
      ensures IsInt(ContentWidth(waveCount, waveWidth, waveMargin) + pad.left + pad.right) ==>
        width == ContentWidth(waveCount, waveWidth, waveMargin) + pad.left + pad.right
      ensures mode != Exactly || IsInt(size - pad.bottom - pad.top) ==>
        h == Wrap(ExactHeight(mode, size, pad, minHeight, defaultHeight))
    {
      width := MeasuredWidth(waveCount, waveWidth, waveMargin, pad);
      h := MeasuredHeight(mode, size, pad, minHeight, defaultHeight);
      MeasuredWidthWraps(waveCount, waveWidth, waveMargin, pad);
      if mode != Exactly || IsInt(size - pad.bottom - pad.top) {
        MeasuredHeightWraps(mode, size, pad, minHeight, defaultHeight);
      }
    }

    /** The drawing part of onDraw: one rectangle per bar, from the bar's
        horizontal extent and its ratio, placed by the gravity; nothing when the
        gravity is null. */
    method DrawBars() returns (rects: seq<Rect>)
      requires Valid()
      ensures waveGravity.None? ==> rects == []
      ensures waveGravity.Some? ==> |rects| == waveCount
      ensures waveGravity.Some? ==> forall i :: 0 <= i < |rects| ==>
        rects[i] == BarRect(waveGravity.value, i, waveWidth, waveMargin, ratios[i], height)
      ensures height >= 0 ==> forall i :: 0 <= i < |rects| ==>
        0.0 <= rects[i].top <= rects[i].bottom <= height as real
    {
      rects := [];
      match waveGravity
      case None =>
      case Some(gravity) =>
        for i := 0 to waveCount
          invariant |rects| == i
          invariant forall j :: 0 <= j < i ==> rects[j] == BarRect(gravity, j, waveWidth, waveMargin, ratios[j], height)
          invariant height >= 0 ==> forall j :: 0 <= j < i ==> 0.0 <= rects[j].top <= rects[j].bottom <= height as real
        {
          rects := rects + [BarRect(gravity, i, waveWidth, waveMargin, ratios[i], height)];
          if height >= 0 {
            BarRectInView(gravity, i, waveWidth, waveMargin, ratios[i], height);
          }
        }
    }

    /** onDraw: paint the bars, then invalidate(), which keeps the animators
        running while the window has focus and stops them otherwise. */
    method OnDraw(hasWindowFocus: bool) returns (rects: seq<Rect>)
      requires Valid()
      modifies animators
      ensures Valid()
      ensures waveGravity.None? ==> rects == []
      ensures waveGravity.Some? ==> |rects| == waveCount && forall i :: 0 <= i < |rects| ==>
        rects[i] == BarRect(waveGravity.value, i, waveWidth, waveMargin, ratios[i], height)
      ensures Running() == hasWindowFocus
      ensures forall i :: 0 <= i < animators.Length ==> animators[i] == old(animators[i]).(running := hasWindowFocus)
    {
      rects := DrawBars();
      Invalidate(hasWindowFocus);
    }

    /** The update listener of animator i: the animated value becomes ratio i.
        The animation engine calls it only for a running animator, with a value
        inside the animator's range. */
    method OnAnimationUpdate(i: int, value: real)
      requires Valid()
      requires 0 <= i < ratios.Length
      requires animators[i].running && animators[i].from <= value <= animators[i].to
      modifies ratios
      ensures Valid()
      ensures ratios[..] == old(ratios[..])[i := value]
    {
      ratios[i] := value;
    }

    /** startAnim: nothing changes if animator 0 is running; otherwise every
        animator is started. */
    method StartAnim()
      requires Valid()
      modifies animators
      ensures Valid() && Running()
      ensures old(Running()) ==> animators[..] == old(animators[..])
      ensures forall i :: 0 <= i < animators.Length ==> animators[i] == old(animators[i]).(running := true)
    {
      if animators[0].running {
        return;
      }
      for i := 0 to animators.Length
        invariant forall j :: 0 <= j < i ==> animators[j] == old(animators[j]).(running := true)
        invariant forall j :: i <= j < animators.Length ==> animators[j] == old(animators[j])
      {
        animators[i] := animators[i].(running := true);
      }
    }

    /** stopAnim: if animator 0 is running, every animator is cancelled;
        otherwise nothing changes. */
    method StopAnim()
      requires Valid()
      modifies animators
      ensures Valid() && !Running()
      ensures !old(Running()) ==> animators[..] == old(animators[..])
      ensures forall i :: 0 <= i < animators.Length ==> animators[i] == old(animators[i]).(running := false)
    {
      if animators[0].running {
        for i := 0 to animators.Length
          invariant forall j :: 0 <= j < i ==> animators[j] == old(animators[j]).(running := false)
          invariant forall j :: i <= j < animators.Length ==> animators[j] == old(animators[j])
        {
          animators[i] := animators[i].(running := false);
        }
      }
    }

    /** invalidate: with window focus the redraw is requested and the animators
        are started; without it they are stopped. */
    method Invalidate(hasWindowFocus: bool)
      requires Valid()
      modifies animators
      ensures Valid() && Running() == hasWindowFocus
      ensures forall i :: 0 <= i < animators.Length ==> animators[i] == old(animators[i]).(running := hasWindowFocus)
    {
      if hasWindowFocus {
        StartAnim();
      } else {
        StopAnim();
      }
    }

    /** onWindowFocusChanged: gaining focus invalidates and starts the
        animators, losing it stops them. */
    method OnWindowFocusChanged(hasWindowFocus: bool)
      requires Valid()
      modifies animators
      ensures Valid() && Running() == hasWindowFocus
      ensures forall i :: 0 <= i < animators.Length ==> animators[i] == old(animators[i]).(running := hasWindowFocus)
    {
      if hasWindowFocus {
        Invalidate(true);
        StartAnim();
      } else {
        StopAnim();
      }
    }

    /** onVisibilityChanged: VISIBLE starts the animators, any other visibility
        stops them. */
    method OnVisibilityChanged(visibility: int)
      requires Valid()
      modifies animators
      ensures Valid() && Running() == (visibility == VISIBLE)
      ensures forall i :: 0 <= i < animators.Length ==>
        animators[i] == old(animators[i]).(running := visibility == VISIBLE)
    {
      if visibility == VISIBLE {
        StartAnim();
      } else {
        StopAnim();
      }
    }

    /** setWaveColor: the color and the Paint both change. */
    method SetWaveColor(color: int)
      requires Valid()
      modifies this`waveColor, this`paintColor
      ensures Valid() && waveColor == color && paintColor == color
    {
      waveColor := color;
      paintColor := waveColor;
    }

    /** setWaveColorRes, given the color the resource resolves to: the color
        changes but the Paint keeps drawing with the old one. */
    method SetWaveColorRes(resolvedColor: int)
      requires Valid()
      modifies this`waveColor
      ensures Valid() && waveColor == resolvedColor
    {
      waveColor := resolvedColor;
    }

    /** setWaveCount: ignored for a count <= 0 and while animator 0 runs;
        otherwise the count changes and both arrays are rebuilt (not started). */
    method SetWaveCount(count: int)
      requires Valid() && IsInt(count)
      modifies this`waveCount, this`animators, this`ratios
      ensures Valid()
      ensures count <= 0 || old(Running()) ==>
        waveCount == old(waveCount) && animators == old(animators) && ratios == old(ratios)
      ensures count > 0 && !old(Running()) ==>
        waveCount == count && fresh(animators) && fresh(ratios)
        && animators.Length == count && ratios.Length == count
        && (forall i :: 0 <= i < count ==>
              animators[i] == Animator(waveMinRatio, 1.0, animDuration, StartDelay(i, animDelay), false)
              && ratios[i] == 0.0)
    {
      if count <= 0 {
        return;
      }
      if animators[0].running {
        return;
      }
      waveCount := count;
      InitAnim();
    }

    /** setAnimDuration: ignored for a duration <= 0; otherwise every animator
        takes the new duration and keeps everything else. */
    method SetAnimDuration(duration: int)
      requires Valid() && IsInt(duration)
      modifies this`animDuration, animators
      ensures Valid()
      ensures animDuration == if duration > 0 then duration else old(animDuration)
      ensures duration <= 0 ==> animators[..] == old(animators[..])
      ensures forall i :: 0 <= i < animators.Length ==>
        animators[i] == old(animators[i]).(duration := animDuration)
    {
      if duration <= 0 {
        return;
      }
      animDuration := duration;
      UpdateAnimDuration();
    }

    /** updateAnimDuration: every animator takes animDuration. */
    method UpdateAnimDuration()
      requires ConfigValid() && ArraysValid() && DelaysMatch()
      modifies animators
      ensures Valid()
      ensures forall i :: 0 <= i < animators.Length ==>
        animators[i] == old(animators[i]).(duration := animDuration)
    {
      if animators.Length > 0 {
        for i := 0 to animators.Length
          invariant forall j :: 0 <= j < i ==> animators[j] == old(animators[j]).(duration := animDuration)
          invariant forall j :: i <= j < animators.Length ==> animators[j] == old(animators[j])
        {
          animators[i] := animators[i].(duration := animDuration);
        }
      }
    }

    /** setAnimDelay: ignored for a delay <= 0; otherwise animator i starts
        i * delay late and keeps everything else. */
    method SetAnimDelay(delay: int)
      requires Valid() && IsInt(delay)
      modifies this`animDelay, animators
      ensures Valid()
      ensures animDelay == if delay > 0 then delay else old(animDelay)
      ensures delay <= 0 ==> animators[..] == old(animators[..])
      ensures forall i :: 0 <= i < animators.Length ==>
        animators[i] == old(animators[i]).(startDelay := StartDelay(i, animDelay))
    {
      if delay <= 0 {
        return;
      }
      animDelay := delay;
      UpdateAnimDelay();
    }

    /** updateAnimDelay: animator i takes the start delay i * animDelay. */
    method UpdateAnimDelay()
      requires ConfigValid() && ArraysValid() && DurationsMatch()
      modifies animators
      ensures Valid()
      ensures forall i :: 0 <= i < animators.Length ==>
        animators[i] == old(animators[i]).(startDelay := StartDelay(i, animDelay))
    {
      if animators.Length > 0 {
        for i := 0 to animators.Length
          invariant forall j :: 0 <= j < i ==> animators[j] == old(animators[j]).(startDelay := StartDelay(j, animDelay))
          invariant forall j :: i <= j < animators.Length ==> animators[j] == old(animators[j])
        {
          animators[i] := animators[i].(startDelay := StartDelay(i, animDelay));
        }
      }
    }

    /** setWaveMargin: ignored for a margin <= 0. */
    method SetWaveMargin(pixels: int)
      requires Valid() && IsInt(pixels)
      modifies this`waveMargin
      ensures Valid()
      ensures waveMargin == if pixels > 0 then pixels else old(waveMargin)
    {
      if pixels <= 0 {
        return;
      }
      waveMargin := pixels;
    }

    /** setWaveMarginRes, given the pixel size the resource resolves to: taken
        as it is, without the check for <= 0. */
    method SetWaveMarginRes(resolvedPixels: int)
      requires Valid() && IsInt(resolvedPixels)
      modifies this`waveMargin
      ensures Valid() && waveMargin == resolvedPixels
    {
      waveMargin := resolvedPixels;
    }

    /** setWaveWidth: ignored for a width <= 0. */
    method SetWaveWidth(pixels: int)
      requires Valid() && IsInt(pixels)
      modifies this`waveWidth
      ensures Valid()
      ensures waveWidth == if pixels > 0 then pixels else old(waveWidth)
    {
      if pixels <= 0 {
        return;
      }
      waveWidth := pixels;
    }

    /** setWaveWidthDp: ignored for a value <= 0; otherwise the width is the
        value converted from dp to pixels. */
    method SetWaveWidthDp(dpValue: int)
      requires Valid() && IsInt(dpValue)
      modifies this`waveWidth
      ensures Valid()
      ensures waveWidth == if dpValue > 0 then Dp2Px(dpValue as real, density) else old(waveWidth)
    {
      if dpValue <= 0 {
        return;
      }
      waveWidth := Dp2Px(dpValue as real, density);
    }

    /** setWaveWidthRes, given the pixel size the resource resolves to: taken
        as it is, without the check for <= 0. */
    method SetWaveWidthRes(resolvedPixels: int)
      requires Valid() && IsInt(resolvedPixels)
      modifies this`waveWidth
      ensures Valid() && waveWidth == resolvedPixels
    {
      waveWidth := resolvedPixels;
    }

    /** setWaveGravity: taken as it is, null included. */
    method SetWaveGravity(gravity: Option<Gravity>)
      requires Valid()
      modifies this`waveGravity
      ensures Valid() && waveGravity == gravity
    {
      waveGravity := gravity;
    }

    /** setWaveMinRatio: ignored outside (0, 1] and while animator 0 runs;
        the animators keep their range until the next initAnim. */
    method SetWaveMinRatio(ratio: real)
      requires Valid()
      modifies this`waveMinRatio
      ensures Valid()
      ensures waveMinRatio == if ValidMinRatio(ratio) && !Running() then ratio else old(waveMinRatio)
    {
      if ratio <= 0.0 || ratio > 1.0 {
        return;
      }
      if animators[0].running {
        return;
      }
      waveMinRatio := ratio;
    }
  }
}
