/** The demo activity's use of the widget, as client code of the class: what
    its configuration calls leave behind, and what its "set" button does while
    the bars are animating. */
module Demo {
  import opened JavaInt
  import opened Layout
  import opened Widget

  /** Color.CYAN (0xFF00FFFF) as a Java int. */
  const CYAN: int := -16711681

  /** MainActivity.onCreate: a widget built in code and configured with six
      bars of 30 px, 50 px apart, 350 ms stagger and 1000 ms duration. */
  method OnCreate(density: real) returns (view: WaveView)
    requires density > 0.0
    ensures fresh(view) && fresh(view.animators) && fresh(view.ratios)
    ensures view.Valid() && !view.Running()
    ensures view.waveCount == 6 && view.waveWidth == 30 && view.waveMargin == 50
    ensures view.waveGravity == Some(Bottom) && view.paintColor == CYAN
    ensures view.waveMinRatio == DEFAULT_MIN_RATIO && view.minHeight == Dp2Px(3.0, density)
    ensures forall i :: 0 <= i < 6 ==> view.animators[i] == Animator(0.3, 1.0, 1000, 350 * i, false)
  {
    view := new WaveView(density);
    view.SetWaveColor(CYAN);
    view.SetAnimDelay(350);
    view.SetWaveCount(6);
    view.SetWaveWidth(30);
    view.SetWaveGravity(Some(Bottom));
    view.SetWaveMargin(50);
    view.SetAnimDuration(1000);
    forall i | 0 <= i < 6
      ensures StartDelay(i, 350) == 350 * i
    {
      StartDelayStagger(i, 350);
    }
  }

  /** The configured widget, laid out with no padding at the 200 px height its
      layout params ask for (an exact constraint), is 6*30 + 5*50 = 430 px wide
      and 200 px high; its six animators start 350 ms apart. The density is
      one of the platform's buckets, at most 4. */
  method OnCreateLayout(density: real) returns (width: int, height: int, animators: seq<Animator>)
    requires 0.0 < density <= 4.0
    ensures width == 430 && height == 200
    ensures |animators| == 6
    ensures forall i :: 0 <= i < 6 ==> animators[i] == Animator(0.3, 1.0, 1000, 350 * i, false)
  {
    var view := OnCreate(density);
    width, height := view.OnMeasure(Exactly, 200, Padding(0, 0, 0, 0));
    animators := view.animators[..];
  }

  /** MainActivity.set, pressed while the widget is shown and animating: width,
      duration and delay change, but the minimum ratio 0.1 is refused because
      the animators are running, so every bar still animates from 0.3. */
  method SetWhileAnimating(density: real) returns (width: int, minRatio: real, animators: seq<Animator>)
    requires 0.0 < density
    ensures width == 6 * 15 + 5 * 50
    ensures minRatio == 0.3
    ensures |animators| == 6
    ensures forall i :: 0 <= i < 6 ==> animators[i] == Animator(0.3, 1.0, 240, 1500 * i, true)
  {
    var view := OnCreate(density);
    view.OnVisibilityChanged(VISIBLE);
    view.OnWindowFocusChanged(true);
    view.SetWaveWidth(15);
    view.SetAnimDuration(240);
    view.SetAnimDelay(1500);
    view.SetWaveMinRatio(0.1);
    var height;
    width, height := view.OnMeasure(AtMost, 0, Padding(0, 0, 0, 0));
    minRatio := view.waveMinRatio;
    animators := view.animators[..];
    forall i | 0 <= i < 6
      ensures StartDelay(i, 1500) == 1500 * i
    {
      StartDelayStagger(i, 1500);
    }
  }
}
