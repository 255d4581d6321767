# WaveView in Dafny

A model of `WaveView`, an Android view that draws a row of vertical bars whose
heights pulse like an audio level meter. Each bar has one looping value animator.
The model covers four parts of the view:

- **Configuration.** The bar count, width, margin, animation duration, start
  delay, minimum ratio, gravity and color. Layout attributes and most setters
  silently ignore out-of-range values; the `*Res` dimension setters take the
  resolved size as it is. The count and the minimum ratio cannot change while
  the bars animate.
- **Animators and ratios.** `initAnim` rebuilds the animator array and the ratio
  array. The duration and delay setters update every animator in a loop.
- **Start/stop logic.** The view starts and stops the animators when window
  focus or visibility changes. Animator 0's running state stands for the whole
  set.
- **Geometry.** `onMeasure` computes the view's size and `onDraw` computes each
  bar's rectangle.

The code is in four modules:

- `JavaInt` (`java_int.dfy`): Java's 32-bit `int` arithmetic as wrap-around
  modulo 2^32, and Java's float-to-int narrowing.
- `Layout` (`layout.dfy`): the arithmetic of `onMeasure` and the bars' x-extents
  in `onDraw`. Each is written with Java int operations and proved equal to the
  exact formula reduced to 32 bits, so it is the exact formula whenever that
  formula fits in an int. For the height under an exact constraint this is
  proved only when the size less the vertical padding is itself an int.
- `Widget` (`wave_view.dfy`): the class `WaveView`.
  - Its fields are the view's fields.
  - `animators` is an `array<Animator>`. `Animator` is a record of the value
    range, duration, start delay and running flag.
  - `ratios` is an `array<real>`.
  - The invariant `Valid()` holds between calls. It says:
    - the count is at least 1, and both arrays have one slot per bar;
    - every animator has the same range `[from, 1]`, runs for `animDuration`,
      and starts `i * animDelay` late;
    - all animators share one running state, so checking animator 0 is exact;
    - every ratio is 0 or lies within the animators' range.

  Every public method is proved to keep `Valid()` and states the new state it
  produces. The internal steps of `init` (`InitPaint`, `ReadBarAttributes`,
  `ReadAnimAttributes`) run before the invariant is established.
- `Demo` (`demo.dfy`): the demo activity's calls, as a client of the class.

The model follows the code as written, including where a reader might expect
otherwise:

- `setWaveCount` rebuilds the arrays but does not restart the animators.
- The ratios start at 0, not at the minimum ratio. They enter `[from, 1]` only
  after the first animation update.
- `setWaveMinRatio` affects only the next `initAnim`.
- `setWaveColorRes` does not update the Paint.
- The two `*Res` dimension setters accept values of 0 or less.

## Model

| member | source | states |
|---|---|---|
| `JavaInt.Wrap` | WaveViewLibrary/src/main/java/com/jack/widget/WaveView.java:215-216 | Java int arithmetic: the result is an int congruent to the exact value mod 2^32, and equal to it when the exact value is an int |
| `JavaInt.FloatToInt` | WaveViewLibrary/src/main/java/com/jack/widget/WaveView.java:236 | the `(int)` cast rounds toward zero and saturates at the int range |
| `Widget.Dp2Px` | WaveViewLibrary/src/main/java/com/jack/widget/WaveView.java:234-237 | dp2px rounds `dp * density` half up to a non-negative whole pixel count |
| `Layout.MeasuredWidthWraps` | WaveViewLibrary/src/main/java/com/jack/widget/WaveView.java:215-216 | the measured width equals `count*width + (count-1)*margin + paddingLeft + paddingRight` reduced to 32 bits |
| `Layout.ExactHeight` | WaveViewLibrary/src/main/java/com/jack/widget/WaveView.java:217-224 | EXACTLY mode: never below MIN_HEIGHT plus vertical padding, and equal to the given size when that leaves at least MIN_HEIGHT. Any other mode: DEFAULT_HEIGHT plus vertical padding |
| `Layout.MeasuredHeightWraps` | WaveViewLibrary/src/main/java/com/jack/widget/WaveView.java:217-224 | when the mode is not EXACTLY, or the size less vertical padding is an int, the measured height in int arithmetic is `ExactHeight` reduced to 32 bits |
| `Layout.BarEdgesWrap` | WaveViewLibrary/src/main/java/com/jack/widget/WaveView.java:191-193 | bar i's left and right edges are `i*(w+m)` and `i*(w+m)+w` reduced to 32 bits |
| `Layout.BarGeometry` | WaveViewLibrary/src/main/java/com/jack/widget/WaveView.java:189-203 | bar i spans exactly `[i*(w+m), i*(w+m)+w]` inside the row; the next bar starts exactly `m` after it ends; the last bar ends at `count*w + (count-1)*m`, the padding-free measured width |
| `Widget.StartDelayStagger` | WaveViewLibrary/src/main/java/com/jack/widget/WaveView.java:165 | without overflow, animator i starts `i*delay` late, and each animator lags the previous one by exactly `delay` |
| `Widget.BarRectInView` | WaveViewLibrary/src/main/java/com/jack/widget/WaveView.java:187-205 | a bar with ratio in [0,1] stays within the view's height and is `ratio*height` tall. CENTER bars are symmetric about the midline; BOTTOM bars stand on the bottom edge |
| `Widget.WaveView.RunningIsWholeSet` | WaveViewLibrary/src/main/java/com/jack/widget/WaveView.java:262-280 | under the invariant, animator 0 is running exactly when every animator is running |
| `Widget.WaveView.constructor` | WaveViewLibrary/src/main/java/com/jack/widget/WaveView.java:40-97 | the field defaults, then initPaint and initAnim: 3 bars, 240 ms, 100 ms, ratio 0.3, CENTER, white, with fresh arrays |
| `Widget.WaveView.FromAttributes` | WaveViewLibrary/src/main/java/com/jack/widget/WaveView.java:99-102 | the field defaults, then init applied to the attribute set |
| `Widget.WaveView.Init` | WaveViewLibrary/src/main/java/com/jack/widget/WaveView.java:114-151 | every field passes init's filter, then the Paint takes the color and the arrays are rebuilt |
| `Widget.WaveView.ReadBarAttributes` | WaveViewLibrary/src/main/java/com/jack/widget/WaveView.java:116-127 | the color is taken as given; count, width and margin attributes of 0 or less keep the previous value |
| `Widget.WaveView.ReadAnimAttributes` | WaveViewLibrary/src/main/java/com/jack/widget/WaveView.java:129-146 | duration and delay attributes of 0 or less keep the previous value. Gravity code -1 keeps the gravity, 0 gives BOTTOM, any other code CENTER. A minimum ratio outside (0,1] is ignored |
| `Widget.WaveView.InitPaint` | WaveViewLibrary/src/main/java/com/jack/widget/WaveView.java:107-112 | the Paint takes the current wave color |
| `Widget.WaveView.InitAnim` | WaveViewLibrary/src/main/java/com/jack/widget/WaveView.java:156-176 | fresh arrays of length `waveCount`. Animator i is `[minRatio, 1]`, runs for `animDuration`, starts `StartDelay(i, animDelay)` late and is not running. Every ratio is 0 |
| `Widget.WaveView.OnSizeChanged` | WaveViewLibrary/src/main/java/com/jack/widget/WaveView.java:179-182 | the remembered height becomes the new height |
| `Widget.WaveView.OnMeasure` | WaveViewLibrary/src/main/java/com/jack/widget/WaveView.java:211-229 | the width is the bar row plus horizontal padding, and exactly that sum when it fits in an int. The height is `ExactHeight` reduced to 32 bits when the mode is not EXACTLY or the size less vertical padding is an int |
| `Widget.WaveView.DrawBars` | WaveViewLibrary/src/main/java/com/jack/widget/WaveView.java:185-205 | one rectangle per bar at the bar's x-extent, placed by the gravity, and all within the view's height. A null gravity draws nothing |
| `Widget.WaveView.OnDraw` | WaveViewLibrary/src/main/java/com/jack/widget/WaveView.java:185-208 | draws the bars, then leaves every animator running exactly when the window has focus |
| `Widget.WaveView.OnAnimationUpdate` | WaveViewLibrary/src/main/java/com/jack/widget/WaveView.java:168-173 | the update listener writes the animated value into ratio i and changes nothing else; the invariant survives |
| `Widget.WaveView.StartAnim` | WaveViewLibrary/src/main/java/com/jack/widget/WaveView.java:262-269 | nothing changes if animator 0 is running; otherwise every animator is running afterwards and nothing else changes |
| `Widget.WaveView.StopAnim` | WaveViewLibrary/src/main/java/com/jack/widget/WaveView.java:274-280 | every animator is cancelled if animator 0 is running; otherwise nothing changes |
| `Widget.WaveView.Invalidate` | WaveViewLibrary/src/main/java/com/jack/widget/WaveView.java:250-257 | with window focus every animator is running afterwards, without it every animator is stopped |
| `Widget.WaveView.OnWindowFocusChanged` | WaveViewLibrary/src/main/java/com/jack/widget/WaveView.java:283-291 | gaining focus leaves every animator running, losing it leaves every animator stopped |
| `Widget.WaveView.OnVisibilityChanged` | WaveViewLibrary/src/main/java/com/jack/widget/WaveView.java:240-247 | VISIBLE leaves every animator running; any other visibility leaves every animator stopped |
| `Widget.WaveView.SetWaveColor` | WaveViewLibrary/src/main/java/com/jack/widget/WaveView.java:298-301 | the color and the Paint's color both become the given color |
| `Widget.WaveView.SetWaveColorRes` | WaveViewLibrary/src/main/java/com/jack/widget/WaveView.java:308-310 | the color changes but the Paint keeps its old color |
| `Widget.WaveView.SetWaveCount` | WaveViewLibrary/src/main/java/com/jack/widget/WaveView.java:317-327 | no change for a count of 0 or less, or while animator 0 runs. Otherwise the count changes and both arrays are rebuilt at the new length, with no animator running |
| `Widget.WaveView.SetAnimDuration` | WaveViewLibrary/src/main/java/com/jack/widget/WaveView.java:334-340 | no change for a duration of 0 or less. Otherwise every animator takes the new duration and keeps its range, delay and running state |
| `Widget.WaveView.UpdateAnimDuration` | WaveViewLibrary/src/main/java/com/jack/widget/WaveView.java:345-351 | every animator's duration becomes `animDuration`; nothing else changes |
| `Widget.WaveView.SetAnimDelay` | WaveViewLibrary/src/main/java/com/jack/widget/WaveView.java:358-364 | no change for a delay of 0 or less. Otherwise animator i's start delay becomes `i*delay`, and the array, running flags and ratios stay as they were |
| `Widget.WaveView.UpdateAnimDelay` | WaveViewLibrary/src/main/java/com/jack/widget/WaveView.java:369-375 | animator i's start delay becomes `StartDelay(i, animDelay)`; nothing else changes |
| `Widget.WaveView.SetWaveMargin` | WaveViewLibrary/src/main/java/com/jack/widget/WaveView.java:382-387 | the margin changes only to a value greater than 0 |
| `Widget.WaveView.SetWaveMarginRes` | WaveViewLibrary/src/main/java/com/jack/widget/WaveView.java:394-396 | the margin takes the resolved size as it is, even one of 0 or less |
| `Widget.WaveView.SetWaveWidth` | WaveViewLibrary/src/main/java/com/jack/widget/WaveView.java:403-408 | the width changes only to a value greater than 0 |
| `Widget.WaveView.SetWaveWidthDp` | WaveViewLibrary/src/main/java/com/jack/widget/WaveView.java:415-420 | a dp value greater than 0 sets the width to `Dp2Px(dp)`; other values are ignored |
| `Widget.WaveView.SetWaveWidthRes` | WaveViewLibrary/src/main/java/com/jack/widget/WaveView.java:427-429 | the width takes the resolved size as it is, even one of 0 or less |
| `Widget.WaveView.SetWaveGravity` | WaveViewLibrary/src/main/java/com/jack/widget/WaveView.java:438-440 | the gravity is taken as given, null included |
| `Widget.WaveView.SetWaveMinRatio` | WaveViewLibrary/src/main/java/com/jack/widget/WaveView.java:447-456 | the minimum ratio changes only to a value in (0,1] and only while animator 0 is stopped; the animators keep their range |
| `Demo.OnCreate` | app/src/main/java/com/example/waveview/MainActivity.java:18-29 | the demo's setter calls leave 6 bars of 30 px, 50 px apart. Animator i runs `[0.3, 1]` for 1000 ms, starts `350*i` late and is not running |
| `Demo.OnCreateLayout` | app/src/main/java/com/example/waveview/MainActivity.java:22-31 | with no padding and an exact 200 px height, the measured size is 430 x 200 |
| `Demo.SetWhileAnimating` | app/src/main/java/com/example/waveview/MainActivity.java:34-39 | pressing "set" while the bars animate makes the row 340 px wide and the delays `1500*i`. The minimum ratio 0.1 is refused, so the ratio stays 0.3 |

## Left out

- Painting itself is not modelled: Canvas, Paint stroke width and style, and `canvas.translate`. `DrawBars` returns the rectangles in view coordinates with the translation already applied.
- Float arithmetic is modelled with `real`, with no float rounding. This covers the vertical bar extents, the ratios, the minimum ratio and dp2px's `dp * density + 0.5`. The int-to-float conversion of the x-extents is also exact in the model.
- Animator time evolution is not modelled: the ease-in-ease-out curve, infinite reversing repetition and frame timing. The animation engine's only effect is `OnAnimationUpdate`. It is assumed to fire only for a running animator, with a value inside that animator's range.
- The model has a single running flag. It does not separate "started" (still inside the start delay) from "running"; start sets the flag and cancel clears it.
- The framework may handle a negative start delay specially, which can come from `i * delay` overflowing. That is not modelled; the model records the delay value the view passes.
- `Widget.WaveView.InitAnim`: a still-running animator that `initAnim` replaces is dropped from the model. The public `initAnim` can be called while animating. The replaced animators then keep running in the host and writing ratios, which the model does not capture.
- `hasWindowFocus()` is a boolean parameter. The redraw request that `invalidate()` passes to the framework is not modelled, and neither is the host's frame loop that calls `onDraw` again.
- `MeasureSpec` encoding, `setMeasuredDimension` and `super.onMeasure` are not modelled. The height constraint is a mode plus a size, and `OnMeasure` returns the measured pair.
- Resource lookups are foreign calls and are not modelled (`TypedArray`, `ContextCompat.getColor`, `getDimensionPixelSize`). Their results are parameters: an `Attributes` record and the resolved values of the `*Res` setters.
- Display density is a positive real parameter of the constructors.
- `onSizeChanged` is modelled with the new height only, the one value the view keeps.
- `Widget.WaveView.SetWaveMinRatio`: NaN is not modelled, because the minimum ratio is a `real`. In Java, the guard `ratio <= 0 || ratio > 1` at WaveView.java:448 is false for `Float.NaN`, so `setWaveMinRatio(Float.NaN)` stores NaN while animator 0 is stopped. `init`'s filter `minRatio > 0 && minRatio <= 1` at WaveView.java:144 rejects NaN, so the two filters disagree. The model's invariant that the minimum ratio lies in (0,1] therefore does not hold in Java after that call.
- `Layout.MeasuredHeightWraps`, `Widget.WaveView.OnMeasure`: the height is not related to the exact formula when, under an exact constraint, `size - paddingBottom - paddingTop` itself overflows (for example size = MIN_INT, paddingBottom = 1).

