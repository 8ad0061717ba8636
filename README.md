# Range slider drag engine

A Dafny model of the drag state machine inside the `RangeSlider` component
(`src/index.tsx`). The component has two thumbs whose values lie in a fixed
0..100 domain and on a track `width` pixels wide. It handles three gesture
callbacks:

- A press (`onBegin`) records both thumbs' pixel positions. It then picks the
  thumb being dragged, using two independent thresholds.
- Each move (`onUpdate`) turns the recorded offset plus the finger's total
  translation back into a value. It moves only that thumb: it clamps the value
  to the thumb's bounds, which keep it at least `minDelta` from the other
  thumb, and then rounds it. The rounding comes last, so the result stays
  inside the bounds, and thus `minDelta` away, only when the values and
  `minDelta` are integers.
- The release (`onFinalize`) deactivates the thumbs and hands the pair to the
  consumer.

Everything is in `range_slider.dfy`, module `RangeSlider`:

- The pure parts are functions: JavaScript's `Math.round`, `clamp`, the pixel
  multiplier, the thumb resolution, one move, and the thumb translateX values.
- The component's four pieces of state (`width`, `range`, `active`, `offset`)
  are fields of class `Slider`. Its methods `Layout`, `Begin`, `Update` and
  `Finalize` reassign those fields as the callbacks do. Each method is tied to
  the pure functions by its `ensures`.
- Numbers are exact `real`s. `Round(x)` is `Floor(x + 1/2)`, which is
  `Math.round`'s rule: halves go toward +infinity.

The component offers less than a general range selector:

- the domain is fixed at 0..100;
- there is no `step`;
- there is no single-value mode;
- there is no resync of a controlled value;
- there is no guard for a zero track width.

The model follows the code, so none of these appear. In particular, with no
thumb active a move changes nothing, whatever the width. With a thumb active,
the move divides by `width / 100`, so `Update` requires `width > 0` exactly
when a thumb is active.

## Model

| member | source | states |
|---|---|---|
| `RangeSlider.Round` | src/index.tsx:57 | the result is the integer within one half of `x`, with halves rounded up: `x - 1/2 < r <= x + 1/2` |
| `RangeSlider.Clamp` | src/index.tsx:54-58 | a value inside `[lo, hi]` is only rounded; one below `lo` gives `Round(lo)`; one above `hi`, or crossed bounds, gives `Round(hi)`; the result is always an integer |
| `RangeSlider.ClampInBounds` | src/index.tsx:54-58 | with integral bounds `lo <= hi`, `clamp` returns a value in `[lo, hi]` |
| `RangeSlider.ClampKeepsInteger` | src/index.tsx:54-58 | an integer already in `[lo, hi]` is returned unchanged |
| `RangeSlider.ClampIdempotent` | src/index.tsx:54-58 | with integral bounds in order, clamping a clamped value changes nothing |
| `RangeSlider.Px` | src/index.tsx:51 | the multiplier is the width of one unit of the 0..100 domain: 100 units span exactly the track width, and the multiplier is positive on a positive width |
| `RangeSlider.ToPixels` | src/index.tsx:64-65 | `value * px`, the product also used for the translateX values at lines 113, 126 and 132: a value in 0..100 on a track of width `w >= 0` maps to a pixel position in `[0, w]` |
| `RangeSlider.PixelRoundTrip` | src/index.tsx:63-66 | on a positive width, dividing a value's pixel position by the multiplier gives the value back (the conversion in line 82 undoes the one in lines 64-65) |
| `RangeSlider.Offsets` | src/index.tsx:63-66 | the recorded offsets keep the thumbs' order and, for in-domain values, lie on the track |
| `RangeSlider.Resolve` | src/index.tsx:69-72 | with offsets in order, the two activation predicates are never both true; no thumb is active exactly when `offset.start + thumbSize <= x <= offset.end + thumbSize` |
| `RangeSlider.UpdateRange` | src/index.tsx:74-97 | with no thumb active the range is unchanged; with the start thumb active only `start` moves and becomes an integer; with only the end thumb active only `end` moves and becomes an integer |
| `RangeSlider.UpdatePreservesSettled` | src/index.tsx:84-96 | if `start`, `end` and `minDelta` are integers, `0 <= start`, `end <= 100` and `end - start >= minDelta`, the same holds after any move |
| `RangeSlider.FractionalMinDeltaBreaksSeparation` | src/index.tsx:84-89 | with `minDelta` 0.5 and `[0, 50]` on a 200-pixel track, dragging the start thumb right by 200 pixels gives `[50, 50]`: the thumbs end up 0 apart, not 0.5 |
| `RangeSlider.UpdateTwice` | src/index.tsx:81-96 | two moves of one press give the same range as the second move alone |
| `RangeSlider.Drag` | src/index.tsx:74-97 | a sequence of moves never moves the inactive thumb, changes nothing when no thumb is active, and keeps a settled range settled |
| `RangeSlider.DragDependsOnLastMove` | src/index.tsx:63-96 | the range after moves `tx1 … txn` of one press equals the range after the move `txn` alone |
| `RangeSlider.ZeroMoveRoundTrip` | src/index.tsx:61-97 | on a positive width, a press anywhere followed by a zero translation leaves unchanged a range of integers in 0..100 that respects `minDelta`; `minDelta` may be fractional |
| `RangeSlider.ThumbPositions` | src/index.tsx:107-134 | the start thumb's and fill's translateX (`start * px`) and the end thumb's (`end * px`) lie on the track in order when `0 <= start <= end <= 100`, and convert back to the values |
| `RangeSlider.Slider.constructor` | src/index.tsx:23-48 | width 0, range the default value, both thumbs inactive, offsets 0; `minDelta` defaults to 0 and `thumbSize` to 30 |
| `RangeSlider.Slider.Layout` | src/index.tsx:175-177 | the width becomes the reported layout width |
| `RangeSlider.Slider.Begin` | src/index.tsx:61-73 | offsets become `range * px`, the flags become the two threshold predicates, and never both are set when `width >= 0` and `start <= end` |
| `RangeSlider.Slider.Update` | src/index.tsx:74-97 | the new range is `UpdateRange` of the old state and the translation; a settled range stays settled |
| `RangeSlider.Slider.Finalize` | src/index.tsx:98-105 | both flags are cleared and the returned pair is exactly the current `[start, end]` |
| `RangeSlider.ExampleSessions` | example/src/App.tsx:10-16 | with the example app's props on a 200-pixel track: dragging the start thumb far left commits `[0, 50]`; a move after release changes nothing; dragging the end thumb far left commits `[0, 4]` |

## Left out

- Rendering: the JSX tree, styles, colours, `thumbStyle` and layout offsets (src/index.tsx:136-185) only draw the state.
- The fill's scale and its centre-anchoring translateX (src/index.tsx:108, 119) are rendering geometry. They divide by `scaleX`, which is 0 when `start == end`.
- Reanimated shared values, worklets and the `runOnJS` thread hop are plain fields and a return value here. The release's `onValueChange` call becomes the pair that `Finalize` returns.
- The gesture library: the event fields `e.x` and `e.translationX` are method arguments.
- Floating point: values are exact reals. `PixelRoundTrip` holds exactly here but on IEEE doubles only up to rounding error. In `ZeroMoveRoundTrip` that tiny error is removed by the final `Math.round`.
- Zero width with an active thumb: the source divides by zero (giving Infinity or NaN in JavaScript). `Update` requires a positive width in that case instead of modelling non-finite numbers.
- UpdatePreservesSettled: bounds and separation are proved only for integral values and an integral `minDelta`. With a fractional `minDelta`, rounding after the clamp can bring the thumbs closer than `minDelta`, against the comments at src/index.tsx:86 and 93. `FractionalMinDeltaBreaksSeparation` exhibits this.
- `minDelta` and `thumbSize` are fixed when a `Slider` is constructed. The component reads its current props on every render and rebuilds the gesture each time, so a changed prop applies to later gestures; the model does not capture such a change.
- Negative `minDelta` is not rejected, as in the source. The "never both active" guarantee then needs `start <= end`, which `Settled` alone does not give.
