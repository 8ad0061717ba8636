/** A model of the drag state machine of the two-thumb range slider.
    Thumb values live in the fixed domain 0..100; the track is `width`
    pixels wide, so one unit of value is `width / 100` pixels. A press
    decides which thumb it drags, every move recomputes that thumb's value
    from the pixel offset recorded at the press plus the finger's total
    translation, and the release commits the pair. Numbers are JavaScript
    doubles in the source; here they are exact reals. */
module RangeSlider {

  // ---------------------------------------------------------------------
  // Arithmetic of the source's number type
  // ---------------------------------------------------------------------

  /** `x` has no fractional part. */
  predicate IsInt(x: real) {
    x.Floor as real == x
  }

  /** JavaScript's `Math.round`: the nearest integer, halves toward +infinity. */
  function Round(x: real): (r: int)
    ensures x - 0.5 < r as real <= x + 0.5
  {
    (x + 0.5).Floor
  }

  /** Rounding never leaves integral bounds. */
  lemma RoundWithin(m: real, lo: int, hi: int)
    requires lo as real <= m <= hi as real
    ensures lo <= Round(m) <= hi
  {
    var r := Round(m);
    assert lo as real - 0.5 < r as real;
    assert r as real <= hi as real + 0.5;
  }

  /** `Math.round(Math.min(Math.max(v, lo), hi))`: pin `v` into `[lo, hi]`
      and round it. When the bounds cross, `Math.min` has the last word. */
  function Clamp(v: real, lo: real, hi: real): (r: int)
    ensures lo <= v <= hi ==> r == Round(v)
    ensures v < lo <= hi ==> r == Round(lo)
    ensures hi < lo || hi < v ==> r == Round(hi)
  {
    var atLeastLo := if v > lo then v else lo;
    Round(if atLeastLo < hi then atLeastLo else hi)
  }

  /** With integral bounds in order, the result lies between them. */
  lemma ClampInBounds(v: real, lo: real, hi: real)
    requires lo <= hi && IsInt(lo) && IsInt(hi)
    ensures lo <= Clamp(v, lo, hi) as real <= hi
  {
    var m := if v < lo then lo else if hi < v then hi else v;
    assert Clamp(v, lo, hi) == Round(m);
    RoundWithin(m, lo.Floor, hi.Floor);
  }

  /** An integer already inside integral bounds is returned unchanged. */
  lemma ClampKeepsInteger(v: real, lo: real, hi: real)
    requires IsInt(v) && lo <= v <= hi
    ensures Clamp(v, lo, hi) as real == v
  {
    assert Round(v) == v.Floor;
  }

  /** Clamping twice into the same integral bounds is clamping once. */
  lemma ClampIdempotent(v: real, lo: real, hi: real)
    requires lo <= hi && IsInt(lo) && IsInt(hi)
    ensures Clamp(Clamp(v, lo, hi) as real, lo, hi) == Clamp(v, lo, hi)
  {
    var once := Clamp(v, lo, hi);
    ClampInBounds(v, lo, hi);
    FloorOfInt(once);
    ClampKeepsInteger(once as real, lo, hi);
  }

  lemma FloorOfInt(k: int)
    ensures IsInt(k as real)
  {
  }

  lemma IsIntSum(a: real, b: real)
    requires IsInt(a) && IsInt(b)
    ensures IsInt(a + b) && IsInt(a - b)
  {
    var i, j := a.Floor, b.Floor;
    assert a + b == (i + j) as real;
    FloorOfInt(i + j);
    assert a - b == (i - j) as real;
    FloorOfInt(i - j);
  }

  // ---------------------------------------------------------------------
  // Coordinate mapping
  // ---------------------------------------------------------------------

  /** Pixels per unit of value on a track `width` pixels wide. */
  function Px(width: real): (px: real)
    ensures px * 100.0 == width
    ensures width > 0.0 ==> px > 0.0
  {
    width / 100.0
  }

  /** The pixel position of value `v`; also the translateX of a thumb. */
  function ToPixels(v: real, width: real): (p: real)
    ensures width >= 0.0 && 0.0 <= v <= 100.0 ==> 0.0 <= p <= width
  {
    assert width >= 0.0 && 0.0 <= v <= 100.0 ==>
      0.0 <= v * Px(width) && v * Px(width) == (v / 100.0) * width && (v / 100.0) * width <= width;
    v * Px(width)
  }

  /** Converting a value to pixels and back gives the value again. */
  lemma PixelRoundTrip(v: real, width: real)
    requires width > 0.0
    ensures ToPixels(v, width) / Px(width) == v
  {
    var px := Px(width);
    var q := ToPixels(v, width) / px;
    assert q * px == v * px;
    assert (q - v) * px == 0.0;
  }

  // ---------------------------------------------------------------------
  // State of a drag
  // ---------------------------------------------------------------------

  /** A start/end pair: thumb values, or thumb pixel offsets. */
  datatype Pair = Pair(start: real, end: real)

  /** Which thumb a press grabbed. */
  datatype Flags = Flags(start: bool, end: bool) {
    predicate Any() {
      start || end
    }
  }

  const Released := Flags(false, false)

  /** The settled state of the two thumbs that every move preserves:
      integral values inside 0..100, at least `minDelta` apart. */
  predicate Settled(r: Pair, minDelta: real) {
    IsInt(r.start) && IsInt(r.end) && IsInt(minDelta)
    && 0.0 <= r.start && r.end <= 100.0
    && r.end - r.start >= minDelta
  }

  /** The thumbs' pixel positions, recorded when a press begins. */
  function Offsets(r: Pair, width: real): (o: Pair)
    ensures width >= 0.0 && r.start <= r.end ==> o.start <= o.end
    ensures width >= 0.0 && 0.0 <= r.start && r.end <= 100.0 ==>
      0.0 <= o.start && o.end <= width
  {
    assert width >= 0.0 && r.start <= r.end ==>
      r.end * Px(width) - r.start * Px(width) == (r.end - r.start) * Px(width) >= 0.0;
    Pair(ToPixels(r.start, width), ToPixels(r.end, width))
  }

  /** Which thumb a press at `x` grabs: two independent thresholds,
      left of the start thumb's far edge, or right of the end thumb's. */
  function Resolve(x: real, o: Pair, thumbSize: real): (a: Flags)
    ensures o.start <= o.end ==> !(a.start && a.end)
    ensures !a.Any() <==> o.start + thumbSize <= x <= o.end + thumbSize
  {
    Flags(x < o.start + thumbSize, x > o.end + thumbSize)
  }

  /** One move of the finger by `tx` pixels since the press. Nothing moves
      unless a thumb is active; the start thumb wins when both are. */
  function UpdateRange(r: Pair, a: Flags, o: Pair, width: real, minDelta: real, tx: real): (r': Pair)
    requires a.Any() ==> width > 0.0
    ensures !a.Any() ==> r' == r
    ensures a.start ==> r'.end == r.end && IsInt(r'.start)
    ensures !a.start && a.end ==> r'.start == r.start && IsInt(r'.end)
  {
    if !a.Any() then r
    else
      var result := ((if a.start then o.start else o.end) + tx) / Px(width);
      if a.start then Pair(Clamp(result, 0.0, r.end - minDelta) as real, r.end)
      else Pair(r.start, Clamp(result, r.start + minDelta, 100.0) as real)
  }

  /** Bounds and separation survive every move. */
  lemma UpdatePreservesSettled(r: Pair, a: Flags, o: Pair, width: real, minDelta: real, tx: real)
    requires a.Any() ==> width > 0.0
    requires Settled(r, minDelta)
    ensures Settled(UpdateRange(r, a, o, width, minDelta, tx), minDelta)
  {
    if a.Any() {
      var result := ((if a.start then o.start else o.end) + tx) / Px(width);
      if a.start {
        IsIntSum(r.end, minDelta);
        ClampInBounds(result, 0.0, r.end - minDelta);
      } else {
        IsIntSum(r.start, minDelta);
        ClampInBounds(result, r.start + minDelta, 100.0);
      }
    }
  }

  /** The same fact, stated for any range, for use in a fold over moves. */
  lemma UpdateKeepsSettled(r: Pair, a: Flags, o: Pair, width: real, minDelta: real, tx: real)
    requires a.Any() ==> width > 0.0
    ensures Settled(r, minDelta) ==> Settled(UpdateRange(r, a, o, width, minDelta, tx), minDelta)
  {
    if Settled(r, minDelta) {
      UpdatePreservesSettled(r, a, o, width, minDelta, tx);
    }
  }

  /** Separation needs integral values: `Math.round` runs after the clamp, so
      a start thumb pinned to `end - 1/2` rounds up onto the end thumb. */
  lemma FractionalMinDeltaBreaksSeparation()
    ensures var r' := UpdateRange(Pair(0.0, 50.0), Flags(true, false), Pair(0.0, 100.0), 200.0, 0.5, 200.0);
            r' == Pair(50.0, 50.0) && r'.end - r'.start < 0.5
  {
    assert (0.0 + 200.0) / Px(200.0) == 100.0;
    assert Clamp(100.0, 0.0, 49.5) == Round(49.5) == 50;
  }

  /** A move overwrites the previous move of the same press: the offset is
      the one recorded at the press and the other thumb stays put. */
  lemma UpdateTwice(r: Pair, a: Flags, o: Pair, width: real, minDelta: real, tx1: real, tx2: real)
    requires a.Any() ==> width > 0.0
    ensures UpdateRange(UpdateRange(r, a, o, width, minDelta, tx1), a, o, width, minDelta, tx2)
         == UpdateRange(r, a, o, width, minDelta, tx2)
  {
  }

  /** The moves `txs` of one press, applied in order. */
  function Drag(r: Pair, a: Flags, o: Pair, width: real, minDelta: real, txs: seq<real>): (r': Pair)
    requires a.Any() ==> width > 0.0
    ensures !a.Any() ==> r' == r
    ensures a.start ==> r'.end == r.end
    ensures !a.start ==> r'.start == r.start
    ensures Settled(r, minDelta) ==> Settled(r', minDelta)
    decreases |txs|
  {
    if txs == [] then r
    else
      UpdateKeepsSettled(r, a, o, width, minDelta, txs[0]);
      Drag(UpdateRange(r, a, o, width, minDelta, txs[0]), a, o, width, minDelta, txs[1..])
  }

  /** History independence: a press's outcome depends only on its last move. */
  lemma {:induction false} DragDependsOnLastMove(r: Pair, a: Flags, o: Pair, width: real, minDelta: real, txs: seq<real>)
    requires a.Any() ==> width > 0.0
    requires txs != []
    ensures Drag(r, a, o, width, minDelta, txs) == UpdateRange(r, a, o, width, minDelta, txs[|txs| - 1])
    decreases |txs|
  {
    var r1 := UpdateRange(r, a, o, width, minDelta, txs[0]);
    if |txs| == 1 {
      assert Drag(r1, a, o, width, minDelta, txs[1..]) == r1;
    } else {
      DragDependsOnLastMove(r1, a, o, width, minDelta, txs[1..]);
      UpdateTwice(r, a, o, width, minDelta, txs[0], txs[|txs| - 1]);
    }
  }

  /** Pressing and moving zero pixels leaves an integral, in-bounds range
      as it was, for any `minDelta` it respects. */
  lemma ZeroMoveRoundTrip(r: Pair, width: real, minDelta: real, thumbSize: real, x: real)
    requires width > 0.0
    requires IsInt(r.start) && IsInt(r.end)
    requires 0.0 <= r.start && r.end <= 100.0 && r.end - r.start >= minDelta
    ensures var o := Offsets(r, width);
            UpdateRange(r, Resolve(x, o, thumbSize), o, width, minDelta, 0.0) == r
  {
    var o := Offsets(r, width);
    PixelRoundTrip(r.start, width);
    PixelRoundTrip(r.end, width);
    assert (o.start + 0.0) / Px(width) == r.start;
    assert (o.end + 0.0) / Px(width) == r.end;
    ClampKeepsInteger(r.start, 0.0, r.end - minDelta);
    ClampKeepsInteger(r.end, r.start + minDelta, 100.0);
  }

  /** The translateX of the start thumb and the fill's first translateX
      (`.start`), and of the end thumb (`.end`): both thumbs lie on the
      track, in order, when the range does. */
  function ThumbPositions(r: Pair, width: real): (p: Pair)
    ensures width >= 0.0 && 0.0 <= r.start <= r.end <= 100.0 ==>
      0.0 <= p.start <= p.end <= width
    ensures width > 0.0 ==> p.start / Px(width) == r.start && p.end / Px(width) == r.end
  {
    if width > 0.0 then
      PixelRoundTrip(r.start, width);
      PixelRoundTrip(r.end, width);
      Offsets(r, width)
    else
      Offsets(r, width)
  }

  // ---------------------------------------------------------------------
  // The component's state and its gesture callbacks
  // ---------------------------------------------------------------------

  class Slider {
    const minDelta: real
    const thumbSize: real
    /** Track width in pixels, as last reported by layout. */
    var width: real
    /** The two thumb values. */
    var range: Pair
    /** Which thumb owns the current press. */
    var active: Flags
    /** Thumb pixel positions recorded when the press began. */
    var offset: Pair

    ghost predicate Valid()
      reads this
    {
      Settled(range, minDelta)
    }

    constructor (defaultValue: Pair, minDelta: real := 0.0, thumbSize: real := 30.0)
      ensures this.minDelta == minDelta && this.thumbSize == thumbSize
      ensures width == 0.0 && range == defaultValue
      ensures active == Released && offset == Pair(0.0, 0.0)
      ensures Valid() <==> Settled(defaultValue, minDelta)
    {
      this.minDelta := minDelta;
      this.thumbSize := thumbSize;
      width := 0.0;
      range := defaultValue;
      active := Released;
      offset := Pair(0.0, 0.0);
    }

    /** Layout reports the track's width. */
    method Layout(w: real)
      modifies this`width
      ensures width == w
    {
      width := w;
    }

    /** A press at `x`: record the thumbs' pixel positions, pick the thumb. */
    method Begin(x: real)
      modifies this`offset, this`active
      ensures offset == Offsets(range, width)
      ensures active == Resolve(x, offset, thumbSize)
      ensures width >= 0.0 && range.start <= range.end ==> !(active.start && active.end)
    {
      offset := Pair(range.start * Px(width), range.end * Px(width));
      active := Flags(x < offset.start + thumbSize, x > offset.end + thumbSize);
    }

    /** A move: the finger is `tx` pixels from where the press began. */
    method Update(tx: real)
      requires active.Any() ==> width > 0.0
      modifies this`range
      ensures range == UpdateRange(old(range), active, offset, width, minDelta, tx)
      ensures old(Valid()) ==> Valid()
    {
      if !active.start && !active.end {
        return;
      }
      var diff := if active.start then offset.start else offset.end;
      var result := (diff + tx) / Px(width);
      if active.start {
        range := Pair(Clamp(result, 0.0, range.end - minDelta) as real, range.end);
      } else {
        range := Pair(range.start, Clamp(result, range.start + minDelta, 100.0) as real);
      }
      if old(Valid()) {
        UpdatePreservesSettled(old(range), active, offset, width, minDelta, tx);
      }
    }

    /** The release: no thumb is active any more; the pair is committed. */
    method Finalize() returns (start: real, end: real)
      modifies this`active
      ensures active == Released
      ensures start == range.start && end == range.end
    {
      active := Released;
      start, end := range.start, range.end;
    }
  }

  /** Two presses on a 200-pixel track with the example app's settings
      (`defaultValue` 10..50, `minDelta` 4): the start thumb is dragged far
      left and stops at 0; then the end thumb is dragged far left and stops
      `minDelta` above the start thumb. A move after the release does nothing. */
  method ExampleSessions() returns (first: Pair, second: Pair)
    ensures first == Pair(0.0, 50.0)
    ensures second == Pair(0.0, 4.0)
  {
    var s := new Slider(Pair(10.0, 50.0), 4.0);
    s.Layout(200.0);

    s.Begin(25.0);
    assert s.active == Flags(true, false);
    s.Update(-5.0);
    assert s.range == Pair(8.0, 50.0);
    s.Update(-30.0);
    var a, b := s.Finalize();
    first := Pair(a, b);
    s.Update(500.0);
    assert s.range == first;

    s.Begin(140.0);
    assert s.active == Flags(false, true);
    s.Update(-200.0);
    a, b := s.Finalize();
    second := Pair(a, b);
  }
}
