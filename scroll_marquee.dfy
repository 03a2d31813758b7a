/** The scroll marquee: a belt of cards, repeated four times, that drifts by
    itself and also moves with downward page scrolling, wrapping after one
    segment. Lengths and times are JavaScript numbers, modelled as reals
    (pixels, milliseconds). Each animation frame is one Frame step. */
module ScrollMarquee {

  /** The props that shape the motion (defaults: 320, 16, 0.6, 500). */
  datatype Config = Config(cardW: real, gap: real, speed: real, autoplayPxPerSec: real)

  const Defaults := Config(320.0, 16.0, 0.6, 500.0)

  function Max(a: real, b: real): real {
    if a >= b then a else b
  }

  /** The width of one copy of the cards, never below one pixel. */
  function Segment(n: nat, cardW: real, gap: real): (w: real)
    ensures w >= 1.0
    ensures w >= (n as real) * (cardW + gap)
    ensures w == (n as real) * (cardW + gap) || w == 1.0
  {
    Max(1.0, (n as real) * (cardW + gap))
  }

  /** The belt: four copies of the cards, or nothing when there are none. */
  function Repeated<T>(items: seq<T>): (r: seq<T>)
    ensures |r| == 4 * |items|
    ensures r == [] <==> items == []
    ensures items != [] ==> r[..|items|] == items
    ensures forall k :: 0 <= k < |r| - |items| ==> r[k + |items|] == r[k]
  {
    if |items| > 0 then items + items + items + items else []
  }

  /** The integer part of x, rounding toward zero (`Math.trunc`). */
  function Trunc(x: real): (q: int)
    ensures x >= 0.0 ==> q as real <= x < q as real + 1.0
    ensures x < 0.0 ==> q as real - 1.0 < x <= q as real
  {
    if x >= 0.0 then x.Floor else -((-x).Floor)
  }

  /** The JavaScript `%` on numbers: the remainder of truncating division,
      a less m times the integer part of a / m. It has the sign of the
      dividend and lies within m of zero. */
  function FloatRem(a: real, m: real): (r: real)
    requires m > 0.0
    ensures r == a - (Trunc(a / m) as real) * m
    ensures a >= 0.0 ==> 0.0 <= r < m
    ensures a < 0.0 ==> -m < r <= 0.0
  {
    if a >= 0.0 then NonNegRem(a, m)
    else
      var f := ((-a) / m).Floor;
      NegativeQuotient(a, m);
      NegTimes(f, m);
      assert Trunc(a / m) == -f;
      -NonNegRem(-a, m)
  }

  /** A negative number over a positive one is negative, and negating the
      dividend negates the quotient. */
  lemma NegativeQuotient(a: real, m: real)
    requires a < 0.0 && m > 0.0
    ensures a / m < 0.0
    ensures (-a) / m == -(a / m)
  {
    var q := a / m;
    assert q * m == a;
    assert (-q) * m == -a;
  }

  /** Negating a whole multiplier negates the product. */
  lemma NegTimes(f: int, m: real)
    ensures ((-f) as real) * m == -((f as real) * m)
  {
  }

  /** What `%` leaves out is a whole number of m: dividing it back by m
      gives exactly the truncated quotient, an integer. */
  lemma RemainderLeavesWholeMultiple(a: real, m: real)
    requires m > 0.0
    ensures (a - FloatRem(a, m)) / m == Trunc(a / m) as real
    ensures ((a - FloatRem(a, m)) / m).Floor as real == (a - FloatRem(a, m)) / m
  {
    var k := Trunc(a / m);
    var d := a - FloatRem(a, m);
    assert d == (k as real) * m;
    WholeTimesOver(k, m);
  }

  /** k m divided by m is k again, a whole number. */
  lemma WholeTimesOver(k: int, m: real)
    requires m > 0.0
    ensures ((k as real) * m) / m == k as real
    ensures (((k as real) * m) / m).Floor == k
  {
    var q := k as real;
    assert (q * m) / m == q;
  }

  /** a - m * floor(a / m) for a >= 0, written as m times the fractional
      part of a / m. */
  function NonNegRem(a: real, m: real): (r: real)
    requires a >= 0.0 && m > 0.0
    ensures 0.0 <= r < m
    ensures r == a - ((a / m).Floor as real) * m
  {
    var f := a / m;
    var frac := f - (f.Floor as real);
    MulBelow(m, frac);
    FracTimes(a, m, f.Floor);
    m * frac
  }

  /** Scaling a fraction in [0, 1) by m > 0 stays in [0, m). */
  lemma MulBelow(m: real, frac: real)
    ensures m > 0.0 && 0.0 <= frac < 1.0 ==> 0.0 <= m * frac < m
  {
  }

  /** m times (a / m - k) is a - k m. */
  lemma FracTimes(a: real, m: real, k: int)
    requires m > 0.0
    ensures m * (a / m - (k as real)) == a - (k as real) * m
  {
    assert m * (a / m) == a;
  }

  /** The animation's per-effect and persistent state: the autoplay offset and
      the last frame time (reset whenever the effect restarts), the last scroll
      position and the scroll accumulator (refs that survive restarts), and the
      belt's offset. */
  datatype BeltState = BeltState(tPx: real, last: real, lastScrollY: real, scrollAccum: real, x: real)

  /** One frame at time `now` with the page scrolled to `sy`. */
  function NextFrame(c: Config, segment: real, s: BeltState, now: real, sy: real): (r: BeltState)
    requires segment > 0.0
    // autoplay advances by rate times the elapsed seconds
    ensures r.last == now
    ensures r.tPx == s.tPx + c.autoplayPxPerSec * ((now - s.last) / 1000.0)
    ensures c.autoplayPxPerSec >= 0.0 && now >= s.last ==> r.tPx >= s.tPx
    // one-way parallax: only downward scrolling moves the belt
    ensures sy > s.lastScrollY ==> r.scrollAccum == s.scrollAccum + (sy - s.lastScrollY) * c.speed
    ensures sy <= s.lastScrollY ==> r.scrollAccum == s.scrollAccum
    ensures c.speed >= 0.0 ==> r.scrollAccum >= s.scrollAccum
    ensures r.lastScrollY == sy
    // the offset wraps within one segment
    ensures r.scrollAccum + r.tPx >= 0.0 ==> -segment < r.x <= 0.0
    // a negative total (a negative rate or speed) keeps the dividend's sign
    ensures r.scrollAccum + r.tPx < 0.0 ==> 0.0 <= r.x < segment
    // the offset is the negated remainder: the total less a whole number of segments
    ensures r.x == -FloatRem(r.scrollAccum + r.tPx, segment)
    ensures r.x == (Trunc((r.scrollAccum + r.tPx) / segment) as real) * segment - (r.scrollAccum + r.tPx)
  {
    var dt := (now - s.last) / 1000.0;
    var tPx := s.tPx + c.autoplayPxPerSec * dt;
    var dy := sy - s.lastScrollY;
    var accum := if dy > 0.0 then s.scrollAccum + dy * c.speed else s.scrollAccum;
    ProductNonNeg(dy, c.speed);
    ProductNonNeg(c.autoplayPxPerSec, dt);
    BeltState(tPx, now, sy, accum, -FloatRem(accum + tPx, segment))
  }

  lemma ProductNonNeg(a: real, b: real)
    ensures a >= 0.0 && b >= 0.0 ==> a * b >= 0.0
  {
  }

  /** A page scroll position and a frame time. */
  datatype Tick = Tick(now: real, scrollY: real)

  /** A run of frames. */
  function Frames(c: Config, segment: real, s: BeltState, ticks: seq<Tick>): BeltState
    requires segment > 0.0
    decreases |ticks|
  {
    if ticks == [] then s
    else Frames(c, segment, NextFrame(c, segment, s, ticks[0].now, ticks[0].scrollY), ticks[1..])
  }

  /** Over any run of frames the accumulator never decreases (for a
      non-negative speed), and a run in which the page never scrolls further
      down than where it started leaves it exactly where it was. */
  lemma {:induction false} AccumulatorOneWay(c: Config, segment: real, s: BeltState, ticks: seq<Tick>)
    requires segment > 0.0
    ensures c.speed >= 0.0 ==> Frames(c, segment, s, ticks).scrollAccum >= s.scrollAccum
    ensures (forall k :: 0 <= k < |ticks| ==> ticks[k].scrollY <= s.lastScrollY) &&
            (forall k, l :: 0 <= k < l < |ticks| ==> ticks[l].scrollY <= ticks[k].scrollY) ==>
              Frames(c, segment, s, ticks).scrollAccum == s.scrollAccum
    decreases |ticks|
  {
    if ticks != [] {
      var s1 := NextFrame(c, segment, s, ticks[0].now, ticks[0].scrollY);
      AccumulatorOneWay(c, segment, s1, ticks[1..]);
      if (forall k :: 0 <= k < |ticks| ==> ticks[k].scrollY <= s.lastScrollY) &&
         (forall k, l :: 0 <= k < l < |ticks| ==> ticks[l].scrollY <= ticks[k].scrollY) {
        assert forall k :: 0 <= k < |ticks[1..]| ==> ticks[1..][k].scrollY <= s1.lastScrollY by {
          forall k | 0 <= k < |ticks[1..]| ensures ticks[1..][k].scrollY <= s1.lastScrollY {
            assert ticks[1..][k] == ticks[k + 1];
          }
        }
        assert forall k, l :: 0 <= k < l < |ticks[1..]| ==> ticks[1..][l].scrollY <= ticks[1..][k].scrollY by {
          forall k, l | 0 <= k < l < |ticks[1..]| ensures ticks[1..][l].scrollY <= ticks[1..][k].scrollY {
            assert ticks[1..][k] == ticks[k + 1] && ticks[1..][l] == ticks[l + 1];
          }
        }
      }
    }
  }

  class Marquee {
    const config: Config
    /** The number of cards. */
    const n: nat
    /** prefers-reduced-motion: reduce; the source only logs it. */
    const reducedMotion: bool
    var inView: bool
    var state: BeltState

    /** The memoised segment width. */
    const segment: real

    /** The segment is at least one pixel, so the remainder is defined. */
    ghost predicate Valid()
      reads this
    {
      segment >= 1.0
    }

    constructor(config: Config, n: nat, reducedMotion: bool)
      ensures this.config == config && this.n == n && this.reducedMotion == reducedMotion
      ensures segment == Segment(n, config.cardW, config.gap)
      ensures Valid() && !inView && state == BeltState(0.0, 0.0, 0.0, 0.0, 0.0)
    {
      this.config := config;
      this.n := n;
      this.reducedMotion := reducedMotion;
      segment := Segment(n, config.cardW, config.gap);
      inView := false;
      state := BeltState(0.0, 0.0, 0.0, 0.0, 0.0);
    }

    /** The section enters view and the effect (re)starts at time `now` with
        the page at `sy`. The effect re-runs only when `inView` changes, so it
        starts only from out of view: the autoplay offset restarts from 0, the scroll
        baseline is taken so that the first frame sees no jump, and the
        accumulator keeps its value. */
    method Start(now: real, sy: real)
      requires !inView
      modifies this`inView, this`state
      ensures inView
      ensures state == BeltState(0.0, now, sy, old(state).scrollAccum, old(state).x)
    {
      inView := true;
      state := BeltState(0.0, now, sy, state.scrollAccum, state.x);
    }

    /** The section leaves view: frames stop. */
    method Stop()
      modifies this`inView
      ensures !inView
    {
      inView := false;
    }

    /** An animation frame; there are none out of view. The reduced-motion
        setting plays no part. */
    method Frame(now: real, sy: real)
      requires Valid() && inView
      modifies this`state
      ensures state == NextFrame(config, segment, old(state), now, sy)
    {
      state := NextFrame(config, segment, state, now, sy);
    }
  }
}
