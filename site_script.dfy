/** The static landing page's script: event handlers over module-level state.
    Each group of handlers that shares state is one class. Scroll positions are
    whole pixels. */
module SiteScript {
  import opened JsCore

  // ---------------------------------------------------------------------
  // Navbar: the scroll class and the mobile menu

  /** The scroll threshold above which the navbar carries `scrolled`. */
  const ScrollThreshold := 50

  class Navbar {
    var scrolled: bool
    /** `active` on the menu and on the hamburger button. */
    var menuActive: bool
    var hamburgerActive: bool

    /** The menu and the hamburger always agree, because every handler
        changes both together. */
    ghost predicate Valid()
      reads this
    {
      menuActive == hamburgerActive
    }

    constructor()
      ensures Valid() && !scrolled && !menuActive && !hamburgerActive
    {
      scrolled := false;
      menuActive := false;
      hamburgerActive := false;
    }

    /** A scroll event: `scrolled` is on exactly above the threshold. */
    method OnScroll(scrollY: int)
      modifies this`scrolled
      ensures scrolled <==> scrollY > ScrollThreshold
    {
      if scrollY > ScrollThreshold {
        scrolled := true;
      } else {
        scrolled := false;
      }
    }

    /** The hamburger toggles `active` on both elements. */
    method ClickHamburger()
      requires Valid()
      modifies this`menuActive, this`hamburgerActive
      ensures Valid()
      ensures menuActive == !old(menuActive) && hamburgerActive == !old(hamburgerActive)
    {
      menuActive := !menuActive;
      hamburgerActive := !hamburgerActive;
    }

    /** A click on any nav link removes `active` from both. */
    method ClickNavLink()
      modifies this`menuActive, this`hamburgerActive
      ensures Valid() && !menuActive && !hamburgerActive
    {
      menuActive := false;
      hamburgerActive := false;
    }

    /** A key press: Escape closes an open menu; the handler tests only the
        menu's class, which is enough because the two agree. */
    method KeyDown(key: string)
      requires Valid()
      modifies this`menuActive, this`hamburgerActive
      ensures Valid()
      ensures key == "Escape" ==> !menuActive && !hamburgerActive
      ensures key != "Escape" ==> menuActive == old(menuActive) && hamburgerActive == old(hamburgerActive)
    {
      if key == "Escape" && menuActive {
        menuActive := false;
        hamburgerActive := false;
      }
    }
  }

  // ---------------------------------------------------------------------
  // The phone mockup's clock

  /** A number rendered with `toString().padStart(2, '0')`. */
  function TwoDigits(n: nat): (s: string)
    requires n < 100
    ensures |s| == 2 && forall i :: 0 <= i < 2 ==> '0' <= s[i] <= '9'
    ensures DigitsValue(s) == n
  {
    var d := NatToString(n);
    NatToStringValue(n);
    if |d| >= 2 then d
    else
      assert PadStart(d, 2, '0') == ['0'] + d;
      DigitsValueLeadingZero(d);
      PadStart(d, 2, '0')
  }

  /** A leading zero does not change a decimal value. */
  lemma {:induction false} DigitsValueLeadingZero(s: string)
    requires forall i :: 0 <= i < |s| ==> '0' <= s[i] <= '9'
    ensures DigitsValue(['0'] + s) == DigitsValue(s)
    decreases |s|
  {
    if s != [] {
      var init := s[..|s| - 1];
      DigitsValueLeadingZero(init);
      assert (['0'] + s)[..|s|] == ['0'] + init;
    }
  }

  /** The clock text `HH:MM`: five characters, a colon in the middle, and
      each half reads back as the hour and the minute. */
  function FormatTime(hours: nat, minutes: nat): (text: string)
    requires hours < 24 && minutes < 60
    ensures |text| == 5 && text[2] == ':'
    ensures forall i :: 0 <= i < 5 && i != 2 ==> '0' <= text[i] <= '9'
    ensures DigitsValue(text[..2]) == hours && DigitsValue(text[3..]) == minutes
  {
    var h := TwoDigits(hours);
    var m := TwoDigits(minutes);
    assert (h + ":" + m)[..2] == h && (h + ":" + m)[3..] == m;
    h + ":" + m
  }

  class PhoneClock {
    /** Whether the page has a `.preview-time` element. */
    const hasElement: bool
    var text: string

    constructor(hasElement: bool, text: string)
      ensures this.hasElement == hasElement && this.text == text
    {
      this.hasElement := hasElement;
      this.text := text;
    }

    /** `updateTime()` at a moment whose local hour and minute are given. */
    method UpdateTime(hours: nat, minutes: nat)
      requires hours < 24 && minutes < 60
      modifies this`text
      ensures hasElement ==> text == FormatTime(hours, minutes)
      ensures !hasElement ==> text == old(text)
    {
      if hasElement {
        var h := TwoDigits(hours);
        var m := TwoDigits(minutes);
        text := h + ":" + m;
      }
    }
  }

  // ---------------------------------------------------------------------
  // Stat counters: each element is animated at most once

  /** An IntersectionObserver entry: which stat element, and whether it is
      in view. */
  datatype Entry = Entry(target: nat, isIntersecting: bool)

  /** The elements a batch of entries starts animating, in order, given the
      elements already marked `counted`. */
  function NewlyCounted(counted: set<nat>, entries: seq<Entry>): seq<nat>
    decreases |entries|
  {
    if entries == [] then []
    else
      var e := entries[0];
      if e.isIntersecting && e.target !in counted then
        [e.target] + NewlyCounted(counted + {e.target}, entries[1..])
      else
        NewlyCounted(counted, entries[1..])
  }

  /** The elements of a batch that are in view. */
  function InView(entries: seq<Entry>): set<nat> {
    set k | 0 <= k < |entries| && entries[k].isIntersecting :: entries[k].target
  }

  /** A batch starts only elements that were not counted, each once. */
  lemma {:induction false} NewlyCountedFresh(counted: set<nat>, entries: seq<Entry>)
    ensures forall x :: x in NewlyCounted(counted, entries) ==> x !in counted && x in InView(entries)
    ensures forall i, j :: 0 <= i < j < |NewlyCounted(counted, entries)| ==>
              NewlyCounted(counted, entries)[i] != NewlyCounted(counted, entries)[j]
    decreases |entries|
  {
    if entries != [] {
      var e := entries[0];
      var rest := entries[1..];
      assert forall x :: x in InView(rest) ==> x in InView(entries) by {
        forall x | x in InView(rest) ensures x in InView(entries) {
          var k :| 0 <= k < |rest| && rest[k].isIntersecting && rest[k].target == x;
          assert entries[k + 1] == rest[k];
        }
      }
      if e.isIntersecting && e.target !in counted {
        NewlyCountedFresh(counted + {e.target}, rest);
        assert e.target in InView(entries) by { assert entries[0] == e; }
      } else {
        NewlyCountedFresh(counted, rest);
      }
    }
  }

  class StatCounters {
    /** The elements carrying the `counted` class. */
    var counted: set<nat>
    /** The elements whose counter animation was started, in order. */
    var animations: seq<nat>

    /** An element is counted exactly when its animation was started, and no
        animation was started twice. */
    ghost predicate Valid()
      reads this
    {
      (forall x :: x in animations <==> x in counted) &&
      (forall i, j :: 0 <= i < j < |animations| ==> animations[i] != animations[j])
    }

    constructor()
      ensures Valid() && counted == {} && animations == []
    {
      counted := {};
      animations := [];
    }

    /** The observer callback over one batch of entries. */
    method Observe(entries: seq<Entry>)
      requires Valid()
      modifies this
      ensures Valid()
      ensures animations == old(animations) + NewlyCounted(old(counted), entries)
      ensures counted == old(counted) + InView(entries)
    {
      var i := 0;
      while i < |entries|
        invariant 0 <= i <= |entries|
        invariant Valid()
        invariant animations + NewlyCounted(counted, entries[i..]) ==
                  old(animations) + NewlyCounted(old(counted), entries)
        invariant counted == old(counted) + InView(entries[..i])
      {
        var e := entries[i];
        assert entries[i..][0] == e && entries[i..][1..] == entries[i + 1..];
        assert InView(entries[..i + 1]) == InView(entries[..i]) + (if e.isIntersecting then {e.target} else {}) by {
          assert entries[..i + 1][i] == e;
          assert forall k :: 0 <= k < i ==> entries[..i + 1][k] == entries[..i][k];
        }
        if e.isIntersecting && e.target !in counted {
          animations := animations + [e.target];
          counted := counted + {e.target};
        }
        i := i + 1;
      }
      assert entries[..i] == entries;
    }
  }

  // ---------------------------------------------------------------------
  // The logo easter egg: every fifth click pulses the page

  const ClicksPerPulse := 5

  /** One logo click: the count rises, and on reaching five it pulses and
      starts over. */
  function LogoStep(count: nat): (r: (nat, bool))
    ensures r.1 <==> count + 1 == ClicksPerPulse
    ensures r.0 == if r.1 then 0 else count + 1
  {
    if count + 1 == ClicksPerPulse then (0, true) else (count + 1, false)
  }

  /** The count and the number of pulses after `clicks` clicks from the start. */
  function AfterClicks(clicks: nat): (nat, nat)
    decreases clicks
  {
    if clicks == 0 then (0, 0)
    else
      var prev := AfterClicks(clicks - 1);
      var step := LogoStep(prev.0);
      (step.0, prev.1 + if step.1 then 1 else 0)
  }

  /** After k clicks the count is k mod 5 and the page has pulsed k div 5
      times: the count returns to 0 exactly on every fifth click. */
  lemma {:induction false} AfterClicksClosedForm(clicks: nat)
    ensures AfterClicks(clicks) == (clicks % ClicksPerPulse, clicks / ClicksPerPulse)
    decreases clicks
  {
    if clicks > 0 {
      AfterClicksClosedForm(clicks - 1);
    }
  }

  class LogoEasterEgg {
    var logoClickCount: nat
    var bodyPulses: nat
    ghost var clicks: nat

    ghost predicate Valid()
      reads this
    {
      (logoClickCount, bodyPulses) == AfterClicks(clicks)
    }

    constructor()
      ensures Valid() && logoClickCount == 0 && bodyPulses == 0 && clicks == 0
    {
      logoClickCount := 0;
      bodyPulses := 0;
      clicks := 0;
    }

    method ClickLogo()
      requires Valid()
      modifies this
      ensures Valid() && clicks == old(clicks) + 1
      ensures logoClickCount == clicks % ClicksPerPulse && bodyPulses == clicks / ClicksPerPulse
      ensures bodyPulses == old(bodyPulses) + (if clicks % ClicksPerPulse == 0 then 1 else 0)
    {
      logoClickCount := logoClickCount + 1;
      if logoClickCount == ClicksPerPulse {
        bodyPulses := bodyPulses + 1;
        logoClickCount := 0;
      }
      clicks := clicks + 1;
      AfterClicksClosedForm(clicks);
    }
  }

  // ---------------------------------------------------------------------
  // The cursor trail: the latest ten points of mouse moves over the hero

  const MaxTrailLength := 10

  datatype Point = Point(x: int, y: int)

  /** A mouse move: where, and whether its target lies inside the hero. */
  datatype Move = Move(point: Point, inHero: bool)

  /** `push` then, past the bound, `shift`. */
  function Pushed(trail: seq<Point>, p: Point): seq<Point> {
    var t := trail + [p];
    if |t| > MaxTrailLength then t[1..] else t
  }

  /** The trail after a run of moves from the empty trail. */
  function TrailAfter(moves: seq<Move>): seq<Point>
    decreases |moves|
  {
    if moves == [] then []
    else
      var prev := TrailAfter(moves[..|moves| - 1]);
      var m := moves[|moves| - 1];
      if m.inHero then Pushed(prev, m.point) else prev
  }

  /** The points of the moves over the hero, in arrival order. */
  function HeroPoints(moves: seq<Move>): seq<Point>
    decreases |moves|
  {
    if moves == [] then []
    else
      var m := moves[|moves| - 1];
      HeroPoints(moves[..|moves| - 1]) + (if m.inHero then [m.point] else [])
  }

  /** The last n elements of s (all of s when it is shorter). */
  function LastN<T>(s: seq<T>, n: nat): (r: seq<T>)
    ensures |r| == if |s| <= n then |s| else n
    ensures s == s[..|s| - |r|] + r
  {
    if |s| <= n then s else s[|s| - n..]
  }

  /** The trail holds exactly the most recent hero points, at most ten, in
      arrival order. */
  lemma {:induction false} TrailIsRecentHeroPoints(moves: seq<Move>)
    ensures TrailAfter(moves) == LastN(HeroPoints(moves), MaxTrailLength)
    decreases |moves|
  {
    if moves != [] {
      var init := moves[..|moves| - 1];
      var m := moves[|moves| - 1];
      TrailIsRecentHeroPoints(init);
      if m.inHero {
        var h := HeroPoints(init);
        assert HeroPoints(moves) == h + [m.point];
        if |h| >= MaxTrailLength {
          assert (h[|h| - MaxTrailLength..] + [m.point])[1..] == (h + [m.point])[|h| + 1 - MaxTrailLength..];
        }
      }
    }
  }

  class CursorTrail {
    var trail: seq<Point>
    /** Every mouse move seen so far. */
    ghost var moves: seq<Move>

    ghost predicate Valid()
      reads this
    {
      trail == TrailAfter(moves)
    }

    constructor()
      ensures Valid() && trail == [] && moves == []
    {
      trail := [];
      moves := [];
    }

    /** A mouse move: only a move over the hero extends the trail. */
    method OnMouseMove(m: Move)
      requires Valid()
      modifies this
      ensures Valid() && moves == old(moves) + [m]
      ensures trail == LastN(HeroPoints(moves), MaxTrailLength)
      ensures !m.inHero ==> trail == old(trail)
    {
      if m.inHero {
        trail := trail + [m.point];
        if |trail| > MaxTrailLength {
          trail := trail[1..];
        }
      }
      moves := moves + [m];
      assert moves[..|moves| - 1] == old(moves);
      TrailIsRecentHeroPoints(moves);
    }
  }

  // ---------------------------------------------------------------------
  // The testimonial carousel

  /** A JavaScript number as the carousel index: an integer, or NaN after a
      remainder by a zero length. NaN stays NaN under further arithmetic. */
  datatype Index = At(i: int) | NaN

  /** `(currentIndex + 1) % length`. */
  function NextIndex(c: Index, n: nat): (r: Index)
    ensures c.NaN? || n == 0 ==> r == NaN
    ensures c.At? && n > 0 && 0 <= c.i < n ==>
              r.At? && 0 <= r.i < n && r.i == (if c.i + 1 == n then 0 else c.i + 1)
  {
    if c.NaN? || n == 0 then NaN else At(JsRem(c.i + 1, n))
  }

  /** `(currentIndex - 1 + length) % length`. */
  function PrevIndex(c: Index, n: nat): (r: Index)
    ensures c.NaN? || n == 0 ==> r == NaN
    ensures c.At? && n > 0 && 0 <= c.i < n ==>
              r.At? && 0 <= r.i < n && r.i == (if c.i == 0 then n - 1 else c.i - 1)
  {
    if c.NaN? || n == 0 then NaN else At(JsRem(c.i - 1 + n, n))
  }

  /** On a non-empty carousel prev undoes next and next undoes prev. */
  lemma PrevUndoesNext(c: Index, n: nat)
    requires n > 0 && c.At? && 0 <= c.i < n
    ensures PrevIndex(NextIndex(c, n), n) == c
    ensures NextIndex(PrevIndex(c, n), n) == c
  {
  }

  /** k presses of next. */
  function NextTimes(c: Index, n: nat, k: nat): Index
    decreases k
  {
    if k == 0 then c else NextIndex(NextTimes(c, n, k - 1), n)
  }

  /** Within one lap, k presses of next move k places round the ring. */
  lemma {:induction false} NextTimesRotates(c: Index, n: nat, k: nat)
    requires n > 0 && c.At? && 0 <= c.i < n && k <= n
    ensures NextTimes(c, n, k) == At(if c.i + k < n then c.i + k else c.i + k - n)
    decreases k
  {
    if k > 0 {
      NextTimesRotates(c, n, k - 1);
    }
  }

  /** n presses of next on n testimonials come back to the start. */
  lemma FullLap(c: Index, n: nat)
    requires n > 0 && c.At? && 0 <= c.i < n
    ensures NextTimes(c, n, n) == c
  {
    NextTimesRotates(c, n, n);
  }

  class TestimonialCarousel {
    var currentIndex: Index
    var testimonials: seq<string>

    /** A new carousel starts at 0 with no testimonials. */
    constructor()
      ensures currentIndex == At(0) && testimonials == []
    {
      currentIndex := At(0);
      testimonials := [];
    }

    method Next()
      modifies this`currentIndex
      ensures currentIndex == NextIndex(old(currentIndex), |testimonials|)
    {
      if currentIndex.NaN? || |testimonials| == 0 {
        currentIndex := NaN;
      } else {
        currentIndex := At(JsRem(currentIndex.i + 1, |testimonials|));
      }
    }

    method Prev()
      modifies this`currentIndex
      ensures currentIndex == PrevIndex(old(currentIndex), |testimonials|)
    {
      if currentIndex.NaN? || |testimonials| == 0 {
        currentIndex := NaN;
      } else {
        currentIndex := At(JsRem(currentIndex.i - 1 + |testimonials|, |testimonials|));
      }
    }
  }

  /** With no testimonials loaded, as the constructor leaves it, one press of
      next makes the index NaN. */
  method FreshCarouselNext() returns (r: Index)
    ensures r == NaN
  {
    var c := new TestimonialCarousel();
    c.Next();
    r := c.currentIndex;
  }
}
