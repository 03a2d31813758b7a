/** The phone mockup's hero: three lines typed one after another, the
    download buttons on the dashboard once all three are typed, and the app's
    bottom tab bar.
    Each interval tick of a typing counter is one Tick step. */
module PhoneMockup {

  /** The three lines of hero copy, in typing order. */
  const Line1 := "Buli App"
  const Line2 := "builds the perfect workout plan for you."
  const Line3 := "AI-powered programming that helps you reach your fitness goals, whether you're a beginner or experienced lifter."

  /** One interval tick of `useTyping`: up by one until the text length. */
  function Advance(i: nat, len: nat): (r: nat)
    ensures i < len ==> r == i + 1
    ensures i >= len ==> r == i
  {
    if i < len then i + 1 else i
  }

  /** k ticks from i. */
  function AdvanceTimes(i: nat, len: nat, k: nat): nat
    decreases k
  {
    if k == 0 then i else Advance(AdvanceTimes(i, len, k - 1), len)
  }

  /** From a count within the text, k ticks reach min(i + k, len): the counter
      never passes the length and is complete after len ticks from 0. */
  lemma {:induction false} AdvanceTimesBounded(i: nat, len: nat, k: nat)
    requires i <= len
    ensures AdvanceTimes(i, len, k) == if i + k <= len then i + k else len
    decreases k
  {
    if k > 0 {
      AdvanceTimesBounded(i, len, k - 1);
    }
  }

  /** `text.slice(0, i)`: the first i characters, or the whole text when i
      exceeds its length; always a prefix of the text. */
  function Typed(text: string, i: nat): (r: string)
    ensures r <= text
    ensures |r| == if i <= |text| then i else |text|
  {
    if i >= |text| then text else text[..i]
  }

  /** What the component renders as a whole. */
  datatype View = Spinner | Content

  datatype Tab = Dashboard | History | Progress | More

  class Mockup {
    /** prefers-reduced-motion: reduce. */
    const reducedMotion: bool
    var mounted: bool
    var typingStarted: bool
    var activeTab: Tab
    /** The counters of the three `useTyping` hooks. */
    var i1: nat
    var i2: nat
    var i3: nat

    /** The typing cascade: each counter within its line, nothing typed before
        typing starts, and a line begun only once the previous one is complete. */
    ghost predicate Valid()
      reads this
    {
      i1 <= |Line1| && i2 <= |Line2| && i3 <= |Line3| &&
      (i1 > 0 ==> mounted && typingStarted) &&
      (i2 > 0 ==> i1 == |Line1|) &&
      (i3 > 0 ==> i2 == |Line2|)
    }

    constructor(reducedMotion: bool)
      ensures Valid() && this.reducedMotion == reducedMotion
      ensures !mounted && !typingStarted && activeTab == Dashboard
      ensures i1 == 0 && i2 == 0 && i3 == 0
    {
      this.reducedMotion := reducedMotion;
      mounted := false;
      typingStarted := false;
      activeTab := Dashboard;
      i1, i2, i3 := 0, 0, 0;
    }

    /** The `shouldStart` argument of each typing hook. */
    predicate ShouldStart(line: nat)
      reads this
    {
      match line
      case 1 => mounted && typingStarted
      case 2 => mounted && typingStarted && |Typed(Line1, i1)| == |Line1|
      case 3 => mounted && typingStarted && |Typed(Line2, i2)| == |Line2|
      case _ => false
    }

    /** Before mount only the spinner renders. */
    function View(): (v: View)
      reads this
      ensures v == Spinner <==> !mounted
    {
      if mounted then Content else Spinner
    }

    /** The download buttons belong to the dashboard's landing content, which
        renders only after mount and only on the dashboard tab; inside it they
        render once all three lines are fully typed. */
    predicate CtaVisible()
      reads this
    {
      mounted && activeTab == Dashboard &&
      |Typed(Line1, i1)| == |Line1| && |Typed(Line2, i2)| == |Line2| && |Typed(Line3, i3)| == |Line3|
    }

    /** Visible buttons mean the dashboard is shown, typing has started and
        every line reads in full. */
    lemma CtaMeansAllTyped()
      requires Valid() && CtaVisible()
      ensures mounted && typingStarted && activeTab == Dashboard
      ensures Typed(Line1, i1) == Line1 && Typed(Line2, i2) == Line2 && Typed(Line3, i3) == Line3
      ensures i1 == |Line1| && i2 == |Line2| && i3 == |Line3|
    {
    }

    method Mount()
      requires Valid()
      modifies this`mounted
      ensures Valid() && mounted
    {
      mounted := true;
    }

    /** The start timer after mount, or the `play` prop turning true. */
    method StartTyping()
      requires Valid()
      modifies this`typingStarted
      ensures Valid() && typingStarted
    {
      typingStarted := true;
    }

    /** A step of typing hook `line`: nothing while its `shouldStart` is
        false; under reduced motion straight to the full length; otherwise one
        interval tick. */
    method Tick(line: nat)
      requires Valid() && 1 <= line <= 3
      modifies this`i1, this`i2, this`i3
      ensures Valid()
      ensures !ShouldStart(line) ==> i1 == old(i1) && i2 == old(i2) && i3 == old(i3)
      ensures ShouldStart(line) && line == 1 ==>
                i1 == (if reducedMotion then |Line1| else Advance(old(i1), |Line1|)) && i2 == old(i2) && i3 == old(i3)
      ensures ShouldStart(line) && line == 2 ==>
                i2 == (if reducedMotion then |Line2| else Advance(old(i2), |Line2|)) && i1 == old(i1) && i3 == old(i3)
      ensures ShouldStart(line) && line == 3 ==>
                i3 == (if reducedMotion then |Line3| else Advance(old(i3), |Line3|)) && i1 == old(i1) && i2 == old(i2)
    {
      if !ShouldStart(line) {
        return;
      }
      if line == 1 {
        i1 := if reducedMotion then |Line1| else (if i1 < |Line1| then i1 + 1 else i1);
      } else if line == 2 {
        i2 := if reducedMotion then |Line2| else (if i2 < |Line2| then i2 + 1 else i2);
      } else {
        i3 := if reducedMotion then |Line3| else (if i3 < |Line3| then i3 + 1 else i3);
      }
    }

    /** Each button of the tab bar selects its own tab. */
    method SelectTab(tab: Tab)
      modifies this`activeTab
      ensures activeTab == tab
      // any other tab hides the landing content, buttons included
      ensures tab != Dashboard ==> !CtaVisible()
    {
      activeTab := tab;
    }
  }

  /** Under reduced motion, mount, start and one step per line show the
      download buttons. */
  method ReducedMotionScenario() returns (cta: bool)
    ensures cta
  {
    var m := new Mockup(true);
    m.Mount();
    m.StartTyping();
    m.Tick(1);
    m.Tick(2);
    m.Tick(3);
    cta := m.CtaVisible();
  }

  /** Once the buttons show, switching to another tab hides them, and
      switching back to the dashboard shows them again. */
  method TabSwitchScenario() returns (before: bool, onHistory: bool, back: bool)
    ensures before && !onHistory && back
  {
    var m := new Mockup(true);
    m.Mount();
    m.StartTyping();
    m.Tick(1);
    m.Tick(2);
    m.Tick(3);
    before := m.CtaVisible();
    m.SelectTab(History);
    onHistory := m.CtaVisible();
    m.SelectTab(Dashboard);
    back := m.CtaVisible();
  }
}
