/** The desktop device preview's tab bar. The 'more' tab never opens a view:
    it flashes a "download to see more" overlay that a timer hides again.
    Each pending hide timer is counted; its firing is the HideTimerFires step. */
module DevicePreview {

  datatype Tab = Dashboard | History | Progress | More

  /** How long the overlay stays up, in milliseconds. */
  const MoreMessageMillis := 2500

  /** The view header: one text per view; for 'more' all three tests are
      false and nothing is rendered. */
  function HeaderText(tab: Tab): string {
    match tab
    case Dashboard => "Your Weekly Plan"
    case History => "Workout History"
    case Progress => "Your Progress"
    case More => ""
  }

  /** The three views have three different, non-empty headers, and 'more'
      has none. */
  lemma HeaderTextsDistinct(a: Tab, b: Tab)
    ensures a != More ==> HeaderText(a) != ""
    ensures a == More <==> HeaderText(a) == ""
    ensures a != b ==> HeaderText(a) != HeaderText(b)
  {
    assert "Your Weekly Plan"[5] != "Your Progress"[5];
    assert "Workout History"[0] != "Your Weekly Plan"[0];
    assert "Workout History"[0] != "Your Progress"[0];
  }

  class Preview {
    var activeTab: Tab
    var showMoreMessage: bool
    /** The key of the progress chart; a new key replays its animation. */
    var progressKey: nat
    /** Hide timers scheduled and not yet fired. */
    var pendingHides: nat

    /** 'more' is never the active tab, so a header always shows. */
    ghost predicate Valid()
      reads this
    {
      activeTab != More
    }

    constructor()
      ensures Valid()
      ensures activeTab == Dashboard && !showMoreMessage && progressKey == 0 && pendingHides == 0
    {
      activeTab := Dashboard;
      showMoreMessage := false;
      progressKey := 0;
      pendingHides := 0;
    }

    /** The header of the current view is never empty. */
    lemma HeaderShown()
      requires Valid()
      ensures HeaderText(activeTab) != ""
    {
      HeaderTextsDistinct(activeTab, activeTab);
    }

    /** `handleTabClick(tab)`. */
    method ClickTab(tab: Tab)
      requires Valid()
      modifies this
      ensures Valid()
      // 'more': overlay up, a hide scheduled, the view unchanged
      ensures tab == More ==>
                showMoreMessage && pendingHides == old(pendingHides) + 1 &&
                activeTab == old(activeTab) && progressKey == old(progressKey)
      // any other tab: that view, the overlay and timers untouched
      ensures tab != More ==>
                activeTab == tab && showMoreMessage == old(showMoreMessage) &&
                pendingHides == old(pendingHides)
      // the chart key counts clicks on 'progress', a re-click included
      ensures progressKey == old(progressKey) + (if tab == Progress then 1 else 0)
      ensures (activeTab, progressKey) == AfterClick((old(activeTab), old(progressKey)), tab)
    {
      if tab == More {
        showMoreMessage := true;
        pendingHides := pendingHides + 1;
      } else {
        activeTab := tab;
        if tab == Progress {
          progressKey := progressKey + 1;
        }
      }
    }

    /** A scheduled hide fires: the overlay goes, even if a later click on
        'more' scheduled another hide still to come. */
    method HideTimerFires()
      requires Valid() && pendingHides > 0
      modifies this`showMoreMessage, this`pendingHides
      ensures Valid() && !showMoreMessage && pendingHides == old(pendingHides) - 1
    {
      showMoreMessage := false;
      pendingHides := pendingHides - 1;
    }

    /** The overlay renders exactly while `showMoreMessage` is set. */
    predicate OverlayVisible()
      reads this
    {
      showMoreMessage
    }
  }

  /** One tab click as a transition on (active tab, progress key). */
  function AfterClick(state: (Tab, nat), tab: Tab): (r: (Tab, nat))
    ensures r.0 == if tab == More then state.0 else tab
    ensures r.1 == state.1 + (if tab == Progress then 1 else 0)
  {
    if tab == More then state
    else if tab == Progress then (Progress, state.1 + 1)
    else (tab, state.1)
  }

  /** The state after a run of clicks. */
  function AfterClicks(state: (Tab, nat), clicks: seq<Tab>): (Tab, nat)
    decreases |clicks|
  {
    if clicks == [] then state else AfterClicks(AfterClick(state, clicks[0]), clicks[1..])
  }

  /** The number of clicks on 'progress' in a run. */
  function ProgressClicks(clicks: seq<Tab>): nat
    decreases |clicks|
  {
    if clicks == [] then 0 else (if clicks[0] == Progress then 1 else 0) + ProgressClicks(clicks[1..])
  }

  /** Over any run of clicks the chart key grows by the number of 'progress'
      clicks, and from a view other than 'more' the active tab never becomes
      'more'. */
  lemma {:induction false} AfterClicksCounts(state: (Tab, nat), clicks: seq<Tab>)
    ensures AfterClicks(state, clicks).1 == state.1 + ProgressClicks(clicks)
    ensures state.0 != More ==> AfterClicks(state, clicks).0 != More
    decreases |clicks|
  {
    if clicks != [] {
      AfterClicksCounts(AfterClick(state, clicks[0]), clicks[1..]);
    }
  }
}
