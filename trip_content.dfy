/**
 * The tab coordinator of a trip's content screen (src/trip.js, `TripContentScreen`): the
 * `activeTab` navigation parameter and the swiper that pages between the three tab views must
 * agree. A tap on the tab bar scrolls the swiper and then records the tab; a swipe only records
 * the tab the swiper is settling on, so no scroll command is sent back to the swiper.
 */
module TripContent {
  import opened Navigation

  /**
   * The tab state: `activeTab` and every value written to it (`setParams({ activeTab })`),
   * and the swiper's page and every `scrollTo` command sent to it.
   */
  datatype TabState = TabState(activeTab: int, tabWrites: seq<int>, page: int, scrolls: seq<int>)

  /** The state a content screen opens with: the swiper starts on the route's tab. */
  function Opened(route: Route): (s: TabState)
    ensures s.activeTab == s.page == TabIndex(route.activeTab)
    ensures s.tabWrites == [] && s.scrolls == []
  {
    TabState(TabIndex(route.activeTab), [], TabIndex(route.activeTab), [])
  }

  /**
   * `onTabChange(index)`: a tap on the active tab changes nothing; a tap on another tab sends
   * exactly one scroll command to that page and writes that tab once.
   */
  function TabChange(s: TabState, index: int): (r: TabState)
    ensures index == s.activeTab ==> r == s
    ensures index != s.activeTab ==>
              r.scrolls == s.scrolls + [index] && r.page == index
              && r.tabWrites == s.tabWrites + [index] && r.activeTab == index
  {
    if index != s.activeTab then TabState(index, s.tabWrites + [index], index, s.scrolls + [index])
    else s
  }

  /** `onSwiperWillUpdateIndex(newIndex)`: the tab is written, the swiper is left alone. */
  function WillUpdateIndex(s: TabState, newIndex: int): (r: TabState)
    ensures r.activeTab == newIndex && r.tabWrites == s.tabWrites + [newIndex]
    ensures r.page == s.page && r.scrolls == s.scrolls
  {
    s.(activeTab := newIndex, tabWrites := s.tabWrites + [newIndex])
  }

  /** A swipe: the user's gesture moves the swiper to a page, which then reports it. */
  function Swipe(s: TabState, page: int): TabState
  {
    WillUpdateIndex(s.(page := page), page)
  }

  /** The tab recorded is the page the swiper shows. */
  predicate InSync(s: TabState)
  {
    s.activeTab == s.page
  }

  datatype Input = Tap(index: int) | SwipeTo(index: int)

  function Apply(s: TabState, input: Input): TabState
  {
    match input
    case Tap(i) => TabChange(s, i)
    case SwipeTo(i) => Swipe(s, i)
  }

  function RunTabs(s: TabState, inputs: seq<Input>): TabState
    decreases |inputs|
  {
    if inputs == [] then s else RunTabs(Apply(s, inputs[0]), inputs[1..])
  }

  function TapCount(inputs: seq<Input>): nat
    decreases |inputs|
  {
    if inputs == [] then 0 else (if inputs[0].Tap? then 1 else 0) + TapCount(inputs[1..])
  }

  /** Taps and swipes in any order keep the recorded tab and the swiper's page together. */
  lemma {:induction false} RunTabsStaysInSync(s: TabState, inputs: seq<Input>)
    requires InSync(s)
    ensures InSync(RunTabs(s, inputs))
    decreases |inputs|
  {
    if inputs != [] {
      RunTabsStaysInSync(Apply(s, inputs[0]), inputs[1..]);
    }
  }

  /** Whichever input came last, tap or swipe, decides the tab. */
  lemma {:induction false} RunTabsFollowsLastInput(s: TabState, inputs: seq<Input>)
    requires inputs != []
    ensures RunTabs(s, inputs).activeTab == inputs[|inputs| - 1].index
    decreases |inputs|
  {
    if |inputs| > 1 {
      RunTabsFollowsLastInput(Apply(s, inputs[0]), inputs[1..]);
    }
  }

  /**
   * No update cycles: every input writes the tab at most once, and only taps send scroll
   * commands; both logs only grow.
   */
  lemma {:induction false} RunTabsBoundsUpdates(s: TabState, inputs: seq<Input>)
    ensures var r := RunTabs(s, inputs);
            && |s.tabWrites| <= |r.tabWrites| <= |s.tabWrites| + |inputs|
            && r.tabWrites[..|s.tabWrites|] == s.tabWrites
            && |s.scrolls| <= |r.scrolls| <= |s.scrolls| + TapCount(inputs)
            && r.scrolls[..|s.scrolls|] == s.scrolls
    decreases |inputs|
  {
    if inputs != [] {
      var t := Apply(s, inputs[0]);
      RunTabsBoundsUpdates(t, inputs[1..]);
      var r := RunTabs(s, inputs);
      assert r.tabWrites[..|s.tabWrites|] == r.tabWrites[..|t.tabWrites|][..|s.tabWrites|];
      assert r.scrolls[..|s.scrolls|] == r.scrolls[..|t.scrolls|][..|s.scrolls|];
    }
  }

  /** A swipe onto a tab followed by a tap on that same tab: the tap sends and writes nothing. */
  lemma SwipeThenTapSameTab(s: TabState, i: int)
    ensures TabChange(Swipe(s, i), i) == Swipe(s, i)
    ensures Swipe(s, i).scrolls == s.scrolls
  {
  }

  /** If the swiper reports the page a tap scrolled it to, the report changes only the log. */
  lemma EchoedScrollIsHarmless(s: TabState, i: int)
    ensures var r := WillUpdateIndex(TabChange(s, i), i);
            r.activeTab == TabChange(s, i).activeTab && r.scrolls == TabChange(s, i).scrolls
  {
  }

  /** The swiper: the page it shows and the scroll commands it was sent. */
  class Swiper {
    var page: int
    var scrolls: seq<int>

    constructor (index: int)
      ensures page == index && scrolls == []
    {
      page := index;
      scrolls := [];
    }

    /** `scrollTo(index, true)`. */
    method ScrollTo(index: int)
      modifies this
      ensures page == index && scrolls == old(scrolls) + [index]
    {
      page := index;
      scrolls := scrolls + [index];
    }

    /** The user's swipe settles the swiper on a page without any command. */
    method Settle(index: int)
      modifies this
      ensures page == index && scrolls == old(scrolls)
    {
      page := index;
    }
  }

  class TripContentScreen {
    const tripId: int
    const title: string
    const swiper: Swiper
    var activeTab: int
    var tabWrites: seq<int>

    function State(): TabState
      reads this, swiper
    {
      TabState(activeTab, tabWrites, swiper.page, swiper.scrolls)
    }

    constructor (route: Route)
      ensures tripId == route.tripId && title == route.title
      ensures State() == Opened(route) && fresh(swiper)
    {
      tripId, title := route.tripId, route.title;
      activeTab := TabIndex(route.activeTab);
      tabWrites := [];
      swiper := new Swiper(TabIndex(route.activeTab));
    }

    method OnTabChange(index: int)
      modifies this, swiper
      ensures State() == TabChange(old(State()), index)
    {
      if index != activeTab {
        swiper.ScrollTo(index);
        activeTab := index;
        tabWrites := tabWrites + [index];
      }
    }

    method OnSwiperWillUpdateIndex(newIndex: int)
      modifies this
      ensures State() == WillUpdateIndex(old(State()), newIndex)
    {
      activeTab := newIndex;
      tabWrites := tabWrites + [newIndex];
    }

    /**
     * A swipe: the gesture settles the swiper on a page, which then reports it through
     * `onWillUpdateIndex`; the screen ends in sync, having sent the swiper no command.
     */
    method OnSwipe(page: int)
      modifies this, swiper
      ensures State() == Swipe(old(State()), page)
      ensures InSync(State()) && swiper.scrolls == old(swiper.scrolls)
    {
      swiper.Settle(page);
      OnSwiperWillUpdateIndex(page);
    }
  }
}
