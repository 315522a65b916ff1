/**
 * The earlier trip screens (trip.js): the same editor, delete and routing logic as the trip
 * list in src/trip.js but with no readiness gate, and a content screen that shows one tab view
 * at a time, chosen by `activeTab`, with a tab bar that writes the tab on every tap.
 */
module EarlyTrip {
  import opened DataStore
  import opened Navigation
  import opened TripList

  /** The tab bar's choice: index 0 is Members, 1 is Expenses, anything else Summary. */
  function TabBarSelect(index: int): (t: Tab)
    ensures t == Members <==> index == 0
    ensures t == Expenses <==> index == 1
  {
    if index == 0 then Members else if index == 1 then Expenses else Summary
  }

  datatype View = MembersView | ExpensesView | SummaryView

  function ViewOf(t: Tab): View
  {
    match t
    case Members => MembersView
    case Expenses => ExpensesView
    case Summary => SummaryView
  }

  /**
   * `TripContentMainView`: exactly one view, that of the tab the tab bar would choose for the
   * same index.
   */
  function MainView(activeTab: int): (v: View)
    ensures v == ViewOf(TabBarSelect(activeTab))
  {
    if activeTab == 0 then MembersView else if activeTab == 1 then ExpensesView else SummaryView
  }

  /** Every tab's own index shows that tab's view. */
  lemma MainViewShowsTab(t: Tab)
    ensures MainView(TabIndex(t)) == ViewOf(t)
  {
  }

  class TripListScreen {
    const store: Store
    var id: int
    var name: string
    var editTripVisible: bool
    var deleteTripId: int
    var navigations: seq<Route>

    function State(): ListState
      reads this
    {
      ListState(Draft(id, name), editTripVisible, deleteTripId)
    }

    constructor (store: Store)
      ensures this.store == store && State() == InitialState && navigations == []
    {
      this.store := store;
      id, name := -1, "";
      editTripVisible := false;
      deleteTripId := 0;
      navigations := [];
    }

    method OnAddTrip()
      modifies this
      ensures State() == ShowEditor(old(State())) && navigations == old(navigations)
    {
      editTripVisible := true;
    }

    method OnEditTrip(tripId: int, tripName: string)
      modifies this
      ensures State() == EditTrip(old(State()), tripId, tripName) && navigations == old(navigations)
    {
      id, name := tripId, tripName;
      editTripVisible := true;
    }

    method OnChangeName(tripName: string)
      modifies this
      ensures State() == ChangeName(old(State()), tripName) && navigations == old(navigations)
    {
      name := tripName;
    }

    /** Without a gate, a finish is `Finish` whatever the store's readiness. */
    method OnFinishEditTrip(done: bool)
      modifies this, store
      ensures var e := Finish(old(State()), done);
              State() == e.state && store.log == old(store.log) + e.calls
      ensures store.ready == old(store.ready) && navigations == old(navigations)
    {
      if done && |name| > 0 {
        if id > 0 {
          store.UpdateTrip(id, name);
        } else {
          store.AddTrip(name);
        }
      }
      editTripVisible := false;
      id, name := -1, "";
    }

    method OnDeleteTrip(tripId: int)
      modifies this
      ensures State() == RequestDelete(old(State()), tripId) && navigations == old(navigations)
    {
      deleteTripId := tripId;
    }

    method OnRespondDelete(okay: bool)
      modifies this, store
      ensures var e := RespondDelete(old(State()), okay);
              State() == e.state && store.log == old(store.log) + e.calls
      ensures store.ready == old(store.ready) && navigations == old(navigations)
    {
      var pending := deleteTripId;
      deleteTripId := 0;
      if okay {
        store.DeleteTrip(pending);
      }
    }

    method OnClickTrip(tripId: int, title: string)
      modifies this
      ensures navigations == old(navigations) + [Route(title, tripId, TabForMembers(store.MembersOf(tripId)))]
      ensures State() == old(State())
    {
      var members := store.GetMembers(tripId);
      var activeTab := if members.None? || |members.value| <= 0 then Members else Expenses;
      navigations := navigations + [Route(title, tripId, activeTab)];
    }
  }

  /** The content screen: the tab parameter and every value written to it. */
  class TripContentScreen {
    const tripId: int
    const title: string
    var activeTab: int
    var tabWrites: seq<int>

    constructor (route: Route)
      ensures tripId == route.tripId && title == route.title
      ensures activeTab == TabIndex(route.activeTab) && tabWrites == []
    {
      tripId, title := route.tripId, route.title;
      activeTab := TabIndex(route.activeTab);
      tabWrites := [];
    }

    /** A tab-bar tap always writes the tab, even the one already active. */
    method OnTabChange(newTabIndex: int)
      modifies this
      ensures activeTab == TabIndex(TabBarSelect(newTabIndex))
      ensures tabWrites == old(tabWrites) + [activeTab]
      ensures MainView(activeTab) == ViewOf(TabBarSelect(newTabIndex))
    {
      if newTabIndex == 0 {
        activeTab := TabIndex(Members);
      } else if newTabIndex == 1 {
        activeTab := TabIndex(Expenses);
      } else {
        activeTab := TabIndex(Summary);
      }
      tabWrites := tabWrites + [activeTab];
    }
  }
}
