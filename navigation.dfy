/** The navigation parameters the trip screens pass to each other. */
module Navigation {

  /** The three tabs of a trip's content screen; `TabIndex` gives the value of `Tabs`. */
  datatype Tab = Members | Expenses | Summary

  function TabIndex(t: Tab): (i: int)
    ensures 0 <= i < 3
    ensures t == Members <==> i == 0
    ensures t == Expenses <==> i == 1
  {
    match t
    case Members => 0
    case Expenses => 1
    case Summary => 2
  }

  /** The parameters of `navigate('Trip', { title, tripId, activeTab })`. */
  datatype Route = Route(title: string, tripId: int, activeTab: Tab)
}
