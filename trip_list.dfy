/**
 * The trip list screen (src/trip.js, `TripListScreen`): an editor dialog over a draft
 * `(id, name)`, a delete confirmation driven by one pending trip id, and a tap on a trip that
 * opens its content screen. Finishing the editor waits for the store to be ready.
 *
 * The draft lives in React state and the dialog flags in navigation parameters; both are
 * modelled as plain fields assigned at once. An absent `deleteTripId` is modelled as 0: both
 * are falsy, so the confirmation dialog treats them alike.
 */
module TripList {
  import opened Wrappers
  import opened DataStore
  import opened Navigation

  /** The editor's draft: `id > 0` edits that trip, any other id creates a new one. */
  datatype Draft = Draft(id: int, name: string)

  const InitialDraft := Draft(-1, "")

  datatype ListState = ListState(draft: Draft, editTripVisible: bool, deleteTripId: int)

  const InitialState := ListState(InitialDraft, false, 0)

  /** The delete confirmation is shown while `deleteTripId` is truthy, i.e. non-zero. */
  predicate ConfirmVisible(s: ListState)
  {
    s.deleteTripId != 0
  }

  /** Whether a finish went through the readiness gate or was put off for a later retry. */
  datatype Gate = Deferred | Passed

  /** A handler's new state, the store calls it made, and how the readiness gate decided. */
  datatype Effect = Effect(state: ListState, calls: seq<Call>, gate: Gate)

  /** The header's add button shows the editor over whatever draft is there. */
  function ShowEditor(s: ListState): (r: ListState)
    ensures r.editTripVisible
    ensures r.draft == s.draft && r.deleteTripId == s.deleteTripId
  {
    s.(editTripVisible := true)
  }

  /** A trip's edit button loads that trip into the draft and shows the editor. */
  function EditTrip(s: ListState, id: int, name: string): (r: ListState)
    ensures r.draft == Draft(id, name) && r.editTripVisible
    ensures r.deleteTripId == s.deleteTripId
  {
    s.(draft := Draft(id, name), editTripVisible := true)
  }

  /** Typing in the name field changes the draft's name and nothing else. */
  function ChangeName(s: ListState, name: string): (r: ListState)
    ensures r.draft.name == name && r.draft.id == s.draft.id
    ensures r.editTripVisible == s.editTripVisible && r.deleteTripId == s.deleteTripId
  {
    s.(draft := s.draft.(name := name))
  }

  /** The store write a finished dialog makes: one for a commit with a name, none otherwise. */
  function CommitCalls(d: Draft, done: bool): (calls: seq<Call>)
    ensures |calls| <= 1
    ensures calls != [] <==> done && d.name != []
    ensures forall c | c in calls ::
              (c.AddTrip? || c.UpdateTrip?) && c.name == d.name
              && (c.UpdateTrip? <==> d.id > 0) && (c.UpdateTrip? ==> c.tripId == d.id)
  {
    if done && |d.name| > 0 then
      if d.id > 0 then [UpdateTrip(d.id, d.name)] else [AddTrip(d.name)]
    else []
  }

  /**
   * Finishing the dialog once the store is ready: the write `CommitCalls` gives, then the
   * editor is hidden and the draft reset, whatever the validation decided.
   */
  function Finish(s: ListState, done: bool): (e: Effect)
    ensures e.gate == Passed && e.calls == CommitCalls(s.draft, done)
    ensures e.state == ListState(InitialDraft, false, s.deleteTripId)
  {
    Effect(ListState(InitialDraft, false, s.deleteTripId), CommitCalls(s.draft, done), Passed)
  }

  /**
   * `onFinishEditTrip(done)`: while the store is not ready the call is put off (the source
   * schedules the same call again) and nothing changes; once ready it is `Finish`.
   */
  function FinishEditTrip(s: ListState, done: bool, ready: bool): (e: Effect)
    ensures !ready ==> e == Effect(s, [], Deferred)
    ensures ready ==> e.gate == Passed && !e.state.editTripVisible && e.state.draft == InitialDraft
    ensures ready ==> e.calls == CommitCalls(s.draft, done)
    ensures ready ==> e == Finish(s, done)
  {
    if !ready then Effect(s, [], Deferred) else Finish(s, done)
  }

  /** A trip's delete button makes that trip the pending one, replacing any earlier one. */
  function RequestDelete(s: ListState, id: int): (r: ListState)
    ensures r.deleteTripId == id && (ConfirmVisible(r) <==> id != 0)
    ensures r.draft == s.draft && r.editTripVisible == s.editTripVisible
  {
    s.(deleteTripId := id)
  }

  /**
   * The confirmation's answer: the pending id is cleared either way, and the trip that was
   * pending is deleted exactly when the answer is yes.
   */
  function RespondDelete(s: ListState, okay: bool): (e: Effect)
    ensures e.state == s.(deleteTripId := 0) && !ConfirmVisible(e.state)
    ensures okay ==> e.calls == [DeleteTrip(s.deleteTripId)]
    ensures !okay ==> e.calls == []
    ensures e.gate == Passed
  {
    Effect(s.(deleteTripId := 0), if okay then [DeleteTrip(s.deleteTripId)] else [], Passed)
  }

  /** The tab a trip opens on: Members while it has no members, Expenses otherwise. */
  function TabForMembers(members: Option<seq<MemberRow>>): (t: Tab)
    ensures t == Members <==> members == None || members == Some([])
    ensures t != Summary
  {
    if members.None? || |members.value| <= 0 then Members else Expenses
  }

  /** The finish handler invoked again for every poll of readiness until one finds it ready. */
  function RetryFinish(s: ListState, done: bool, polls: seq<bool>): (e: Effect)
    ensures e.gate == Passed <==> true in polls
    ensures |e.calls| <= 1
    decreases |polls|
  {
    if polls == [] then Effect(s, [], Deferred)
    else
      assert polls == [polls[0]] + polls[1..];
      var e := FinishEditTrip(s, done, polls[0]);
      if e.gate == Deferred then RetryFinish(e.state, done, polls[1..]) else e
  }

  /**
   * However many polls find the store not ready, the retried finish makes the same single
   * write, and leaves the same state, as one finish on a ready store.
   */
  lemma {:induction false} RetryFinishActsOnce(s: ListState, done: bool, polls: seq<bool>)
    requires true in polls
    ensures RetryFinish(s, done, polls) == FinishEditTrip(s, done, true)
  {
    if !polls[0] {
      assert true in polls[1..] by {
        var i :| 0 <= i < |polls| && polls[i];
        assert polls[1..][i - 1] == polls[i];
      }
      RetryFinishActsOnce(s, done, polls[1..]);
    }
  }

  /** While no poll has found the store ready, nothing has happened yet. */
  lemma {:induction false} RetryFinishWaits(s: ListState, done: bool, polls: seq<bool>)
    requires true !in polls
    ensures RetryFinish(s, done, polls) == Effect(s, [], Deferred)
  {
    if polls != [] {
      assert polls[0] == false;
      assert true !in polls[1..] by {
        forall i | 0 <= i < |polls| - 1 ensures polls[1..][i] == false {
          assert polls[1..][i] == polls[i + 1];
        }
      }
      RetryFinishWaits(s, done, polls[1..]);
    }
  }

  /**
   * Two retries pending for one dialog (a tap on commit and one on cancel while the store was
   * not ready) write at most once: the second finds the draft already reset.
   */
  lemma SecondFinishWritesNothing(s: ListState, first: bool, second: bool)
    ensures FinishEditTrip(FinishEditTrip(s, first, true).state, second, true).calls == []
    ensures FinishEditTrip(FinishEditTrip(s, first, true).state, second, true).state
         == FinishEditTrip(s, first, true).state
  {
  }

  /** What the user and the store's timers can do to the screen. */
  datatype Event =
    | TapAdd
    | TapEdit(id: int, name: string)
    | TypeName(name: string)
    | TapFinish(done: bool, ready: bool)
    | TapDelete(id: int)
    | Respond(okay: bool)

  function Step(s: ListState, e: Event): Effect
  {
    match e
    case TapAdd => Effect(ShowEditor(s), [], Passed)
    case TapEdit(id, name) => Effect(EditTrip(s, id, name), [], Passed)
    case TypeName(name) => Effect(ChangeName(s, name), [], Passed)
    case TapFinish(done, ready) => FinishEditTrip(s, done, ready)
    case TapDelete(id) => Effect(RequestDelete(s, id), [], Passed)
    case Respond(okay) => RespondDelete(s, okay)
  }

  /**
   * What can happen in a state: the name field exists only while the editor is shown, and the
   * confirmation can be answered only while it is shown. A finish can come from a retry timer
   * at any time.
   */
  predicate Enabled(s: ListState, e: Event)
  {
    (e.TypeName? ==> s.editTripVisible) && (e.Respond? ==> ConfirmVisible(s))
  }

  /** The state after a sequence of events, and every store call they made, in order. */
  function Run(s: ListState, events: seq<Event>): (ListState, seq<Call>)
    decreases |events|
  {
    if events == [] then (s, [])
    else
      var e := Step(s, events[0]);
      var rest := Run(e.state, events[1..]);
      (rest.0, e.calls + rest.1)
  }

  predicate Admissible(s: ListState, events: seq<Event>)
    decreases |events|
  {
    events == [] || (Enabled(s, events[0]) && Admissible(Step(s, events[0]).state, events[1..]))
  }

  /** A hidden editor holds no draft: the draft is discarded whenever the dialog closes. */
  predicate ClosedEditorIsReset(s: ListState)
  {
    !s.editTripVisible ==> s.draft == InitialDraft
  }

  lemma {:induction false} RunKeepsClosedEditorReset(s: ListState, events: seq<Event>)
    requires ClosedEditorIsReset(s) && Admissible(s, events)
    ensures ClosedEditorIsReset(Run(s, events).0)
    decreases |events|
  {
    if events != [] {
      RunKeepsClosedEditorReset(Step(s, events[0]).state, events[1..]);
    }
  }

  /** The events that may write: a commit that finds the store ready, and a yes to a delete. */
  function WriteTriggers(events: seq<Event>): nat
    decreases |events|
  {
    if events == [] then 0
    else
      var e := events[0];
      (if (e.TapFinish? && e.done && e.ready) || (e.Respond? && e.okay) then 1 else 0)
      + WriteTriggers(events[1..])
  }

  /**
   * A run makes at most one store call per commit or confirmed delete; that a second finish of
   * the same dialog adds none is `SecondFinishWritesNothing`.
   */
  lemma {:induction false} RunWritesAtMostOncePerTrigger(s: ListState, events: seq<Event>)
    ensures |Run(s, events).1| <= WriteTriggers(events)
    decreases |events|
  {
    if events != [] {
      RunWritesAtMostOncePerTrigger(Step(s, events[0]).state, events[1..]);
    }
  }

  /** A delete is only ever issued for a pending trip, never for the "nothing pending" 0. */
  lemma {:induction false} RunDeletesOnlyPendingTrips(s: ListState, events: seq<Event>)
    requires Admissible(s, events)
    ensures forall c | c in Run(s, events).1 :: c.DeleteTrip? ==> c.tripId != 0
    decreases |events|
  {
    if events != [] {
      RunDeletesOnlyPendingTrips(Step(s, events[0]).state, events[1..]);
    }
  }

  /** The screen: its draft and dialog flags, the store it writes to, and where it navigated. */
  class TripListScreen {
    const store: Store
    var id: int
    var name: string
    var editTripVisible: bool
    var deleteTripId: int
    /** The routes passed to `navigate('Trip', ...)`, oldest first. */
    var navigations: seq<Route>

    function State(): ListState
      reads this
    {
      ListState(Draft(id, name), editTripVisible, deleteTripId)
    }

    constructor (store: Store)
      ensures this.store == store && State() == InitialState && navigations == []
    {
      this.store := store;
      id, name := -1, "";
      editTripVisible := false;
      deleteTripId := 0;
      navigations := [];
    }

    method OnAddTrip()
      modifies this
      ensures State() == ShowEditor(old(State())) && navigations == old(navigations)
    {
      editTripVisible := true;
    }

    method OnEditTrip(tripId: int, tripName: string)
      modifies this
      ensures State() == EditTrip(old(State()), tripId, tripName) && navigations == old(navigations)
    {
      id, name := tripId, tripName;
      editTripVisible := true;
    }

    method OnChangeName(tripName: string)
      modifies this
      ensures State() == ChangeName(old(State()), tripName) && navigations == old(navigations)
    {
      name := tripName;
    }

    method OnFinishEditTrip(done: bool) returns (gate: Gate)
      modifies this, store
      ensures var e := FinishEditTrip(old(State()), done, old(store.ready));
              State() == e.state && store.log == old(store.log) + e.calls && gate == e.gate
      ensures store.ready == old(store.ready) && navigations == old(navigations)
    {
      var ready := store.IsReady();
      if !ready {
        return Deferred;
      }
      if done && |name| > 0 {
        if id > 0 {
          store.UpdateTrip(id, name);
        } else {
          store.AddTrip(name);
        }
      }
      editTripVisible := false;
      id, name := -1, "";
      gate := Passed;
    }

    method OnDeleteTrip(tripId: int)
      modifies this
      ensures State() == RequestDelete(old(State()), tripId) && navigations == old(navigations)
    {
      deleteTripId := tripId;
    }

    method OnRespondDelete(okay: bool)
      modifies this, store
      ensures var e := RespondDelete(old(State()), okay);
              State() == e.state && store.log == old(store.log) + e.calls
      ensures store.ready == old(store.ready) && navigations == old(navigations)
    {
      var pending := deleteTripId;
      deleteTripId := 0;
      if okay {
        store.DeleteTrip(pending);
      }
    }

    method OnClickTrip(tripId: int, title: string)
      modifies this
      ensures navigations == old(navigations) + [Route(title, tripId, TabForMembers(store.MembersOf(tripId)))]
      ensures State() == old(State())
    {
      var members := store.GetMembers(tripId);
      var activeTab := if members.None? || |members.value| <= 0 then Members else Expenses;
      navigations := navigations + [Route(title, tripId, activeTab)];
    }
  }
}
