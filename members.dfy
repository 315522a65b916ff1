/**
 * The member list of a trip (member.js, `MembersView`): an editor over a draft
 * `(memberId, name, ratio)` and a delete sheet driven by `deleteMemberId`. The editor's
 * visibility belongs to the content screen (`editorVisible`, set through `showEditor`) and is
 * modelled here as a field of the view.
 *
 * The ratio is a number while it comes from the store or the initial state, and text once the
 * user has typed in its field; the commit reads either with `parseInt`.
 */
module Members {
  import opened DataStore
  import opened Numbers

  datatype Ratio = Count(n: int) | Typed(text: string)

  /**
   * `parseInt(ratio)`: a number is first turned into its decimal text, which reads back as the
   * same number; typed text is parsed as it stands.
   */
  function ParseRatio(r: Ratio): (p: ParsedInt)
    ensures r.Count? ==> p == Int(r.n)
  {
    match r
    case Count(n) => ParseIntOfNumberToString(n); ParseInt(NumberToString(n))
    case Typed(text) => ParseInt(text)
  }

  /** The ratio check of the commit: `!isNaN(ratio) && ratio > 0` on what `parseInt` gave. */
  predicate Accepted(p: ParsedInt)
  {
    p.Int? && p.value > 0
  }

  /** The draft: `memberId > 0` edits that member, any other id adds a new one. */
  datatype MemberDraft = MemberDraft(memberId: int, name: string, ratio: Ratio)

  const InitialDraft := MemberDraft(-1, "", Count(1))

  datatype ViewState = ViewState(draft: MemberDraft, deleteMemberId: int, editorVisible: bool)

  /** `getInitialState()`, with the editor hidden as the content screen starts it. */
  const InitialState := ViewState(InitialDraft, 0, false)

  /** The delete sheet is shown while `deleteMemberId > 0`. */
  predicate SheetVisible(s: ViewState)
  {
    s.deleteMemberId > 0
  }

  /** `resetState()`: the draft and the pending delete go back to the initial state. */
  function ResetState(s: ViewState): (r: ViewState)
    ensures r.draft == InitialDraft && r.deleteMemberId == 0 && !SheetVisible(r)
    ensures r.editorVisible == s.editorVisible
  {
    s.(draft := InitialDraft, deleteMemberId := 0)
  }

  /** The content screen's add-member button shows the editor over the current draft. */
  function ShowEditor(s: ViewState): (r: ViewState)
    ensures r.editorVisible && r.draft == s.draft && r.deleteMemberId == s.deleteMemberId
  {
    s.(editorVisible := true)
  }

  /** A tap on a member loads it into the draft, drops any pending delete and shows the editor. */
  function ClickMember(s: ViewState, id: int, name: string, ratio: int): (r: ViewState)
    ensures r.draft == MemberDraft(id, name, Count(ratio))
    ensures r.deleteMemberId == 0 && r.editorVisible
  {
    ViewState(MemberDraft(id, name, Count(ratio)), 0, true)
  }

  function ChangeName(s: ViewState, name: string): (r: ViewState)
    ensures r.draft == s.draft.(name := name)
    ensures r.deleteMemberId == s.deleteMemberId && r.editorVisible == s.editorVisible
  {
    s.(draft := s.draft.(name := name))
  }

  function ChangeRatio(s: ViewState, text: string): (r: ViewState)
    ensures r.draft == s.draft.(ratio := Typed(text))
    ensures r.deleteMemberId == s.deleteMemberId && r.editorVisible == s.editorVisible
  {
    s.(draft := s.draft.(ratio := Typed(text)))
  }

  /**
   * The store write a commit makes, given the ratio as `parseInt` read it: one when the name is
   * non-empty and the ratio accepted, an update for a positive id and an add otherwise.
   */
  function CommitCalls(tripId: int, memberId: int, name: string, ratio: ParsedInt): (calls: seq<Call>)
    ensures |calls| <= 1
    ensures calls != [] <==> name != [] && Accepted(ratio)
    ensures forall c | c in calls ::
              (c.AddMember? || c.UpdateMember?) && c.tripId == tripId && c.name == name
              && ratio == Int(c.ratio) && c.ratio > 0
              && (c.UpdateMember? <==> memberId > 0) && (c.UpdateMember? ==> c.memberId == memberId)
  {
    if |name| > 0 && ratio.Int? && ratio.value > 0 then
      if memberId > 0 then [UpdateMember(tripId, memberId, name, ratio.value)]
      else [AddMember(tripId, name, ratio.value)]
    else []
  }

  /**
   * `onFinishEditMember`: the write `CommitCalls` gives; then, accepted or not, the state is
   * reset and the editor hidden.
   */
  function FinishEditMember(s: ViewState, tripId: int): (e: (ViewState, seq<Call>))
    ensures e.0 == ViewState(InitialDraft, 0, false)
    ensures e.1 == CommitCalls(tripId, s.draft.memberId, s.draft.name, ParseRatio(s.draft.ratio))
  {
    (ViewState(InitialDraft, 0, false), CommitCalls(tripId, s.draft.memberId, s.draft.name, ParseRatio(s.draft.ratio)))
  }

  /** `onCancelEditMember`: no store call; the state is reset and the editor hidden. */
  function CancelEditMember(s: ViewState): (r: ViewState)
    ensures r == ViewState(InitialDraft, 0, false)
  {
    ResetState(s).(editorVisible := false)
  }

  /** `onDeleteMember(id)`: only the pending delete changes. */
  function RequestDelete(s: ViewState, id: int): (r: ViewState)
    ensures r.deleteMemberId == id && (SheetVisible(r) <==> id > 0)
    ensures r.draft == s.draft && r.editorVisible == s.editorVisible
  {
    s.(deleteMemberId := id)
  }

  /** `onConfirmDeleteMember`: exactly one delete, of the pending member, then a reset. */
  function ConfirmDeleteMember(s: ViewState, tripId: int): (e: (ViewState, seq<Call>))
    ensures e.0 == ResetState(s)
    ensures e.1 == [DeleteMember(tripId, s.deleteMemberId)]
  {
    (ResetState(s), [DeleteMember(tripId, s.deleteMemberId)])
  }

  /** `onCancelDeleteMember`: a reset and no store call. */
  function CancelDeleteMember(s: ViewState): (r: ViewState)
    ensures r == ResetState(s)
  {
    ResetState(s)
  }

  /**
   * A member committed without touching its ratio field keeps the ratio it had: the number
   * goes through `toString` and `parseInt` and comes back unchanged.
   */
  lemma UnchangedRatioIsKept(s: ViewState, tripId: int, row: MemberRow)
    requires row.id > 0 && row.name != [] && row.ratio > 0
    ensures FinishEditMember(ClickMember(s, row.id, row.name, row.ratio), tripId).1
         == [UpdateMember(tripId, row.id, row.name, row.ratio)]
  {
  }

  /** A new member whose ratio field is left alone is added with ratio 1. */
  lemma DefaultRatioIsOne(s: ViewState, tripId: int, name: string)
    requires s.draft == InitialDraft && name != []
    ensures FinishEditMember(ChangeName(s, name), tripId).1 == [AddMember(tripId, name, 1)]
  {
  }

  /** A commit after typing `text` in the ratio field writes what `parseInt(text)` allows. */
  lemma CommitTypedRatio(s: ViewState, tripId: int, text: string)
    ensures FinishEditMember(ChangeRatio(s, text), tripId).1
         == CommitCalls(tripId, s.draft.memberId, s.draft.name, ParseInt(text))
  {
    var d := ChangeRatio(s, text).draft;
    assert d.ratio == Typed(text);
  }

  /**
   * A typed ratio commits the signed value of its leading digits: white space, a sign, a run
   * of digits and anything that does not continue the run (`" 2 people"` commits 2, `"-3"`
   * is read as -3 and so rejected). Whether it is an add or an update, and whether it is
   * written at all, is then as `CommitCalls` says for that value.
   */
  lemma TypedRatioCommitsLeadingDigits(s: ViewState, tripId: int, ws: string, sign: string, digits: string, rest: string)
    requires AllWhiteSpace(ws) && IsSign(sign) && digits != [] && AllDigits(digits, 10)
    requires rest == [] || !IsDigit(rest[0], 10)
    requires !(digits == "0" && rest != [] && (rest[0] == 'x' || rest[0] == 'X'))
    ensures FinishEditMember(ChangeRatio(s, ws + sign + digits + rest), tripId).1
         == CommitCalls(tripId, s.draft.memberId, s.draft.name,
                        Int(if sign == "-" then -(DigitsValue(digits, 10) as int) else DigitsValue(digits, 10)))
  {
    ParseIntReadsLeadingDigits(ws, sign, digits, rest);
    CommitTypedRatio(s, tripId, ws + sign + digits + rest);
  }

  /**
   * A typed ratio with no digit where the number must start (`""`, `"abc"`, `"-"`, `"+x"`) is
   * rejected: no store call, but the state is still reset and the editor closed.
   */
  lemma TypedRatioWithoutDigitsIsRejected(s: ViewState, tripId: int, ws: string, sign: string, rest: string)
    requires AllWhiteSpace(ws) && IsSign(sign)
    requires rest == [] || !IsDigit(rest[0], 10)
    requires sign == [] && rest != [] ==> !IsWhiteSpace(rest[0]) && rest[0] != '+' && rest[0] != '-'
    ensures var e := FinishEditMember(ChangeRatio(s, ws + sign + rest), tripId);
            e.1 == [] && e.0 == ViewState(InitialDraft, 0, false)
  {
    ParseIntWithoutDigitsIsNaN(ws, sign, rest);
    CommitTypedRatio(s, tripId, ws + sign + rest);
  }

  datatype Event =
    | TapAddMember
    | TapMember(id: int, name: string, ratio: int)
    | TypeName(name: string)
    | TypeRatio(text: string)
    | TapConfirmEdit
    | TapCancelEdit
    | TapDeleteMember(id: int)
    | TapConfirmDelete
    | TapCancelDelete

  function Step(s: ViewState, tripId: int, e: Event): (ViewState, seq<Call>)
  {
    match e
    case TapAddMember => (ShowEditor(s), [])
    case TapMember(id, name, ratio) => (ClickMember(s, id, name, ratio), [])
    case TypeName(name) => (ChangeName(s, name), [])
    case TypeRatio(text) => (ChangeRatio(s, text), [])
    case TapConfirmEdit => FinishEditMember(s, tripId)
    case TapCancelEdit => (CancelEditMember(s), [])
    case TapDeleteMember(id) => (RequestDelete(s, id), [])
    case TapConfirmDelete => ConfirmDeleteMember(s, tripId)
    case TapCancelDelete => (CancelDeleteMember(s), [])
  }

  /** The editor's fields and buttons exist only while it is shown, the sheet's likewise. */
  predicate Enabled(s: ViewState, e: Event)
  {
    && (e.TypeName? || e.TypeRatio? || e.TapConfirmEdit? || e.TapCancelEdit? ==> s.editorVisible)
    && (e.TapConfirmDelete? || e.TapCancelDelete? ==> SheetVisible(s))
  }

  function Run(s: ViewState, tripId: int, events: seq<Event>): (ViewState, seq<Call>)
    decreases |events|
  {
    if events == [] then (s, [])
    else
      var e := Step(s, tripId, events[0]);
      var rest := Run(e.0, tripId, events[1..]);
      (rest.0, e.1 + rest.1)
  }

  predicate Admissible(s: ViewState, tripId: int, events: seq<Event>)
    decreases |events|
  {
    events == [] || (Enabled(s, events[0]) && Admissible(Step(s, tripId, events[0]).0, tripId, events[1..]))
  }

  /** A hidden editor holds no draft. */
  predicate ClosedEditorIsReset(s: ViewState)
  {
    !s.editorVisible ==> s.draft == InitialDraft
  }

  lemma {:induction false} RunKeepsClosedEditorReset(s: ViewState, tripId: int, events: seq<Event>)
    requires ClosedEditorIsReset(s) && Admissible(s, tripId, events)
    ensures ClosedEditorIsReset(Run(s, tripId, events).0)
    decreases |events|
  {
    if events != [] {
      RunKeepsClosedEditorReset(Step(s, tripId, events[0]).0, tripId, events[1..]);
    }
  }

  /** The events that may write: a commit of the editor and a confirmed delete. */
  function WriteTriggers(events: seq<Event>): nat
    decreases |events|
  {
    if events == [] then 0
    else (if events[0].TapConfirmEdit? || events[0].TapConfirmDelete? then 1 else 0) + WriteTriggers(events[1..])
  }

  /** A run makes at most one store call per commit or confirmed delete. */
  lemma {:induction false} RunWritesAtMostOncePerTrigger(s: ViewState, tripId: int, events: seq<Event>)
    ensures |Run(s, tripId, events).1| <= WriteTriggers(events)
    decreases |events|
  {
    if events != [] {
      RunWritesAtMostOncePerTrigger(Step(s, tripId, events[0]).0, tripId, events[1..]);
    }
  }

  /** A member call of this trip; a delete names a member the sheet was shown for. */
  predicate CallOfTrip(c: Call, tripId: int)
  {
    (c.AddMember? || c.UpdateMember? || c.DeleteMember?) && c.tripId == tripId
    && (c.DeleteMember? ==> c.memberId > 0)
  }

  lemma CommitCallsOfTrip(tripId: int, memberId: int, name: string, ratio: ParsedInt)
    ensures forall c | c in CommitCalls(tripId, memberId, name, ratio) :: CallOfTrip(c, tripId)
  {
  }

  lemma StepCallsStayInTrip(s: ViewState, tripId: int, e: Event)
    requires Enabled(s, e)
    ensures forall c | c in Step(s, tripId, e).1 :: CallOfTrip(c, tripId)
  {
    if e.TapConfirmEdit? {
      var p := ParseRatio(s.draft.ratio);
      CommitCallsOfTrip(tripId, s.draft.memberId, s.draft.name, p);
    }
  }

  /** Every store call of a run concerns this trip, and every delete a member that was pending. */
  lemma {:induction false} RunCallsStayInTrip(s: ViewState, tripId: int, events: seq<Event>)
    requires Admissible(s, tripId, events)
    ensures forall c | c in Run(s, tripId, events).1 :: CallOfTrip(c, tripId)
    decreases |events|
  {
    if events != [] {
      StepCallsStayInTrip(s, tripId, events[0]);
      RunCallsStayInTrip(Step(s, tripId, events[0]).0, tripId, events[1..]);
    }
  }

  class MembersView {
    const tripId: int
    const store: Store
    var memberId: int
    var name: string
    var ratio: Ratio
    var deleteMemberId: int
    /** The content screen's `editorVisible`, which `showEditor` sets. */
    var editorVisible: bool

    function State(): ViewState
      reads this
    {
      ViewState(MemberDraft(memberId, name, ratio), deleteMemberId, editorVisible)
    }

    constructor (tripId: int, store: Store)
      ensures this.tripId == tripId && this.store == store && State() == InitialState
    {
      this.tripId, this.store := tripId, store;
      memberId, name, ratio, deleteMemberId := -1, "", Count(1), 0;
      editorVisible := false;
    }

    method Reset()
      modifies this
      ensures State() == ResetState(old(State()))
    {
      memberId, name, ratio, deleteMemberId := -1, "", Count(1), 0;
    }

    /** `showEditor(visible)`. */
    method ShowEditor(visible: bool)
      modifies this
      ensures State() == old(State()).(editorVisible := visible)
    {
      editorVisible := visible;
    }

    method OnClickMember(id: int, memberName: string, memberRatio: int)
      modifies this
      ensures State() == ClickMember(old(State()), id, memberName, memberRatio)
    {
      memberId, name, ratio, deleteMemberId := id, memberName, Count(memberRatio), 0;
      ShowEditor(true);
    }

    method OnChangeName(text: string)
      modifies this
      ensures State() == ChangeName(old(State()), text)
    {
      name := text;
    }

    method OnChangeRatio(text: string)
      modifies this
      ensures State() == ChangeRatio(old(State()), text)
    {
      ratio := Typed(text);
    }

    method OnFinishEditMember()
      modifies this, store
      ensures var e := FinishEditMember(old(State()), tripId);
              State() == e.0 && store.log == old(store.log) + e.1
      ensures store.ready == old(store.ready)
    {
      var text := if ratio.Count? then NumberToString(ratio.n) else ratio.text;
      var parsed := ParseInt(text);
      assert parsed == ParseRatio(ratio);
      if |name| > 0 && parsed.Int? && parsed.value > 0 {
        if memberId > 0 {
          store.UpdateMember(tripId, memberId, name, parsed.value);
        } else {
          store.AddMember(tripId, name, parsed.value);
        }
      }
      Reset();
      ShowEditor(false);
    }

    method OnCancelEditMember()
      modifies this
      ensures State() == CancelEditMember(old(State()))
    {
      Reset();
      ShowEditor(false);
    }

    method OnDeleteMember(id: int)
      modifies this
      ensures State() == RequestDelete(old(State()), id)
    {
      deleteMemberId := id;
    }

    method OnConfirmDeleteMember()
      modifies this, store
      ensures var e := ConfirmDeleteMember(old(State()), tripId);
              State() == e.0 && store.log == old(store.log) + e.1
      ensures store.ready == old(store.ready)
    {
      store.DeleteMember(tripId, deleteMemberId);
      Reset();
    }

    method OnCancelDeleteMember()
      modifies this
      ensures State() == CancelDeleteMember(old(State()))
    {
      Reset();
    }
  }
}
