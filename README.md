# Go-Go-Dutch trip and member screens, modelled in Dafny

Go-Go-Dutch is a React Native app in which a group tracks the members and expenses of a shared
trip. This project models the screen handlers that drive its dialogs and tabs:

- **the trip list** of `src/trip.js` (`TripListScreen`). It holds an editor dialog over a draft
  `(id, name)`, a delete confirmation driven by one pending `deleteTripId`, and the routing of a
  tapped trip to its content screen. It also holds the readiness gate: a finish of the editor
  that finds the store not ready schedules itself again and does nothing else;
- **the tab coordinator** of `src/trip.js` (`TripContentScreen`). It keeps the `activeTab`
  navigation parameter and the swiper's page together. A tab-bar tap scrolls the swiper and
  records the tab. A swipe only records the tab;
- **the earlier screens** of `trip.js`. They have the same editor, delete and routing logic but
  no readiness gate, and a content screen that renders one view chosen by `activeTab`;
- **the member list** of `member.js` (`MembersView`). It holds an editor over a draft
  `(memberId, name, ratio)` whose ratio is checked with `parseInt`, and a delete sheet driven by
  `deleteMemberId`.

Each screen is a `class` whose fields are the React state and the navigation parameters it
writes. Each of its handlers is a `method` proved against a pure function on a state
datatype. The store is an abstract object (`DataStore.Store`). It has a readiness flag, the
member lists `getMembers` answers with, and a ghost log of every mutating call. Each handler's
contract therefore states exactly which store calls it makes. Sequences of user events are
modelled by `Run` functions, and lemmas by induction over them state what holds after any
sequence:

- a closed editor never holds a draft;
- a run makes at most one store write per commit or confirmed delete;
- deletes only name a pending entity;
- the tab and the swiper's page stay together.

`parseInt` (section 19.2.5 of ECMA-262) and the decimal `Number::toString` of an integer are
modelled in `Numbers`, for the ratio check of the member editor. This covers:

- leading white space;
- an optional sign;
- the `0x` prefix that selects radix 16;
- the longest run of digits;
- `NaN` when there are no digits.

Points where the code behaves differently from what one might expect of such screens:

- **A rejected commit closes the dialog.** A commit that fails validation does not keep the
  dialog open with its values. The handlers reset the draft and hide the editor whatever
  validation decided (`src/trip.js:158-159`, `member.js:110-111`).
- **Only the trip editor is gated.** Only the trip editor's finish in `src/trip.js` waits for
  the store to be ready. Trip deletes, member writes and all of `trip.js` write at once.
- **The two delete dialogs use different tests.** The trip delete confirmation is shown for
  any non-zero `deleteTripId` (`!!deleteTripId`). The member delete sheet is shown only for
  `deleteMemberId > 0`.
- **The ratio is not checked as a whole integer.** The code accepts any text that `parseInt`
  reads as a positive number. For example, `"2 people"` commits 2, `"1.9"` commits 1 and
  `"0x10"` commits 16.
- **The ratio may not be text.** The draft's ratio is a number until the field is typed in.
  It is a number from the store or the initial 1, which `parseInt` first turns into text.

## Model

| member | source | states |
|---|---|---|
| DataStore.Store.IsReady | src/trip.js:142 | answers the store's readiness flag |
| DataStore.Store.GetMembers | src/trip.js:175 | answers the trip's member list, or nothing (`undefined`) for a trip without one |
| DataStore.Store.AddTrip | src/trip.js:154 | records exactly one `addTrip(name)` call; readiness unchanged |
| DataStore.Store.UpdateTrip | src/trip.js:152 | records exactly one `updateTrip(id, name)` call; readiness unchanged |
| DataStore.Store.DeleteTrip | src/trip.js:170 | records exactly one `deleteTrip(id)` call; readiness unchanged |
| DataStore.Store.AddMember | member.js:107 | records exactly one `addMember(tripId, name, ratio)` call; readiness unchanged |
| DataStore.Store.UpdateMember | member.js:105 | records exactly one `updateMember(tripId, memberId, name, ratio)` call; readiness unchanged |
| DataStore.Store.DeleteMember | member.js:127 | records exactly one `deleteMember(tripId, memberId)` call; readiness unchanged |
| Navigation.TabIndex | src/trip.js:186-190 | the tab values are 0, 1, 2: Members is 0 and only Members, Expenses is 1 and only Expenses |
| Numbers.ParseInt | member.js:102 | a number is found only where the text, after its leading white space, starts with a decimal digit, possibly after one sign |
| Numbers.NumberToString | member.js:42 | the text of `n` is non-empty, starts with `-` iff `n < 0`, and the rest is decimal digits with no leading zero unless `n` is 0 |
| Numbers.TrimStartDropsWhiteSpace | member.js:102 | `parseInt`'s trimming removes exactly a prefix of white space, leaving a suffix that starts with something else |
| Numbers.DigitRunIsLongest | member.js:102 | the digit run `parseInt` reads is all digits and is followed by a non-digit or the end |
| Numbers.DecimalDigits | member.js:42 | the decimal text of a number is non-empty, all digits, and has no leading zero |
| Numbers.DecimalDigitsValue | member.js:42 | reading the decimal text of `n` back gives `n` |
| Numbers.ParseIntReadsLeadingDigits | member.js:102 | white space, a sign and a run of decimal digits followed by anything that is not a digit parse to the signed value of the run, unless the text is `0x...` |
| Numbers.ParseIntWithoutDigitsIsNaN | member.js:102 | white space and at most one sign followed by no digit parse to `NaN` (`""`, `"abc"`, `"-"`, `"+x"`, `"- 1"`, `"--1"`) |
| Numbers.ParseIntReadsHexDigits | member.js:102 | `0x`/`0X` followed by hexadecimal digits parses them in radix 16, stopping at the first non-digit |
| Numbers.ParseIntOfNumberToString | member.js:102 | `parseInt` reads back every integer `toString` writes |
| TripList.ShowEditor | src/trip.js:40 | the add button shows the editor and changes neither the draft nor the pending delete |
| TripList.EditTrip | src/trip.js:136-139 | the draft becomes `(id, name)` and the editor is shown; the pending delete is kept |
| TripList.ChangeName | src/trip.js:75 | only the draft's name changes |
| TripList.CommitCalls | src/trip.js:150-156 | at most one write; a write iff committed with a non-empty name; `updateTrip(id, name)` iff `id > 0`, else `addTrip(name)` |
| TripList.Finish | src/trip.js:150-159 | a finish on a ready store writes `CommitCalls`, then hides the editor and resets the draft to the initial `(-1, '')` whatever the validation decided |
| TripList.FinishEditTrip | src/trip.js:141-160 | on a store that is not ready the finish is put off with no call and no change; on a ready one it is exactly `Finish`: the commit's calls, the editor hidden, the draft reset and the pending delete kept |
| TripList.RequestDelete | src/trip.js:162-164 | the pending id becomes the tapped trip, replacing any earlier one; the confirmation shows iff it is non-zero |
| TripList.RespondDelete | src/trip.js:166-172 | the pending id is cleared either way; exactly one delete of the previously pending trip iff the answer is yes, no call otherwise |
| TripList.TabForMembers | src/trip.js:174-181 | the route opens on Members iff the trip's member list is missing or empty, on Expenses otherwise, never on Summary |
| TripList.RetryFinish | src/trip.js:141-148 | the retried finish gets past the readiness gate iff some poll finds the store ready, and makes at most one call |
| TripList.RetryFinishActsOnce | src/trip.js:141-148 | however many polls find the store not ready, the retried finish ends as one finish on a ready store |
| TripList.RetryFinishWaits | src/trip.js:141-148 | while no poll has found the store ready, there is no call and no change |
| TripList.SecondFinishWritesNothing | src/trip.js:150-159 | a second finish after a first one writes nothing and changes nothing |
| TripList.RunKeepsClosedEditorReset | src/trip.js:136-172 | after any admissible run of user events, a hidden editor holds the initial draft |
| TripList.RunWritesAtMostOncePerTrigger | src/trip.js:141-172 | a run makes no more store calls than it has ready commits and confirmed deletes |
| TripList.RunDeletesOnlyPendingTrips | src/trip.js:162-172 | every delete of an admissible run names a pending (non-zero) trip id |
| TripList.TripListScreen.constructor | src/trip.js:51 | the screen starts with the draft `(-1, '')`, the editor hidden and nothing pending |
| TripList.TripListScreen.OnAddTrip | src/trip.js:40 | the new state is `ShowEditor` of the old one |
| TripList.TripListScreen.OnEditTrip | src/trip.js:136-139 | the new state is `EditTrip` of the old one |
| TripList.TripListScreen.OnChangeName | src/trip.js:75 | the new state is `ChangeName` of the old one |
| TripList.TripListScreen.OnFinishEditTrip | src/trip.js:141-160 | the new state, the calls appended to the store's log, and the gate's outcome are those of `FinishEditTrip` at the store's readiness |
| TripList.TripListScreen.OnDeleteTrip | src/trip.js:162-164 | the new state is `RequestDelete` of the old one |
| TripList.TripListScreen.OnRespondDelete | src/trip.js:166-172 | the new state and the calls appended to the store's log are those of `RespondDelete` |
| TripList.TripListScreen.OnClickTrip | src/trip.js:174-181 | one route is appended, carrying the title and trip id unchanged and the tab `TabForMembers` of the trip's members; the state is unchanged |
| TripContent.Opened | src/trip.js:277 | the content screen opens with the swiper on the route's tab, and nothing is written or scrolled yet |
| TripContent.TabChange | src/trip.js:342-349 | a tap on the active tab changes nothing; a tap on another tab sends exactly one scroll to it and writes it once |
| TripContent.WillUpdateIndex | src/trip.js:356-358 | a swiper report writes the tab once and sends no scroll |
| TripContent.RunTabsStaysInSync | src/trip.js:342-358 | taps and swipes in any order keep the recorded tab equal to the swiper's page |
| TripContent.RunTabsFollowsLastInput | src/trip.js:342-358 | the last input, tap or swipe, decides the tab |
| TripContent.RunTabsBoundsUpdates | src/trip.js:342-358 | each input writes the tab at most once and only taps scroll; both logs only grow |
| TripContent.SwipeThenTapSameTab | src/trip.js:342-358 | a tap on the tab just swiped to sends no scroll and writes nothing |
| TripContent.EchoedScrollIsHarmless | src/trip.js:342-358 | a swiper report of the page a tap scrolled to changes neither the tab nor the scrolls |
| TripContent.Swiper.constructor | src/trip.js:277 | the swiper starts on the given page with no scroll command |
| TripContent.Swiper.ScrollTo | src/trip.js:346 | the swiper moves to the page, and the command is logged |
| TripContent.Swiper.Settle | src/trip.js:282 | a gesture moves the swiper to a page without a command |
| TripContent.TripContentScreen.constructor | src/trip.js:277 | the screen's state is `Opened` of its route |
| TripContent.TripContentScreen.OnTabChange | src/trip.js:342-349 | the new state, swiper included, is `TabChange` of the old one |
| TripContent.TripContentScreen.OnSwiperWillUpdateIndex | src/trip.js:356-358 | the new state is `WillUpdateIndex` of the old one |
| TripContent.TripContentScreen.OnSwipe | src/trip.js:273-282 | a swipe settles the swiper and reports the page: the new state is `Swipe` of the old one, in sync, with no scroll command sent |
| EarlyTrip.TabBarSelect | trip.js:198-206 | the tab bar selects Members iff index 0, Expenses iff index 1, Summary otherwise |
| EarlyTrip.MainView | trip.js:245-271 | exactly one view is rendered, that of the tab the tab bar selects for the same index |
| EarlyTrip.MainViewShowsTab | trip.js:239-271 | each tab's own value renders that tab's view |
| EarlyTrip.TripListScreen.constructor | trip.js:40 | the screen starts with the draft `(-1, '')`, the editor hidden and nothing pending |
| EarlyTrip.TripListScreen.OnAddTrip | trip.js:32 | the new state is `ShowEditor` of the old one |
| EarlyTrip.TripListScreen.OnEditTrip | trip.js:89-92 | the new state is `EditTrip` of the old one |
| EarlyTrip.TripListScreen.OnChangeName | trip.js:57 | the new state is `ChangeName` of the old one |
| EarlyTrip.TripListScreen.OnFinishEditTrip | trip.js:94-105 | whatever the store's readiness, the new state and calls are those of `Finish` |
| EarlyTrip.TripListScreen.OnDeleteTrip | trip.js:107-109 | the new state is `RequestDelete` of the old one |
| EarlyTrip.TripListScreen.OnRespondDelete | trip.js:111-117 | the new state and calls are those of `RespondDelete` |
| EarlyTrip.TripListScreen.OnClickTrip | trip.js:119-125 | one route is appended with the tab `TabForMembers` of the trip's members |
| EarlyTrip.TripContentScreen.constructor | trip.js:189 | the screen starts on the route's tab with nothing written |
| EarlyTrip.TripContentScreen.OnTabChange | trip.js:198-206 | every tap writes the selected tab once, even the active one, and the view rendered is that tab's |
| Members.ResetState | member.js:83-88 | the draft becomes `(-1, '', 1)` and the pending delete 0 |
| Members.ShowEditor | src/trip.js:197-204 | the add-member button shows the editor over the current draft |
| Members.ClickMember | member.js:90-97 | the draft becomes the tapped member, the pending delete is cleared and the editor shown |
| Members.ChangeName | member.js:37 | only the draft's name changes |
| Members.ChangeRatio | member.js:43 | only the draft's ratio changes, to the typed text |
| Members.CommitCalls | member.js:99-109 | at most one write; a write iff the name is non-empty and `parseInt` gave a positive number; the value sent is the parsed number; `updateMember` iff `memberId > 0`, else `addMember` |
| Members.FinishEditMember | member.js:99-112 | the write `CommitCalls` gives for the parsed ratio, then, accepted or rejected, the state is reset and the editor hidden |
| Members.CancelEditMember | member.js:114-117 | the state is reset and the editor hidden |
| Members.RequestDelete | member.js:119-124 | only the pending delete changes; the sheet shows iff it is positive |
| Members.ConfirmDeleteMember | member.js:126-129 | exactly one delete, of the pending member, then a reset |
| Members.CancelDeleteMember | member.js:131-133 | a reset and no store call |
| Members.ParseRatio | member.js:102 | a ratio still holding the member's number `n` parses back to `n` |
| Members.UnchangedRatioIsKept | member.js:90-107 | a member opened and committed without touching the ratio is updated with its own ratio |
| Members.DefaultRatioIsOne | member.js:83-85 | a new member whose ratio field is left alone is added with ratio 1 |
| Members.TypedRatioCommitsLeadingDigits | member.js:102-107 | for any draft, add or update, a typed ratio of white space, a sign, a digit run and a non-digit tail commits as `CommitCalls` for the signed value of the run (`" 2 people"` commits 2, `"-3"` is read as -3 and rejected) |
| Members.TypedRatioWithoutDigitsIsRejected | member.js:102-111 | a typed ratio with no digit where the number must start (`""`, `"abc"`, `"-"`, `"+x"`), signed or not, makes no call, but the state is still reset and the editor hidden |
| Members.RunKeepsClosedEditorReset | member.js:86-133 | after any admissible run of user events, a hidden editor holds the initial draft |
| Members.RunWritesAtMostOncePerTrigger | member.js:99-129 | a run makes no more store calls than it has commits and confirmed deletes |
| Members.RunCallsStayInTrip | member.js:99-129 | every call of an admissible run is a member call of this trip, and every delete names a positive member id |
| Members.MembersView.constructor | member.js:21-24 | the view starts in the initial state |
| Members.MembersView.Reset | member.js:86-88 | the new state is `ResetState` of the old one |
| Members.MembersView.ShowEditor | src/trip.js:262-264 | only the editor's visibility changes |
| Members.MembersView.OnClickMember | member.js:90-97 | the new state is `ClickMember` of the old one |
| Members.MembersView.OnChangeName | member.js:37 | the new state is `ChangeName` of the old one |
| Members.MembersView.OnChangeRatio | member.js:43 | the new state is `ChangeRatio` of the old one |
| Members.MembersView.OnFinishEditMember | member.js:99-112 | the new state and the calls appended to the store's log are those of `FinishEditMember` |
| Members.MembersView.OnCancelEditMember | member.js:114-117 | the new state is `CancelEditMember` of the old one |
| Members.MembersView.OnDeleteMember | member.js:119-124 | the new state is `RequestDelete` of the old one |
| Members.MembersView.OnConfirmDeleteMember | member.js:126-129 | the new state and the calls appended to the store's log are those of `ConfirmDeleteMember` |
| Members.MembersView.OnCancelDeleteMember | member.js:131-133 | the new state is `CancelDeleteMember` of the old one |

## Left out

- DataStore.Store.AddTrip: states only the call it records, not what the call does to the stored trips, because the store's bookkeeping is not part of this model.
- DataStore.Store.UpdateTrip: states only the call it records, for the same reason.
- DataStore.Store.DeleteTrip: states only the call it records, for the same reason.
- DataStore.Store.AddMember: states only the call it records, for the same reason.
- DataStore.Store.UpdateMember: states only the call it records, for the same reason.
- DataStore.Store.DeleteMember: states only the call it records, for the same reason.
- Members.RunKeepsClosedEditorReset: the expenses view also shows and hides the shared editor through `showEditor` and `editorVisible` (src/trip.js:288-297, trip.js:248-263), which is not modelled; the invariant assumes the member handlers are the only writers of `editorVisible`.
- Store internals: persistence, `getTrips`, the ready callback (`setReadyCallback`) and CSV export belong to the store, which is abstract here.
- Retry timing: the one-second delay of the readiness retry is not modelled. Retrying forever is modelled only as a finite sequence of readiness polls (`TripList.RetryFinish`). Each poll re-invokes the finish.
- React mechanics: the asynchrony and batching of `setState` and `setParams` are not modelled; each handler's updates are applied at once. The in-place update of the previous state in `onDeleteMember` is modelled as a field assignment.
- Re-render plumbing: `dataUpdateDetector`, `notifyExpensesUpdated`, `onExpensesUpdated` and `setNotifyExpensesUpdated` only force re-renders and are not modelled.
- Rendering: layouts, styles, `FlatList` data and the header buttons are not modelled. The add-trip and add-member buttons are kept, because they open the editors. The add-expense navigation and the CSV export button are not.
- `sendMail` and `MailCompose`: asynchronous mail I/O through a foreign library.
- Swiper and BottomNavigation internals: the swiper is only a page and a log of `scrollTo` commands. `onSwiperDidUpdateIndex` does nothing in the source.
- `utils.js` is not part of this model. Its confirmation dialog answers `onRespond(true)` or `onRespond(false)`, which is the `okay` input of the delete response.
- Missing values: an `undefined` member id is modelled as a non-positive id, since `undefined > 0` is false. An absent `deleteTripId` is modelled as 0, since both are falsy.
- Missing parameters: `onRespondDelete` reading `deleteTripId` when the navigation parameters are undefined throws in the source. The model allows a response only while the confirmation is shown, so this case does not arise.
- JavaScript numbers: ids and ratios are unbounded integers. Rounding to doubles is not modelled, for `parseInt` on long digit runs or for stored ratios that are not integers. Neither is the exponent form `Number::toString` uses from 1e21 on.
