# Resume editor: the state store and its views

This project models the logic of the single-page resume editor in `app.js`,
and proves properties of it in Dafny. The editor keeps one resume record in a
store. The store merges patches into that record, saves the record to the
browser's `localStorage` under `"resumeState"`, and notifies its listeners.
The record is loaded back at start-up, falling back to a built-in seed. Form
inputs write edits into the store, a preview is rendered from the record,
and a row of tabs opens and closes the editor panel.

Modules, one per component:

- `Wrappers` (wrappers.dfy): the `Option` type.
- `ResumeState` (resume_state.dfy): the record (`personal`, `experience`,
  `education`, `skills`), the seed `initialState`, and the typed `Patch`.
  A patch holds each top-level key or leaves it out. `Merge` is the
  `{ ...state, ...patch }` of `setState`.
- `Persistence` (persistence.dfy): `getInitialState`, and `localStorage` as
  a class whose reads and writes may fail. `JSON.stringify`/`JSON.parse`
  are a `Codec`, a pair of function values. Only the round trip
  (`RoundTrips`) is assumed about them.
- `StateStore` (state_store.dfy): the `store` object as a class. The ghost
  field `log` records every listener call `notify` makes. The ghost field
  `saved` records the last state a save stored.
- `Binder` (binder.dfy): `renderInputs`. It reads the field name from each
  `data-model` path, computes the value the input displays, and builds the
  patch its `oninput` handler sends.
- `Tabs` (tabs.dfy): the `switchTab` toggle, as a rule `Switch` on the part
  of the page it changes, and a `TabBar` class.
- `Preview` (preview.dfy): `renderPreview` as a pure function. It gives the
  values the template interpolates, in order.
- `App` (app.js wiring, app.dfy): start-up binds the inputs once and
  subscribes the preview. Each keystroke then goes through `setState`.

Each input handler spreads the `personal` record captured when the inputs
were bound (app.js:122, 128), not the store's current one, and binding
happens only once, at start-up (app.js:80, 117-118). An input keeps showing
the text typed into it, but after an edit to a different field the store
silently reverts the earlier field. The preview and the saved copy revert
with it, so what the user sees in the form and what is kept disagree.
The model follows the code; the consequence is under "## Findings".

## Model

| member | source | states |
|---|---|---|
| ResumeState.Seed | app.js:8-40 | the default state has fullName "John Doe", email "john.doe@example.com", one experience entry (at "Tech Corp"), one education entry and the skills string |
| ResumeState.Merge | app.js:57 | every top-level key present in the patch takes the patch's value, and every absent key keeps its old value |
| ResumeState.MergeIdempotent | app.js:57 | applying the same patch twice gives the same state as applying it once |
| ResumeState.MergeThen | app.js:57 | applying patch p then patch q equals applying their key-wise union, with q winning |
| ResumeState.MergeEmpty | app.js:57 | an empty patch leaves the state unchanged |
| ResumeState.PersonalPatchReplacesRecord | app.js:57 | a `personal` record in a patch replaces the old one wholesale: fields it omits are lost, and the other top-level keys stay |
| Persistence.GetInitialState | app.js:43-50 | returns the parsed blob when the stored string is present, non-empty and parses; returns the seed when getItem throws, the key is absent, the string is empty, or parsing throws; never fails |
| Persistence.LoadAfterSave | app.js:43-50 | with a round-tripping encoder, loading after a save of `s` gives exactly `s` |
| Persistence.Lookup | app.js:45 | a getItem that does not throw finds a string exactly when the key is stored, and returns the stored string |
| Persistence.LocalStorage.GetItem | app.js:45 | a read either throws or returns what is stored under the key |
| Persistence.LocalStorage.SetItem | app.js:58 | a write either stores the value under the key or fails and changes nothing |
| StateStore.Store.constructor | app.js:52-54 | the store starts with the loaded state (the seed if the read threw), no listeners, no calls and no save |
| StateStore.Store.SetState | app.js:56-60 | the new state is the merge; a successful save stores the whole new state under "resumeState"; a failed save leaves storage as it was and raises nothing; the state is updated and every listener is notified either way |
| StateStore.Store.Notify | app.js:62 | appends one call per registered listener, in registration order, each with the current state |
| StateStore.Store.Subscribe | app.js:63 | appends the listener with no de-duplication; earlier entries and their order are unchanged |
| StateStore.Store.RestartRestoresSaved | app.js:58 | with a round-tripping encoder, a reload loads exactly the state of the last successful save |
| StateStore.Deliveries | app.js:62 | one notification per registration, each to a registered listener and carrying the given state |
| StateStore.DeliveriesAt | app.js:62 | a notification makes exactly one call per registration; the i-th call goes to the i-th listener and carries the given state |
| StateStore.DeliveriesSnoc | app.js:62-63 | registering one more listener adds exactly one call, at the end |
| StateStore.DeliveriesCount | app.js:62-63 | a listener registered n times is called n times per notification, and a listener never registered is not called |
| StateStore.SubscribeTwiceScenario | app.js:56-63 | starting from the loaded state, with three registrations (one listener twice), one setState makes three calls in registration order, each with the merged state |
| Binder.Segment | app.js:125 | the result is the longest dot-free prefix of the input: it contains no '.', and the input ends there or continues with '.' |
| Binder.FieldKey | app.js:124-125 | the field name is the dot-free text after "personal.", up to the next '.' or the end |
| Binder.FieldKeyOfPath | app.js:124-125 | the path "personal.k" of a dot-free name k is selected and binds field k |
| Binder.Displayed | app.js:126 | an input displays its field's value, or '' when the field is missing |
| Binder.BindAllInputs | app.js:124-126 | every bound input displays its field of the bind-time state, names a dot-free field, and keeps that state's `personal` as its snapshot; there are never more bound inputs than input elements |
| Binder.BindInputs | app.js:121-130 | the loop binds exactly the inputs whose path starts with "personal.", in document order, against the given state |
| Binder.OnInput | app.js:127-128 | the handler's patch holds only `personal`: the snapshot with the edited field set to the typed value and every other field as in the snapshot |
| Binder.OnInputEffect | app.js:127-129 | a keystroke changes only `personal`: the edited field takes the typed value, and every other field comes from the bind-time snapshot, not the current state |
| Binder.AsWrittenLastKeystrokeWins | app.js:122-128 | after any series of keystrokes, `personal` is the last input's snapshot with only that input's field set |
| Binder.StaleSnapshotRevertsEdit | app.js:122-128 | for two inputs bound against the same state, typing into the first and then into the second puts the first field back to its bind-time value |
| Binder.StaleEditReverted | app.js:122-128 | on the seed, typing "Jane Smith" into fullName and then typing into email leaves fullName as "John Doe" |
| Binder.CurrentEditsAccumulate | app.js:127-128 | with the handler spreading the current state, every edited field holds the value of its last edit; unedited fields and the other top-level keys are unchanged |
| Tabs.Switch | app.js:88-108 | clicking the active tab while the editor is open closes it and clears the active tab; any other click on an existing tab makes it the only active and shown tab and opens the editor; a tab whose element is missing throws, with no tab active and the panel as it was; no section is shown when the section element is missing, and the tab's section is shown when only the nav item is missing |
| Tabs.SwitchMakesConsistent | app.js:88-108 | from any page, a click on an existing tab leaves "editor open iff exactly one tab active, and the shown section is the active tab's" |
| Tabs.SecondClickToggles | app.js:97-107 | after the first click on a tab, each further click on it flips the editor between open and closed |
| Tabs.MissingSectionBreaksConsistency | app.js:94-103 | clicking a tab with no section element, while the editor is open on another tab, throws and leaves the panel open with no tab active |
| Tabs.TabBar.constructor | app.js:85 | the editor starts closed |
| Tabs.TabBar.SwitchTab | app.js:88-108 | the page after the handler, and whether it threw, are exactly those given by the rule `Switch` |
| Tabs.TabBar.OpenInitialTab | app.js:110-113 | when `section-personal` exists the page follows `Switch` for "personal": it opens on that tab when its section and nav item both exist, and throws with the section shown when the nav item is missing; without the section nothing changes |
| Preview.Field | app.js:139-142 | a present field is interpolated as its value, and a missing one prints "undefined" |
| Preview.Render | app.js:133-158 | every value the template interpolates occurs in the rendered text |
| Preview.JobsAt | app.js:146-155 | the experience blocks hold five values per entry, and the entry at index i gives positions 5i to 5i+4, in list order |
| Preview.JobsLength | app.js:146-155 | the experience blocks hold exactly five values per entry |
| Preview.FragmentsLayout | app.js:138-155 | the preview holds fullName, headline, email, phone and location, followed by company, start date, end date, role and description for every entry in list order |
| Preview.PreviewIgnoresEducationAndSkills | app.js:138-155 | changing education or skills does not change the preview |
| Preview.ConcatContains | app.js:138-156 | every interpolated value occurs in the rendered text |
| Preview.PreviewShowsPersonal | app.js:139-142 | each of fullName, headline, email, phone and location that is present occurs in the preview |
| Preview.SeedPreview | app.js:10-11 | the seed's preview contains "John Doe" and "john.doe@example.com" |
| App.Editor.constructor | app.js:78-81 | start-up loads the store (the seed if the read threw, otherwise `getInitialState` of storage), binds the inputs against the loaded state, and subscribes the preview as the one listener |
| App.Editor.Type | app.js:127-128 | a keystroke sets `personal` to the bind-time `personal` with one field replaced, leaves the other top-level keys, saves the whole new state under "resumeState" when the write succeeds and leaves storage unchanged when it fails, and notifies the preview with the new state either way |
| App.EditShowsInPreview | app.js:127-128 | from the seed, typing "Jane Smith" into fullName puts that name in the preview, and the unchanged email stays there |

## Findings

| source | as written | input that shows it | evidently intended | confidence | as-written member | corrected member |
|---|---|---|---|---|---|---|
| app.js:122-128 | each `oninput` handler builds `{ personal: { ...s.personal, [key]: value } }` with `s` the state captured when the inputs were bound, and the inputs are bound only once at start-up | from the seed, type "Jane Smith" into fullName and then type "jane@example.com" into email: the fullName input still shows "Jane Smith", but the store's fullName goes back to "John Doe", and the preview and the saved copy follow the store | spread the `personal` record of the store's state at the time of the keystroke, so edits to different fields accumulate | high, not executed | Binder.StaleEditReverted | Binder.CurrentEditsAccumulate |

## Left out

- `window.onerror` (app.js:2-5): a console logging hook. A handler that throws is modelled only by the `threw` result of `Tabs.TabBar.SwitchTab`.
- The cloud save and load stubs (app.js:67-75): they only show an alert.
- DOM plumbing: `querySelector`, class lists, `innerHTML` writes, and the `readyState`/`DOMContentLoaded` start (app.js:161-165). The icon call (app.js:157) and the early return when the preview element is missing (app.js:136) are left out too. The model keeps only the state these read or write.
- The internals of `JSON.stringify` and `JSON.parse`: they are abstract function values. A stored blob that parses to something that is not a resume record (for example `"null"`) cannot be represented: `parse` yields either a record or a failure.
- What listeners do: a listener is a name, and a call is an entry in the ghost log. A listener that calls `setState` from inside `notify` is not modelled.
- Top-level keys other than the four of the record: the source's spread would add any extra key of a patch to the state, but the typed `Patch` has only the four.
- Property names inherited from the object prototype (for example a `data-model` of `personal.constructor`): `s.personal[key]` would read the inherited value. The model treats `personal` as a plain map.
- HTML markup, separators and the missing escaping in the preview template: the preview is modelled as the interpolated values in order.
- Tabs: the page's initial markup is not part of this model. The initial active nav item and shown section are constructor parameters. At most one of each is assumed, and the editor panel element is assumed present.
- The seed's content beyond the fields the lemmas use. It is modelled in full but only `fullName` and `email` are used.
