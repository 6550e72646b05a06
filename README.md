# CheckModal: a verified model of the dashboard's check dialog

The Linkerd dashboard's `CheckModal` component runs the control plane's
diagnostic check and shows the outcome. It is a button ("Run Linkerd Check"),
an error banner and a dialog. The dialog has a status chip in its title. Its
body shows a spinner while a run is in progress. Otherwise it lists the
results object one group per key, each group with one row per result. Each row
is classified as success, warning or error.

This project models that component in Dafny:

- `options.dfy`: `Option`, where `None` stands for JavaScript's `undefined`.
- `results.dfy` (module `Results`): the `Results` component. It holds the
  three-way classifier `getResultType`, what a row draws, and how the dialog
  lays out the results object. The results object is a sequence of
  `(title, results)` entries in `Object.keys` order. Titles are distinct
  because they are the keys of one object. `results[title]` is a lookup in
  that sequence.
- `check_modal.dfy` (module `CheckModal`): `this.state` as the value
  `ModalState`. The four handlers are the events `Toggle`, `Run`, `Resolve`
  and `Reject`, and `Step` is one partial-state merge. `Render` is what
  `render` decides to draw. The class `CheckModalComponent` has the same
  fields plus `serverPromise`. Its handler methods update the fields in place
  and are proved to do what `Step` does.
- `history.dfy` (module `History`): what the state is after any sequence of
  events. Each field other than `open` is decided by the latest event that
  writes it; `open` is decided by the latest run start and the number of
  toggles since (or, with no run start, by its first value and the number of
  toggles).
- `scenarios.dfy` (module `Scenarios`): concrete runs of the dialog, and one
  client method that drives the component object.

A completion is not tied to the run that issued it. The "Re-Run Check" button
stays enabled while a run is outstanding. So `Resolve` and `Reject` may arrive
in any state, and the model puts no condition on them. Three consequences follow
from the code and are proved:

- The code has no guard that lets only the latest run's completion change the
  state. The last completion decides the error; the last successful completion
  decides the outcome; the last event other than a toggle decides `running`
  (`History.ErrorAfterCompletion`, `History.OutcomeAfterResolve`,
  `History.RunningAfter`).
- A failed run does not clear the previous outcome. After a success and then a
  failed re-run, the chip and the groups of the earlier run are drawn next to
  the error banner (`Scenarios.StaleOutcomeAfterFailure`). An outcome and an
  error can therefore be present together.
- The chip has no test on `running`. During a re-run, the previous outcome's
  chip stays in the dialog title above the spinner
  (`Scenarios.ChipKeptWhileRunning`).

A rejection with `undefined` stores `undefined` as the error. The banner is
drawn only when the error is not `undefined`, so such a failure shows no
banner. `Reject(None)` models this case.

## Model

| member | source | states |
|---|---|---|
| `Results.RenderGroups` | web/app/js/components/CheckModal.jsx:304-312 | one group per key, in key order, each titled by its key; `Results.RenderGroupsInOrder` states each group's rows |
| `Results.GetResultType` | web/app/js/components/CheckModal.jsx:95-105 | success exactly when `Err` is unset; warning exactly when `Err` and `Warning` are both set; error exactly when `Err` is set and `Warning` is not |
| `Results.RenderRow` | web/app/js/components/CheckModal.jsx:113-144 | a row shows its description and the icon of its category; it shows `ErrMsg` and the `HintURL` link exactly when `Err` is set, carrying both unchanged |
| `Results.RenderResults` | web/app/js/components/CheckModal.jsx:107-150 | a group shows its title and one row per result, the j-th row drawn from the j-th result |
| `Results.Get` | web/app/js/components/CheckModal.jsx:309 | a lookup finds rows only under a title some entry has, and returns that entry's rows; it finds nothing exactly when no entry has the title |
| `Results.GetKey` | web/app/js/components/CheckModal.jsx:304-309 | looking up a key taken from the object returns the rows stored under that key |
| `Results.RenderGroupsInOrder` | web/app/js/components/CheckModal.jsx:304-312 | one group is drawn per key, in key order, the i-th group from the i-th entry's title and rows |
| `CheckModal.Initial` | web/app/js/components/CheckModal.jsx:197-203 | the dialog closed, not running, `success` and `error` undefined, `results` empty |
| `CheckModal.Step` | web/app/js/components/CheckModal.jsx:206-238 | each event's merge: a toggle flips `open` and changes nothing else; a run start sets `running` and `open`; a completion clears `running` and keeps `open`; only a success writes `success` and `results`; a success clears the error and a failure sets it to the rejection value. The four handler methods are proved equal to it |
| `CheckModal.ChipFor` | web/app/js/components/CheckModal.jsx:287-293 | a chip exactly when `success` is defined; "Success"/"good" exactly when it is true, "Error"/"bad" exactly when it is false |
| `CheckModal.Render` | web/app/js/components/CheckModal.jsx:240-330 | button disabled exactly while running; banner exactly when an error is defined, showing it; dialog open as `open`; chip exactly when `success` is defined, "Success"/"good" exactly when it is true and "Error"/"bad" exactly when false; spinner exactly while running, otherwise the groups in key order |
| `CheckModal.StepKeepsConsistent` | web/app/js/components/CheckModal.jsx:206-238 | no handler produces an outcome-less state that still has groups |
| `CheckModal.ReplayKeepsConsistent` | web/app/js/components/CheckModal.jsx:197-238 | after any sequence of events from a consistent state, there are no groups until a first successful completion |
| `CheckModal.ReachableConsistent` | web/app/js/components/CheckModal.jsx:197-238 | the initial state is consistent, and so is every state reached from it by any events |
| `CheckModal.CheckModalComponent.constructor` | web/app/js/components/CheckModal.jsx:190-204 | dialog closed, not running, `success` and `error` undefined, `results` empty, no promise stored |
| `CheckModal.CheckModalComponent.HandleOpenChange` | web/app/js/components/CheckModal.jsx:206-212 | `open` is negated; `running`, `success`, `results`, `error` and `serverPromise` are unchanged |
| `CheckModal.CheckModalComponent.RunCheck` | web/app/js/components/CheckModal.jsx:214-231 | `running` and `open` become true; `success`, `results` and `error` are unchanged; `serverPromise` now holds the new run's chain |
| `CheckModal.CheckModalComponent.OnResponse` | web/app/js/components/CheckModal.jsx:222-229 | `running` becomes false; `success` and `results` are copied from the response; `error` is cleared whatever it was; `open` is unchanged |
| `CheckModal.CheckModalComponent.HandleApiError` | web/app/js/components/CheckModal.jsx:233-238 | `running` becomes false and `error` becomes the rejection value; `open`, `success` and `results` are unchanged |
| `History.OnlyToggles` | web/app/js/components/CheckModal.jsx:206-212 | a run of toggles changes only `open`, which ends as it began after an even number of them |
| `History.OpenWithoutRun` | web/app/js/components/CheckModal.jsx:206-238 | without a run, `open` is flipped once per toggle and changed by nothing else |
| `History.OutcomeWithoutResolve` | web/app/js/components/CheckModal.jsx:206-238 | only a successful completion changes `success` and `results` |
| `History.ErrorWithoutCompletion` | web/app/js/components/CheckModal.jsx:206-238 | only a completion changes `error` |
| `History.RunningAfter` | web/app/js/components/CheckModal.jsx:214-238 | running, and the spinner drawn, exactly when the last event other than a toggle is a run start |
| `History.RunningWithoutOtherEvents` | web/app/js/components/CheckModal.jsx:206-212 | toggles never change `running` |
| `History.OpenAfterRun` | web/app/js/components/CheckModal.jsx:214-218 | after the last run start, the dialog is open exactly when an even number of toggles followed it |
| `History.OutcomeAfterResolve` | web/app/js/components/CheckModal.jsx:222-228 | `success` and `results` are those of the last successful completion, whatever failures followed |
| `History.ErrorAfterCompletion` | web/app/js/components/CheckModal.jsx:222-238 | the error is cleared if the last completion succeeded and is its rejection value if it failed; the banner shows exactly in the second case with a defined value |
| `Scenarios.InitialView` | web/app/js/components/CheckModal.jsx:197-203 | the first render has the button enabled, no banner, the dialog closed, no chip and no group |
| `Scenarios.RunShowsSpinner` | web/app/js/components/CheckModal.jsx:214-218 | from any state, starting a run disables the button, opens the dialog and draws the spinner |
| `Scenarios.PassingCheck` | web/app/js/components/CheckModal.jsx:222-228 | a passing response draws the "Success" chip and a row with only its description |
| `Scenarios.FailingCheck` | web/app/js/components/CheckModal.jsx:126-143 | a failing response draws the "Error" chip and an error row with its message and hint link |
| `Scenarios.WarningNeedsErr` | web/app/js/components/CheckModal.jsx:95-105 | `Err` with `Warning` draws a warning; without `Err` a row passes and shows no detail, whatever `Warning` says |
| `Scenarios.RejectedCheck` | web/app/js/components/CheckModal.jsx:233-238 | a rejection ends the run and the banner shows the rejection value |
| `Scenarios.ToggleTwiceWhileRunning` | web/app/js/components/CheckModal.jsx:206-218 | toggling twice after a run start leaves the dialog open and the run in progress |
| `Scenarios.ChipKeptWhileRunning` | web/app/js/components/CheckModal.jsx:287-301 | a run start leaves the chip as the previous outcome had it, so it stays drawn above the spinner |
| `Scenarios.ToggleTwiceRestores` | web/app/js/components/CheckModal.jsx:206-212 | toggling twice restores every state |
| `Scenarios.StaleOutcomeAfterFailure` | web/app/js/components/CheckModal.jsx:233-238 | after a success and a failed re-run, the old outcome and groups are kept and drawn together with the error banner |

## Left out

- `web/app/js/components/Community.jsx`: a fixed iframe with no state or logic.
- The API client (`fetchCheck`, `setCurrentRequests`, `getCurrentPromises`) and `Promise.all`. These are asynchronous I/O over a client outside this component. Their outcomes are the `Resolve` and `Reject` events. `serverPromise` is modelled only as the number of the run whose chain it holds.
- React's batching of `setState`: each handler is applied as one whole step, in the order the events arrive.
- The ordering of completions across overlapping runs: this comes from the event loop. The model allows any order rather than deciding one.
- JavaScript truthiness of `Err`, and a response of another shape: `Err`, `Warning` and `success` are booleans, an absent `Warning` reads as false, and `results` is always an object whose values are arrays. A missing `results` would make `Object.keys` throw during render, and a group that is not an array would make `.map` throw; neither is modelled.
- `Object.keys` order: the results object is given as its entries in enumeration order. JavaScript's rule that integer-like keys come first is not modelled.
- Styling, the `Transition`, Material-UI layout components, `withMobileDialog`, `withStyles`, and the glyphs drawn by `Icon`. A row carries its category as its icon.
- The contents drawn by `ErrorBanner` and `SimpleChip`: only whether they are drawn, and with what message, caption and kind.
- PropTypes runtime checks, React `key` props and the `data-i18n` attribute.
- An exception inside the `.then` continuation is caught by `handleApiError`. For example, reading `response.success` throws when the promise list resolves empty. Here such a case is just a `Reject` event.
