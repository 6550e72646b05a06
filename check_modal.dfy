/**
 * The `CheckModal` component: its state (`this.state`), the four events that
 * change it, what `render` draws from it, and the component object whose
 * handlers update the state in place.
 */
module CheckModal {
  import opened Options
  import opened Results

  /** A value the check request rejected with; the error banner shows it as it is. */
  datatype Rejection = Rejection(message: string)

  /** The body the check request resolves with. */
  datatype Response = Response(success: bool, results: Groups)

  /** `this.state`. */
  datatype ModalState = ModalState(
    open: bool,
    running: bool,
    success: Option<bool>,
    results: Groups,
    error: Option<Rejection>)

  /** The state the constructor sets up: closed, idle, with no outcome, no group and no error. */
  function Initial(): (s: ModalState)
    ensures !s.open && !s.running
    ensures s.success == None && s.results == [] && s.error == None
  {
    ModalState(false, false, None, [], None)
  }

  /**
   * The events the component reacts to. `Resolve` and `Reject` are the two
   * continuations of the promise chain `runCheck` starts; they can arrive in
   * any state, since nothing stops a second run while one is outstanding.
   * `Reject(None)` is a rejection with `undefined`.
   */
  datatype Event =
    | Toggle                            // handleOpenChange
    | Run                               // runCheck, synchronous part
    | Resolve(response: Response)       // the `.then` continuation of runCheck
    | Reject(rejection: Option<Rejection>) // handleApiError

  /**
   * Each handler merges a partial state into the current one. A toggle flips
   * `open` and touches nothing else; every other event decides `running`;
   * only a completion writes the error and only a successful one the outcome.
   */
  function Step(s: ModalState, e: Event): (t: ModalState)
    ensures e.Toggle? ==> t == s.(open := !s.open)
    ensures !e.Toggle? ==> t.running == e.Run?
    ensures e.Run? ==> t.open
    ensures e.Resolve? || e.Reject? ==> t.open == s.open
    ensures !e.Resolve? ==> t.success == s.success && t.results == s.results
    ensures e.Resolve? ==> t.success == Some(e.response.success) && t.results == e.response.results
    ensures !(e.Resolve? || e.Reject?) ==> t.error == s.error
    ensures e.Resolve? ==> t.error == None
    ensures e.Reject? ==> t.error == e.rejection
  {
    match e
    case Toggle => s.(open := !s.open)
    case Run => s.(running := true, open := true)
    case Resolve(response) =>
      s.(running := false, success := Some(response.success), results := response.results, error := None)
    case Reject(rejection) => s.(running := false, error := rejection)
  }

  /** The state after the events `es`, handled one at a time from `s`. */
  function Replay(s: ModalState, es: seq<Event>): ModalState
    decreases |es|
  {
    if es == [] then s else Replay(Step(s, es[0]), es[1..])
  }

  /** Until the first successful completion there is no overall outcome and no group. */
  predicate Consistent(s: ModalState) {
    s.success.None? ==> s.results == []
  }

  lemma StepKeepsConsistent(s: ModalState, e: Event)
    requires Consistent(s)
    ensures Consistent(Step(s, e))
  {
  }

  /** Handling any events from a consistent state leads to a consistent state. */
  lemma {:induction false} ReplayKeepsConsistent(s: ModalState, es: seq<Event>)
    requires Consistent(s)
    ensures Consistent(Replay(s, es))
    decreases |es|
  {
    if es != [] {
      StepKeepsConsistent(s, es[0]);
      ReplayKeepsConsistent(Step(s, es[0]), es[1..]);
    }
  }

  /** Every state the component can reach from its constructor is consistent. */
  lemma ReachableConsistent(es: seq<Event>)
    ensures Consistent(Initial())
    ensures Consistent(Replay(Initial(), es))
  {
    ReplayKeepsConsistent(Initial(), es);
  }

  /** The status chip in the dialog title: its caption and its colour kind. */
  datatype Chip = Chip(caption: string, kind: string)

  /** The dialog body: a spinner while running, otherwise the groups of results. */
  datatype Body = Spinner | ResultGroups(groups: seq<GroupView>)

  /** What `render` decides to draw. */
  datatype View = View(
    runDisabled: bool,         // the "Run Linkerd Check" button
    banner: Option<Rejection>, // the ErrorBanner and its message
    dialogOpen: bool,
    chip: Option<Chip>,
    body: Body)

  /** The chip is drawn once an outcome is defined, "Success" for a passing check and "Error" otherwise. */
  function ChipFor(success: Option<bool>): (c: Option<Chip>)
    ensures c.Some? <==> success.Some?
    ensures c == Some(Chip("Success", "good")) <==> success == Some(true)
    ensures c == Some(Chip("Error", "bad")) <==> success == Some(false)
  {
    match success
    case None => None
    case Some(ok) => Some(if ok then Chip("Success", "good") else Chip("Error", "bad"))
  }

  /** `render`, as a function of the state. */
  function Render(s: ModalState): (v: View)
    ensures v.runDisabled <==> s.running
    ensures v.banner == s.error
    ensures v.dialogOpen == s.open
    ensures v.chip.Some? <==> s.success.Some?
    ensures v.chip == Some(Chip("Success", "good")) <==> s.success == Some(true)
    ensures v.chip == Some(Chip("Error", "bad")) <==> s.success == Some(false)
    ensures v.body.Spinner? <==> s.running
    ensures !s.running ==>
      |v.body.groups| == |s.results| &&
      forall i :: 0 <= i < |s.results| ==>
        v.body.groups[i] == RenderResults(s.results[i].title, s.results[i].rows)
  {
    RenderGroupsInOrder(s.results);
    View(s.running, s.error, s.open, ChipFor(s.success),
         if s.running then Spinner else ResultGroups(RenderGroups(s.results)))
  }

  /** The component object; its fields are those of `this.state`, plus `this.serverPromise`. */
  class CheckModalComponent {
    var open: bool
    var running: bool
    var success: Option<bool>
    var results: Groups
    var error: Option<Rejection>
    /** The promise chain of the most recent run, numbered from 0; `None` before the first run. */
    var serverPromise: Option<nat>

    function State(): ModalState
      reads this
    {
      ModalState(open, running, success, results, error)
    }

    constructor ()
      ensures State() == Initial()
      ensures serverPromise == None
    {
      open, running, success, results, error := false, false, None, [], None;
      serverPromise := None;
    }

    /** `handleOpenChange`: the dialog's close action, and its `onClose`. */
    method HandleOpenChange()
      modifies this
      ensures open == !old(open)
      ensures running == old(running) && success == old(success)
      ensures results == old(results) && error == old(error)
      ensures serverPromise == old(serverPromise)
      ensures State() == Step(old(State()), Toggle)
    {
      open := !open;
    }

    /** `runCheck`: starts a run and stores its promise chain; it may be called while a run is outstanding. */
    method RunCheck()
      modifies this
      ensures running && open
      ensures success == old(success) && results == old(results) && error == old(error)
      ensures serverPromise == Some(if old(serverPromise).None? then 0 else old(serverPromise).value + 1)
      ensures State() == Step(old(State()), Run)
    {
      running, open := true, true;
      serverPromise := Some(if serverPromise.None? then 0 else serverPromise.value + 1);
    }

    /** The `.then` continuation of `runCheck`: the check request resolved with `response`. */
    method OnResponse(response: Response)
      modifies this
      ensures !running
      ensures success == Some(response.success) && results == response.results
      ensures error == None
      ensures open == old(open) && serverPromise == old(serverPromise)
      ensures State() == Step(old(State()), Resolve(response))
    {
      running, success, results, error := false, Some(response.success), response.results, None;
    }

    /** `handleApiError`: the check request rejected with `rejection`. */
    method HandleApiError(rejection: Option<Rejection>)
      modifies this
      ensures !running
      ensures error == rejection
      ensures open == old(open) && success == old(success) && results == old(results)
      ensures serverPromise == old(serverPromise)
      ensures State() == Step(old(State()), Reject(rejection))
    {
      running, error := false, rejection;
    }
  }
}
