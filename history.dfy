/**
 * A toggle flips `open`; every other handler overwrites a fixed part of the
 * state. So the state after any sequence of events is decided by the most
 * recent events that write each field, and by the number of toggles since.
 * Completions are not tied to the run that issued them: these lemmas hold
 * whatever order the events come in.
 */
module History {
  import opened Options
  import opened CheckModal

  /** Handling `a` and then `b` is handling `a + b`. */
  lemma {:induction false} ReplayAppend(s: ModalState, a: seq<Event>, b: seq<Event>)
    ensures Replay(s, a + b) == Replay(Replay(s, a), b)
    decreases |a|
  {
    if a == [] {
      assert a + b == b;
    } else {
      assert (a + b)[0] == a[0];
      assert (a + b)[1..] == a[1..] + b;
      ReplayAppend(Step(s, a[0]), a[1..], b);
    }
  }

  /** The state after `es`, seen from its event `k`. */
  lemma ReplayAt(s: ModalState, es: seq<Event>, k: int)
    requires 0 <= k < |es|
    ensures Replay(s, es) == Replay(Step(Replay(s, es[..k]), es[k]), es[k + 1..])
  {
    var rest := [es[k]] + es[k + 1..];
    assert es == es[..k] + rest;
    ReplayAppend(s, es[..k], rest);
    assert rest[1..] == es[k + 1..];
  }

  /** The number of `Toggle` events in `es`. */
  function Toggles(es: seq<Event>): nat
    decreases |es|
  {
    if es == [] then 0 else (if es[0].Toggle? then 1 else 0) + Toggles(es[1..])
  }

  predicate Completes(e: Event) {
    e.Resolve? || e.Reject?
  }

  /** Toggles only flip `open`: an even number of them leaves it as it was. */
  lemma {:induction false} OnlyToggles(s: ModalState, es: seq<Event>)
    requires forall j :: 0 <= j < |es| ==> es[j].Toggle?
    ensures Replay(s, es) == s.(open := s.open == (Toggles(es) % 2 == 0))
    decreases |es|
  {
    if es != [] {
      OnlyToggles(Step(s, es[0]), es[1..]);
    }
  }

  /** Without a run, `open` is flipped once per toggle and by nothing else. */
  lemma {:induction false} OpenWithoutRun(s: ModalState, es: seq<Event>)
    requires forall j :: 0 <= j < |es| ==> !es[j].Run?
    ensures Replay(s, es).open == (s.open == (Toggles(es) % 2 == 0))
    decreases |es|
  {
    if es != [] {
      OpenWithoutRun(Step(s, es[0]), es[1..]);
    }
  }

  /** Only a successful completion replaces the outcome and the groups. */
  lemma {:induction false} OutcomeWithoutResolve(s: ModalState, es: seq<Event>)
    requires forall j :: 0 <= j < |es| ==> !es[j].Resolve?
    ensures Replay(s, es).success == s.success
    ensures Replay(s, es).results == s.results
    decreases |es|
  {
    if es != [] {
      OutcomeWithoutResolve(Step(s, es[0]), es[1..]);
    }
  }

  /** Only a completion, successful or not, replaces the error. */
  lemma {:induction false} ErrorWithoutCompletion(s: ModalState, es: seq<Event>)
    requires forall j :: 0 <= j < |es| ==> !Completes(es[j])
    ensures Replay(s, es).error == s.error
    decreases |es|
  {
    if es != [] {
      ErrorWithoutCompletion(Step(s, es[0]), es[1..]);
    }
  }

  /**
   * A run is in progress exactly when the last event other than a toggle is
   * `Run`; a completion ends it, whichever run it belongs to.
   */
  lemma RunningAfter(s: ModalState, es: seq<Event>, k: int)
    requires 0 <= k < |es| && !es[k].Toggle?
    requires forall j :: k < j < |es| ==> es[j].Toggle?
    ensures Replay(s, es).running == es[k].Run?
    ensures Render(Replay(s, es)).body.Spinner? == es[k].Run?
  {
    ReplayAt(s, es, k);
    OnlyToggles(Step(Replay(s, es[..k]), es[k]), es[k + 1..]);
  }

  /** With no event other than toggles, `running` keeps its value. */
  lemma RunningWithoutOtherEvents(s: ModalState, es: seq<Event>)
    requires forall j :: 0 <= j < |es| ==> es[j].Toggle?
    ensures Replay(s, es).running == s.running
  {
    OnlyToggles(s, es);
  }

  /** After the last run the dialog is open unless an odd number of toggles followed. */
  lemma OpenAfterRun(s: ModalState, es: seq<Event>, k: int)
    requires 0 <= k < |es| && es[k].Run?
    requires forall j :: k < j < |es| ==> !es[j].Run?
    ensures Replay(s, es).open == (Toggles(es[k + 1..]) % 2 == 0)
  {
    ReplayAt(s, es, k);
    OpenWithoutRun(Step(Replay(s, es[..k]), es[k]), es[k + 1..]);
  }

  /** The outcome and the groups are those of the last successful completion. */
  lemma OutcomeAfterResolve(s: ModalState, es: seq<Event>, k: int)
    requires 0 <= k < |es| && es[k].Resolve?
    requires forall j :: k < j < |es| ==> !es[j].Resolve?
    ensures Replay(s, es).success == Some(es[k].response.success)
    ensures Replay(s, es).results == es[k].response.results
  {
    ReplayAt(s, es, k);
    OutcomeWithoutResolve(Step(Replay(s, es[..k]), es[k]), es[k + 1..]);
  }

  /**
   * The error is the one of the last completion: cleared by a success, set
   * to the rejection value by a failure.
   */
  lemma ErrorAfterCompletion(s: ModalState, es: seq<Event>, k: int)
    requires 0 <= k < |es| && Completes(es[k])
    requires forall j :: k < j < |es| ==> !Completes(es[j])
    ensures Replay(s, es).error == if es[k].Resolve? then None else es[k].rejection
    ensures Render(Replay(s, es)).banner.Some? <==> es[k].Reject? && es[k].rejection.Some?
  {
    ReplayAt(s, es, k);
    ErrorWithoutCompletion(Step(Replay(s, es[..k]), es[k]), es[k + 1..]);
  }
}
