/** Concrete runs of the dialog, stated on the model and on the component object. */
module Scenarios {
  import opened Options
  import opened Results
  import opened CheckModal

  /** Before any event: button enabled, no banner, dialog closed, no chip, no group. */
  lemma InitialView()
    ensures Render(Initial()) == View(false, None, false, None, ResultGroups([]))
  {
  }

  /** Just after "Run Linkerd Check": button disabled, dialog open, spinner shown. */
  lemma RunShowsSpinner(s: ModalState)
    ensures Render(Step(s, Run)).runDisabled
    ensures Render(Step(s, Run)).dialogOpen
    ensures Render(Step(s, Run)).body == Spinner
  {
  }

  /** A passing check: chip "Success" and one group whose one row shows only its description. */
  lemma PassingCheck()
    ensures var pods := [CheckResult("pod ok", false, None, None, false)];
            var r := Response(true, [Group("pods", pods)]);
            var v := Render(Replay(Initial(), [Run, Resolve(r)]));
            v.chip == Some(Chip("Success", "good")) &&
            v.body == ResultGroups([GroupView("pods", [RowView(Success, "pod ok", None)])])
  {
    var pods := [CheckResult("pod ok", false, None, None, false)];
    var r := Response(true, [Group("pods", pods)]);
    var es := [Run, Resolve(r)];
    var t := Step(Step(Initial(), Run), Resolve(r));
    calc {
      Replay(Initial(), es);
      Replay(Step(Initial(), Run), [Resolve(r)]);
      Replay(t, []);
    }
    assert Render(t).body.groups == [RenderResults("pods", pods)];
    assert RenderResults("pods", pods).rows == [RowView(Success, "pod ok", None)];
  }

  /** A failing check: chip "Error" and an error row with its message and its hint link. */
  lemma FailingCheck()
    ensures var pods := [CheckResult("pod bad", true, Some("crash"), Some("https://x/y"), false)];
            var r := Response(false, [Group("pods", pods)]);
            var v := Render(Replay(Initial(), [Run, Resolve(r)]));
            v.chip == Some(Chip("Error", "bad")) &&
            v.body == ResultGroups([GroupView("pods",
              [RowView(Error, "pod bad", Some(Detail(Some("crash"), Some("https://x/y"))))])])
  {
    var pods := [CheckResult("pod bad", true, Some("crash"), Some("https://x/y"), false)];
    var r := Response(false, [Group("pods", pods)]);
    var es := [Run, Resolve(r)];
    var t := Step(Step(Initial(), Run), Resolve(r));
    calc {
      Replay(Initial(), es);
      Replay(Step(Initial(), Run), [Resolve(r)]);
      Replay(t, []);
    }
    assert Render(t).body.groups == [RenderResults("pods", pods)];
    assert RenderResults("pods", pods).rows
        == [RowView(Error, "pod bad", Some(Detail(Some("crash"), Some("https://x/y"))))];
  }

  /** `Err` and `Warning` together make a warning, not an error; `Warning` alone is a pass. */
  lemma WarningNeedsErr(r: CheckResult)
    ensures r.err && r.warning ==> RenderRow(r).icon == Warning
    ensures !r.err ==> RenderRow(r).icon == Success && RenderRow(r).detail == None
  {
  }

  /** A rejection ends the run and puts its value in the banner. */
  lemma RejectedCheck()
    ensures var down := Rejection("network down");
            var s := Replay(Initial(), [Run, Reject(Some(down))]);
            !s.running && Render(s).banner == Some(down)
  {
    var down := Rejection("network down");
    calc {
      Replay(Initial(), [Run, Reject(Some(down))]);
      Replay(Step(Initial(), Run), [Reject(Some(down))]);
      Replay(Step(Step(Initial(), Run), Reject(Some(down))), []);
    }
  }

  /** Toggling twice while a run is outstanding leaves the dialog open and the run going. */
  lemma ToggleTwiceWhileRunning(s: ModalState)
    ensures var t := Replay(s, [Run, Toggle, Toggle]);
            t.open && t.running
  {
    calc {
      Replay(s, [Run, Toggle, Toggle]);
      Replay(Step(s, Run), [Toggle, Toggle]);
      Replay(Step(Step(s, Run), Toggle), [Toggle]);
      Replay(Step(Step(Step(s, Run), Toggle), Toggle), []);
    }
  }

  /**
   * A re-run does not hide the chip: while the spinner is drawn, the chip of
   * the previous outcome stays in the dialog title.
   */
  lemma ChipKeptWhileRunning(s: ModalState)
    ensures Render(Step(s, Run)).chip == ChipFor(s.success)
  {
  }

  /** Toggling twice restores any state. */
  lemma ToggleTwiceRestores(s: ModalState)
    ensures Step(Step(s, Toggle), Toggle) == s
  {
  }

  /**
   * A failed re-run leaves the previous outcome in place: once it ends, the
   * dialog draws the old chip and the old groups while the banner shows the
   * rejection.
   */
  lemma StaleOutcomeAfterFailure(s: ModalState, r: Response, e: Rejection)
    ensures var t := Replay(s, [Resolve(r), Run, Reject(Some(e))]);
            t.success == Some(r.success) && t.results == r.results && t.error == Some(e) &&
            Render(t).body == ResultGroups(RenderGroups(r.results)) &&
            Render(t).banner == Some(e)
  {
    calc {
      Replay(s, [Resolve(r), Run, Reject(Some(e))]);
      Replay(Step(s, Resolve(r)), [Run, Reject(Some(e))]);
      Replay(Step(Step(s, Resolve(r)), Run), [Reject(Some(e))]);
      Replay(Step(Step(Step(s, Resolve(r)), Run), Reject(Some(e))), []);
    }
  }

  /**
   * Driven through the component object's handlers: a run, two toggles while
   * it is outstanding, then a rejection that ends it and shows the banner.
   */
  method RunToggleRejectOnComponent() {
    var c := new CheckModalComponent();
    c.RunCheck();
    c.HandleOpenChange();
    assert !c.open && c.running;
    c.HandleOpenChange();
    assert c.open && c.running && c.serverPromise == Some(0);
    c.HandleApiError(Some(Rejection("network down")));
    assert c.open && !c.running && c.success == None && c.results == [];
    assert Render(c.State()).banner == Some(Rejection("network down"));
  }
}
