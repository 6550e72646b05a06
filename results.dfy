/**
 * The `Results` component of CheckModal.jsx: how one group of check results
 * is classified and drawn, and how the dialog lays out all groups of a
 * results object in key order.
 */
module Results {
  import opened Options

  /** One diagnostic assertion as the check endpoint reports it. */
  datatype CheckResult = CheckResult(
    description: string,
    err: bool,               // `Err`: set when the assertion failed
    errMsg: Option<string>,  // `ErrMsg`, optional
    hintUrl: Option<string>, // `HintURL`, optional
    warning: bool)           // `Warning`: an absent flag reads as false

  /** The three visual categories; the `Icon` component draws one glyph per category. */
  datatype ResultType = Success | Error | Warning

  /** `getResultType`: a warning is only a failed assertion that is also flagged as a warning. */
  function GetResultType(err: bool, warning: bool): (t: ResultType)
    ensures t == Success <==> !err
    ensures t == Warning <==> err && warning
    ensures t == Error <==> err && !warning
  {
    if err then
      if warning then Warning else Error
    else
      Success
  }

  /** The message and the hint link drawn under a failed or warning row. */
  datatype Detail = Detail(errMsg: Option<string>, hintUrl: Option<string>)

  /** What one row draws: its icon, its description and, unless it passed, its detail. */
  datatype RowView = RowView(icon: ResultType, description: string, detail: Option<Detail>)

  /** One element of `results.map(...)` in `Results`. */
  function RenderRow(r: CheckResult): (v: RowView)
    ensures v.description == r.description
    ensures v.icon == GetResultType(r.err, r.warning)
    ensures v.detail.Some? <==> r.err
    ensures v.detail.Some? ==> v.detail.value == Detail(r.errMsg, r.hintUrl)
  {
    var t := GetResultType(r.err, r.warning);
    RowView(t, r.description, if t != Success then Some(Detail(r.errMsg, r.hintUrl)) else None)
  }

  /** One entry of the results object: a group title and its results in server order. */
  datatype Group = Group(title: string, rows: seq<CheckResult>)

  predicate DistinctTitles(gs: seq<Group>) {
    forall i, j :: 0 <= i < j < |gs| ==> gs[i].title != gs[j].title
  }

  /**
   * The results object, as its entries in `Object.keys` enumeration order.
   * The titles are distinct because they are the keys of one object.
   */
  type Groups = gs: seq<Group> | DistinctTitles(gs) witness []

  /** `Object.keys(results)`. */
  function Keys(gs: seq<Group>): seq<string> {
    seq(|gs|, i requires 0 <= i < |gs| => gs[i].title)
  }

  /** `results[title]`: the entry stored under `title`, or `undefined`. */
  function Get(gs: seq<Group>, title: string): (r: Option<seq<CheckResult>>)
    ensures r.Some? ==> exists i :: 0 <= i < |gs| && gs[i].title == title && gs[i].rows == r.value
    ensures r.None? <==> forall i :: 0 <= i < |gs| ==> gs[i].title != title
  {
    if gs == [] then None
    else if gs[0].title == title then Some(gs[0].rows)
    else Get(gs[1..], title)
  }

  /** Looking up a key of the object finds that key's own entry. */
  lemma {:induction false} GetKey(gs: Groups, i: int)
    requires 0 <= i < |gs|
    ensures Get(gs, gs[i].title) == Some(gs[i].rows)
  {
    if i > 0 {
      assert gs[0].title != gs[i].title;
      var tail: Groups := gs[1..];
      assert tail[i - 1] == gs[i];
      GetKey(tail, i - 1);
    }
  }

  /** What `Results` draws for one group. */
  datatype GroupView = GroupView(title: string, rows: seq<RowView>)

  /** The `Results` component: the title, then one row per result, in order. */
  function RenderResults(title: string, rows: seq<CheckResult>): (v: GroupView)
    ensures v.title == title && |v.rows| == |rows|
    ensures forall j :: 0 <= j < |rows| ==> v.rows[j] == RenderRow(rows[j])
  {
    GroupView(title, seq(|rows|, j requires 0 <= j < |rows| => RenderRow(rows[j])))
  }

  /** `Object.keys(results).map(title => <Results title={title} results={results[title]} />)`. */
  function RenderGroups(gs: Groups): (vs: seq<GroupView>)
    ensures |vs| == |gs|
    ensures forall i :: 0 <= i < |gs| ==> vs[i].title == gs[i].title
  {
    var keys := Keys(gs);
    seq(|keys|, i requires 0 <= i < |keys| =>
      match Get(gs, keys[i])
      case Some(rows) => RenderResults(keys[i], rows)
      // Never taken: every key is found (GetKey). The source would throw here.
      case None => RenderResults(keys[i], []))
  }

  /**
   * Groups are drawn in the key order of the results object, each with its
   * own results and no other group's.
   */
  lemma RenderGroupsInOrder(gs: Groups)
    ensures |RenderGroups(gs)| == |gs|
    ensures forall i :: 0 <= i < |gs| ==>
      RenderGroups(gs)[i] == RenderResults(gs[i].title, gs[i].rows)
  {
    forall i | 0 <= i < |gs|
      ensures RenderGroups(gs)[i] == RenderResults(gs[i].title, gs[i].rows)
    {
      GetKey(gs, i);
    }
  }
}
