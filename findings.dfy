/**
 * The two hand-written finding tools: listing a project's findings through
 * case-insensitive filters, and fetching one finding by id. Both switch the
 * API client to the target project and back.
 */
module FindingTools {
  import opened PyValues

  /** A finding as the API returns it; `data` is None when it is neither a
      dictionary nor convertible to one. */
  datatype FindingRaw = FindingRaw(id: string, status: Value, order: Value, data: Option<map<string, Value>>)

  /** One entry of the listing. */
  datatype Summary = Summary(id: string, title: Value, status: Value, severity: Value, cvss: Value)

  /** The details of one finding. */
  datatype Details = Details(id: string, status: Value, order: Value, data: map<string, Value>)

  /** What a finding tool returns (before JSON encoding). */
  datatype ToolResult = Listed(findings: seq<Summary>) | Found(details: Details) | Message(text: string)

  /** The data dictionary of a finding, empty when it has none. */
  function DataOf(f: FindingRaw): map<string, Value> {
    match f.data case Some(d) => d case None => map[]
  }

  /** `d.get(k, fallback)`. */
  function GetOr(d: map<string, Value>, k: string, fallback: Value): Value {
    if k in d then d[k] else fallback
  }

  /** A filter argument that is set: a non-empty string. */
  predicate IsSet(arg: Option<string>) {
    arg.Some? && arg.value != ""
  }

  /** Calling `.lower()` on something that is not a string. */
  function NoLowerError(v: Value): PyException {
    PyException("AttributeError", "'" + TypeName(v) + "' object has no attribute 'lower'", false)
  }

  /** The status filter passes: unset, or the finding has no status, or the
      status is a string equal to the filter up to case. */
  predicate StatusPasses(f: FindingRaw, status: Option<string>) {
    !(IsSet(status) && Truthy(f.status)) || (f.status.VStr? && Lower(f.status.s) == Lower(status.value))
  }

  /** The severity filter passes: unset, or the severity (missing counts as
      "") is a string equal to the filter up to case. */
  predicate SeverityPasses(f: FindingRaw, severity: Option<string>) {
    var sev := GetOr(DataOf(f), "severity", VStr(""));
    !IsSet(severity) || (sev.VStr? && Lower(sev.s) == Lower(severity.value))
  }

  /** The title filter passes: unset, or the title (missing counts as "")
      is a string containing the filter up to case. */
  predicate TitlePasses(f: FindingRaw, title: Option<string>) {
    var t := GetOr(DataOf(f), "title", VStr(""));
    !IsSet(title) || (t.VStr? && IsSubstring(Lower(title.value), Lower(t.s)))
  }

  /** Whether a finding passes the filters, in the order they are applied:
      the status (only when both the filter and the finding's status are
      set), then the severity (missing counts as ""), then the title
      substring; all compared lower-cased. Lower-casing something that is
      not a string raises. */
  function Keep(f: FindingRaw, status: Option<string>, severity: Option<string>, title: Option<string>): (r: Result<bool, PyException>)
    ensures r == Ok(true) <==> StatusPasses(f, status) && SeverityPasses(f, severity) && TitlePasses(f, title)
    ensures r.Err? ==>
      || (IsSet(status) && Truthy(f.status) && !f.status.VStr?)
      || (IsSet(severity) && !GetOr(DataOf(f), "severity", VStr("")).VStr?)
      || (IsSet(title) && !GetOr(DataOf(f), "title", VStr("")).VStr?)
  {
    if IsSet(status) && Truthy(f.status) && !f.status.VStr? then Err(NoLowerError(f.status))
    else if IsSet(status) && Truthy(f.status) && Lower(f.status.s) != Lower(status.value) then Ok(false)
    else
      var sev := GetOr(DataOf(f), "severity", VStr(""));
      if IsSet(severity) && !sev.VStr? then Err(NoLowerError(sev))
      else if IsSet(severity) && Lower(sev.s) != Lower(severity.value) then Ok(false)
      else
        var t := GetOr(DataOf(f), "title", VStr(""));
        if IsSet(title) && !t.VStr? then Err(NoLowerError(t))
        else if IsSet(title) && !IsSubstring(Lower(title.value), Lower(t.s)) then Ok(false)
        else Ok(true)
  }

  /** The listing entry of a finding, with "N/A" for missing data keys. */
  function SummaryOf(f: FindingRaw): Summary {
    var d := DataOf(f);
    Summary(f.id, GetOr(d, "title", VStr("N/A")), f.status, GetOr(d, "severity", VStr("N/A")), GetOr(d, "cvss", VStr("N/A")))
  }

  /** The entries of the findings that pass, in input order; the first
      raising filter aborts the listing. */
  function Filtered(fs: seq<FindingRaw>, status: Option<string>, severity: Option<string>, title: Option<string>): Result<seq<Summary>, PyException> {
    if fs == [] then Ok([])
    else
      match Filtered(fs[..|fs| - 1], status, severity, title)
      case Err(e) => Err(e)
      case Ok(rs) =>
        match Keep(fs[|fs| - 1], status, severity, title)
        case Err(e) => Err(e)
        case Ok(keep) => Ok(if keep then rs + [SummaryOf(fs[|fs| - 1])] else rs)
  }

  /** The filtering loop. */
  method FilterFindings(fs: seq<FindingRaw>, status: Option<string>, severity: Option<string>, title: Option<string>)
    returns (r: Result<seq<Summary>, PyException>)
    ensures r == Filtered(fs, status, severity, title)
  {
    var kept: seq<Summary> := [];
    var i := 0;
    while i < |fs|
      invariant 0 <= i <= |fs|
      invariant Filtered(fs[..i], status, severity, title) == Ok(kept)
    {
      assert fs[..i + 1][..i] == fs[..i];
      var k := Keep(fs[i], status, severity, title);
      if k.Err? {
        FilteredErrStays(fs, i + 1, status, severity, title, k.error);
        return Err(k.error);
      }
      if k.value {
        kept := kept + [SummaryOf(fs[i])];
      }
      i := i + 1;
    }
    assert fs[..|fs|] == fs;
    r := Ok(kept);
  }

  lemma {:induction false} FilteredErrStays(fs: seq<FindingRaw>, i: nat, status: Option<string>, severity: Option<string>, title: Option<string>, e: PyException)
    requires i <= |fs| && Filtered(fs[..i], status, severity, title) == Err(e)
    ensures Filtered(fs, status, severity, title) == Err(e)
    decreases |fs| - i
  {
    if i < |fs| {
      assert fs[..i + 1][..i] == fs[..i];
      FilteredErrStays(fs, i + 1, status, severity, title, e);
    } else {
      assert fs[..i] == fs;
    }
  }

  /** A successful listing holds exactly the entries of the findings that
      pass the filters: each entry comes from a passing finding, and each
      passing finding has its entry. */
  lemma {:induction false} FilteredExact(fs: seq<FindingRaw>, status: Option<string>, severity: Option<string>, title: Option<string>)
    requires Filtered(fs, status, severity, title).Ok?
    ensures forall k | 0 <= k < |fs| :: Keep(fs[k], status, severity, title).Ok?
    ensures forall s | s in Filtered(fs, status, severity, title).value ::
      exists k | 0 <= k < |fs| :: Keep(fs[k], status, severity, title) == Ok(true) && s == SummaryOf(fs[k])
    ensures forall k | 0 <= k < |fs| && Keep(fs[k], status, severity, title) == Ok(true) ::
      SummaryOf(fs[k]) in Filtered(fs, status, severity, title).value
  {
    forall k | 0 <= k < |fs| ensures Keep(fs[k], status, severity, title).Ok? {
      FilteredKeepsOk(fs, status, severity, title, k);
    }
    forall s | s in Filtered(fs, status, severity, title).value
      ensures exists k | 0 <= k < |fs| :: Keep(fs[k], status, severity, title) == Ok(true) && s == SummaryOf(fs[k])
    {
      var k := FilteredSource(fs, status, severity, title, s);
    }
    forall k | 0 <= k < |fs| && Keep(fs[k], status, severity, title) == Ok(true)
      ensures SummaryOf(fs[k]) in Filtered(fs, status, severity, title).value
    {
      FilteredIncludes(fs, status, severity, title, k);
    }
  }

  /** A successful filter evaluated every finding without raising. */
  lemma {:induction false} FilteredKeepsOk(fs: seq<FindingRaw>, status: Option<string>, severity: Option<string>, title: Option<string>, k: nat)
    requires Filtered(fs, status, severity, title).Ok? && k < |fs|
    ensures Keep(fs[k], status, severity, title).Ok?
  {
    var init := fs[..|fs| - 1];
    assert Filtered(init, status, severity, title).Ok?;
    if k < |init| {
      assert init[k] == fs[k];
      FilteredKeepsOk(init, status, severity, title, k);
    }
  }

  /** Every listed entry is the summary of a finding that passed. */
  lemma {:induction false} FilteredSource(fs: seq<FindingRaw>, status: Option<string>, severity: Option<string>, title: Option<string>, s: Summary)
    returns (k: nat)
    requires Filtered(fs, status, severity, title).Ok? && s in Filtered(fs, status, severity, title).value
    ensures k < |fs| && Keep(fs[k], status, severity, title) == Ok(true) && s == SummaryOf(fs[k])
  {
    var init := fs[..|fs| - 1];
    var last := fs[|fs| - 1];
    var rs := Filtered(init, status, severity, title).value;
    if s in rs {
      k := FilteredSource(init, status, severity, title, s);
      assert init[k] == fs[k];
    } else {
      k := |fs| - 1;
    }
  }

  /** Every finding that passed is listed. */
  lemma {:induction false} FilteredIncludes(fs: seq<FindingRaw>, status: Option<string>, severity: Option<string>, title: Option<string>, k: nat)
    requires Filtered(fs, status, severity, title).Ok? && k < |fs| && Keep(fs[k], status, severity, title) == Ok(true)
    ensures SummaryOf(fs[k]) in Filtered(fs, status, severity, title).value
  {
    var init := fs[..|fs| - 1];
    if k < |init| {
      assert init[k] == fs[k];
      FilteredIncludes(init, status, severity, title, k);
    }
  }


  /** Without filters every finding is listed, in order. */
  lemma {:induction false} NoFiltersListsAll(fs: seq<FindingRaw>)
    ensures Filtered(fs, None, None, None).Ok?
    ensures |Filtered(fs, None, None, None).value| == |fs|
    ensures forall k | 0 <= k < |fs| :: Filtered(fs, None, None, None).value[k] == SummaryOf(fs[k])
  {
    if fs != [] {
      NoFiltersListsAll(fs[..|fs| - 1]);
    }
  }

  /** The filters ignore case: filter values that lower-case alike give the
      same verdict. A finding without a status passes the status filter. */
  /** Two filter arguments that lower-case alike. */
  predicate SameFilter(a: Option<string>, b: Option<string>) {
    (a.Some? <==> b.Some?) && (a.Some? ==> Lower(a.value) == Lower(b.value))
  }

  lemma SameFilterIsSet(a: Option<string>, b: Option<string>)
    requires SameFilter(a, b)
    ensures IsSet(a) <==> IsSet(b)
  {
    if a.Some? {
      assert |a.value| == |Lower(a.value)| == |Lower(b.value)| == |b.value|;
    }
  }

  /** All three filters ignore case; a finding without status passes any
      status filter, and one without severity fails any set severity
      filter. */
  lemma KeepIgnoresCase(f: FindingRaw, s1: Option<string>, s2: Option<string>,
                        v1: Option<string>, v2: Option<string>, t1: Option<string>, t2: Option<string>)
    requires SameFilter(s1, s2) && SameFilter(v1, v2) && SameFilter(t1, t2)
    ensures Keep(f, s1, v1, t1) == Keep(f, s2, v2, t2)
    ensures !Truthy(f.status) ==> Keep(f, s1, v1, t1) == Keep(f, None, v1, t1)
    ensures "severity" !in DataOf(f) && IsSet(v1) ==> Keep(f, s1, v1, t1) != Ok(true)
  {
    SameFilterIsSet(s1, s2);
    SameFilterIsSet(v1, v2);
    SameFilterIsSet(t1, t2);
    if "severity" !in DataOf(f) && IsSet(v1) {
      assert |Lower(v1.value)| > 0 && |Lower("")| == 0;
    }
  }

  // ---------------------------------------------------------------------
  // Project context
  // ---------------------------------------------------------------------

  /** `project_id or configured`: the argument when it is a non-empty
      string, otherwise the configured project id as it is. */
  function TargetOf(projectId: Option<string>, configured: Option<string>): Option<string> {
    if IsSet(projectId) then projectId else configured
  }

  /** The f-string rendering of a possibly-None project id. */
  function IdText(p: Option<string>): string {
    match p case Some(s) => s case None => "None"
  }

  const NoProjectMessage: string := "Error: Project ID not provided" + " and no default project ID configured."

  function ListSwitchError(target: Option<string>): string {
    "Error: Could not switch to project " + IdText(target) + ". Ensure it exists and you have access."
  }

  function DetailsSwitchError(target: Option<string>): string {
    "Error: Could not switch to project " + IdText(target) + " to get finding details."
  }

  function ExecutionError(tool: string, e: PyException): string {
    "Error executing " + tool + ": " + e.msg
  }

  function NotFoundMessage(findingId: string, target: Option<string>): string {
    "Error: Finding with ID '" + findingId + "' not found in project '" + IdText(target) + "'."
  }

  /** The API client's current project, which `switch_project` changes. */
  class ProjectsApi {
    var projectId: Option<string>

    constructor(projectId: Option<string>)
      ensures this.projectId == projectId
    {
      this.projectId := projectId;
    }

    /** `switch_project(p)`: succeeds as `canSwitch` says, and then makes `p`
        the current project; a failure leaves the current project alone. */
    method SwitchProject(p: Option<string>, canSwitch: Option<string> -> bool) returns (ok: bool)
      modifies this
      ensures ok == canSwitch(p)
      ensures projectId == (if ok then p else old(projectId))
    {
      ok := canSwitch(p);
      if ok {
        projectId := p;
      }
    }
  }

  /** The outcome of a finding tool: its result and the project the client
      is left on. */
  datatype Outcome = Outcome(result: ToolResult, finalProject: Option<string>)

  /** `list_findings` as written: no target is an error; a target other than
      the current project is switched to (a failure is an error); after
      fetching, the client is switched back when it was switched; the
      findings are then filtered. When fetching raises, the error is
      returned WITHOUT switching back. */
  function ListFindingsSpec(
    projectId: Option<string>, status: Option<string>, severity: Option<string>, title: Option<string>,
    configured: Option<string>, current: Option<string>,
    canSwitch: Option<string> -> bool, findingsOf: Option<string> -> Result<seq<FindingRaw>, PyException>): Outcome
  {
    var target := TargetOf(projectId, configured);
    if !IsSet(target) then Outcome(Message(NoProjectMessage), current)
    else
      var switched := target != current;
      if switched && !canSwitch(target) then Outcome(Message(ListSwitchError(target)), current)
      else
        var now := if switched then target else current;
        match findingsOf(now)
        case Err(e) => Outcome(Message(ExecutionError("list_findings", e)), now)
        case Ok(fs) =>
          var after := if switched && canSwitch(current) then current else now;
          match Filtered(fs, status, severity, title)
          case Err(e) => Outcome(Message(ExecutionError("list_findings", e)), after)
          case Ok(rs) => Outcome(Listed(rs), after)
  }

  /** `list_findings` with the switch back done on every path after a
      successful switch, including when fetching raises. */
  function ListFindingsRestoringSpec(
    projectId: Option<string>, status: Option<string>, severity: Option<string>, title: Option<string>,
    configured: Option<string>, current: Option<string>,
    canSwitch: Option<string> -> bool, findingsOf: Option<string> -> Result<seq<FindingRaw>, PyException>): Outcome
  {
    var target := TargetOf(projectId, configured);
    if !IsSet(target) then Outcome(Message(NoProjectMessage), current)
    else
      var switched := target != current;
      if switched && !canSwitch(target) then Outcome(Message(ListSwitchError(target)), current)
      else
        var now := if switched then target else current;
        var after := if switched && canSwitch(current) then current else now;
        match findingsOf(now)
        case Err(e) => Outcome(Message(ExecutionError("list_findings", e)), after)
        case Ok(fs) =>
          match Filtered(fs, status, severity, title)
          case Err(e) => Outcome(Message(ExecutionError("list_findings", e)), after)
          case Ok(rs) => Outcome(Listed(rs), after)
  }

  /** The listing as written leaves the client on the target project when
      fetching the findings raises after a successful switch. */
  lemma ListFindingsLeavesClientSwitched()
    ensures ListFindingsSpec(Some("p2"), None, None, None, None, Some("p1"),
      p => true, p => Err(PyException("HTTPError", "503", false))).finalProject == Some("p2")
  {
  }

  /** With the switch back on every path, the client ends on the project it
      started on whenever switching back can succeed; the result is the same
      as the listing as written. */
  lemma ListFindingsRestoringReturns(
    projectId: Option<string>, status: Option<string>, severity: Option<string>, title: Option<string>,
    configured: Option<string>, current: Option<string>,
    canSwitch: Option<string> -> bool, findingsOf: Option<string> -> Result<seq<FindingRaw>, PyException>)
    requires canSwitch(current)
    ensures ListFindingsRestoringSpec(projectId, status, severity, title, configured, current, canSwitch, findingsOf).finalProject == current
    ensures ListFindingsRestoringSpec(projectId, status, severity, title, configured, current, canSwitch, findingsOf).result ==
      ListFindingsSpec(projectId, status, severity, title, configured, current, canSwitch, findingsOf).result
  {
  }

  /** What `list_findings` answers: the error for a missing project, the
      error for a failed switch, else the filtered listing of the target
      project's findings (or an execution error). */
  lemma ListFindingsResults(
    projectId: Option<string>, status: Option<string>, severity: Option<string>, title: Option<string>,
    configured: Option<string>, current: Option<string>,
    canSwitch: Option<string> -> bool, findingsOf: Option<string> -> Result<seq<FindingRaw>, PyException>)
    ensures var o := ListFindingsSpec(projectId, status, severity, title, configured, current, canSwitch, findingsOf);
      var target := TargetOf(projectId, configured);
      && (!IsSet(target) <==> o.result == Message(NoProjectMessage))
      && (IsSet(target) && target != current && !canSwitch(target) ==> o == Outcome(Message(ListSwitchError(target)), current))
      && (o.result.Listed? ==>
            findingsOf(target).Ok? && Filtered(findingsOf(target).value, status, severity, title) == Ok(o.result.findings))
  {
    var target := TargetOf(projectId, configured);
    var o := ListFindingsSpec(projectId, status, severity, title, configured, current, canSwitch, findingsOf);
    if IsSet(target) {
      MessagesDiffer(target);
      var switched := target != current;
      if !(switched && !canSwitch(target)) {
        var now := if switched then target else current;
        assert now == target;
        if findingsOf(now).Err? {
          assert o.result.Message?;
        }
      }
    }
  }

  /** The missing-project message differs from every other message. */
  lemma MessagesDiffer(target: Option<string>)
    ensures NoProjectMessage != ListSwitchError(target)
    ensures forall e: PyException :: NoProjectMessage != ExecutionError("list_findings", e)
  {
    var m := NoProjectMessage;
    assert m[..8] == "Error: P";
    assert ListSwitchError(target)[..8] == "Error: C";
    forall e: PyException
      ensures NoProjectMessage != ExecutionError("list_findings", e)
    {
      assert ExecutionError("list_findings", e)[..8] == "Error ex";
    }
  }

  /** Whether switching back succeeds changes only where the client ends,
      never the answer. */
  lemma ListFindingsSwitchBackIrrelevant(
    projectId: Option<string>, status: Option<string>, severity: Option<string>, title: Option<string>,
    configured: Option<string>, current: Option<string>,
    c1: Option<string> -> bool, c2: Option<string> -> bool,
    findingsOf: Option<string> -> Result<seq<FindingRaw>, PyException>)
    requires c1(TargetOf(projectId, configured)) == c2(TargetOf(projectId, configured))
    ensures ListFindingsSpec(projectId, status, severity, title, configured, current, c1, findingsOf).result ==
      ListFindingsSpec(projectId, status, severity, title, configured, current, c2, findingsOf).result
  {
  }

  /** The listing as written, step by step against the client. */
  method ListFindings(
    api: ProjectsApi, projectId: Option<string>, status: Option<string>, severity: Option<string>, title: Option<string>,
    configured: Option<string>, canSwitch: Option<string> -> bool,
    findingsOf: Option<string> -> Result<seq<FindingRaw>, PyException>)
    returns (result: ToolResult)
    modifies api
    ensures Outcome(result, api.projectId) ==
      ListFindingsSpec(projectId, status, severity, title, configured, old(api.projectId), canSwitch, findingsOf)
  {
    var target := TargetOf(projectId, configured);
    if !IsSet(target) {
      return Message(NoProjectMessage);
    }
    var current := api.projectId;
    var switched := false;
    if target != current {
      var ok := api.SwitchProject(target, canSwitch);
      if !ok {
        return Message(ListSwitchError(target));
      }
      switched := true;
    }
    var fetched := findingsOf(api.projectId);
    if fetched.Err? {
      return Message(ExecutionError("list_findings", fetched.error));
    }
    if switched {
      var back := api.SwitchProject(current, canSwitch);
    }
    var filtered := FilterFindings(fetched.value, status, severity, title);
    match filtered {
      case Err(e) => result := Message(ExecutionError("list_findings", e));
      case Ok(rs) => result := Listed(rs);
    }
  }

  /** The listing with the switch back on every path. */
  method ListFindingsRestoring(
    api: ProjectsApi, projectId: Option<string>, status: Option<string>, severity: Option<string>, title: Option<string>,
    configured: Option<string>, canSwitch: Option<string> -> bool,
    findingsOf: Option<string> -> Result<seq<FindingRaw>, PyException>)
    returns (result: ToolResult)
    modifies api
    ensures Outcome(result, api.projectId) ==
      ListFindingsRestoringSpec(projectId, status, severity, title, configured, old(api.projectId), canSwitch, findingsOf)
  {
    var target := TargetOf(projectId, configured);
    if !IsSet(target) {
      return Message(NoProjectMessage);
    }
    var current := api.projectId;
    var switched := false;
    if target != current {
      var ok := api.SwitchProject(target, canSwitch);
      if !ok {
        return Message(ListSwitchError(target));
      }
      switched := true;
    }
    var fetched := findingsOf(api.projectId);
    if switched {
      var back := api.SwitchProject(current, canSwitch);
    }
    if fetched.Err? {
      return Message(ExecutionError("list_findings", fetched.error));
    }
    var filtered := FilterFindings(fetched.value, status, severity, title);
    match filtered {
      case Err(e) => result := Message(ExecutionError("list_findings", e));
      case Ok(rs) => result := Listed(rs);
    }
  }

  // ---------------------------------------------------------------------
  // One finding by id
  // ---------------------------------------------------------------------

  /** The index of the first finding with the given id. */
  function FirstMatch(fs: seq<FindingRaw>, findingId: string): (r: Option<nat>)
    ensures r.Some? ==> r.value < |fs| && fs[r.value].id == findingId
    ensures r.Some? ==> forall k | 0 <= k < r.value :: fs[k].id != findingId
    ensures r.None? ==> forall k | 0 <= k < |fs| :: fs[k].id != findingId
  {
    if fs == [] then None
    else if fs[0].id == findingId then Some(0)
    else match FirstMatch(fs[1..], findingId)
      case None => None
      case Some(k) => Some(k + 1)
  }

  /** The scan for the finding, stopping at the first match. */
  method FindFirst(fs: seq<FindingRaw>, findingId: string) returns (found: Option<nat>)
    ensures found == FirstMatch(fs, findingId)
  {
    var i := 0;
    while i < |fs|
      invariant 0 <= i <= |fs|
      invariant forall k | 0 <= k < i :: fs[k].id != findingId
    {
      if fs[i].id == findingId {
        FirstMatchAt(fs, findingId, i);
        return Some(i);
      }
      i := i + 1;
    }
    FirstMatchNone(fs, findingId);
    found := None;
  }

  lemma FirstMatchAt(fs: seq<FindingRaw>, findingId: string, i: nat)
    requires i < |fs| && fs[i].id == findingId
    requires forall k | 0 <= k < i :: fs[k].id != findingId
    ensures FirstMatch(fs, findingId) == Some(i)
  {
    match FirstMatch(fs, findingId)
    case None =>
    case Some(j) =>
  }

  lemma FirstMatchNone(fs: seq<FindingRaw>, findingId: string)
    requires forall k | 0 <= k < |fs| :: fs[k].id != findingId
    ensures FirstMatch(fs, findingId) == None
  {
    match FirstMatch(fs, findingId)
    case None =>
    case Some(j) =>
  }

  function DetailsOf(f: FindingRaw): Details {
    Details(f.id, f.status, f.order, DataOf(f))
  }

  /** The answer once the findings are fetched: the first finding with the
      id, or the not-found message naming the target. */
  function DetailsAnswer(fs: seq<FindingRaw>, findingId: string, target: Option<string>): (r: ToolResult)
    ensures r.Found? <==> exists k | 0 <= k < |fs| :: fs[k].id == findingId
    ensures r.Found? ==> r.details.id == findingId
    ensures r.Message? ==> r.text == NotFoundMessage(findingId, target)
  {
    match FirstMatch(fs, findingId)
    case Some(k) => Found(DetailsOf(fs[k]))
    case None => Message(NotFoundMessage(findingId, target))
  }

  /** `get_finding_details` as written: without a target it proceeds on the
      current project; a set target other than the current project is
      switched to (a failure is an error); the first match is taken and the
      client switched back. When fetching raises, the error is returned
      WITHOUT switching back. */
  function DetailsSpec(
    findingId: string, projectId: Option<string>, configured: Option<string>, current: Option<string>,
    canSwitch: Option<string> -> bool, findingsOf: Option<string> -> Result<seq<FindingRaw>, PyException>): Outcome
  {
    var target := TargetOf(projectId, configured);
    var switched := IsSet(target) && target != current;
    if switched && !canSwitch(target) then Outcome(Message(DetailsSwitchError(target)), current)
    else
      var now := if switched then target else current;
      match findingsOf(now)
      case Err(e) => Outcome(Message(ExecutionError("get_finding_details", e)), now)
      case Ok(fs) =>
        var after := if switched && canSwitch(current) then current else now;
        Outcome(DetailsAnswer(fs, findingId, target), after)
  }

  /** `get_finding_details` with the switch back on every path. */
  function DetailsRestoringSpec(
    findingId: string, projectId: Option<string>, configured: Option<string>, current: Option<string>,
    canSwitch: Option<string> -> bool, findingsOf: Option<string> -> Result<seq<FindingRaw>, PyException>): Outcome
  {
    var target := TargetOf(projectId, configured);
    var switched := IsSet(target) && target != current;
    if switched && !canSwitch(target) then Outcome(Message(DetailsSwitchError(target)), current)
    else
      var now := if switched then target else current;
      var after := if switched && canSwitch(current) then current else now;
      match findingsOf(now)
      case Err(e) => Outcome(Message(ExecutionError("get_finding_details", e)), after)
      case Ok(fs) => Outcome(DetailsAnswer(fs, findingId, target), after)
  }

  /** The lookup as written leaves the client on the target project when
      fetching raises after a successful switch. */
  lemma DetailsLeavesClientSwitched()
    ensures DetailsSpec("f1", Some("p2"), None, Some("p1"),
      p => true, p => Err(PyException("HTTPError", "503", false))).finalProject == Some("p2")
  {
  }

  /** With the switch back on every path the client returns to its project
      whenever switching back can succeed, with the same answer. */
  lemma DetailsRestoringReturns(
    findingId: string, projectId: Option<string>, configured: Option<string>, current: Option<string>,
    canSwitch: Option<string> -> bool, findingsOf: Option<string> -> Result<seq<FindingRaw>, PyException>)
    requires canSwitch(current)
    ensures DetailsRestoringSpec(findingId, projectId, configured, current, canSwitch, findingsOf).finalProject == current
    ensures DetailsRestoringSpec(findingId, projectId, configured, current, canSwitch, findingsOf).result ==
      DetailsSpec(findingId, projectId, configured, current, canSwitch, findingsOf).result
  {
  }

  /** The lookup as written, step by step against the client. */
  method GetFindingDetails(
    api: ProjectsApi, findingId: string, projectId: Option<string>, configured: Option<string>,
    canSwitch: Option<string> -> bool, findingsOf: Option<string> -> Result<seq<FindingRaw>, PyException>)
    returns (result: ToolResult)
    modifies api
    ensures Outcome(result, api.projectId) ==
      DetailsSpec(findingId, projectId, configured, old(api.projectId), canSwitch, findingsOf)
  {
    var target := TargetOf(projectId, configured);
    var current := api.projectId;
    var switched := false;
    if IsSet(target) && target != current {
      var ok := api.SwitchProject(target, canSwitch);
      if !ok {
        return Message(DetailsSwitchError(target));
      }
      switched := true;
    }
    var fetched := findingsOf(api.projectId);
    if fetched.Err? {
      return Message(ExecutionError("get_finding_details", fetched.error));
    }
    var found := FindFirst(fetched.value, findingId);
    if switched {
      var back := api.SwitchProject(current, canSwitch);
    }
    match found {
      case Some(k) => result := Found(DetailsOf(fetched.value[k]));
      case None => result := Message(NotFoundMessage(findingId, target));
    }
  }

  /** The lookup with the switch back on every path. */
  method GetFindingDetailsRestoring(
    api: ProjectsApi, findingId: string, projectId: Option<string>, configured: Option<string>,
    canSwitch: Option<string> -> bool, findingsOf: Option<string> -> Result<seq<FindingRaw>, PyException>)
    returns (result: ToolResult)
    modifies api
    ensures Outcome(result, api.projectId) ==
      DetailsRestoringSpec(findingId, projectId, configured, old(api.projectId), canSwitch, findingsOf)
  {
    var target := TargetOf(projectId, configured);
    var current := api.projectId;
    var switched := false;
    if IsSet(target) && target != current {
      var ok := api.SwitchProject(target, canSwitch);
      if !ok {
        return Message(DetailsSwitchError(target));
      }
      switched := true;
    }
    var fetched := findingsOf(api.projectId);
    if switched {
      var back := api.SwitchProject(current, canSwitch);
    }
    if fetched.Err? {
      return Message(ExecutionError("get_finding_details", fetched.error));
    }
    var found := FindFirst(fetched.value, findingId);
    match found {
      case Some(k) => result := Found(DetailsOf(fetched.value[k]));
      case None => result := Message(NotFoundMessage(findingId, target));
    }
  }
}
