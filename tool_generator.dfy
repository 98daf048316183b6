/**
 * The tool generator: grouping a plugin's declarations by destination,
 * turning each plugin into a registered tool (or skipping it), and the
 * per-call pipeline every generated tool runs.
 */
module ToolGenerator {
  import opened PyValues
  import opened Argparse
  import opened Params
  import opened ToolConfig
  import opened SignatureUtils
  import opened Docstring
  import opened WrapperUtils

  // ---------------------------------------------------------------------
  // Grouping declarations by destination
  // ---------------------------------------------------------------------

  /** The destinations of the non-help declarations, in first-seen order. */
  function DestOrder(acts: seq<Action>): seq<string> {
    if acts == [] then []
    else
      var init := DestOrder(acts[..|acts| - 1]);
      var a := acts[|acts| - 1];
      if a.kind == Help || a.dest in init then init else init + [a.dest]
  }

  /** The non-help declarations with destination `d`, in declaration order. */
  function ActionsFor(acts: seq<Action>, d: string): seq<Action> {
    if acts == [] then []
    else
      var init := ActionsFor(acts[..|acts| - 1], d);
      var a := acts[|acts| - 1];
      if a.kind != Help && a.dest == d then init + [a] else init
  }

  /** `actions_by_dest` as an insertion-ordered dictionary: one group per
      destination, in first-seen order. */
  function Consolidated(acts: seq<Action>): seq<Group> {
    var order := DestOrder(acts);
    seq(|order|, i requires 0 <= i < |order| => Group(order[i], ActionsFor(acts, order[i])))
  }

  /** A destination is listed exactly when some non-help declaration has
      it, and no destination is listed twice. */
  lemma {:induction false} DestOrderSpec(acts: seq<Action>)
    ensures forall d :: d in DestOrder(acts) <==>
      exists k | 0 <= k < |acts| :: acts[k].kind != Help && acts[k].dest == d
    ensures forall i, j | 0 <= i < j < |DestOrder(acts)| :: DestOrder(acts)[i] != DestOrder(acts)[j]
  {
    if acts != [] {
      var init := acts[..|acts| - 1];
      DestOrderSpec(init);
      assert forall k | 0 <= k < |init| :: init[k] == acts[k];
    }
  }

  /** The group of `d` holds exactly the non-help declarations with that
      destination, and it is empty exactly when `d` is not listed. */
  lemma {:induction false} ActionsForSpec(acts: seq<Action>, d: string)
    ensures forall x :: x in ActionsFor(acts, d) <==>
      exists k | 0 <= k < |acts| :: acts[k] == x && x.kind != Help && x.dest == d
    ensures ActionsFor(acts, d) == [] <==> d !in DestOrder(acts)
  {
    if acts != [] {
      var init := acts[..|acts| - 1];
      ActionsForSpec(init, d);
      assert forall k | 0 <= k < |init| :: init[k] == acts[k];
    }
  }

  /** The grouping drops help, loses no other declaration, has one
      non-empty group per destination, and every group holds only
      declarations of its own destination. */
  lemma ConsolidatedGroups(acts: seq<Action>)
    ensures NonEmptyGroups(Consolidated(acts))
    ensures forall i, j | 0 <= i < j < |Consolidated(acts)| :: Consolidated(acts)[i].dest != Consolidated(acts)[j].dest
    ensures forall i, x | 0 <= i < |Consolidated(acts)| && x in Consolidated(acts)[i].actions ::
      x.kind != Help && x.dest == Consolidated(acts)[i].dest
    ensures forall k | 0 <= k < |acts| && acts[k].kind != Help ::
      exists i | 0 <= i < |Consolidated(acts)| :: Consolidated(acts)[i].dest == acts[k].dest && acts[k] in Consolidated(acts)[i].actions
  {
    var gs := Consolidated(acts);
    var order := DestOrder(acts);
    DestOrderSpec(acts);
    forall i | 0 <= i < |gs|
      ensures |gs[i].actions| > 0
      ensures forall x | x in gs[i].actions :: x.kind != Help && x.dest == gs[i].dest
    {
      ActionsForSpec(acts, order[i]);
    }
    forall k | 0 <= k < |acts| && acts[k].kind != Help
      ensures exists i | 0 <= i < |gs| :: gs[i].dest == acts[k].dest && acts[k] in gs[i].actions
    {
      var d := acts[k].dest;
      assert d in order;
      var i :| 0 <= i < |order| && order[i] == d;
      ActionsForSpec(acts, d);
      assert acts[k] in gs[i].actions;
    }
  }

  lemma ConsolidatedNonEmpty(acts: seq<Action>)
    ensures NonEmptyGroups(Consolidated(acts))
  {
    ConsolidatedGroups(acts);
  }

  lemma ActionsForUnlisted(acts: seq<Action>, d: string)
    requires d !in DestOrder(acts)
    ensures ActionsFor(acts, d) == []
  {
    ActionsForSpec(acts, d);
  }

  /** `_consolidate_actions`: fills the dictionary in one pass over the
      parser's declarations, skipping help. */
  method ConsolidateActions(acts: seq<Action>) returns (gs: seq<Group>)
    ensures gs == Consolidated(acts)
  {
    var order: seq<string> := [];
    var byDest: map<string, seq<Action>> := map[];
    var i := 0;
    while i < |acts|
      invariant 0 <= i <= |acts|
      invariant order == DestOrder(acts[..i])
      invariant forall d :: d in byDest <==> d in order
      invariant forall d | d in byDest :: byDest[d] == ActionsFor(acts[..i], d)
    {
      assert acts[..i + 1][..i] == acts[..i];
      var a := acts[i];
      if a.kind != Help {
        if a.dest !in byDest {
          ActionsForUnlisted(acts[..i], a.dest);
          order := order + [a.dest];
          byDest := byDest[a.dest := []];
        }
        byDest := byDest[a.dest := byDest[a.dest] + [a]];
      }
      i := i + 1;
    }
    assert acts[..|acts|] == acts;
    gs := seq(|order|, k requires 0 <= k < |order| => Group(order[k], byDest[order[k]]));
  }

  // ---------------------------------------------------------------------
  // Generating and registering tools
  // ---------------------------------------------------------------------

  /** A plugin as the generator sees it: its name, its summary, and the
      declarations `add_arguments` makes (or the exception it raises). */
  datatype PluginSpec = PluginSpec(name: string, summary: Option<string>, declared: Result<seq<Action>, PyException>)

  /** A registered tool: a generated plugin tool or one of the three
      hand-written tools. */
  datatype Tool =
    | PluginTool(name: string, plugin: string, params: seq<Param>, doc: string)
    | CustomTool(name: string)

  /** The name a plugin's tool is registered under. */
  function ToolName(plugin: string): (r: string)
    ensures IsKeyword(plugin) <==> r == plugin + "_"
    ensures !IsKeyword(plugin) <==> r == plugin
    ensures !IsKeyword(r)
  {
    assert plugin + "_" != plugin by {
      assert |plugin + "_"| != |plugin|;
    }
    ParamName(plugin)
  }

  /** What generating a plugin's tool yields. */
  datatype PluginOutcome = Skipped | Raise(exc: PyException) | Make(tool: Tool)

  /** `_generate_tool_from_plugin`: a plugin whose `add_arguments` raises is
      skipped; so is one whose signature is rejected; an exception raised
      while building a parameter escapes; otherwise the tool carries the
      signature and the description. */
  function PluginOutcomeOf(p: PluginSpec, repr: Value -> string): PluginOutcome {
    match p.declared
    case Err(_) => Skipped
    case Ok(acts) =>
      var gs := Consolidated(acts);
      ConsolidatedNonEmpty(acts);
      match SignatureFor(p.name, gs)
      case Raised(e) => Raise(e)
      case Rejected => Skipped
      case Built(ps) => Make(PluginTool(ToolName(p.name), p.name, ps, Join(DocParts(p.name, p.summary, ps, gs, repr), "\n")))
  }

  /** A plugin yields no tool exactly when `add_arguments` raises or its
      signature is rejected; a tool it yields is named after it, starts
      with the context parameter and lists no-default parameters first. */
  lemma PluginOutcomeSpec(p: PluginSpec, repr: Value -> string)
    ensures PluginOutcomeOf(p, repr).Skipped? <==>
      p.declared.Err? || (ConsolidatedGroups(p.declared.value); SignatureFor(p.name, Consolidated(p.declared.value)).Rejected?)
    ensures PluginOutcomeOf(p, repr).Make? ==>
      var t := PluginOutcomeOf(p, repr).tool;
      && t.PluginTool? && t.plugin == p.name && t.name == ToolName(p.name) && !IsKeyword(t.name)
      && |t.params| > 0 && t.params[0] == CtxParam && DefaultsLast(t.params)
  {
    if p.declared.Ok? {
      ConsolidatedGroups(p.declared.value);
      SignatureOutcome(p.name, Consolidated(p.declared.value));
    }
  }

  /** The tools registered for a run over the plugins, and the exception
      that ended it early, if any. */
  datatype Generation = Generation(tools: seq<Tool>, raised: Option<PyException>)

  /** The plugin loop: a made tool is registered when the registrar accepts
      it (a refusal is only logged); a raised exception ends the loop. */
  function Generated(plugins: seq<PluginSpec>, accepts: string -> bool, repr: Value -> string): Generation {
    GeneratedFrom(Outcomes(plugins, repr), accepts)
  }

  /** The outcome of each plugin, in order. */
  function Outcomes(plugins: seq<PluginSpec>, repr: Value -> string): (os: seq<PluginOutcome>)
    ensures |os| == |plugins|
  {
    seq(|plugins|, k requires 0 <= k < |plugins| => PluginOutcomeOf(plugins[k], repr))
  }

  /** The registry additions and the ending for a run of outcomes. */
  function GeneratedFrom(os: seq<PluginOutcome>, accepts: string -> bool): Generation {
    if os == [] then Generation([], None)
    else if os[0].Raise? then Generation([], Some(os[0].exc))
    else
      var rest := GeneratedFrom(os[1..], accepts);
      Generation(Registers(os[0], accepts) + rest.tools, rest.raised)
  }

  lemma GeneratedFromStep(os: seq<PluginOutcome>, i: nat, accepts: string -> bool)
    requires i < |os|
    ensures GeneratedFrom(os[i..], accepts) ==
      if os[i].Raise? then Generation([], Some(os[i].exc))
      else Generation(Registers(os[i], accepts) + GeneratedFrom(os[i + 1..], accepts).tools, GeneratedFrom(os[i + 1..], accepts).raised)
  {
    assert os[i..][0] == os[i];
    assert os[i..][1..] == os[i + 1..];
  }

  lemma AppendAssoc(a: seq<Tool>, b: seq<Tool>, c: seq<Tool>)
    ensures (a + b) + c == a + (b + c)
  {
  }

  /** The tool one plugin adds to the registry. */
  function Registers(o: PluginOutcome, accepts: string -> bool): seq<Tool> {
    if o.Make? && accepts(o.tool.name) then [o.tool] else []
  }

  /** The hand-written tools, registered after the plugins. */
  const CustomTools: seq<Tool> := [CustomTool("list_findings"), CustomTool("get_finding_details"), CustomTool("upload_template")]

  lemma {:induction false} GeneratedFromSpec(os: seq<PluginOutcome>, accepts: string -> bool)
    ensures forall t | t in GeneratedFrom(os, accepts).tools ::
      accepts(t.name) && exists k | 0 <= k < |os| :: os[k] == Make(t)
    ensures GeneratedFrom(os, accepts).raised.None? <==> forall k | 0 <= k < |os| :: !os[k].Raise?
  {
    if os != [] && !os[0].Raise? {
      GeneratedFromSpec(os[1..], accepts);
      assert forall k | 1 <= k < |os| :: os[1..][k - 1] == os[k];
    }
  }

  /** Every registered plugin tool comes from a plugin of the run, under
      that plugin's tool name, and was accepted by the registrar; the run
      ends early exactly when some plugin raises. */
  lemma GeneratedSpec(plugins: seq<PluginSpec>, accepts: string -> bool, repr: Value -> string)
    ensures forall t | t in Generated(plugins, accepts, repr).tools ::
      t.PluginTool? && accepts(t.name) && t.name == ToolName(t.plugin) &&
      exists k | 0 <= k < |plugins| :: plugins[k].name == t.plugin && PluginOutcomeOf(plugins[k], repr) == Make(t)
    ensures Generated(plugins, accepts, repr).raised.None? <==>
      forall k | 0 <= k < |plugins| :: !PluginOutcomeOf(plugins[k], repr).Raise?
  {
    var os := Outcomes(plugins, repr);
    GeneratedFromSpec(os, accepts);
    assert forall k | 0 <= k < |os| :: os[k] == PluginOutcomeOf(plugins[k], repr);
    forall t | t in Generated(plugins, accepts, repr).tools
      ensures t.PluginTool? && t.name == ToolName(t.plugin)
      ensures exists k | 0 <= k < |plugins| :: plugins[k].name == t.plugin && PluginOutcomeOf(plugins[k], repr) == Make(t)
    {
      var k :| 0 <= k < |os| && os[k] == Make(t);
      PluginOutcomeSpec(plugins[k], repr);
    }
  }

  /** The generator and the tools registered so far. */
  class ToolGenerator {
    var registered: seq<Tool>

    constructor()
      ensures registered == []
    {
      registered := [];
    }

    /** `_generate_tool_from_plugin`, with the registrar's verdict as
        `accepts`. */
    method GenerateToolFromPlugin(p: PluginSpec, accepts: string -> bool, repr: Value -> string)
      returns (raised: Option<PyException>)
      modifies this
      ensures raised == (if PluginOutcomeOf(p, repr).Raise? then Some(PluginOutcomeOf(p, repr).exc) else None)
      ensures registered == old(registered) + Registers(PluginOutcomeOf(p, repr), accepts)
    {
      if p.declared.Err? {
        return None;
      }
      var gs := ConsolidateActions(p.declared.value);
      ConsolidatedGroups(p.declared.value);
      var signature := CreateToolSignature(p.name, gs);
      match signature {
        case Raised(e) =>
          return Some(e);
        case Rejected =>
          return None;
        case Built(ps) =>
          var doc := BuildToolDocstring(p.name, p.summary, ps, gs, repr);
          var toolName := ToolName(p.name);
          if accepts(toolName) {
            registered := registered + [PluginTool(toolName, p.name, ps, doc)];
          }
          return None;
      }
    }

    /** `generate_tools`: every plugin in turn, then the hand-written tools;
        an exception from a plugin ends the run before them. */
    method GenerateTools(plugins: seq<PluginSpec>, accepts: string -> bool, repr: Value -> string)
      returns (raised: Option<PyException>)
      modifies this
      ensures raised == Generated(plugins, accepts, repr).raised
      ensures registered == old(registered) + Generated(plugins, accepts, repr).tools +
        (if raised.None? then CustomTools else [])
    {
      ghost var os := Outcomes(plugins, repr);
      var i := 0;
      while i < |plugins|
        invariant 0 <= i <= |plugins|
        invariant old(registered) + GeneratedFrom(os, accepts).tools == registered + GeneratedFrom(os[i..], accepts).tools
        invariant GeneratedFrom(os, accepts).raised == GeneratedFrom(os[i..], accepts).raised
      {
        ghost var prev := registered;
        ghost var rest := GeneratedFrom(os[i + 1..], accepts);
        GeneratedFromStep(os, i, accepts);
        assert os[i] == PluginOutcomeOf(plugins[i], repr);
        var r := GenerateToolFromPlugin(plugins[i], accepts, repr);
        if r.Some? {
          assert registered == prev;
          return r;
        }
        ghost var added := Registers(os[i], accepts);
        assert registered == prev + added;
        assert GeneratedFrom(os[i..], accepts).tools == added + rest.tools;
        AppendAssoc(prev, added, rest.tools);
        i := i + 1;
      }
      assert os[i..] == [];
      registered := registered + CustomTools;
      return None;
    }
  }

  // ---------------------------------------------------------------------
  // The per-call pipeline
  // ---------------------------------------------------------------------

  /** The arguments after every rewriting step, in the pipeline's order:
      mapped back to destinations, the stdin text removed, the applied
      config overwrites removed, the project correction applied. */
  function PipelineArgs(plugin: string, ps: seq<Param>, kw: map<string, Value>): map<string, Value> {
    var prepared := CliArgsFor(ps, kw);
    var afterStdin := if StdinContent(plugin, kw).Some? then prepared - {"_stdin_content"} else prepared;
    AdjustedArgs(plugin, afterStdin - AppliedNames(OverwriteParamsOf(plugin), kw), kw)
  }

  /** The plugin never receives the context, nor the stdin text it was
      given through stdin, nor a value that went to the config; every other
      argument keeps its value, save the project tool's `finish`. */
  lemma PipelineArgsSpec(plugin: string, ps: seq<Param>, kw: map<string, Value>)
    ensures var r := PipelineArgs(plugin, ps, kw);
      && "ctx" !in r
      && (StdinContent(plugin, kw).Some? ==> "_stdin_content" !in r)
      && (forall n | n in AppliedNames(OverwriteParamsOf(plugin), kw) :: n !in r)
      && r.Keys <= CliArgsFor(ps, kw).Keys
      && (forall k | k in r && k != "finish" :: r[k] == CliArgsFor(ps, kw)[k])
  {
    CliArgsKeys(ps, kw, "ctx");
  }

  function NotInitializedMessage(plugin: string): string {
    "Error: Reptor instance not initialized for tool " + plugin + "."
  }

  function InstantiationErrorMessage(plugin: string, e: PyException): string {
    "Error instantiating tool " + plugin + ": " + e.msg
  }

  /** The arguments the plugin class is called with: none for a plugin whose
      arguments went into the config, all of them otherwise. */
  function CtorArgs(plugin: string, ps: seq<Param>, kw: map<string, Value>): map<string, Value> {
    if plugin in PluginsRequiringConfigPopulation then map[] else PipelineArgs(plugin, ps, kw)
  }

  /** What a call of the tool answers: the missing-host error, the
      instantiation error, or what running the plugin yields, an exception
      escaping the run included. */
  function CallResult(
    plugin: string, ps: seq<Param>, kw: map<string, Value>, hostPresent: bool,
    ctor: map<string, Value> -> Option<PyException>, run: RunScript,
    decode: seq<bv8> -> Option<string>, reprBytes: seq<bv8> -> string): Answer
  {
    if !hostPresent then Returns(NotInitializedMessage(plugin))
    else match ctor(CtorArgs(plugin, ps, kw))
      case Some(e) => Returns(InstantiationErrorMessage(plugin, e))
      case None => ExecutionResult(plugin, run, decode, reprBytes)
  }

  /** The host config after a call: the applied overwrites, then for a
      listed plugin every remaining argument. */
  function ConfigAfterCall(plugin: string, ps: seq<Param>, kw: map<string, Value>, cli: map<string, Value>, opens: Value -> bool): map<string, Value> {
    var overwritten := cli + OverwritesFor(OverwriteParamsOf(plugin), kw);
    if plugin in PluginsRequiringConfigPopulation then overwritten + Populated(plugin, PipelineArgs(plugin, ps, kw), opens)
    else overwritten
  }

  /** The "file" plugin is built with no arguments and finds them all in the
      config; every other plugin is built with all of them and its config
      gains only the overwrites. */
  lemma ConfigAfterCallSpec(plugin: string, ps: seq<Param>, kw: map<string, Value>, cli: map<string, Value>, opens: Value -> bool)
    ensures plugin == "file" ==>
      && CtorArgs(plugin, ps, kw) == map[]
      && PipelineArgs(plugin, ps, kw).Keys <= ConfigAfterCall(plugin, ps, kw, cli, opens).Keys
    ensures plugin != "file" ==>
      && CtorArgs(plugin, ps, kw) == PipelineArgs(plugin, ps, kw)
      && ConfigAfterCall(plugin, ps, kw, cli, opens) == cli + OverwritesFor(OverwriteParamsOf(plugin), kw)
  {
  }

  /** `tool_wrapper`: prepare the arguments, swap stdin, then inside the
      redirection apply the config overwrites, correct the project tool's
      arguments, populate the config for listed plugins, build the plugin
      (`ctor` says whether that raises) and run it. Leaving the redirection
      restores stdin whether the call returns or an exception from the run
      propagates. */
  method ToolWrapper(
    plugin: string, ps: seq<Param>, kw: map<string, Value>, host: HostConfig?, sys: Sys,
    opens: Value -> bool, ctor: map<string, Value> -> Option<PyException>,
    instance: PluginInstance, run: RunScript,
    decode: seq<bv8> -> Option<string>, reprBytes: seq<bv8> -> string)
    returns (result: Answer, ctorArgs: Option<map<string, Value>>)
    modifies host, sys, instance, instance.console
    ensures result == CallResult(plugin, ps, kw, host != null, ctor, run, decode, reprBytes)
    ensures ctorArgs == (if host != null then Some(CtorArgs(plugin, ps, kw)) else None)
    ensures host != null ==> host.cli == ConfigAfterCall(plugin, ps, kw, old(host.cli), opens)
    ensures old(sys.stdin) != NullStdin ==> sys.stdin == old(sys.stdin)
    ensures sys.stdout == old(sys.stdout)
  {
    var prepared := PrepareCliArgs(ps, kw);
    var cliArgs := new ArgDict(prepared);
    var redirector := HandleStdin(plugin, cliArgs, kw);
    redirector.Enter(sys);
    if host == null {
      result := Returns(NotInitializedMessage(plugin));
      ctorArgs := None;
    } else {
      var args;
      result, args := RunInitialized(plugin, ps, kw, host, cliArgs, sys, opens, ctor, instance, run, decode, reprBytes);
      ctorArgs := Some(args);
    }
    var suppress := redirector.Exit(sys);
  }

  /** The steps of `tool_wrapper` inside the stdin redirection, once the host
      is known: overwrites, the project correction, config population,
      construction and the run. */
  method RunInitialized(
    plugin: string, ps: seq<Param>, kw: map<string, Value>, host: HostConfig, cliArgs: ArgDict, sys: Sys,
    opens: Value -> bool, ctor: map<string, Value> -> Option<PyException>,
    instance: PluginInstance, run: RunScript,
    decode: seq<bv8> -> Option<string>, reprBytes: seq<bv8> -> string)
    returns (result: Answer, ctorArgs: map<string, Value>)
    requires cliArgs.entries ==
      if StdinContent(plugin, kw).Some? then CliArgsFor(ps, kw) - {"_stdin_content"} else CliArgsFor(ps, kw)
    modifies host, cliArgs, sys, instance, instance.console
    ensures result == CallResult(plugin, ps, kw, true, ctor, run, decode, reprBytes)
    ensures ctorArgs == CtorArgs(plugin, ps, kw)
    ensures host.cli == ConfigAfterCall(plugin, ps, kw, old(host.cli), opens)
    ensures sys.stdin == old(sys.stdin) && sys.stdout == old(sys.stdout)
  {
    ApplyCliConfigOverwrites(host, plugin, kw, cliArgs);
    AdjustProjectToolArgs(plugin, cliArgs, kw);
    assert cliArgs.entries == PipelineArgs(plugin, ps, kw);
    var special := PopulateConfigForSpecialPlugins(host, plugin, cliArgs, opens);
    ctorArgs := if special then map[] else cliArgs.entries;
    match ctor(ctorArgs) {
      case Some(e) =>
        result := Returns(InstantiationErrorMessage(plugin, e));
      case None =>
        result := ExecutePluginAndCaptureOutput(instance, plugin, sys, run, decode, reprBytes);
    }
  }
}
