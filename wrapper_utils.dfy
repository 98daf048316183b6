/**
 * The per-call rehydration around a generated tool: turning the call's
 * keyword arguments back into the plugin's argument map, swapping standard
 * input, writing configuration overwrites, the "project" correction, the
 * "file" population, and capturing what the plugin prints.
 */
module WrapperUtils {
  import opened PyValues
  import opened Params
  import opened ToolConfig

  // ---------------------------------------------------------------------
  // Process-wide streams and the mutable maps the pipeline edits
  // ---------------------------------------------------------------------

  /** What `sys.stdin` holds: None, the host's stream, or an in-memory text
      stream over the given content. */
  datatype Stream = NullStdin | HostStdin | TextStream(content: Value)

  /** What `sys.stdout` holds: the host's stream or a capturing sink. */
  datatype Sink = HostStdout | Capturing(capture: CapturingStdOut)

  /** The interpreter's `sys.stdin` and `sys.stdout`. */
  class Sys {
    var stdin: Stream
    var stdout: Sink

    constructor(stdin: Stream, stdout: Sink)
      ensures this.stdin == stdin && this.stdout == stdout
    {
      this.stdin := stdin;
      this.stdout := stdout;
    }
  }

  /** The `cli_args` dictionary handed from step to step and edited in place. */
  class ArgDict {
    var entries: map<string, Value>

    constructor(entries: map<string, Value>)
      ensures this.entries == entries
    {
      this.entries := entries;
    }
  }

  /** The host's configuration: its "cli" overwrite map, and how many times
      that map has been written back with `set("cli", ...)`. */
  class HostConfig {
    var cli: map<string, Value>
    var cliWrites: nat

    constructor(cli: map<string, Value>)
      ensures this.cli == cli && cliWrites == 0
    {
      this.cli := cli;
      cliWrites := 0;
    }
  }

  // ---------------------------------------------------------------------
  // Keyword arguments back to destinations
  // ---------------------------------------------------------------------

  /** The argument map for a signature and the call's keyword arguments:
      every parameter but `ctx`, under its destination, with the caller's
      value or else its default; a parameter with neither is absent. A later
      parameter with the same destination overwrites an earlier one. */
  function CliArgsFor(ps: seq<Param>, kw: map<string, Value>): map<string, Value> {
    if ps == [] then map[]
    else
      var m := CliArgsFor(ps[..|ps| - 1], kw);
      var p := ps[|ps| - 1];
      if p.name == "ctx" then m
      else if p.name in kw then m[DestOf(p.name) := kw[p.name]]
      else if p.default.Given? then m[DestOf(p.name) := p.default.v]
      else m
  }

  /** Only the name "ctx" maps back to the destination "ctx". */
  lemma DestOfCtx(name: string)
    ensures DestOf(name) == "ctx" ==> name == "ctx"
  {
    if IsSuffixedKeyword(name) {
      assert !IsKeyword("ctx");
    }
  }

  /** Distinct names that are not keywords map back to distinct destinations. */
  lemma DestOfInjective(a: string, b: string)
    requires !IsKeyword(a) && !IsKeyword(b) && DestOf(a) == DestOf(b)
    ensures a == b
  {
  }

  /** The keys of the argument map: the destinations of the parameters other
      than `ctx` that the caller passed or that have a default. Hence "ctx"
      is never a key. */
  lemma {:induction false} CliArgsKeys(ps: seq<Param>, kw: map<string, Value>, k: string)
    ensures k in CliArgsFor(ps, kw) <==>
      exists i | 0 <= i < |ps| ::
        ps[i].name != "ctx" && DestOf(ps[i].name) == k && (ps[i].name in kw || ps[i].default.Given?)
    ensures "ctx" !in CliArgsFor(ps, kw)
  {
    CliArgsNoCtx(ps, kw);
    if k in CliArgsFor(ps, kw) {
      var i := CliArgsKeySource(ps, kw, k);
    }
    forall i | 0 <= i < |ps| && ps[i].name != "ctx" && DestOf(ps[i].name) == k && (ps[i].name in kw || ps[i].default.Given?)
      ensures k in CliArgsFor(ps, kw)
    {
      CliArgsKeyOf(ps, kw, i);
    }
  }

  /** "ctx" is never a key. */
  lemma {:induction false} CliArgsNoCtx(ps: seq<Param>, kw: map<string, Value>)
    ensures "ctx" !in CliArgsFor(ps, kw)
  {
    if ps != [] {
      CliArgsNoCtx(ps[..|ps| - 1], kw);
      DestOfCtx(ps[|ps| - 1].name);
    }
  }

  /** Each key comes from a parameter other than `ctx` that was passed or has a default. */
  lemma {:induction false} CliArgsKeySource(ps: seq<Param>, kw: map<string, Value>, k: string) returns (i: nat)
    requires k in CliArgsFor(ps, kw)
    ensures i < |ps| && ps[i].name != "ctx" && DestOf(ps[i].name) == k
    ensures ps[i].name in kw || ps[i].default.Given?
  {
    var init := ps[..|ps| - 1];
    var p := ps[|ps| - 1];
    if p.name != "ctx" && (p.name in kw || p.default.Given?) && DestOf(p.name) == k {
      i := |ps| - 1;
    } else {
      i := CliArgsKeySource(init, kw, k);
      assert init[i] == ps[i];
    }
  }

  /** Each parameter other than `ctx` that was passed or has a default gives a key. */
  lemma {:induction false} CliArgsKeyOf(ps: seq<Param>, kw: map<string, Value>, i: nat)
    requires i < |ps| && ps[i].name != "ctx" && (ps[i].name in kw || ps[i].default.Given?)
    ensures DestOf(ps[i].name) in CliArgsFor(ps, kw)
  {
    var init := ps[..|ps| - 1];
    if i < |ps| - 1 {
      assert init[i] == ps[i];
      CliArgsKeyOf(init, kw, i);
    }
  }

  /** In a signature (distinct names, none a keyword), each parameter other
      than `ctx` lands under its destination with the caller's value if
      passed, else its default, and is absent when it has neither. */
  lemma {:induction false} CliArgsValue(ps: seq<Param>, kw: map<string, Value>, i: nat)
    requires i < |ps| && DistinctNames(ps)
    requires forall j | 0 <= j < |ps| :: !IsKeyword(ps[j].name)
    requires ps[i].name != "ctx"
    ensures ps[i].name in kw ==>
      DestOf(ps[i].name) in CliArgsFor(ps, kw) && CliArgsFor(ps, kw)[DestOf(ps[i].name)] == kw[ps[i].name]
    ensures ps[i].name !in kw && ps[i].default.Given? ==>
      DestOf(ps[i].name) in CliArgsFor(ps, kw) && CliArgsFor(ps, kw)[DestOf(ps[i].name)] == ps[i].default.v
    ensures ps[i].name !in kw && ps[i].default == Empty ==> DestOf(ps[i].name) !in CliArgsFor(ps, kw)
  {
    var init := ps[..|ps| - 1];
    var last := ps[|ps| - 1];
    var d := DestOf(ps[i].name);
    if i == |ps| - 1 {
      if last.name !in kw && last.default == Empty {
        if d in CliArgsFor(init, kw) {
          CliArgsKeys(init, kw, d);
          var j :| 0 <= j < |init| && init[j].name != "ctx" && DestOf(init[j].name) == d &&
            (init[j].name in kw || init[j].default.Given?);
          assert ps[j] == init[j];
          DestOfInjective(init[j].name, last.name);
        }
      }
    } else {
      assert init[i] == ps[i];
      CliArgsValue(init, kw, i);
      if last.name != "ctx" && (last.name in kw || last.default.Given?) {
        if DestOf(last.name) == d {
          DestOfInjective(last.name, ps[i].name);
        }
      }
    }
  }

  /** When the caller passes every parameter of a signature other than
      `ctx`, the argument map is the call's arguments with keyword suffixes
      removed. */
  lemma CliArgsRoundTrip(ps: seq<Param>, kw: map<string, Value>)
    requires DistinctNames(ps)
    requires forall j | 0 <= j < |ps| :: !IsKeyword(ps[j].name)
    requires forall j | 0 <= j < |ps| && ps[j].name != "ctx" :: ps[j].name in kw
    requires forall n | n in kw :: n != "ctx" && n in Names(ps)
    ensures forall n | n in kw :: DestOf(n) in CliArgsFor(ps, kw) && CliArgsFor(ps, kw)[DestOf(n)] == kw[n]
    ensures forall k | k in CliArgsFor(ps, kw) :: exists n | n in kw :: DestOf(n) == k
  {
    forall n | n in kw ensures DestOf(n) in CliArgsFor(ps, kw) && CliArgsFor(ps, kw)[DestOf(n)] == kw[n] {
      var j :| 0 <= j < |ps| && Names(ps)[j] == n;
      CliArgsKeys(ps, kw, DestOf(n));
      CliArgsValue(ps, kw, j);
    }
    forall k | k in CliArgsFor(ps, kw) ensures exists n | n in kw :: DestOf(n) == k {
      CliArgsKeys(ps, kw, k);
      var j :| 0 <= j < |ps| && ps[j].name != "ctx" && DestOf(ps[j].name) == k &&
        (ps[j].name in kw || ps[j].default.Given?);
      assert ps[j].name in kw;
    }
  }

  /** The loop that builds the argument map. */
  method PrepareCliArgs(ps: seq<Param>, kw: map<string, Value>) returns (cliArgs: map<string, Value>)
    ensures cliArgs == CliArgsFor(ps, kw)
    ensures "ctx" !in cliArgs
  {
    cliArgs := map[];
    var i := 0;
    while i < |ps|
      invariant 0 <= i <= |ps|
      invariant cliArgs == CliArgsFor(ps[..i], kw)
    {
      assert ps[..i + 1][..i] == ps[..i];
      var p := ps[i];
      if p.name != "ctx" {
        var dest := DestOf(p.name);
        if p.name in kw {
          cliArgs := cliArgs[dest := kw[p.name]];
        } else if p.default.Given? {
          cliArgs := cliArgs[dest := p.default.v];
        }
      }
      i := i + 1;
    }
    assert ps[..|ps|] == ps;
    CliArgsKeys(ps, kw, "ctx");
  }

  // ---------------------------------------------------------------------
  // Standard input
  // ---------------------------------------------------------------------

  /** The context manager that swaps `sys.stdin` for a text stream over the
      given content and puts the original back on exit. */
  class StdinRedirector {
    const newContent: Option<Value>
    var originalStdin: Stream

    constructor(newContent: Option<Value>)
      ensures this.newContent == newContent && originalStdin == NullStdin
    {
      this.newContent := newContent;
      originalStdin := NullStdin;
    }

    /** With content, remembers the current stdin and installs the text
        stream; without, does nothing. */
    method Enter(sys: Sys)
      modifies this, sys
      ensures newContent.Some? ==> originalStdin == old(sys.stdin) && sys.stdin == TextStream(newContent.value)
      ensures newContent.None? ==> originalStdin == old(originalStdin) && sys.stdin == old(sys.stdin)
      ensures sys.stdout == old(sys.stdout)
    {
      if newContent.Some? {
        originalStdin := sys.stdin;
        sys.stdin := TextStream(newContent.value);
      }
    }

    /** Puts back the remembered stdin unless that was None; never
        suppresses the exception in flight. */
    method Exit(sys: Sys) returns (suppress: bool)
      modifies sys
      ensures !suppress
      ensures sys.stdin == (if originalStdin != NullStdin then originalStdin else old(sys.stdin))
      ensures sys.stdout == old(sys.stdout)
    {
      if originalStdin != NullStdin {
        sys.stdin := originalStdin;
      }
      suppress := false;
    }
  }

  /** Entering then leaving a fresh redirector leaves `sys.stdin` as it was
      (when it was not None), whatever the content. */
  method RedirectedRoundTrip(sys: Sys, content: Option<Value>)
    modifies sys
    requires sys.stdin != NullStdin
    ensures sys.stdin == old(sys.stdin) && sys.stdout == old(sys.stdout)
  {
    var r := new StdinRedirector(content);
    r.Enter(sys);
    var suppress := r.Exit(sys);
  }

  /** The stdin content to redirect: only for a stdin plugin whose call
      passes a non-None `_stdin_content`. */
  function StdinContent(plugin: string, kw: map<string, Value>): (r: Option<Value>)
    ensures r.Some? <==>
      plugin in StdinConsumingPlugins && "_stdin_content" in kw && kw["_stdin_content"] != VNone
    ensures r.Some? ==> r.value == kw["_stdin_content"] && r.value != VNone
  {
    if plugin in StdinConsumingPlugins && "_stdin_content" in kw && kw["_stdin_content"] != VNone then
      Some(kw["_stdin_content"])
    else None
  }

  /** Picks the stdin content and removes `_stdin_content` from the argument
      map when there is some; the map is otherwise unchanged. */
  method HandleStdin(plugin: string, cliArgs: ArgDict, kw: map<string, Value>) returns (r: StdinRedirector)
    modifies cliArgs
    ensures fresh(r) && r.newContent == StdinContent(plugin, kw) && r.originalStdin == NullStdin
    ensures cliArgs.entries ==
      if StdinContent(plugin, kw).Some? then old(cliArgs.entries) - {"_stdin_content"} else old(cliArgs.entries)
  {
    var content: Option<Value> := None;
    if plugin in StdinConsumingPlugins && "_stdin_content" in kw && kw["_stdin_content"] != VNone {
      content := Some(kw["_stdin_content"]);
      if "_stdin_content" in cliArgs.entries {
        cliArgs.entries := cliArgs.entries - {"_stdin_content"};
      }
    }
    r := new StdinRedirector(content);
  }

  // ---------------------------------------------------------------------
  // Configuration overwrites
  // ---------------------------------------------------------------------

  /** A synthetic parameter that is applied: passed, and not None. */
  predicate Passed(o: OverwriteParam, kw: map<string, Value>) {
    o.name in kw && kw[o.name] != VNone
  }

  /** The overwrite entries written for the applied parameters, in order. */
  function OverwritesFor(specs: seq<OverwriteParam>, kw: map<string, Value>): (r: map<string, Value>)
    ensures forall k | k in r :: exists i | 0 <= i < |specs| :: specs[i].configKey == k && Passed(specs[i], kw)
  {
    if specs == [] then map[]
    else
      var m := OverwritesFor(specs[..|specs| - 1], kw);
      var o := specs[|specs| - 1];
      assert forall i | 0 <= i < |specs| - 1 :: specs[..|specs| - 1][i] == specs[i];
      if Passed(o, kw) then m[o.configKey := kw[o.name]] else m
  }

  /** The names of the applied parameters. */
  function AppliedNames(specs: seq<OverwriteParam>, kw: map<string, Value>): (r: set<string>)
    ensures forall n :: n in r <==> exists i | 0 <= i < |specs| :: specs[i].name == n && Passed(specs[i], kw)
  {
    if specs == [] then {}
    else
      var s := AppliedNames(specs[..|specs| - 1], kw);
      var o := specs[|specs| - 1];
      assert forall i | 0 <= i < |specs| - 1 :: specs[..|specs| - 1][i] == specs[i];
      if Passed(o, kw) then s + {o.name} else s
  }

  /** Each applied parameter's value is written under its config key (the
      last one wins for a shared key), and only applied parameters write. */
  lemma {:induction false} OverwriteValue(specs: seq<OverwriteParam>, kw: map<string, Value>, i: nat)
    requires i < |specs| && Passed(specs[i], kw)
    requires forall j | i < j < |specs| :: specs[j].configKey != specs[i].configKey
    ensures specs[i].configKey in OverwritesFor(specs, kw)
    ensures OverwritesFor(specs, kw)[specs[i].configKey] == kw[specs[i].name]
  {
    if i < |specs| - 1 {
      OverwriteValue(specs[..|specs| - 1], kw, i);
    }
  }

  /** For a plugin whose synthetic parameters were passed with non-None
      values: each value is written under its config key and the parameter
      leaves the argument map; the overwrite map is written back once, and
      only when something was applied. */
  lemma OverwriteSpecStep(specs: seq<OverwriteParam>, kw: map<string, Value>, i: nat)
    requires i < |specs|
    ensures OverwritesFor(specs[..i + 1], kw) ==
      if Passed(specs[i], kw) then OverwritesFor(specs[..i], kw)[specs[i].configKey := kw[specs[i].name]]
      else OverwritesFor(specs[..i], kw)
    ensures AppliedNames(specs[..i + 1], kw) ==
      if Passed(specs[i], kw) then AppliedNames(specs[..i], kw) + {specs[i].name}
      else AppliedNames(specs[..i], kw)
  {
    assert specs[..i + 1][..i] == specs[..i];
  }

  lemma MapUnionUpdate(a: map<string, Value>, b: map<string, Value>, k: string, v: Value)
    ensures (a + b)[k := v] == a + b[k := v]
  {
  }

  /** `if name in cli_args: del cli_args[name]`. */
  method DropArg(cliArgs: ArgDict, name: string)
    modifies cliArgs
    ensures cliArgs.entries == old(cliArgs.entries) - {name}
  {
    if name in cliArgs.entries {
      cliArgs.entries := cliArgs.entries - {name};
    }
  }

  lemma MapMinusAdd(e: map<string, Value>, s: set<string>, n: string)
    ensures (e - s) - {n} == e - (s + {n})
    ensures n !in e - s ==> e - s == e - (s + {n})
  {
  }

  method ApplyCliConfigOverwrites(config: HostConfig, plugin: string, kw: map<string, Value>, cliArgs: ArgDict)
    modifies config, cliArgs
    ensures config.cli == old(config.cli) + OverwritesFor(OverwriteParamsOf(plugin), kw)
    ensures cliArgs.entries == old(cliArgs.entries) - AppliedNames(OverwriteParamsOf(plugin), kw)
    ensures config.cliWrites == old(config.cliWrites) + (if AppliedNames(OverwriteParamsOf(plugin), kw) != {} then 1 else 0)
  {
    var specs := OverwriteParamsOf(plugin);
    var overwrites := config.cli;
    var modified := false;
    var i := 0;
    while i < |specs|
      invariant 0 <= i <= |specs|
      invariant overwrites == old(config.cli) + OverwritesFor(specs[..i], kw)
      invariant cliArgs.entries == old(cliArgs.entries) - AppliedNames(specs[..i], kw)
      invariant modified <==> AppliedNames(specs[..i], kw) != {}
      invariant config.cli == old(config.cli) && config.cliWrites == old(config.cliWrites)
    {
      OverwriteSpecStep(specs, kw, i);
      var o := specs[i];
      if o.name in kw && kw[o.name] != VNone {
        MapUnionUpdate(old(config.cli), OverwritesFor(specs[..i], kw), o.configKey, kw[o.name]);
        MapMinusAdd(old(cliArgs.entries), AppliedNames(specs[..i], kw), o.name);
        overwrites := overwrites[o.configKey := kw[o.name]];
        modified := true;
        DropArg(cliArgs, o.name);
      }
      i := i + 1;
    }
    assert specs[..|specs|] == specs;
    if modified {
      config.cli := overwrites;
      config.cliWrites := config.cliWrites + 1;
    }
  }

  /** For "note": a non-None `title` becomes the `notetitle` overwrite and
      leaves the argument map. */
  lemma NoteTitleOverwrite(kw: map<string, Value>)
    requires "title" in kw && kw["title"] != VNone
    ensures OverwritesFor(OverwriteParamsOf("note"), kw) == map["notetitle" := kw["title"]]
    ensures AppliedNames(OverwriteParamsOf("note"), kw) == {"title"}
  {
    var specs := OverwriteParamsOf("note");
    assert specs == [OverwriteParam("title", "notetitle", OrNone(Str), VNone)];
    assert specs[..0] == [];
  }

  // ---------------------------------------------------------------------
  // The "file" population
  // ---------------------------------------------------------------------

  /** The handles of the paths that open, in order. */
  function OpenedFiles(paths: seq<Value>, opens: Value -> bool): (r: seq<Value>)
    ensures |r| <= |paths|
    ensures forall k | 0 <= k < |r| :: r[k].VFile? && r[k].source in paths && opens(r[k].source)
    ensures (forall k | 0 <= k < |paths| :: opens(paths[k])) ==>
      |r| == |paths| && forall k | 0 <= k < |r| :: r[k] == VFile(paths[k])
  {
    if paths == [] then []
    else
      var init := paths[..|paths| - 1];
      var p := paths[|paths| - 1];
      var r := OpenedFiles(init, opens);
      assert forall k | 0 <= k < |init| :: init[k] == paths[k];
      if opens(p) then r + [VFile(p)] else r
  }

  /** The loop that opens each path and keeps the ones that opened. */
  method OpenFiles(paths: seq<Value>, opens: Value -> bool) returns (handles: seq<Value>)
    ensures handles == OpenedFiles(paths, opens)
  {
    handles := [];
    var i := 0;
    while i < |paths|
      invariant 0 <= i <= |paths|
      invariant handles == OpenedFiles(paths[..i], opens)
    {
      assert paths[..i + 1][..i] == paths[..i];
      if opens(paths[i]) {
        handles := handles + [VFile(paths[i])];
      }
      i := i + 1;
    }
    assert paths[..|paths|] == paths;
  }

  /** The value written into the overwrite map for one argument: verbatim,
      except the "file" plugin's "file" list, which becomes its opened handles. */
  function PopulatedValue(plugin: string, name: string, v: Value, opens: Value -> bool): (r: Value)
    ensures !(plugin == "file" && name == "file" && v.VList?) ==> r == v
  {
    if plugin == "file" && name == "file" && v.VList? then VList(OpenedFiles(v.items, opens)) else v
  }

  function Populated(plugin: string, args: map<string, Value>, opens: Value -> bool): (r: map<string, Value>)
    ensures r.Keys == args.Keys
  {
    map k | k in args :: PopulatedValue(plugin, k, args[k], opens)
  }

  /** For a listed plugin, writes every argument into the overwrite map
      (updating the old map) and reports true; otherwise changes nothing
      and reports false. */
  method PopulateConfigForSpecialPlugins(config: HostConfig, plugin: string, cliArgs: ArgDict, opens: Value -> bool)
    returns (done: bool)
    modifies config
    ensures done <==> plugin in PluginsRequiringConfigPopulation
    ensures done ==> config.cli == old(config.cli) + Populated(plugin, cliArgs.entries, opens)
    ensures done ==> config.cliWrites == old(config.cliWrites) + 1
    ensures !done ==> config.cli == old(config.cli) && config.cliWrites == old(config.cliWrites)
  {
    if plugin !in PluginsRequiringConfigPopulation {
      return false;
    }
    var current := config.cli;
    var processed: map<string, Value> := map[];
    var pending := cliArgs.entries.Keys;
    while pending != {}
      invariant pending <= cliArgs.entries.Keys
      invariant processed.Keys == cliArgs.entries.Keys - pending
      invariant forall k | k in processed :: processed[k] == PopulatedValue(plugin, k, cliArgs.entries[k], opens)
      invariant config.cli == old(config.cli) && config.cliWrites == old(config.cliWrites)
      decreases pending
    {
      var name :| name in pending;
      var value := cliArgs.entries[name];
      if plugin == "file" && name == "file" && value.VList? {
        var handles := OpenFiles(value.items, opens);
        processed := processed[name := VList(handles)];
      } else {
        processed := processed[name := value];
      }
      pending := pending - {name};
    }
    assert processed == Populated(plugin, cliArgs.entries, opens);
    config.cli := current + processed;
    config.cliWrites := config.cliWrites + 1;
    done := true;
  }

  // ---------------------------------------------------------------------
  // The "project" correction
  // ---------------------------------------------------------------------

  /** `d.get(k)`: the value, or None when absent. */
  function Get(m: map<string, Value>, k: string): Value {
    if k in m then m[k] else VNone
  }

  /** The correction applies to "project" when `finish` was not passed, its
      argument is exactly False, and none of export/render/duplicate is set. */
  predicate FinishOverride(plugin: string, args: map<string, Value>, kw: map<string, Value>) {
    plugin == "project" && "finish" !in kw && Get(args, "finish") == VBool(false) &&
    !Truthy(Get(args, "export")) && !Truthy(Get(args, "render")) && !Truthy(Get(args, "duplicate"))
  }

  /** The argument map after the correction. */
  function AdjustedArgs(plugin: string, args: map<string, Value>, kw: map<string, Value>): (r: map<string, Value>)
    ensures r.Keys == args.Keys
    ensures forall k | k in args && k != "finish" :: r[k] == args[k]
    ensures FinishOverride(plugin, args, kw) ==> Get(r, "finish") == VNone
    ensures !FinishOverride(plugin, args, kw) ==> r == args
  {
    if FinishOverride(plugin, args, kw) then args["finish" := VNone] else args
  }

  /** Applying the correction twice is applying it once, and afterwards the
      search-preventing False is gone exactly when the correction applied. */
  lemma AdjustIdempotent(plugin: string, args: map<string, Value>, kw: map<string, Value>)
    ensures AdjustedArgs(plugin, AdjustedArgs(plugin, args, kw), kw) == AdjustedArgs(plugin, args, kw)
    ensures FinishOverride(plugin, args, kw) <==>
      (Get(args, "finish") == VBool(false) && Get(AdjustedArgs(plugin, args, kw), "finish") == VNone)
  {
  }

  method AdjustProjectToolArgs(plugin: string, cliArgs: ArgDict, kw: map<string, Value>)
    modifies cliArgs
    ensures cliArgs.entries == AdjustedArgs(plugin, old(cliArgs.entries), kw)
  {
    if plugin == "project" {
      var explicitlyPassed := "finish" in kw;
      var current := Get(cliArgs.entries, "finish");
      var noOtherAction := !Truthy(Get(cliArgs.entries, "export")) &&
        !Truthy(Get(cliArgs.entries, "render")) && !Truthy(Get(cliArgs.entries, "duplicate"));
      if !explicitlyPassed && current == VBool(false) && noOtherAction {
        cliArgs.entries := cliArgs.entries["finish" := VNone];
      }
    }
  }

  // ---------------------------------------------------------------------
  // The capturing standard output
  // ---------------------------------------------------------------------

  /** The content of a capturing sink: its text, its bytes, and whether its
      binary buffer was ever reached. */
  datatype CaptureState = CaptureState(text: string, bytes: seq<bv8>, bufferUsed: bool)

  /** What the sink hands back: the stripped decoded bytes when the binary
      buffer was reached and holds something (the stripped `repr` of the
      bytes when they do not decode), else the stripped text. */
  function Rendered(st: CaptureState, decode: seq<bv8> -> Option<string>, reprBytes: seq<bv8> -> string): (r: string)
    ensures |r| == 0 || (!IsSpace(r[0]) && !IsSpace(r[|r| - 1]))
    ensures !st.bufferUsed || |st.bytes| == 0 ==> r == Strip(st.text)
    ensures st.bufferUsed && |st.bytes| > 0 && decode(st.bytes).Some? ==> r == Strip(decode(st.bytes).value)
    ensures st.bufferUsed && |st.bytes| > 0 && decode(st.bytes).None? ==> r == Strip(reprBytes(st.bytes))
  {
    if st.bufferUsed && |st.bytes| > 0 then
      match decode(st.bytes)
      case Some(t) => Strip(t)
      case None => Strip(reprBytes(st.bytes))
    else Strip(st.text)
  }

  /** A stand-in for `sys.stdout` that keeps text and binary writes apart. */
  class CapturingStdOut {
    var text: string
    var bytes: seq<bv8>
    var bufferUsed: bool

    constructor()
      ensures text == [] && bytes == [] && !bufferUsed
    {
      text := [];
      bytes := [];
      bufferUsed := false;
    }

    function State(): CaptureState
      reads this
    {
      CaptureState(text, bytes, bufferUsed)
    }

    /** A text write appends to the text buffer and reports its length. */
    method Write(data: string) returns (n: nat)
      modifies this
      ensures text == old(text) + data && bytes == old(bytes) && bufferUsed == old(bufferUsed)
      ensures n == |data|
    {
      text := text + data;
      n := |data|;
    }

    /** Reaching the binary buffer marks it used. */
    method Buffer()
      modifies this
      ensures bufferUsed && text == old(text) && bytes == old(bytes)
    {
      bufferUsed := true;
    }

    /** A write through the binary buffer: marks it used and appends. */
    method BufferWrite(data: seq<bv8>)
      modifies this
      ensures bufferUsed && bytes == old(bytes) + data && text == old(text)
    {
      Buffer();
      bytes := bytes + data;
    }

    /** Flushing changes nothing. */
    method Flush()
    {
    }

    /** `getvalue()`: what the sink hands back, as `Rendered` says. */
    function GetValue(decode: seq<bv8> -> Option<string>, reprBytes: seq<bv8> -> string): string
      reads this
    {
      Rendered(State(), decode, reprBytes)
    }

    /** The sink never claims to be a terminal. */
    function IsATty(): (r: bool)
      ensures !r
    {
      false
    }

    function Encoding(): (r: string)
      ensures r == "utf-8"
    {
      "utf-8"
    }
  }

  // ---------------------------------------------------------------------
  // Running a plugin with its output captured
  // ---------------------------------------------------------------------

  /** What a plugin writes while it runs: text, bytes through the binary
      buffer, or a bare reach for the binary buffer. */
  datatype Emission = EmitText(s: string) | EmitBytes(bs: seq<bv8>) | TouchBuffer

  /** How `run()` ends: it returns, it raises an `Exception`, or it raises a
      `BaseException` that is no `Exception` (`SystemExit`,
      `KeyboardInterrupt`), which no handler of the wrapper catches. */
  datatype Ending = Completes | Throws(exc: PyException) | Escapes(exc: PyException)

  /** The behaviour of a plugin's `run()`: what it writes, then how it ends. */
  datatype RunScript = RunScript(emissions: seq<Emission>, ending: Ending)

  /** The sink's state after the given writes, starting empty. */
  function AfterEmissions(es: seq<Emission>): (st: CaptureState)
    ensures |st.text| + |st.bytes| <= TotalSize(es)
    ensures (forall k | 0 <= k < |es| :: es[k].EmitText?) ==> !st.bufferUsed && st.bytes == []
  {
    if es == [] then CaptureState([], [], false)
    else
      var st := AfterEmissions(es[..|es| - 1]);
      assert forall k | 0 <= k < |es| - 1 :: es[..|es| - 1][k] == es[k];
      match es[|es| - 1]
      case EmitText(t) => st.(text := st.text + t)
      case EmitBytes(b) => st.(bytes := st.bytes + b, bufferUsed := true)
      case TouchBuffer => st.(bufferUsed := true)
  }

  function TotalSize(es: seq<Emission>): nat {
    if es == [] then 0
    else
      var size := match es[|es| - 1]
        case EmitText(t) => |t|
        case EmitBytes(b) => |b|
        case TouchBuffer => 0;
      TotalSize(es[..|es| - 1]) + size
  }

  /** The text-only plugin gets back its stripped text. */
  lemma TextOnlyRun(es: seq<Emission>, decode: seq<bv8> -> Option<string>, reprBytes: seq<bv8> -> string)
    requires forall k | 0 <= k < |es| :: es[k].EmitText?
    ensures Rendered(AfterEmissions(es), decode, reprBytes) == Strip(AfterEmissions(es).text)
  {
  }

  /** An attribute slot: absent, holding something not callable, holding a
      callable (identified by a number), or holding the replacement that
      prints to the current `sys.stdout`. */
  datatype Attr = NoAttr | NonCallable | Callable(id: nat) | PrintToStdout

  /** A plugin's console object and its `print` attribute. */
  class Console {
    var printAttr: Attr

    constructor(printAttr: Attr)
      ensures this.printAttr == printAttr
    {
      this.printAttr := printAttr;
    }
  }

  /** A constructed plugin: its `print` attribute and its console, if any. */
  class PluginInstance {
    var printAttr: Attr
    var console: Console?

    constructor(printAttr: Attr, console: Console?)
      ensures this.printAttr == printAttr && this.console == console
    {
      this.printAttr := printAttr;
      this.console := console;
    }
  }

  function ConfigErrorMessage(name: string, msg: string): string {
    "Configuration error for tool '" + name + "': " + msg +
    ". Ensure REPTOR_SERVER/TOKEN are set or config.yaml is correct."
  }

  function ExecutionErrorMessage(name: string, e: PyException): string {
    "Error executing tool " + name + ": " + e.kind + " - " + e.msg
  }

  /** How a call ends for its caller: with a returned text, or with an
      exception propagating out of it. */
  datatype Answer = Returns(text: string) | Propagates(exc: PyException)

  /** What running a plugin gives: the captured output when `run()`
      completes; for a ValueError the configuration message; for any other
      `Exception` the message naming its class; an exception that is no
      `Exception` propagates. */
  function ExecutionResult(name: string, run: RunScript, decode: seq<bv8> -> Option<string>, reprBytes: seq<bv8> -> string): Answer {
    match run.ending
    case Completes => Returns(Rendered(AfterEmissions(run.emissions), decode, reprBytes))
    case Throws(e) => Returns(if e.isValueError then ConfigErrorMessage(name, e.msg) else ExecutionErrorMessage(name, e))
    case Escapes(e) => Propagates(e)
  }

  /** The two error messages cannot be confused with each other: they
      differ in their first character. */
  lemma ErrorMessagesDiffer(name: string, run: RunScript, decode: seq<bv8> -> Option<string>, reprBytes: seq<bv8> -> string)
    requires run.ending.Throws?
    ensures ExecutionResult(name, run, decode, reprBytes).Returns?
    ensures |ExecutionResult(name, run, decode, reprBytes).text| > 0
    ensures ExecutionResult(name, run, decode, reprBytes).text[0] == (if run.ending.exc.isValueError then 'C' else 'E')
  {
  }

  /** The plugin's writes, applied in order to a fresh sink. */
  method Replay(capture: CapturingStdOut, es: seq<Emission>)
    requires capture.State() == CaptureState([], [], false)
    modifies capture
    ensures capture.State() == AfterEmissions(es)
  {
    var i := 0;
    while i < |es|
      invariant 0 <= i <= |es|
      invariant capture.State() == AfterEmissions(es[..i])
    {
      assert es[..i + 1][..i] == es[..i];
      match es[i] {
        case EmitText(t) =>
          var n := capture.Write(t);
        case EmitBytes(b) =>
          capture.BufferWrite(b);
        case TouchBuffer =>
          capture.Buffer();
      }
      i := i + 1;
    }
    assert es[..|es|] == es;
  }

  /** The handlers after the run: the sink's value when `run()` completed,
      the message of a caught exception, or the exception that no handler
      catches. */
  method Answered(capture: CapturingStdOut, name: string, run: RunScript,
                  decode: seq<bv8> -> Option<string>, reprBytes: seq<bv8> -> string)
    returns (result: Answer)
    requires capture.State() == AfterEmissions(run.emissions)
    ensures result == ExecutionResult(name, run, decode, reprBytes)
  {
    match run.ending {
      case Completes =>
        result := Returns(capture.GetValue(decode, reprBytes));
      case Throws(e) =>
        if e.isValueError {
          result := Returns(ConfigErrorMessage(name, e.msg));
        } else {
          result := Returns(ExecutionErrorMessage(name, e));
        }
      case Escapes(e) =>
        result := Propagates(e);
    }
  }

  /** Runs the plugin with its `print` and `console.print` sent to
      `sys.stdout`, and `sys.stdout` sent to a fresh capturing sink. On every
      path, an exception that escapes the handlers included, both
      attributes get their original back and `sys.stdout` is restored; the
      answer is the captured output, the error message, or the escaping
      exception. */
  method ExecutePluginAndCaptureOutput(
    instance: PluginInstance, name: string, sys: Sys, run: RunScript,
    decode: seq<bv8> -> Option<string>, reprBytes: seq<bv8> -> string)
    returns (result: Answer)
    modifies instance, instance.console, sys
    ensures result == ExecutionResult(name, run, decode, reprBytes)
    ensures instance.printAttr == old(instance.printAttr) && instance.console == old(instance.console)
    ensures instance.console != null ==> instance.console.printAttr == old(instance.console.printAttr)
    ensures sys.stdout == old(sys.stdout) && sys.stdin == old(sys.stdin)
  {
    var capture := new CapturingStdOut();
    var originalPrint := NoAttr;
    var originalConsolePrint := NoAttr;
    var console := instance.console;

    if instance.printAttr.Callable? {
      originalPrint := instance.printAttr;
      instance.printAttr := PrintToStdout;
    }
    if console != null && console.printAttr.Callable? {
      originalConsolePrint := console.printAttr;
      console.printAttr := PrintToStdout;
    }

    // redirect_stdout(capture) around run()
    var savedStdout := sys.stdout;
    sys.stdout := Capturing(capture);
    Replay(capture, run.emissions);
    sys.stdout := savedStdout;

    result := Answered(capture, name, run, decode, reprBytes);

    // finally: put the original attributes back
    if originalPrint != NoAttr && instance.printAttr != NoAttr {
      instance.printAttr := originalPrint;
    }
    if originalConsolePrint != NoAttr && instance.console != null {
      instance.console.printAttr := originalConsolePrint;
    }
  }
}
