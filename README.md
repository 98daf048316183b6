# reptor-mcp core, modelled in Dafny

reptor-mcp exposes the plugins of the `reptor` command-line tool as tools of an
MCP server. For every plugin it reads the argparse declarations the plugin
makes, compiles them into a Python call signature (`ctx` first, then the
plugin's parameters, no-default parameters before defaulted ones) and a
description, and registers a wrapper under the plugin's name. When a tool is
called, the wrapper turns the keyword arguments back into the plugin's
argument dictionary and runs a fixed pipeline:

1. stdin redirection;
2. config overwrites;
3. the `project` tool's `finish` correction;
4. config population for the `file` plugin;
5. construction of the plugin;
6. a run with its standard output captured.

Two hand-written tools, `list_findings` and `get_finding_details`, read a
project's findings through the API client. Each switches the client to the
target project and back.

The project models that core:

- `py_values.dfy` (module `PyValues`): the Python values the code inspects,
  with Python's `==` across bool/int/float, truthiness, `str.strip`,
  `str.lower` and the keyword list.
- `argparse_actions.dfy` (`Argparse`): argparse declarations as records.
- `params.dfy` (`Params`): annotations, defaults (`inspect.Parameter.empty`
  kept apart from None), parameters, and the keyword-suffix naming shared by
  synthesis and rehydration.
- `tool_config.dfy` (`ToolConfig`): the three configuration tables.
- `signature_utils.dfy` (`SignatureUtils`): type and default resolution,
  group consolidation, and signature synthesis.
- `docstring.dfy` (`Docstring`): the tool description.
- `wrapper_utils.dfy` (`WrapperUtils`): argument rehydration, the stdin
  redirector, config overwrites and population, the project correction, the
  capturing sink, and execution with restore.
- `tool_generator.dfy` (`ToolGenerator`): grouping declarations by
  destination, generating and registering tools, and the per-call pipeline.
- `findings.dfy` (`FindingTools`): the two finding tools.

The code mutates dictionaries, `sys.stdin`/`sys.stdout`, plugin attributes
and the host's overwrite map. The model keeps each of them as a class field
that methods change, with `modifies` clauses. Every such method is proved
against a specification function, and the properties are lemmas about those
functions.

The model follows the code where the code is surprising:

- A group of store-const declarations whose constants are `True` and `False`
  is not a singleton bool set, so it is treated as an enumeration
  (`SignatureUtils.TrueFalseConstsAreEnum`).
- An enumeration whose resolved default is None gets no default at all
  (`SignatureUtils.EnumWithoutDefaults`).
- Naming a destination and mapping the name back does not round-trip for a
  destination already spelled keyword + "_", such as `from_`
  (`Params.FromUnderscoreDoesNotRoundTrip`).
- The stdin redirector restores only a non-None original stream, so a None
  `sys.stdin` is not put back (`WrapperUtils.StdinRedirector.Exit`).
- A destination whose declarations carry no usable help but whose first
  declaration's help is SUPPRESS is documented with "==SUPPRESS=="; the
  description builders use that lookup as written (`Docstring.ParamLine`,
  `Docstring.BuildToolDocstring`, and "## Findings").
- Only `Exception` is caught around `run()`: a `SystemExit` or
  `KeyboardInterrupt` propagates out of the tool, after `print`,
  `console.print`, `sys.stdout` and `sys.stdin` are restored
  (`WrapperUtils.ExecutePluginAndCaptureOutput`, `ToolGenerator.ToolWrapper`).

## Model

| member | source | states |
|---|---|---|
| `Params.TypeOf` | signature_utils.py:45-49 | `type(v)` as an annotation: bool, int, float and str values give those annotations; other values give their class |
| `Params.ParamName` | signature_utils.py:122-125 | a keyword destination gets a trailing "_", any other is kept, and the result is never a keyword |
| `Params.DestOf` | wrapper_utils.py:40 | a trailing "_" is dropped exactly when what precedes it is a keyword |
| `Params.DestOfParamName` | wrapper_utils.py:40 | mapping a parameter name back gives the destination exactly when the destination is not itself keyword + "_" |
| `Params.FromUnderscoreDoesNotRoundTrip` | wrapper_utils.py:40 | the destination `from_` keeps its name but maps back to `from` |
| `SignatureUtils.ElementType` | signature_utils.py:26-39 | a list element is str exactly for unset, str, FileType and custom-function types; int and float give int and float; a class gives that class |
| `SignatureUtils.Dedup` | signature_utils.py:61 | the Literal's members: the same values, each once |
| `SignatureUtils.LiteralOf` | signature_utils.py:61 | `Literal[choices]` holds exactly the declared choices |
| `SignatureUtils.ParamType` | signature_utils.py:18-83 | the precedence: list arity first (`list[element]`); store-true/false give bool; store-const gives the type of the constant, else of the default, else bool; append gives `list[type]`; then choices give exactly `Literal[choices]`; then str for str/FileType/custom functions/untyped non-zero arity, int, float; then bool for arity 0, else Any; never Optional |
| `SignatureUtils.ParamDefault` | signature_utils.py:85-113 | a concrete default is kept; None is dropped when required, becomes [] for `*`/count>1, else None; SUPPRESS gives False for bool, the const, nothing or None; never None when required |
| `SignatureUtils.NullableOf` | signature_utils.py:131-143 | `Optional[t]` unless `t` is already optional or Any |
| `SignatureUtils.ActionToParam` | signature_utils.py:115-153 | "help" gives no parameter; an invalid name raises ValueError; otherwise the keyword-suffixed name (which maps back to the destination unless it is keyword + "_"), `ParamDefault`, and the type made optional iff not required, defaulting to None and not Any |
| `SignatureUtils.ConstSetRaises` | signature_utils.py:172-173 | building the set of constants raises TypeError when a constant is a list |
| `SignatureUtils.BoolPairParam` | signature_utils.py:179-205 | a store-true/store-false pair gives one bool parameter whose default is the true-setter's non-None default, else False |
| `SignatureUtils.Choices` | signature_utils.py:209 | the enumeration's choices are exactly the non-None constants |
| `SignatureUtils.ChoicesAppend` | signature_utils.py:209 | the choices keep declaration order and repeats: those of a concatenation are those of its parts in turn |
| `SignatureUtils.ChoicesOne` | signature_utils.py:209 | one declaration contributes its constant unless it is None |
| `SignatureUtils.FirstChoiceDefault` | signature_utils.py:213-218 | the first member whose usable default is one of the choices |
| `SignatureUtils.FirstUsableDefault` | signature_utils.py:219-221 | the first member with a default that is neither None nor SUPPRESS |
| `SignatureUtils.EnumDefaultSpec` | signature_utils.py:210-224 | the primary member is a member of the group |
| `SignatureUtils.EnumDefaultWhenNone` | signature_utils.py:210-224 | with no usable default the default stays unset and the first member is primary |
| `SignatureUtils.EnumDefault` | signature_utils.py:210-222 | the scan with early exit computes `EnumDefaultSpec` |
| `SignatureUtils.EnumWithoutDefaults` | signature_utils.py:223-242 | an optional enumeration without defaults gets no default and `Optional[Literal[...]]` |
| `SignatureUtils.EnumParam` | signature_utils.py:208-244 | the primary member's suffixed name, with ValueError iff that name is invalid; `Any` without choices, else the Literal of the choices; the default is the first usable default that is a choice, else the first usable default; with none, no default, and Optional unless the first member is required |
| `SignatureUtils.FallbackIndex` | signature_utils.py:246-250 | the representative is the first member with usable help, else the first member |
| `SignatureUtils.FallbackRepresentative` | signature_utils.py:245-254 | the scan computes `FallbackIndex` |
| `SignatureUtils.WithStdin` | signature_utils.py:261-269 | `_stdin_content` is appended for stdin plugins unless already present; nothing else changes |
| `SignatureUtils.OverwriteParamOf` | signature_utils.py:274-280 | the synthetic parameter carries the configured name, default and annotation |
| `SignatureUtils.WithOverwrites` | signature_utils.py:271-281 | the parameters are kept, followed, in table order, by the configured parameter of exactly those entries whose name is neither an existing parameter's nor an earlier entry's (`AddedEntries`); every configured name is present afterwards |
| `SignatureUtils.AddedNameSource` | signature_utils.py:271-281 | every appended name is the name of a table entry |
| `SignatureUtils.OverwriteAddStep` | signature_utils.py:272-273 | an entry is skipped exactly when its name is already taken by a parameter or an earlier entry |
| `SignatureUtils.Required` | signature_utils.py:292 | only parameters without a default |
| `SignatureUtils.Defaulted` | signature_utils.py:292 | only parameters with a default |
| `SignatureUtils.Partition` | signature_utils.py:290-293 | the stable sort leaves no-default parameters before defaulted ones |
| `SignatureUtils.SortRequiredFirst` | signature_utils.py:289-293 | the sort computes `Partition` |
| `SignatureUtils.CreateToolSignature` | signature_utils.py:155-308 | the synthesis loop computes `SignatureFor` |
| `SignatureUtils.GroupParam` | signature_utils.py:168-259 | defines one group's outcome: TypeError for a list constant among store-const members, then bool pair, enumeration, the representative, or the single declaration |
| `SignatureUtils.CollectParams` | signature_utils.py:168-259 | defines the collected parameters: the groups' parameters in order, or the first exception |
| `SignatureUtils.SignatureFor` | signature_utils.py:155-308 | defines the synthesis: the exception, or `ctx` followed by the sorted parameters, rejected when `inspect.Signature` would refuse them (see `SignatureOutcome`) |
| `SignatureUtils.CollectGroupParams` | signature_utils.py:168-259 | the loop over the groups computes `CollectParams`: the parameters in group order, or the first exception |
| `SignatureUtils.GroupToParam` | signature_utils.py:170-259 | one group's dispatch (list constant, bool pair, enumeration, representative, single declaration) computes `GroupParam` |
| `SignatureUtils.AddSyntheticParams` | signature_utils.py:261-281 | appending `_stdin_content` and the overwrite parameters computes `Unsorted` |
| `SignatureUtils.PartitionPermutes` | signature_utils.py:292 | sorting is a permutation |
| `SignatureUtils.AllRequiredPartition` | signature_utils.py:292 | with no defaults the order is unchanged |
| `SignatureUtils.PartitionOfOrderedIsIdentity` | signature_utils.py:292 | an already ordered list is unchanged (stability) |
| `SignatureUtils.UniqueNamesAfterSort` | signature_utils.py:287-302 | sorting neither creates nor removes duplicate names |
| `SignatureUtils.SignatureOutcome` | signature_utils.py:155-308 | Raised iff a parameter raised; Built iff names are unique; a built signature has `ctx` first and only once, defaults last, and is a permutation of the collected parameters |
| `SignatureUtils.CtxFirstDefaultsLast` | signature_utils.py:283-293 | `ctx` (no default) in front keeps the order valid |
| `SignatureUtils.OnlyOneCtx` | signature_utils.py:283-287 | with unique names no other parameter is called `ctx` |
| `SignatureUtils.DeclaredCtxIsRejected` | signature_utils.py:283-305 | a plugin declaring `ctx` gets no signature |
| `SignatureUtils.SyntheticParamsPresent` | signature_utils.py:261-281 | a built signature contains `_stdin_content` for stdin plugins and every overwrite parameter |
| `SignatureUtils.StarArityExample` | signature_utils.py:23-40 | `nargs='*'` without a default gives `list[str] = []`, not Optional, since `[]` is not None |
| `SignatureUtils.BoolPairExample` | signature_utils.py:179-205 | a concrete store-true/store-false pair |
| `SignatureUtils.EnumExample` | signature_utils.py:208-244 | a concrete three-way store-const group becomes an optional Literal |
| `SignatureUtils.TrueFalseConstsAreEnum` | signature_utils.py:172-177 | store-const True/False members form an enumeration |
| `SignatureUtils.NamingExample` | signature_utils.py:119-125 | dest `from` gives `from_`; dest `help` gives nothing |
| `Docstring.ReprAll` | signature_utils.py:324-325 | each Literal member rendered with `repr` |
| `Docstring.Lookup` | signature_utils.py:356-357 | the group of a destination, found iff declared |
| `Docstring.FirstUsableHelp` | signature_utils.py:358-361 | the first help that is non-empty and not SUPPRESS, present iff one exists |
| `Docstring.HelpAsWritten` | signature_utils.py:327-363 | defines the help as written: the stdin help, else the first usable help, else the first declaration's non-empty help, else "No help available." |
| `Docstring.HelpFor` | signature_utils.py:355-363 | defines the corrected help: as written, but without falling back to an unusable first help |
| `Docstring.HelpForShowsUsableHelp` | signature_utils.py:327-363 | the shown help is never empty nor SUPPRESS; it is a usable help of the destination, or "No help available." |
| `Docstring.HelpAsWrittenOnlyLeaksSuppress` | signature_utils.py:355-363 | the help as written is never empty, and differs from the corrected help only by showing "==SUPPRESS==" where the corrected one finds no usable help |
| `Docstring.SuppressedHelpIsShown` | signature_utils.py:362-363 | a destination whose only help is SUPPRESS shows "==SUPPRESS==" as written |
| `Docstring.DefaultSuffix` | signature_utils.py:365-374 | no default shows nothing; "" shows `= ""`; False on a bool is hidden; None is hidden exactly when the type text contains `Optional[` or `NoneType` or ends in `| None`, else shown as `= repr(None)`; any other shows `= repr` |
| `Docstring.NoneDefaultOfOptionalHidden` | signature_utils.py:371-372 | a None default of an Optional or `| None` parameter is not shown |
| `Docstring.ParamLine` | signature_utils.py:322-375 | defines one line: indented name, type text, shown default, and the help as written |
| `Docstring.DocParts` | signature_utils.py:319-376 | defines the parts: the summary, then the "Args:" header and the lines when there are parameters |
| `Docstring.ParamLines` | signature_utils.py:322-376 | one line per parameter |
| `Docstring.ParamLinesAt` | signature_utils.py:322-376 | line i describes parameter i |
| `Docstring.DocPartsShape` | signature_utils.py:319-376 | summary, the "Args:" header, then one line per parameter in signature order |
| `Docstring.FindHelp` | signature_utils.py:358-361 | the help scan computes the first usable help |
| `Docstring.BuildParamLine` | signature_utils.py:322-375 | the line built computes `ParamLine`, with the help scan and the fallback to the first declaration's help as written |
| `Docstring.BuildToolDocstring` | signature_utils.py:310-376 | the description is `DocParts` joined by newlines, with every line as written |
| `WrapperUtils.Sys.constructor` | wrapper_utils.py:56 | the interpreter streams |
| `WrapperUtils.ArgDict.constructor` | wrapper_utils.py:34 | the argument dictionary |
| `WrapperUtils.HostConfig.constructor` | wrapper_utils.py:97 | the host's overwrite map |
| `WrapperUtils.DestOfInjective` | wrapper_utils.py:40 | distinct non-keyword names map to distinct destinations |
| `WrapperUtils.CliArgsFor` | wrapper_utils.py:30-46 | defines the rehydrated arguments: each non-ctx parameter's destination with the passed value, else its default (see `CliArgsKeys`, `CliArgsValue`) |
| `WrapperUtils.CliArgsKeys` | wrapper_utils.py:34-46 | a key is present iff some non-ctx parameter maps to it and was passed or has a default; `ctx` never is |
| `WrapperUtils.CliArgsValue` | wrapper_utils.py:40-45 | each parameter's destination holds the caller's value, else the default, and is absent otherwise |
| `WrapperUtils.CliArgsRoundTrip` | wrapper_utils.py:40-43 | when every parameter is passed, the arguments are the keyword arguments with suffixes removed |
| `WrapperUtils.PrepareCliArgs` | wrapper_utils.py:30-46 | the loop computes `CliArgsFor`, without `ctx` |
| `WrapperUtils.StdinRedirector.constructor` | wrapper_utils.py:49-51 | no original stream saved yet |
| `WrapperUtils.StdinRedirector.Enter` | wrapper_utils.py:53-58 | with content, saves `sys.stdin` and installs a text stream; otherwise nothing changes |
| `WrapperUtils.StdinRedirector.Exit` | wrapper_utils.py:60-65 | restores a saved non-None stream and never suppresses |
| `WrapperUtils.RedirectedRoundTrip` | wrapper_utils.py:53-65 | enter then exit leaves a non-None `sys.stdin` as it was |
| `WrapperUtils.StdinContent` | wrapper_utils.py:77-78 | content exists iff the plugin consumes stdin and `_stdin_content` was passed non-None |
| `WrapperUtils.HandleStdin` | wrapper_utils.py:67-83 | removes `_stdin_content` exactly when there is content; the redirector holds it |
| `WrapperUtils.OverwritesFor` | wrapper_utils.py:99-103 | every written key is the config key of a passed non-None parameter |
| `WrapperUtils.AppliedNames` | wrapper_utils.py:99-106 | exactly the configured parameters passed non-None |
| `WrapperUtils.ApplyCliConfigOverwrites` | wrapper_utils.py:86-109 | the overwrite map gains those entries; the applied parameters leave the arguments; the map is written back only if something changed |
| `WrapperUtils.DropArg` | wrapper_utils.py:104-105 | the argument is removed when present; nothing else changes |
| `WrapperUtils.NoteTitleOverwrite` | wrapper_utils.py:96-109 | for `note`, a passed `title` becomes `notetitle` |
| `WrapperUtils.OpenedFiles` | wrapper_utils.py:128-138 | the handles of the paths that open, in order; all of them when all open |
| `WrapperUtils.OpenFiles` | wrapper_utils.py:128-138 | the loop computes `OpenedFiles` |
| `WrapperUtils.PopulatedValue` | wrapper_utils.py:127-142 | values are copied verbatim except the `file` plugin's `file` list |
| `WrapperUtils.Populated` | wrapper_utils.py:126-142 | the same keys as the arguments |
| `WrapperUtils.PopulateConfigForSpecialPlugins` | wrapper_utils.py:112-151 | true iff the plugin is listed; then the map is the old one updated with every argument |
| `WrapperUtils.AdjustedArgs` | wrapper_utils.py:182-187 | when the correction applies, `finish` becomes None and nothing else changes; otherwise the arguments are unchanged |
| `WrapperUtils.AdjustIdempotent` | wrapper_utils.py:176-187 | the correction is idempotent and fires iff `finish` was False and becomes None |
| `WrapperUtils.AdjustProjectToolArgs` | wrapper_utils.py:153-190 | the arguments become `AdjustedArgs` |
| `WrapperUtils.Rendered` | wrapper_utils.py:213-222 | decoded bytes (or their repr) when the buffer was used and holds bytes, else the text; always stripped (`CapturingStdOut.GetValue` returns it for the sink's state) |
| `WrapperUtils.CapturingStdOut.constructor` | wrapper_utils.py:194-197 | both buffers empty, flag clear |
| `WrapperUtils.CapturingStdOut.Write` | wrapper_utils.py:199-201 | appends to the text and returns the length |
| `WrapperUtils.CapturingStdOut.Buffer` | wrapper_utils.py:203-207 | sets the flag, nothing else |
| `WrapperUtils.CapturingStdOut.BufferWrite` | wrapper_utils.py:203-207 | a write through the buffer sets the flag and appends bytes |
| `WrapperUtils.CapturingStdOut.IsATty` | wrapper_utils.py:224-225 | never a terminal |
| `WrapperUtils.CapturingStdOut.Encoding` | wrapper_utils.py:227-229 | "utf-8" |
| `WrapperUtils.AfterEmissions` | wrapper_utils.py:199-207 | captured size is bounded by what was written; text-only runs never use the buffer |
| `WrapperUtils.TextOnlyRun` | wrapper_utils.py:213-222 | a run that only prints yields its stripped text |
| `WrapperUtils.ExecutionResult` | wrapper_utils.py:266-294 | defines the answer of a run: the captured output, the configuration message for a ValueError, the execution message for another `Exception`, or the propagating exception |
| `WrapperUtils.ErrorMessagesDiffer` | wrapper_utils.py:275-283 | a ValueError gives the configuration message, anything else the execution message |
| `WrapperUtils.Replay` | wrapper_utils.py:268-271 | the sink ends in `AfterEmissions` |
| `WrapperUtils.Answered` | wrapper_utils.py:274-294 | after a run, the answer is `ExecutionResult`: the sink's value, a handler's message, or the exception no handler catches |
| `WrapperUtils.ExecutePluginAndCaptureOutput` | wrapper_utils.py:232-294 | the answer is `ExecutionResult`; on every path, an escaping exception included, `print` and `console.print` are restored and the streams are unchanged |
| `ToolGenerator.DestOrderSpec` | tool_generator.py:308-313 | a destination is listed iff a non-help declaration has it, once |
| `ToolGenerator.ActionsForSpec` | tool_generator.py:308-313 | a group holds exactly the non-help declarations of its destination |
| `ToolGenerator.Consolidated` | tool_generator.py:303-320 | defines the groups: per destination in first-seen order, its non-help declarations (see `ConsolidatedGroups`) |
| `ToolGenerator.ConsolidatedGroups` | tool_generator.py:303-320 | groups are non-empty, distinct, hold only their destination, and lose no non-help declaration |
| `ToolGenerator.ConsolidateActions` | tool_generator.py:303-320 | the loop computes `Consolidated` |
| `ToolGenerator.ToolName` | tool_generator.py:358-360 | "_" is appended iff the plugin name is a keyword |
| `ToolGenerator.PluginOutcomeOf` | tool_generator.py:322-366 | defines one plugin's outcome: skipped, an escaping exception, or a tool with its name, signature and description |
| `ToolGenerator.PluginOutcomeSpec` | tool_generator.py:322-366 | no tool iff `add_arguments` raised or the signature was rejected; a tool is named by `ToolName`, starts with `ctx`, defaults last |
| `ToolGenerator.GeneratedSpec` | tool_generator.py:55-65 | every registered plugin tool comes from a plugin, was accepted, and carries its name; the run stops early iff a plugin raised |
| `ToolGenerator.ToolGenerator.constructor` | tool_generator.py:51-53 | nothing registered |
| `ToolGenerator.ToolGenerator.GenerateToolFromPlugin` | tool_generator.py:322-366 | registers the plugin's tool iff made and accepted; reports an escaping exception |
| `ToolGenerator.ToolGenerator.GenerateTools` | tool_generator.py:55-65 | plugin tools in order, then the three hand-written tools unless a plugin raised |
| `ToolGenerator.PipelineArgs` | tool_generator.py:385-415 | defines the arguments after rehydration, stdin removal, overwrites and the project correction |
| `ToolGenerator.CtorArgs` | tool_generator.py:418-429 | defines the constructor arguments: none for config-populating plugins, else `PipelineArgs` |
| `ToolGenerator.CallResult` | tool_generator.py:380-452 | defines a call's answer: the missing-host message, the instantiation message, or `ExecutionResult` |
| `ToolGenerator.ConfigAfterCall` | tool_generator.py:395-423 | defines the config after a call: the overwrites, then for listed plugins every remaining argument |
| `ToolGenerator.PipelineArgsSpec` | tool_generator.py:385-405 | the plugin never receives `ctx`, redirected stdin text, or overwrite values; other arguments keep their values except `finish` |
| `ToolGenerator.ConfigAfterCallSpec` | tool_generator.py:418-434 | `file` is built without arguments and finds them in the config; other plugins get all arguments |
| `ToolGenerator.ToolWrapper` | tool_generator.py:380-453 | the steps in order; the answer (`CallResult`, a propagating exception included), constructor arguments and config are the specification's; stdout, and a non-None stdin, are restored on every path |
| `ToolGenerator.RunInitialized` | tool_generator.py:395-452 | with a host: the result is `CallResult`, the constructor receives `CtorArgs`, the config ends as `ConfigAfterCall`, and both streams are unchanged |
| `FindingTools.Keep` | tool_generator.py:178-184 | a finding is kept iff the status, severity and title filters all pass, case-insensitively; an error needs a set filter meeting a non-string value |
| `FindingTools.SummaryOf` | tool_generator.py:186-192 | defines a listing entry, with "N/A" for missing data keys |
| `FindingTools.Filtered` | tool_generator.py:165-193 | defines the listing: the entries of the kept findings in order, or the first error (see `FilteredExact`) |
| `FindingTools.FilterFindings` | tool_generator.py:165-193 | the filter loop computes `Filtered` |
| `FindingTools.FilteredExact` | tool_generator.py:178-192 | a listing holds exactly the entries of the findings passing every filter |
| `FindingTools.NoFiltersListsAll` | tool_generator.py:165-193 | without filters every finding is listed in order |
| `FindingTools.KeepIgnoresCase` | tool_generator.py:179-184 | filters that lower-case alike agree, for status, severity and title; findings without status pass the status filter; findings without severity fail a set severity filter |
| `FindingTools.TargetOf` | tool_generator.py:138 | defines the target: a non-empty `project_id`, else the configured project |
| `FindingTools.ProjectsApi.constructor` | tool_generator.py:143 | the client's current project |
| `FindingTools.ProjectsApi.SwitchProject` | tool_generator.py:147 | success makes the project current; failure changes nothing |
| `FindingTools.ListFindingsResults` | tool_generator.py:138-193 | the missing-project error iff no target; a failed switch is an error; a listing is the filtered findings of the target |
| `FindingTools.ListFindingsSwitchBackIrrelevant` | tool_generator.py:157-162 | a failed switch-back does not change the answer |
| `FindingTools.ListFindingsLeavesClientSwitched` | tool_generator.py:154-163 | when fetching raises after a switch, the client stays on the target |
| `FindingTools.ListFindingsRestoringReturns` | tool_generator.py:154-163 | the corrected listing returns to the original project with the same answer |
| `FindingTools.ListFindingsSpec` | tool_generator.py:137-197 | defines `list_findings` as written: the answer and the client's final project |
| `FindingTools.ListFindingsRestoringSpec` | tool_generator.py:137-197 | defines the corrected `list_findings`, switching back on every path after a switch |
| `FindingTools.ListFindings` | tool_generator.py:137-197 | the method computes `ListFindingsSpec` |
| `FindingTools.ListFindingsRestoring` | tool_generator.py:137-197 | the corrected method computes `ListFindingsRestoringSpec` |
| `FindingTools.FirstMatch` | tool_generator.py:250-254 | the first finding with the id, none iff absent |
| `FindingTools.FindFirst` | tool_generator.py:250-254 | the scan computes `FirstMatch` |
| `FindingTools.DetailsAnswer` | tool_generator.py:264-282 | found iff some finding has the id; otherwise the not-found message |
| `FindingTools.DetailsLeavesClientSwitched` | tool_generator.py:249-262 | when fetching raises after a switch, the client stays on the target |
| `FindingTools.DetailsRestoringReturns` | tool_generator.py:249-262 | the corrected lookup returns to the original project with the same answer |
| `FindingTools.DetailsSpec` | tool_generator.py:228-286 | defines `get_finding_details` as written: the answer and the client's final project |
| `FindingTools.DetailsRestoringSpec` | tool_generator.py:228-286 | defines the corrected `get_finding_details`, switching back on every path after a switch |
| `FindingTools.GetFindingDetails` | tool_generator.py:228-286 | the method computes `DetailsSpec` |
| `FindingTools.GetFindingDetailsRestoring` | tool_generator.py:228-286 | the corrected method computes `DetailsRestoringSpec` |

## Left out

- Building the argparse parser and calling `add_arguments` are not modelled: the declarations (or the exception) are an input.
- `str()` of typing objects is approximated by `Docstring.TypeText`, and `repr` of values is a parameter.
- `action.default is argparse.SUPPRESS` (an identity test, signature_utils.py:94) is modelled as value equality with the SUPPRESS string.
- `plugin_meta.get('summary', ...)` with a `summary` key present and None renders "None" (signature_utils.py:319); the model's summary is an `Option<string>` and cannot hold that case.
- `str.isidentifier`, `str.lower` and `str.isspace` are ASCII approximations.
- UTF-8 decoding and `repr` of bytes in the capturing sink are parameters.
- Opening files is an oracle (`opens`). Handles are never closed, and that leak is not modelled.
- A plugin's `run()` is a script of writes and how it ends. Its constructor is an oracle. Rich table rendering at width 120 is not modelled.
- FastMCP registration is an oracle (`accepts`) for plugin tools.
- `ToolGenerator.RunInitialized`: an exception from the plugin constructor is always one `except Exception` catches; a `SystemExit` or `KeyboardInterrupt` raised while constructing is not modelled.
- `ToolGenerator.ToolGenerator.GenerateTools`: the three hand-written tools are assumed to register without error. In the code such an error would escape.
- `upload_template` (JSON/TOML decoding, `FindingTemplate`, the upload call) is not modelled.
- The JSON encoding of the finding tools' results is not modelled; they return records.
- The API client's `switch_project` and `get_findings` are oracles.
- `Context` logging, the module logger, and the debug dumps in `_consolidate_actions` are not modelled.
- mcp_server.py (startup, environment, stream shielding) is not part of this model.
- Concurrency around the process-wide `sys.stdin`/`sys.stdout` and the shared overwrite map is not modelled; the model is single-threaded.
- Floating-point values are reals.

## Findings

| source | as written | input that shows it | evidently intended | confidence | as-written member | corrected member |
|---|---|---|---|---|---|---|
| signature_utils.py:362-363 | when no declaration has usable help, the first declaration's help is shown whatever it is; the generated description keeps this | one declaration of `hidden` with `help=argparse.SUPPRESS` | suppressed help is never shown; "No help available." instead | medium, not executed | `Docstring.SuppressedHelpIsShown` | `Docstring.HelpForShowsUsableHelp` |
| tool_generator.py:154-163 | `list_findings` switches back only after `get_findings` returns; if it raises, the handler returns with the client still on the target project | current project `p1`, `project_id="p2"`, `get_findings` raising | switch back on every path after a successful switch | high, not executed | `FindingTools.ListFindingsLeavesClientSwitched` | `FindingTools.ListFindingsRestoringReturns` |
| tool_generator.py:249-262 | `get_finding_details` has the same missing switch-back when `get_findings` raises | current project `p1`, `project_id="p2"`, `get_findings` raising | switch back on every path after a successful switch | high, not executed | `FindingTools.DetailsLeavesClientSwitched` | `FindingTools.DetailsRestoringReturns` |
