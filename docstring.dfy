/**
 * The description attached to a generated tool: the plugin's summary, then
 * one line per signature parameter with its rendered type, its default when
 * it is not the customary one, and the help text of its declaration.
 */
module Docstring {
  import opened PyValues
  import opened Argparse
  import opened Params

  const NoDescription: string := "No description available."
  const NoHelp: string := "No help available."
  const StdinHelp: string := "Content to be passed to the tool via stdin."

  /** The example appended to the stdin help of the "finding" tool. */
  const FindingStdinExample: string :=
    "\n" +
    "Example JSON structure:\n" +
    "```json\n" +
    "{\n" +
    "  \"status\": \"in-progress\",\n" +
    "  \"data\": {\n" +
    "    \"title\": \"Sample Finding Title\",\n" +
    "    \"cvss\": \"CVSS:3.1/AV:N/AC:L/PR:N/UI:N/S:U/C:H/I:N/A:N\",\n" +
    "    \"summary\": \"A brief summary of the finding.\",\n" +
    "    \"description\": \"A detailed description of the vulnerability.\",\n" +
    "    \"recommendation\": \"Detailed steps to mitigate or fix the vulnerability.\",\n" +
    "    \"affected_components\": [\n" +
    "      \"component1.example.com/path\",\n" +
    "      \"component2.example.com/another/path\"\n" +
    "    ],\n" +
    "    \"references\": [\n" +
    "      \"https://cwe.mitre.org/data/definitions/79.html\"\n" +
    "    ]\n" +
    "  }\n" +
    "}\n" +
    "```\n" +
    "Note: For precise structure, use the `get_finding_schema` tool (if available) or refer to the target project's design in SysReptor.\n"

  /** `repr` of each value, in order. */
  function ReprAll(vs: seq<Value>, repr: Value -> string): (r: seq<string>)
    ensures |r| == |vs|
    ensures forall i | 0 <= i < |vs| :: r[i] == repr(vs[i])
  {
    if vs == [] then [] else ReprAll(vs[..|vs| - 1], repr) + [repr(vs[|vs| - 1])]
  }

  /** `str(annotation)` with the "typing." prefixes and the `<class '...'>`
      wrapping removed. `repr` renders Literal members. */
  function TypeText(a: Annot, repr: Value -> string): string {
    match a
    case Str => "str"
    case Int => "int"
    case Float => "float"
    case Bool => "bool"
    case Any => "Any"
    case ListOf(e) => "list[" + TypeText(e, repr) + "]"
    case Literal(cs) => "Literal[" + Join(ReprAll(cs, repr), ", ") + "]"
    case Optional(t) => "Optional[" + TypeText(t, repr) + "]"
    case OrNone(t) => TypeText(t, repr) + " | None"
    case ClassRef(n) => n
    case FileTypeObj => "FileType"
    case CustomFnObj => "function"
    case Context => "fastmcp.server.context.Context"
  }

  /** The declarations of a destination: the first group carrying it. */
  function Lookup(gs: seq<Group>, dest: string): (r: Option<seq<Action>>)
    ensures r.Some? <==> exists i | 0 <= i < |gs| :: gs[i].dest == dest
    ensures r.Some? ==> exists i | 0 <= i < |gs| :: gs[i].dest == dest && gs[i].actions == r.value
  {
    if gs == [] then None
    else if gs[0].dest == dest then Some(gs[0].actions)
    else
      var r := Lookup(gs[1..], dest);
      assert forall i | 0 <= i < |gs| - 1 :: gs[1..][i] == gs[i + 1];
      r
  }

  /** The help text of the first declaration with usable help. */
  function FirstUsableHelp(acts: seq<Action>): (r: Option<string>)
    ensures r.Some? <==> exists i | 0 <= i < |acts| :: HasUsableHelp(acts[i])
    ensures r.Some? ==> exists i | 0 <= i < |acts| ::
      && HasUsableHelp(acts[i]) && acts[i].help.value == r.value
      && forall k | 0 <= k < i :: !HasUsableHelp(acts[k])
  {
    if acts == [] then None
    else if HasUsableHelp(acts[0]) then Some(acts[0].help.value)
    else
      var r := FirstUsableHelp(acts[1..]);
      assert forall i | 0 <= i < |acts| - 1 :: acts[1..][i] == acts[i + 1];
      r
  }

  /** The help shown for the stdin parameter. */
  function StdinHelpFor(plugin: string): string {
    if plugin == "finding" then StdinHelp + FindingStdinExample else StdinHelp
  }

  /** The help lookup as written: the first usable help of the parameter's
      destination; failing that, the first declaration's help when it is a
      non-empty string (which can only be the SUPPRESS marker). */
  function HelpAsWritten(plugin: string, name: string, gs: seq<Group>): string {
    if name == "_stdin_content" then StdinHelpFor(plugin)
    else match Lookup(gs, DestOf(name))
      case None => NoHelp
      case Some(acts) =>
        var h := match FirstUsableHelp(acts) case Some(t) => t case None => NoHelp;
        if h == NoHelp && |acts| > 0 && acts[0].help.Some? && acts[0].help.value != "" then acts[0].help.value
        else h
  }

  /** The help of a parameter: the stdin help for `_stdin_content`; the first
      usable help among its destination's declarations; else the default text. */
  function HelpFor(plugin: string, name: string, gs: seq<Group>): string {
    if name == "_stdin_content" then StdinHelpFor(plugin)
    else match Lookup(gs, DestOf(name))
      case None => NoHelp
      case Some(acts) =>
        match FirstUsableHelp(acts)
        case Some(t) => t
        case None => NoHelp
  }

  /** The help shown is never empty nor the SUPPRESS marker; outside the stdin
      parameter it is the default text or the usable help of one of the
      destination's declarations, and it is the first such help when there
      is one. */
  lemma HelpForShowsUsableHelp(plugin: string, name: string, gs: seq<Group>)
    ensures HelpFor(plugin, name, gs) != "" && HelpFor(plugin, name, gs) != SuppressText
    ensures name != "_stdin_content" && HelpFor(plugin, name, gs) != NoHelp ==>
      Lookup(gs, DestOf(name)).Some? &&
      exists i | 0 <= i < |Lookup(gs, DestOf(name)).value| ::
        HasUsableHelp(Lookup(gs, DestOf(name)).value[i]) &&
        Lookup(gs, DestOf(name)).value[i].help.value == HelpFor(plugin, name, gs)
    ensures (name != "_stdin_content" && Lookup(gs, DestOf(name)).Some? &&
             FirstUsableHelp(Lookup(gs, DestOf(name)).value).Some?) ==>
      HelpFor(plugin, name, gs) == FirstUsableHelp(Lookup(gs, DestOf(name)).value).value
  {
    var r := HelpFor(plugin, name, gs);
    if name == "_stdin_content" {
      assert StdinHelpFor(plugin)[..|StdinHelp|] == StdinHelp;
      assert StdinHelp[0] == 'C';
    } else if Lookup(gs, DestOf(name)).Some? {
      var acts := Lookup(gs, DestOf(name)).value;
      assert NoHelp[0] == 'N';
    } else {
      assert NoHelp[0] == 'N';
    }
  }

  /** The two lookups differ only where the one as written shows the
      SUPPRESS marker, which needs the corrected one to find no usable help;
      neither is ever empty. */
  lemma HelpAsWrittenOnlyLeaksSuppress(plugin: string, name: string, gs: seq<Group>)
    ensures HelpAsWritten(plugin, name, gs) != ""
    ensures HelpAsWritten(plugin, name, gs) != HelpFor(plugin, name, gs) ==>
      HelpAsWritten(plugin, name, gs) == SuppressText && HelpFor(plugin, name, gs) == NoHelp
  {
    HelpForShowsUsableHelp(plugin, name, gs);
    if name != "_stdin_content" && Lookup(gs, DestOf(name)).Some? {
      var acts := Lookup(gs, DestOf(name)).value;
      if |acts| > 0 && HasUsableHelp(acts[0]) {
        assert FirstUsableHelp(acts) == Some(acts[0].help.value);
      }
    }
  }

  /** A hidden option (help SUPPRESS) is documented with the marker itself. */
  lemma SuppressedHelpIsShown()
    ensures HelpAsWritten("scan", "hidden",
      [Group("hidden", [Action("hidden", Store, Absent, Unset, VNone, VNone, false, Some(SuppressText), [])])])
      == SuppressText
    ensures HelpFor("scan", "hidden",
      [Group("hidden", [Action("hidden", Store, Absent, Unset, VNone, VNone, false, Some(SuppressText), [])])])
      == NoHelp
  {
    var a := Action("hidden", Store, Absent, Unset, VNone, VNone, false, Some(SuppressText), []);
    assert !HasUsableHelp(a);
    assert FirstUsableHelp([a][1..]) == None;
    assert !IsSuffixedKeyword("hidden") by {
      assert "hidden"[..5] == "hidde";
    }
  }

  /** The type text marks None as allowed. */
  predicate ShowsOptional(typeText: string) {
    IsSubstring("Optional[", typeText) || IsSubstring("NoneType", typeText) || EndsWith(typeText, "| None")
  }

  /** The default as shown after the type: nothing when there is none, when
      a bool defaults to False, or when a type text allowing None defaults to
      None; `""` for the empty string; else ` = ` and its `repr`. */
  function DefaultSuffix(p: Param, typeText: string, repr: Value -> string): (r: string)
    ensures p.default == Empty ==> r == ""
    ensures p.default == Given(VStr("")) ==> r == " = \"\""
    ensures p.default == Given(VBool(false)) && p.annot == Bool ==> r == ""
    ensures p.default == Given(VNone) && ShowsOptional(typeText) ==> r == ""
    ensures p.default == Given(VNone) && !ShowsOptional(typeText) ==> r == " = " + repr(VNone)
    ensures (p.default.Given? && p.default.v != VStr("") && p.default.v != VNone &&
             !(p.default.v == VBool(false) && p.annot == Bool)) ==> r == " = " + repr(p.default.v)
  {
    match p.default
    case Empty => ""
    case Given(v) =>
      if v == VStr("") then " = \"\""
      else if v == VBool(false) && p.annot == Bool then ""
      else if v == VNone && ShowsOptional(typeText) then ""
      else " = " + repr(v)
  }

  lemma PrefixIsSubstring(needle: string, rest: string)
    ensures IsSubstring(needle, needle + rest)
  {
    assert (needle + rest)[..|needle|] == needle;
  }

  /** A None default of an Optional or `| None` annotation is not shown. */
  lemma NoneDefaultOfOptionalHidden(p: Param, repr: Value -> string)
    requires p.default == Given(VNone) && (p.annot.Optional? || p.annot.OrNone?)
    ensures DefaultSuffix(p, TypeText(p.annot, repr), repr) == ""
  {
    var t := TypeText(p.annot, repr);
    if p.annot.Optional? {
      PrefixIsSubstring("Optional[", TypeText(p.annot.inner, repr) + "]");
      assert t == "Optional[" + (TypeText(p.annot.inner, repr) + "]");
    } else {
      assert t[|t| - 6..] == "| None";
    }
  }

  /** One parameter's line of the description, with the help found by the
      lookup as written. */
  function ParamLine(plugin: string, p: Param, gs: seq<Group>, repr: Value -> string): string {
    var text := TypeText(p.annot, repr);
    "    " + p.name + " (" + text + ")" + DefaultSuffix(p, text, repr) + ": " + HelpAsWritten(plugin, p.name, gs)
  }

  function ParamLines(plugin: string, ps: seq<Param>, gs: seq<Group>, repr: Value -> string): (r: seq<string>)
    ensures |r| == |ps|
  {
    if ps == [] then []
    else ParamLines(plugin, ps[..|ps| - 1], gs, repr) + [ParamLine(plugin, ps[|ps| - 1], gs, repr)]
  }

  lemma {:induction false} ParamLinesAt(plugin: string, ps: seq<Param>, gs: seq<Group>, repr: Value -> string, i: nat)
    requires i < |ps|
    ensures ParamLines(plugin, ps, gs, repr)[i] == ParamLine(plugin, ps[i], gs, repr)
  {
    if i < |ps| - 1 {
      ParamLinesAt(plugin, ps[..|ps| - 1], gs, repr, i);
    }
  }

  /** `plugin_meta.get('summary', ...)`. */
  function SummaryText(summary: Option<string>): string {
    match summary case Some(s) => s case None => NoDescription
  }

  /** The parts joined into the description. */
  function DocParts(plugin: string, summary: Option<string>, ps: seq<Param>, gs: seq<Group>, repr: Value -> string): seq<string> {
    if |ps| == 0 then [SummaryText(summary)]
    else [SummaryText(summary), "\n\nArgs:"] + ParamLines(plugin, ps, gs, repr)
  }

  /** The description is the summary alone, or the summary, the "Args:"
      header and one line per parameter, in signature order. */
  lemma DocPartsShape(plugin: string, summary: Option<string>, ps: seq<Param>, gs: seq<Group>, repr: Value -> string, i: nat)
    requires i < |ps|
    ensures |DocParts(plugin, summary, ps, gs, repr)| == |ps| + 2
    ensures DocParts(plugin, summary, ps, gs, repr)[0] == SummaryText(summary)
    ensures DocParts(plugin, summary, ps, gs, repr)[1] == "\n\nArgs:"
    ensures DocParts(plugin, summary, ps, gs, repr)[i + 2] == ParamLine(plugin, ps[i], gs, repr)
  {
    var lines := ParamLines(plugin, ps, gs, repr);
    var parts := [SummaryText(summary), "\n\nArgs:"] + lines;
    assert DocParts(plugin, summary, ps, gs, repr) == parts;
    assert parts[i + 2] == lines[i];
    ParamLinesAt(plugin, ps, gs, repr, i);
  }

  /** The first usable help of a destination's declarations, by a scan. */
  method FindHelp(acts: seq<Action>) returns (help: string)
    ensures help == match FirstUsableHelp(acts) case Some(t) => t case None => NoHelp
  {
    help := NoHelp;
    var i := 0;
    while i < |acts|
      invariant 0 <= i <= |acts|
      invariant FirstUsableHelp(acts) == FirstUsableHelp(acts[i..])
    {
      if HasUsableHelp(acts[i]) {
        help := acts[i].help.value;
        return;
      }
      assert acts[i..][1..] == acts[i + 1..];
      i := i + 1;
    }
  }

  lemma ParamLinesSnoc(plugin: string, ps: seq<Param>, gs: seq<Group>, repr: Value -> string, i: nat)
    requires i < |ps|
    ensures ParamLines(plugin, ps[..i + 1], gs, repr) == ParamLines(plugin, ps[..i], gs, repr) + [ParamLine(plugin, ps[i], gs, repr)]
  {
    assert ps[..i + 1][..i] == ps[..i];
  }

  /** Builds one parameter's line: name, type, shown default and help. */
  method BuildParamLine(plugin: string, p: Param, gs: seq<Group>, repr: Value -> string) returns (line: string)
    ensures line == ParamLine(plugin, p, gs, repr)
  {
    var help: string;
    if p.name == "_stdin_content" {
      help := StdinHelpFor(plugin);
    } else {
      var found := Lookup(gs, DestOf(p.name));
      help := NoHelp;
      if found.Some? {
        help := FindHelp(found.value);
        if help == NoHelp && |found.value| > 0 && found.value[0].help.Some? && found.value[0].help.value != "" {
          help := found.value[0].help.value;
        }
      }
    }
    var text := TypeText(p.annot, repr);
    line := "    " + p.name + " (" + text + ")" + DefaultSuffix(p, text, repr) + ": " + help;
  }

  /** Builds the description line by line. */
  method BuildToolDocstring(plugin: string, summary: Option<string>, ps: seq<Param>, gs: seq<Group>, repr: Value -> string)
    returns (doc: string)
    ensures doc == Join(DocParts(plugin, summary, ps, gs, repr), "\n")
  {
    var parts := [SummaryText(summary)];
    if |ps| > 0 {
      var lines: seq<string> := [];
      var i := 0;
      while i < |ps|
        invariant 0 <= i <= |ps|
        invariant lines == ParamLines(plugin, ps[..i], gs, repr)
      {
        var line := BuildParamLine(plugin, ps[i], gs, repr);
        ParamLinesSnoc(plugin, ps, gs, repr, i);
        lines := lines + [line];
        i := i + 1;
      }
      assert ps[..|ps|] == ps;
      parts := [SummaryText(summary), "\n\nArgs:"] + lines;
    }
    doc := Join(parts, "\n");
  }
}
