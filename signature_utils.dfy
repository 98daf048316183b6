/**
 * From argparse declarations to a tool signature: the type and default of
 * one declaration, the consolidation of several declarations that share a
 * destination, the synthetic parameters, and the final ordering.
 */
module SignatureUtils {
  import opened PyValues
  import opened Argparse
  import opened Params
  import opened ToolConfig

  // ---------------------------------------------------------------------
  // Type of one declaration
  // ---------------------------------------------------------------------

  /** Element type of a list-valued declaration: str for unset, str,
      FileType and plain functions; int/float when declared; else the class. */
  function ElementType(t: ArgType): (r: Annot)
    ensures r == Str <==> t in {Unset, TStr, TFileType, TCustomFn}
    ensures t == TInt ==> r == Int
    ensures t == TFloat ==> r == Float
    ensures t.TClass? ==> r == ClassRef(t.name)
  {
    match t
    case Unset => Str
    case TStr => Str
    case TInt => Int
    case TFloat => Float
    case TFileType => Str
    case TCustomFn => Str
    case TClass(n) => ClassRef(n)
  }

  /** The declared `type=` object itself as an annotation (str when unset). */
  function TypeObject(t: ArgType): Annot {
    match t
    case Unset => Str
    case TStr => Str
    case TInt => Int
    case TFloat => Float
    case TFileType => FileTypeObj
    case TCustomFn => CustomFnObj
    case TClass(n) => ClassRef(n)
  }

  /** Drops repeated values, keeping first occurrences. */
  function Dedup(s: seq<Value>): (r: seq<Value>)
    ensures forall v :: v in r <==> v in s
    ensures forall i, j | 0 <= i < j < |r| :: r[i] != r[j]
    ensures |r| <= |s|
  {
    if s == [] then []
    else
      var p := Dedup(s[..|s| - 1]);
      assert s == s[..|s| - 1] + [s[|s| - 1]];
      if s[|s| - 1] in p then p else p + [s[|s| - 1]]
  }

  /** `Literal[tuple(choices)]`: typing drops repeated (value, type) pairs,
      and keeps the choices as given when one of them is unhashable. */
  function LiteralOf(choices: seq<Value>): (r: Annot)
    ensures r.Literal? && forall v :: v in r.choices <==> v in choices
  {
    if forall i | 0 <= i < |choices| :: Hashable(choices[i]) then Literal(Dedup(choices))
    else Literal(choices)
  }

  /** The annotation of one declaration, by a fixed precedence: list arity,
      then the store-true/false/const and append actions, then choices, then
      the declared scalar type, then the arity-zero flag, else Any. */
  function ParamType(a: Action): (r: Annot)
    ensures IsListArity(a.nargs) ==> r == ListOf(ElementType(a.argType))
    ensures !IsListArity(a.nargs) && a.kind in {StoreTrue, StoreFalse} ==> r == Bool
    ensures !IsListArity(a.nargs) && a.kind == Append ==> r == ListOf(TypeObject(a.argType))
    ensures r.Literal? <==>
      !IsListArity(a.nargs) && !IsStoreConst(a) && a.kind != Append && |a.choices| > 0
    ensures !IsListArity(a.nargs) && a.kind == StoreConst ==>
      r == (if a.constant != VNone then TypeOf(a.constant)
            else if a.default != VNone then TypeOf(a.default)
            else Bool)
    ensures !IsStoreConst(a) && !IsListArity(a.nargs) && a.kind != Append && |a.choices| > 0 ==>
      r == LiteralOf(a.choices)
    ensures !IsStoreConst(a) && !IsListArity(a.nargs) && a.kind != Append && |a.choices| == 0 ==>
      (r == Str <==> a.argType in {TStr, TFileType, TCustomFn} || (a.argType == Unset && a.nargs != Count(0)))
    ensures !IsStoreConst(a) && !IsListArity(a.nargs) && a.kind != Append && |a.choices| == 0 ==>
      && (a.argType == TInt ==> r == Int)
      && (a.argType == TFloat ==> r == Float)
      && (a.argType !in {TStr, TInt, TFloat, TFileType, TCustomFn} && !(a.argType == Unset && a.nargs != Count(0)) ==>
            r == (if a.nargs == Count(0) then Bool else Any))
    ensures !r.Optional? && !r.OrNone? && r != Context
  {
    if IsListArity(a.nargs) then ListOf(ElementType(a.argType))
    else if a.kind == StoreTrue || a.kind == StoreFalse then Bool
    else if a.kind == StoreConst then
      if a.constant != VNone then TypeOf(a.constant)
      else if a.default != VNone then TypeOf(a.default)
      else Bool
    else if a.kind == Append then ListOf(TypeObject(a.argType))
    else if |a.choices| > 0 then LiteralOf(a.choices)
    else if a.argType == TStr then Str
    else if a.argType == TInt then Int
    else if a.argType == TFloat then Float
    else if a.argType == TFileType then Str
    else if a.argType == TCustomFn then Str
    else if a.argType == Unset && a.nargs != Count(0) then Str
    else if a.nargs == Count(0) then Bool
    else Any
  }

  // ---------------------------------------------------------------------
  // Default of one declaration
  // ---------------------------------------------------------------------

  /** The default of one declaration, computed step by step as the source
      does; the ensures clauses give the resulting rule case by case: a
      concrete default is always kept; a None default is dropped when
      required, becomes [] for `*` and counts above one, None otherwise; a
      suppressed default becomes False for bool, the constant for a
      store-const action with one, and otherwise None or nothing. */
  function ParamDefault(a: Action, annot: Annot): (r: Default)
    ensures a.default != Suppress && a.default != VNone ==> r == Given(a.default)
    ensures a.default == VNone ==>
      r == (if a.required then Empty
            else if IsEmptyListArity(a.nargs) then Given(VList([]))
            else Given(VNone))
    ensures a.default == Suppress ==>
      r == (if annot == Bool then Given(VBool(false))
            else if IsStoreConst(a) && a.constant != VNone then Given(a.constant)
            else if a.required then Empty
            else Given(VNone))
    ensures !a.required ==> r.Given?
    ensures a.required ==> r != Given(VNone)
  {
    var d0 := if a.default != Suppress then Given(a.default) else Empty;
    var d1 := if annot == Bool && d0 == Empty && a.default == Suppress then Given(VBool(false)) else d0;
    var d2 := if IsEmptyListArity(a.nargs) && a.default == VNone && !a.required then Given(VList([])) else d1;
    var d3 := if IsStoreConst(a) && a.constant != VNone && d2 == Empty then Given(a.constant) else d2;
    var d4 := if !a.required && d3 == Empty then (if annot == Bool then Given(VBool(false)) else Given(VNone)) else d3;
    if a.required && (d4 == Given(VNone) || d4 == Empty) then Empty else d4
  }

  /** `Union[t, None]` unless `t` is already optional or is Any. */
  function NullableOf(t: Annot): (r: Annot)
    ensures r == t || r == Optional(t)
    ensures r.Optional? || r == Any
  {
    if t.Optional? || t == Any then t else Optional(t)
  }

  /** One declaration as a parameter: nothing for the destination "help";
      ValueError when the name is not a valid parameter name; otherwise the
      keyword-suffixed name, the default of `ParamDefault`, and the type of
      `ParamType` made optional when the parameter is not required and
      defaults to None. */
  function ActionToParam(a: Action): (r: Result<Option<Param>, PyException>)
    ensures a.dest == "help" <==> r == Ok(None)
    ensures a.dest != "help" ==> (r.Ok? <==> ValidParamName(ParamName(a.dest)))
    ensures r.Err? ==> r.error == InvalidNameError(ParamName(a.dest))
    ensures r.Ok? && r.value.Some? ==>
      var p := r.value.value;
      && p.name == ParamName(a.dest)
      && (!IsSuffixedKeyword(a.dest) ==> DestOf(p.name) == a.dest)
    ensures r.Ok? && r.value.Some? ==>
      var p := r.value.value;
      && p.default == ParamDefault(a, ParamType(a))
      && (!a.required ==> p.default.Given?)
      && (p.annot == ParamType(a) || p.annot == Optional(ParamType(a)))
      && (p.annot == Optional(ParamType(a)) <==>
            !a.required && p.default == Given(VNone) && ParamType(a) != Any)
  {
    if a.dest == "help" then Ok(None)
    else
      var name := ParamName(a.dest);
      var t := ParamType(a);
      var d := ParamDefault(a, t);
      var annot := if !a.required && d == Given(VNone) then NullableOf(t) else t;
      DestOfParamName(a.dest);
      if ValidParamName(name) then Ok(Some(Param(name, d, annot)))
      else Err(InvalidNameError(name))
  }

  // ---------------------------------------------------------------------
  // Groups of declarations sharing one destination
  // ---------------------------------------------------------------------

  /** A store-true and a store-false declaration, in either order. */
  predicate IsBoolPair(g: seq<Action>) {
    |g| == 2 &&
    ((g[0].kind == StoreTrue && g[1].kind == StoreFalse) ||
     (g[0].kind == StoreFalse && g[1].kind == StoreTrue))
  }

  predicate AllStoreConst(g: seq<Action>) {
    forall i | 0 <= i < |g| :: IsStoreConst(g[i])
  }

  /** The set of constants is a single value equal to True or False. */
  predicate IsSingletonBoolConsts(g: seq<Action>)
    requires |g| > 0
  {
    (forall i | 0 <= i < |g| :: PyEq(g[i].constant, g[0].constant)) &&
    (PyEq(g[0].constant, VBool(true)) || PyEq(g[0].constant, VBool(false)))
  }

  /** Every member is a store-const action and the constants are not a
      single boolean. */
  predicate IsEnumGroup(g: seq<Action>)
    requires |g| > 0
  {
    AllStoreConst(g) && !IsSingletonBoolConsts(g)
  }

  /** Building the set of constants fails on an unhashable (list) constant. */
  predicate ConstSetRaises(g: seq<Action>) {
    AllStoreConst(g) && exists i | 0 <= i < |g| :: !Hashable(g[i].constant)
  }

  const UnhashableListError: PyException := PyException("TypeError", "unhashable type: 'list'", false)

  /** The single bool parameter of a store-true/store-false pair: its default
      is the store-true member's default, or False when that is None. */
  function BoolPairParam(g: seq<Action>): (r: Result<Option<Param>, PyException>)
    requires IsBoolPair(g)
    ensures r.Ok? <==> ValidParamName(ParamName(g[0].dest))
    ensures r.Ok? ==> r.value.Some? && r.value.value.annot == Bool
    ensures r.Ok? ==>
      var t := if g[0].kind == StoreTrue then g[0] else g[1];
      r.value.value.default == Given(if t.default == VNone then VBool(false) else t.default)
  {
    var t := if g[0].kind == StoreTrue then g[0] else g[1];
    var name := ParamName(g[0].dest);
    var d := if t.default != VNone then Given(t.default) else Given(VBool(false));
    if ValidParamName(name) then Ok(Some(Param(name, d, Bool)))
    else Err(InvalidNameError(name))
  }

  /** The non-None constants of a group, in declaration order. */
  function Choices(g: seq<Action>): (r: seq<Value>)
    ensures forall v :: v in r <==> v != VNone && exists i | 0 <= i < |g| :: g[i].constant == v
  {
    if g == [] then []
    else
      var p := Choices(g[..|g| - 1]);
      assert forall i | 0 <= i < |g| - 1 :: g[..|g| - 1][i] == g[i];
      if g[|g| - 1].constant != VNone then p + [g[|g| - 1].constant] else p
  }

  /** The choices keep the declaration order and the repeats: those of a
      concatenation are those of its parts, one after the other. */
  lemma {:induction false} ChoicesAppend(g1: seq<Action>, g2: seq<Action>)
    ensures Choices(g1 + g2) == Choices(g1) + Choices(g2)
    decreases |g2|
  {
    if g2 == [] {
      assert g1 + g2 == g1;
    } else {
      var g := g1 + g2;
      var h := g2[..|g2| - 1];
      assert g[..|g| - 1] == g1 + h;
      assert g[|g| - 1] == g2[|g2| - 1];
      ChoicesAppend(g1, h);
    }
  }

  /** A single declaration contributes its constant unless it is None. */
  lemma ChoicesOne(a: Action)
    ensures Choices([a]) == if a.constant != VNone then [a.constant] else []
  {
    assert [a][..0] == [];
  }

  /** A declared default that is neither None nor SUPPRESS. */
  predicate UsableDefault(a: Action) {
    a.default != VNone && a.default != Suppress
  }

  /** `v in choices`, with Python equality. */
  predicate InChoices(v: Value, choices: seq<Value>) {
    exists k | 0 <= k < |choices| :: PyEq(v, choices[k])
  }

  /** Index of the first member satisfying the enumeration-default test. */
  function FirstChoiceDefault(g: seq<Action>, choices: seq<Value>): (r: Option<nat>)
    ensures r.Some? ==> r.value < |g| && UsableDefault(g[r.value]) && InChoices(g[r.value].default, choices)
    ensures r.Some? ==> forall i | 0 <= i < r.value :: !(UsableDefault(g[i]) && InChoices(g[i].default, choices))
    ensures r.None? ==> forall i | 0 <= i < |g| :: !(UsableDefault(g[i]) && InChoices(g[i].default, choices))
  {
    if g == [] then None
    else if UsableDefault(g[0]) && InChoices(g[0].default, choices) then Some(0)
    else match FirstChoiceDefault(g[1..], choices)
      case None => None
      case Some(k) => Some(k + 1)
  }

  /** Index of the first member with a usable default. */
  function FirstUsableDefault(g: seq<Action>): (r: Option<nat>)
    ensures r.Some? ==> r.value < |g| && UsableDefault(g[r.value])
    ensures r.Some? ==> forall i | 0 <= i < r.value :: !UsableDefault(g[i])
    ensures r.None? ==> forall i | 0 <= i < |g| :: !UsableDefault(g[i])
  {
    if g == [] then None
    else if UsableDefault(g[0]) then Some(0)
    else match FirstUsableDefault(g[1..])
      case None => None
      case Some(k) => Some(k + 1)
  }

  /** The default picked by the scan over an enumeration group and the member
      it came from: the first usable default that is one of the choices,
      else the first usable default, else nothing (and the first member). */
  function EnumDefaultSpec(g: seq<Action>, choices: seq<Value>): (r: (Default, nat))
    requires |g| > 0
    ensures r.1 < |g|
  {
    match FirstChoiceDefault(g, choices)
    case Some(i) => (Given(g[i].default), i)
    case None =>
      match FirstUsableDefault(g)
      case Some(i) => (Given(g[i].default), i)
      case None => (Empty, 0)
  }

  lemma EnumDefaultWhenNone(g: seq<Action>, choices: seq<Value>)
    requires |g| > 0
    requires FirstChoiceDefault(g, choices).None? && FirstUsableDefault(g).None?
    ensures EnumDefaultSpec(g, choices) == (Empty, 0)
  {
  }

  /** The scan over an enumeration group's members for its default. */
  method EnumDefault(g: seq<Action>, choices: seq<Value>) returns (dv: Default, primary: nat)
    requires |g| > 0
    ensures (dv, primary) == EnumDefaultSpec(g, choices)
  {
    dv := Empty;
    primary := 0;
    var i := 0;
    while i < |g|
      invariant 0 <= i <= |g|
      invariant forall k | 0 <= k < i :: !(UsableDefault(g[k]) && InChoices(g[k].default, choices))
      invariant dv == Empty ==> primary == 0 && forall k | 0 <= k < i :: !UsableDefault(g[k])
      invariant dv != Empty ==>
        primary < i && UsableDefault(g[primary]) && dv == Given(g[primary].default) &&
        forall k | 0 <= k < primary :: !UsableDefault(g[k])
    {
      if UsableDefault(g[i]) {
        if InChoices(g[i].default, choices) {
          dv := Given(g[i].default);
          primary := i;
          FirstChoiceAt(g, choices, i);
          return;
        }
        if dv == Empty {
          dv := Given(g[i].default);
          primary := i;
        }
      }
      i := i + 1;
    }
    FirstChoiceNone(g, choices);
    if dv == Empty {
      FirstUsableNone(g);
    } else {
      FirstUsableAt(g, primary);
    }
  }

  lemma FirstUsableAt(g: seq<Action>, i: nat)
    requires i < |g| && UsableDefault(g[i])
    requires forall k | 0 <= k < i :: !UsableDefault(g[k])
    ensures FirstUsableDefault(g) == Some(i)
  {
    match FirstUsableDefault(g)
    case None =>
    case Some(j) =>
  }

  lemma FirstUsableNone(g: seq<Action>)
    requires forall k | 0 <= k < |g| :: !UsableDefault(g[k])
    ensures FirstUsableDefault(g) == None
  {
    match FirstUsableDefault(g)
    case None =>
    case Some(j) =>
  }

  lemma FirstChoiceAt(g: seq<Action>, choices: seq<Value>, i: nat)
    requires i < |g| && UsableDefault(g[i]) && InChoices(g[i].default, choices)
    requires forall k | 0 <= k < i :: !(UsableDefault(g[k]) && InChoices(g[k].default, choices))
    ensures FirstChoiceDefault(g, choices) == Some(i)
  {
    match FirstChoiceDefault(g, choices)
    case None =>
    case Some(j) =>
  }

  lemma FirstChoiceNone(g: seq<Action>, choices: seq<Value>)
    requires forall k | 0 <= k < |g| :: !(UsableDefault(g[k]) && InChoices(g[k].default, choices))
    ensures FirstChoiceDefault(g, choices) == None
  {
    match FirstChoiceDefault(g, choices)
    case None =>
    case Some(j) =>
  }

  /** The single parameter of an enumeration group, given the scan's result. */
  function EnumParamWith(g: seq<Action>, choices: seq<Value>, dv: Default, primary: nat): Result<Option<Param>, PyException>
    requires primary < |g|
  {
    var p := g[primary];
    var dv' := if dv == Empty && !p.required then Given(VNone) else dv;
    var name := ParamName(p.dest);
    var annot :=
      if |choices| == 0 then Any
      else if dv' == Given(VNone) && !p.required then Optional(LiteralOf(choices))
      else LiteralOf(choices);
    var d := if dv' == Given(VNone) then Empty else dv';
    if ValidParamName(name) then Ok(Some(Param(name, d, annot)))
    else Err(InvalidNameError(name))
  }

  /** An enumeration none of whose members declares a usable default is
      Optional and has no default at all (rather than defaulting to None). */
  lemma EnumWithoutDefaults(g: seq<Action>)
    requires |g| > 0 && |Choices(g)| > 0 && !g[0].required && ValidParamName(ParamName(g[0].dest))
    requires forall i | 0 <= i < |g| :: !UsableDefault(g[i])
    ensures EnumParam(g) == Ok(Some(Param(ParamName(g[0].dest), Empty, Optional(LiteralOf(Choices(g))))))
  {
    FirstUsableNone(g);
    FirstChoiceNone(g, Choices(g));
  }

  /** The single parameter of an enumeration group: a Literal over the
      non-None constants, defaulting to what the scan picked; when nothing
      was picked it is Optional and, as written, has NO default. */
  function EnumParam(g: seq<Action>): (r: Result<Option<Param>, PyException>)
    requires |g| > 0
    ensures r.Ok? ==> r.value.Some?
    ensures r.Ok? && |Choices(g)| > 0 ==>
      var p := r.value.value;
      (p.annot.Literal? || (p.annot.Optional? && p.annot.inner.Literal?)) &&
      (forall v :: v in (if p.annot.Literal? then p.annot else p.annot.inner).choices <==> v in Choices(g))
    ensures r.Ok? && FirstChoiceDefault(g, Choices(g)).Some? ==>
      r.value.value.default == Given(g[FirstChoiceDefault(g, Choices(g)).value].default)
    ensures r.Ok? && FirstUsableDefault(g).None? ==>
      r.value.value.default == Empty &&
      (|Choices(g)| > 0 && !g[0].required ==> r.value.value.annot == Optional(LiteralOf(Choices(g)))) &&
      (|Choices(g)| > 0 && g[0].required ==> r.value.value.annot == LiteralOf(Choices(g)))
    ensures r.Ok? && FirstChoiceDefault(g, Choices(g)).None? && FirstUsableDefault(g).Some? ==>
      r.value.value.default == Given(g[FirstUsableDefault(g).value].default)
    ensures r.Ok? && |Choices(g)| > 0 && FirstUsableDefault(g).Some? ==> r.value.value.annot == LiteralOf(Choices(g))
    ensures r.Ok? && |Choices(g)| == 0 ==> r.value.value.annot == Any
    ensures var primary := g[EnumDefaultSpec(g, Choices(g)).1];
      && (r.Ok? <==> ValidParamName(ParamName(primary.dest)))
      && (r.Ok? ==> r.value.value.name == ParamName(primary.dest))
      && (r.Err? ==> r.error == InvalidNameError(ParamName(primary.dest)))
  {
    var choices := Choices(g);
    var (dv, primary) := EnumDefaultSpec(g, choices);
    EnumParamWith(g, choices, dv, primary)
  }

  /** Index of the first member with usable help text, else 0. */
  function FallbackIndex(g: seq<Action>): (r: nat)
    requires |g| > 0
    ensures r < |g|
    ensures forall i | 0 <= i < r :: !HasUsableHelp(g[i])
    ensures r > 0 ==> HasUsableHelp(g[r])
    ensures (exists i | 0 <= i < |g| :: HasUsableHelp(g[i])) ==> HasUsableHelp(g[r])
  {
    if HasUsableHelp(g[0]) || |g| == 1 then 0
    else
      var k := FallbackIndex(g[1..]);
      if HasUsableHelp(g[1..][k]) then k + 1 else 0
  }

  /** The scan for the fallback representative of a group. */
  method FallbackRepresentative(g: seq<Action>) returns (main: nat)
    requires |g| > 0
    ensures main == FallbackIndex(g)
  {
    main := 0;
    var i := 0;
    while i < |g|
      invariant 0 <= i <= |g|
      invariant main == 0
      invariant forall k | 0 <= k < i :: !HasUsableHelp(g[k])
    {
      if HasUsableHelp(g[i]) {
        main := i;
        return;
      }
      i := i + 1;
    }
  }

  /** The parameter (if any) for one destination group. */
  function GroupParam(g: seq<Action>): (r: Result<Option<Param>, PyException>)
    requires |g| > 0
  {
    if |g| > 1 then
      if ConstSetRaises(g) then Err(UnhashableListError)
      else if IsBoolPair(g) then BoolPairParam(g)
      else if IsEnumGroup(g) then EnumParam(g)
      else ActionToParam(g[FallbackIndex(g)])
    else ActionToParam(g[0])
  }

  /** Adds one group's outcome to the parameters collected so far. */
  function Combine(acc: Result<seq<Param>, PyException>, out: Result<Option<Param>, PyException>): Result<seq<Param>, PyException> {
    match acc
    case Err(e) => Err(e)
    case Ok(ps) =>
      match out
      case Err(e) => Err(e)
      case Ok(None) => Ok(ps)
      case Ok(Some(p)) => Ok(ps + [p])
  }

  /** The parameters of all groups in order; the first exception aborts. */
  function CollectParams(gs: seq<Group>): Result<seq<Param>, PyException>
    requires NonEmptyGroups(gs)
  {
    if gs == [] then Ok([])
    else
      PrefixNonEmpty(gs, |gs| - 1);
      Combine(CollectParams(gs[..|gs| - 1]), GroupParam(gs[|gs| - 1].actions))
  }

  lemma PrefixNonEmpty(gs: seq<Group>, i: nat)
    requires NonEmptyGroups(gs) && i <= |gs|
    ensures NonEmptyGroups(gs[..i])
  {
    forall k | 0 <= k < i ensures |gs[..i][k].actions| > 0 {
      assert gs[..i][k] == gs[k];
    }
  }

  // ---------------------------------------------------------------------
  // Synthetic parameters, ordering and the final signature
  // ---------------------------------------------------------------------

  const StdinParam: Param := Param("_stdin_content", Empty, Str)
  const CtxParam: Param := Param("ctx", Empty, Context)

  /** Appends the required `_stdin_content` parameter for stdin plugins. */
  function WithStdin(plugin: string, ps: seq<Param>): (r: seq<Param>)
    ensures plugin in StdinConsumingPlugins ==> "_stdin_content" in Names(r)
    ensures plugin !in StdinConsumingPlugins || "_stdin_content" in Names(ps) ==> r == ps
    ensures plugin in StdinConsumingPlugins && "_stdin_content" !in Names(ps) ==> r == ps + [StdinParam]
    ensures |ps| <= |r| && r[..|ps|] == ps
  {
    if plugin in StdinConsumingPlugins && "_stdin_content" !in Names(ps) then
      assert Names(ps + [StdinParam])[|ps|] == "_stdin_content";
      ps + [StdinParam]
    else ps
  }

  function OverwriteParamOf(o: OverwriteParam): Param {
    Param(o.name, Given(o.default), o.annot)
  }

  /** Table entry `k` is added: its name is neither one of the parameters'
      nor the name of an earlier entry. */
  predicate AddsEntry(ps: seq<Param>, specs: seq<OverwriteParam>, k: nat)
    requires k < |specs|
  {
    specs[k].name !in Names(ps) && forall j | 0 <= j < k :: specs[j].name != specs[k].name
  }

  /** The parameters of the entries that are added, in table order. */
  function AddedEntries(ps: seq<Param>, specs: seq<OverwriteParam>): seq<Param> {
    if specs == [] then []
    else
      AddedEntries(ps, specs[..|specs| - 1]) +
      (if AddsEntry(ps, specs, |specs| - 1) then [OverwriteParamOf(specs[|specs| - 1])] else [])
  }

  /** Every added name is the name of a table entry. */
  lemma {:induction false} AddedNameSource(ps: seq<Param>, specs: seq<OverwriteParam>, x: string) returns (j: nat)
    requires x in Names(AddedEntries(ps, specs))
    ensures j < |specs| && specs[j].name == x
    decreases |specs|
  {
    assert specs != [];
    var pre := specs[..|specs| - 1];
    var last := specs[|specs| - 1];
    var a := AddedEntries(ps, pre);
    if AddsEntry(ps, specs, |specs| - 1) {
      assert AddedEntries(ps, specs) == a + [OverwriteParamOf(last)];
      NamesAppend(a, OverwriteParamOf(last));
      assert x in Names(a) + [last.name];
      if x == last.name {
        return |specs| - 1;
      }
    } else {
      assert a + [] == a;
      assert AddedEntries(ps, specs) == a;
    }
    assert x in Names(a);
    j := AddedNameSource(ps, pre, x);
    assert pre[j] == specs[j];
  }

  /** The next table entry is skipped exactly when it is not added. */
  lemma OverwriteAddStep(ps: seq<Param>, pre: seq<OverwriteParam>, o: OverwriteParam, init: seq<Param>)
    requires init == ps + AddedEntries(ps, pre)
    requires forall k | 0 <= k < |pre| :: pre[k].name in Names(init)
    ensures o.name in Names(init) <==> !AddsEntry(ps, pre + [o], |pre|)
  {
    var specs := pre + [o];
    assert forall j | 0 <= j < |pre| :: specs[j] == pre[j];
    NamesConcat(ps, AddedEntries(ps, pre));
    if o.name in Names(init) {
      if o.name !in Names(ps) {
        var j := AddedNameSource(ps, pre, o.name);
        assert specs[j].name == o.name;
      }
    } else {
      forall j | 0 <= j < |pre| ensures specs[j].name != o.name {
        assert pre[j].name in Names(init);
      }
    }
  }

  /** One step of `WithOverwrites`: the names present before stay present, and
      the last table entry's name is present afterwards. */
  lemma OverwriteStep(init: seq<Param>, prev: seq<OverwriteParam>, o: OverwriteParam, r: seq<Param>)
    requires forall k | 0 <= k < |prev| :: prev[k].name in Names(init)
    requires r == if o.name in Names(init) then init else init + [OverwriteParamOf(o)]
    ensures |init| <= |r| && r[..|init|] == init
    ensures forall k | 0 <= k < |prev| :: prev[k].name in Names(r)
    ensures o.name in Names(r)
  {
    if o.name in Names(init) {
      assert r == init;
    } else {
      NamesAppend(init, OverwriteParamOf(o));
      var nr := Names(r);
      assert nr == Names(init) + [o.name];
      assert r[..|init|] == init;
      forall k | 0 <= k < |prev| ensures prev[k].name in nr {
        assert prev[k].name in Names(init);
      }
      assert nr[|init|] == o.name;
    }
  }

  /** Appends, in table order, each overwrite parameter whose name is not
      taken: what it appends are the parameters of exactly the added entries. */
  function WithOverwrites(ps: seq<Param>, specs: seq<OverwriteParam>): (r: seq<Param>)
    ensures r == ps + AddedEntries(ps, specs)
    ensures forall k | 0 <= k < |specs| :: specs[k].name in Names(r)
    decreases |specs|
  {
    if specs == [] then ps
    else
      var pre := specs[..|specs| - 1];
      var init := WithOverwrites(ps, pre);
      var o := specs[|specs| - 1];
      var r := if o.name in Names(init) then init else init + [OverwriteParamOf(o)];
      OverwriteStep(init, pre, o, r);
      OverwriteAddStep(ps, pre, o, init);
      assert specs == pre + [o];
      assert forall k | 0 <= k < |specs| - 1 :: specs[k] == specs[..|specs| - 1][k];
      r
  }

  /** Parameters without a default, in order. */
  function Required(ps: seq<Param>): (r: seq<Param>)
    ensures forall i | 0 <= i < |r| :: r[i].default == Empty
    ensures |r| <= |ps|
  {
    if ps == [] then []
    else if ps[|ps| - 1].default == Empty then Required(ps[..|ps| - 1]) + [ps[|ps| - 1]]
    else Required(ps[..|ps| - 1])
  }

  /** Parameters with a default, in order. */
  function Defaulted(ps: seq<Param>): (r: seq<Param>)
    ensures forall i | 0 <= i < |r| :: r[i].default != Empty
    ensures |r| <= |ps|
  {
    if ps == [] then []
    else if ps[|ps| - 1].default != Empty then Defaulted(ps[..|ps| - 1]) + [ps[|ps| - 1]]
    else Defaulted(ps[..|ps| - 1])
  }

  /** The stable sort on "has no default", descending: a stable partition. */
  function Partition(ps: seq<Param>): (r: seq<Param>)
    ensures DefaultsLast(r)
  {
    Required(ps) + Defaulted(ps)
  }

  /** No parameter without a default follows one with a default. */
  predicate DefaultsLast(ps: seq<Param>) {
    forall i, j | 0 <= i < j < |ps| :: ps[i].default != Empty ==> ps[j].default != Empty
  }

  /** How many parameters carry the given name. */
  function NameCount(ps: seq<Param>, n: string): nat {
    if ps == [] then 0
    else NameCount(ps[..|ps| - 1], n) + (if ps[|ps| - 1].name == n then 1 else 0)
  }

  /** No name is used twice. */
  predicate UniqueNames(ps: seq<Param>) {
    forall n | n in Names(ps) :: NameCount(ps, n) <= 1
  }

  /** What `inspect.Signature` accepts for positional-or-keyword parameters:
      no parameter without a default after one with a default, no name twice. */
  predicate SignatureAccepts(ps: seq<Param>) {
    DefaultsLast(ps) && UniqueNames(ps)
  }

  /** The outcome of signature synthesis: a signature, None (the plugin is
      skipped), or an exception that escapes the synthesis. */
  datatype Synthesis = Built(params: seq<Param>) | Rejected | Raised(exc: PyException)

  /** The parameters before the context parameter and the sort. */
  function Unsorted(plugin: string, ps: seq<Param>): seq<Param> {
    WithOverwrites(WithStdin(plugin, ps), OverwriteParamsOf(plugin))
  }

  /** The signature synthesized for a plugin from its grouped declarations. */
  function SignatureFor(plugin: string, gs: seq<Group>): Synthesis
    requires NonEmptyGroups(gs)
  {
    match CollectParams(gs)
    case Err(e) => Raised(e)
    case Ok(ps) =>
      var full := [CtxParam] + Partition(Unsorted(plugin, ps));
      if SignatureAccepts(full) then Built(full) else Rejected
  }

  /** `params_to_sort.sort(key=lambda p: p.default == empty, reverse=True)`. */
  method SortRequiredFirst(ps: seq<Param>) returns (r: seq<Param>)
    ensures r == Partition(ps)
  {
    var required: seq<Param> := [];
    var defaulted: seq<Param> := [];
    var i := 0;
    while i < |ps|
      invariant 0 <= i <= |ps|
      invariant required == Required(ps[..i])
      invariant defaulted == Defaulted(ps[..i])
    {
      assert ps[..i + 1][..i] == ps[..i];
      if ps[i].default == Empty {
        required := required + [ps[i]];
      } else {
        defaulted := defaulted + [ps[i]];
      }
      i := i + 1;
    }
    assert ps[..|ps|] == ps;
    r := required + defaulted;
  }

  /** Collecting one more group is one more `Combine`. */
  lemma CollectStep(gs: seq<Group>, i: nat)
    requires NonEmptyGroups(gs) && i < |gs|
    ensures NonEmptyGroups(gs[..i]) && NonEmptyGroups(gs[..i + 1])
    ensures CollectParams(gs[..i + 1]) == Combine(CollectParams(gs[..i]), GroupParam(gs[i].actions))
  {
    PrefixNonEmpty(gs, i);
    PrefixNonEmpty(gs, i + 1);
    var next := gs[..i + 1];
    assert next[..|next| - 1] == gs[..i];
  }

  /** Once a prefix of the groups raises, the whole collection raises the same. */
  lemma CollectParamsErrStays(gs: seq<Group>, i: nat, e: PyException)
    requires NonEmptyGroups(gs) && i <= |gs| && NonEmptyGroups(gs[..i])
    requires CollectParams(gs[..i]) == Err(e)
    ensures CollectParams(gs) == Err(e)
    decreases |gs| - i
  {
    if i < |gs| {
      CollectStep(gs, i);
      CollectParamsErrStays(gs, i + 1, e);
    } else {
      assert gs[..i] == gs;
    }
  }

  /** The synthesis loop: one parameter per group, the synthetic parameters,
      the context parameter first and the rest sorted required-first. */
  method CreateToolSignature(plugin: string, gs: seq<Group>) returns (r: Synthesis)
    requires NonEmptyGroups(gs)
    ensures r == SignatureFor(plugin, gs)
  {
    var collected := CollectGroupParams(gs);
    match collected {
      case Err(e) =>
        r := Raised(e);
      case Ok(ps) =>
        var parameters := AddSyntheticParams(plugin, ps);
        var sorted := SortRequiredFirst(parameters);
        var full := [CtxParam] + sorted;
        if SignatureAccepts(full) {
          r := Built(full);
        } else {
          r := Rejected;
        }
    }
  }

  /** The parameters of all groups in order, stopping at the first exception. */
  method CollectGroupParams(gs: seq<Group>) returns (r: Result<seq<Param>, PyException>)
    requires NonEmptyGroups(gs)
    ensures r == CollectParams(gs)
  {
    var parameters: seq<Param> := [];
    var i := 0;
    while i < |gs|
      invariant 0 <= i <= |gs|
      invariant CollectParams(gs[..i]) == Ok(parameters)
    {
      var out := GroupToParam(gs[i].actions);
      var next := gs[..i + 1];
      assert next[..|next| - 1] == gs[..i];
      match out {
        case Err(e) =>
          CollectParamsErrStays(gs, i + 1, e);
          return Err(e);
        case Ok(None) =>
        case Ok(Some(p)) =>
          parameters := parameters + [p];
      }
      i := i + 1;
    }
    assert gs[..|gs|] == gs;
    r := Ok(parameters);
  }

  /** One group's parameter: a list constant raises, a bool pair is one bool,
      an enumeration is a Literal, any other group is represented by one member. */
  method GroupToParam(g: seq<Action>) returns (out: Result<Option<Param>, PyException>)
    requires |g| > 0
    ensures out == GroupParam(g)
  {
    if |g| > 1 {
      if ConstSetRaises(g) {
        out := Err(UnhashableListError);
      } else if IsBoolPair(g) {
        out := BoolPairParam(g);
      } else if IsEnumGroup(g) {
        var choices := Choices(g);
        var dv, primary := EnumDefault(g, choices);
        out := EnumParamWith(g, choices, dv, primary);
      } else {
        var main := FallbackRepresentative(g);
        out := ActionToParam(g[main]);
      }
    } else {
      out := ActionToParam(g[0]);
    }
  }

  /** Appends the stdin parameter and the configured overwrite parameters. */
  method AddSyntheticParams(plugin: string, collected: seq<Param>) returns (parameters: seq<Param>)
    ensures parameters == Unsorted(plugin, collected)
  {
    parameters := collected;
    if plugin in StdinConsumingPlugins && "_stdin_content" !in Names(parameters) {
      parameters := parameters + [StdinParam];
    }
    var specs := OverwriteParamsOf(plugin);
    var withStdin := parameters;
    var j := 0;
    while j < |specs|
      invariant 0 <= j <= |specs|
      invariant parameters == WithOverwrites(withStdin, specs[..j])
    {
      assert specs[..j + 1][..j] == specs[..j];
      if specs[j].name !in Names(parameters) {
        parameters := parameters + [OverwriteParamOf(specs[j])];
      }
      j := j + 1;
    }
    assert specs[..|specs|] == specs;
  }


  // ---------------------------------------------------------------------
  // Properties of the ordering and of the final signature
  // ---------------------------------------------------------------------

  /** The sort only reorders: the same parameters, each as often. */
  lemma {:induction false} PartitionPermutes(ps: seq<Param>)
    ensures multiset(Partition(ps)) == multiset(ps)
  {
    if ps != [] {
      var init := ps[..|ps| - 1];
      PartitionPermutes(init);
      assert ps == init + [ps[|ps| - 1]];
    }
  }

  lemma {:induction false} AllRequiredPartition(ps: seq<Param>)
    requires forall i | 0 <= i < |ps| :: ps[i].default == Empty
    ensures Required(ps) == ps && Defaulted(ps) == []
  {
    if ps != [] {
      var init := ps[..|ps| - 1];
      AllRequiredPartition(init);
      assert ps == init + [ps[|ps| - 1]];
    }
  }

  /** The sort is stable: parameters already in order stay where they are. */
  lemma {:induction false} PartitionOfOrderedIsIdentity(ps: seq<Param>)
    requires DefaultsLast(ps)
    ensures Partition(ps) == ps
  {
    if ps != [] {
      var init := ps[..|ps| - 1];
      assert ps == init + [ps[|ps| - 1]];
      if ps[|ps| - 1].default == Empty {
        AllRequiredPartition(ps);
      } else {
        PartitionOfOrderedIsIdentity(init);
      }
    }
  }

  lemma {:induction false} NameCountConcat(a: seq<Param>, b: seq<Param>, n: string)
    ensures NameCount(a + b, n) == NameCount(a, n) + NameCount(b, n)
  {
    if b != [] {
      var init := b[..|b| - 1];
      NameCountConcat(a, init, n);
      assert (a + b)[..|a + b| - 1] == a + init;
    } else {
      assert a + b == a;
    }
  }

  lemma {:induction false} NameCountPositive(ps: seq<Param>, n: string)
    ensures NameCount(ps, n) > 0 <==> n in Names(ps)
  {
    if ps != [] {
      var init := ps[..|ps| - 1];
      NameCountPositive(init, n);
      assert Names(ps) == Names(init) + [ps[|ps| - 1].name];
    }
  }

  lemma {:induction false} NameCountPartition(ps: seq<Param>, n: string)
    ensures NameCount(Partition(ps), n) == NameCount(ps, n)
  {
    if ps != [] {
      var init := ps[..|ps| - 1];
      NameCountPartition(init, n);
      NameCountConcat(Required(init), Defaulted(init), n);
      NameCountConcat(Required(ps), Defaulted(ps), n);
      if ps[|ps| - 1].default == Empty {
        NameCountConcat(Required(init), [ps[|ps| - 1]], n);
      } else {
        NameCountConcat(Defaulted(init), [ps[|ps| - 1]], n);
      }
      assert NameCount([ps[|ps| - 1]], n) == (if ps[|ps| - 1].name == n then 1 else 0);
    }
  }

  /** Sorting does not change whether some name is used twice. */
  lemma UniqueNamesAfterSort(ps: seq<Param>)
    ensures UniqueNames([CtxParam] + Partition(ps)) <==> UniqueNames([CtxParam] + ps)
  {
    forall n ensures NameCount([CtxParam] + Partition(ps), n) == NameCount([CtxParam] + ps, n) {
      NameCountConcat([CtxParam], Partition(ps), n);
      NameCountConcat([CtxParam], ps, n);
      NameCountPartition(ps, n);
    }
    forall n ensures n in Names([CtxParam] + Partition(ps)) <==> n in Names([CtxParam] + ps) {
      NameCountPositive([CtxParam] + Partition(ps), n);
      NameCountPositive([CtxParam] + ps, n);
    }
  }

  /** What the synthesis yields: an exception exactly when collecting the
      groups raises; otherwise a signature exactly when no name is used twice
      among the context parameter, the declared and the synthetic
      parameters. A signature starts with the context parameter, has every
      parameter without a default before every one with a default, no other
      parameter named "ctx", and holds exactly the collected parameters. */
  lemma SignatureOutcome(plugin: string, gs: seq<Group>)
    requires NonEmptyGroups(gs)
    ensures SignatureFor(plugin, gs).Raised? <==> CollectParams(gs).Err?
    ensures CollectParams(gs).Ok? ==>
      (SignatureFor(plugin, gs).Built? <==>
        UniqueNames([CtxParam] + Unsorted(plugin, CollectParams(gs).value)))
    ensures SignatureFor(plugin, gs).Built? ==>
      var ps := SignatureFor(plugin, gs).params;
      && |ps| > 0 && ps[0] == CtxParam
      && DefaultsLast(ps)
      && multiset(ps[1..]) == multiset(Unsorted(plugin, CollectParams(gs).value))
      && forall i | 1 <= i < |ps| :: ps[i].name != "ctx"
  {
    if CollectParams(gs).Ok? {
      var u := Unsorted(plugin, CollectParams(gs).value);
      var full := [CtxParam] + Partition(u);
      UniqueNamesAfterSort(u);
      CtxFirstDefaultsLast(Partition(u));
      PartitionPermutes(u);
      assert full[1..] == Partition(u);
      if UniqueNames(full) {
        OnlyOneCtx(Partition(u));
      }
    }
  }

  lemma CtxFirstDefaultsLast(q: seq<Param>)
    requires DefaultsLast(q)
    ensures DefaultsLast([CtxParam] + q)
  {
    var full := [CtxParam] + q;
    forall i, j | 0 <= i < j < |full| && full[i].default != Empty ensures full[j].default != Empty {
      assert i > 0;
      assert full[i] == q[i - 1] && full[j] == q[j - 1];
    }
  }

  /** With names unique, nothing after the context parameter is named "ctx". */
  lemma OnlyOneCtx(q: seq<Param>)
    requires UniqueNames([CtxParam] + q)
    ensures forall i | 1 <= i < |q| + 1 :: ([CtxParam] + q)[i].name != "ctx"
  {
    forall i | 0 <= i < |q| ensures q[i].name != "ctx" {
      var n := q[i].name;
      assert Names(q)[i] == n;
      NameCountPositive(q, n);
      NameCountConcat([CtxParam], q, n);
      assert Names([CtxParam] + q)[i + 1] == n;
      assert [CtxParam][..0] == [];
    }
  }

  lemma NamePrefix(p: seq<Param>, r: seq<Param>, n: string)
    requires |p| <= |r| && r[..|p|] == p && n in Names(p)
    ensures n in Names(r)
  {
    var k :| 0 <= k < |p| && Names(p)[k] == n;
    assert r[k] == p[k];
    assert Names(r)[k] == n;
  }

  /** A plugin that declares a destination "ctx" is skipped: its parameter
      collides with the context parameter. */
  lemma DeclaredCtxIsRejected(plugin: string, gs: seq<Group>)
    requires NonEmptyGroups(gs)
    requires CollectParams(gs).Ok? && "ctx" in Names(CollectParams(gs).value)
    ensures SignatureFor(plugin, gs) == Rejected
  {
    var ps := CollectParams(gs).value;
    var w := WithStdin(plugin, ps);
    NamePrefix(ps, w, "ctx");
    var u := Unsorted(plugin, ps);
    NamePrefix(w, u, "ctx");
    NameCountPositive(u, "ctx");
    NameCountConcat([CtxParam], u, "ctx");
    assert NameCount([CtxParam], "ctx") == 1;
    assert "ctx" in Names([CtxParam] + u) by {
      assert Names([CtxParam] + u)[0] == "ctx";
    }
    UniqueNamesAfterSort(u);
    SignatureOutcome(plugin, gs);
  }

  /** A built signature of a stdin plugin has the `_stdin_content`
      parameter, and one of a plugin with overwrite parameters has each of
      them. */
  lemma SyntheticParamsPresent(plugin: string, gs: seq<Group>)
    requires NonEmptyGroups(gs)
    requires SignatureFor(plugin, gs).Built?
    ensures plugin in StdinConsumingPlugins ==> "_stdin_content" in Names(SignatureFor(plugin, gs).params)
    ensures forall o | o in OverwriteParamsOf(plugin) :: o.name in Names(SignatureFor(plugin, gs).params)
  {
    var ps := CollectParams(gs).value;
    var u := Unsorted(plugin, ps);
    var full := SignatureFor(plugin, gs).params;
    assert full == [CtxParam] + Partition(u);
    forall n | n in Names(u) ensures n in Names(full) {
      NameCountPositive(u, n);
      NameCountPartition(u, n);
      NameCountPositive(Partition(u), n);
      NameCountConcat([CtxParam], Partition(u), n);
      NameCountPositive(full, n);
    }
    if plugin in StdinConsumingPlugins {
      NamePrefix(WithStdin(plugin, ps), u, "_stdin_content");
    }
  }

  // ---------------------------------------------------------------------
  // Worked examples
  // ---------------------------------------------------------------------

  /** `--files` with `nargs='*'` and no type: a list of strings defaulting to []. */
  lemma StarArityExample()
    ensures ActionToParam(Action("files", Store, Star, Unset, VNone, VNone, false, None, []))
      == Ok(Some(Param("files", Given(VList([])), ListOf(Str))))
  {
  }

  /** `--verbose` (store_true) and `--quiet` (store_false) on one destination:
      one bool parameter defaulting to False. */
  lemma BoolPairExample()
    ensures GroupParam([
        Action("verbose", StoreTrue, Count(0), Unset, VBool(false), VBool(true), false, Some("more output"), []),
        Action("verbose", StoreFalse, Count(0), Unset, VBool(true), VBool(false), false, Some("less output"), [])])
      == Ok(Some(Param("verbose", Given(VBool(false)), Bool)))
  {
    var g := [
        Action("verbose", StoreTrue, Count(0), Unset, VBool(false), VBool(true), false, Some("more output"), []),
        Action("verbose", StoreFalse, Count(0), Unset, VBool(true), VBool(false), false, Some("less output"), [])];
    assert forall i | 0 <= i < |g| :: Hashable(g[i].constant);
    assert !ConstSetRaises(g) && IsBoolPair(g);
    assert ParamName("verbose") == "verbose";
    assert ValidParamName("verbose") by {
      assert "verbose"[0] == 'v';
    }
  }

  /** Three store_const flags for one destination with no default: an
      optional Literal of the three constants with no default at all. */
  lemma EnumExample()
    ensures GroupParam(FmtFlags()) ==
      Ok(Some(Param("fmt", Empty, Optional(Literal([VStr("a"), VStr("b"), VStr("c")])))))
  {
    FmtIsEnum();
    FmtEnumParam();
  }

  lemma FmtIsEnum()
    ensures GroupParam(FmtFlags()) == EnumParam(FmtFlags())
  {
    var g := FmtFlags();
    assert !PyEq(g[1].constant, g[0].constant);
    assert !IsSingletonBoolConsts(g);
    assert AllStoreConst(g);
    assert forall i | 0 <= i < |g| :: Hashable(g[i].constant);
    assert !ConstSetRaises(g) && !IsBoolPair(g) && IsEnumGroup(g);
  }

  lemma FmtEnumParam()
    ensures EnumParam(FmtFlags()) ==
      Ok(Some(Param("fmt", Empty, Optional(Literal([VStr("a"), VStr("b"), VStr("c")])))))
  {
    var g := FmtFlags();
    FmtChoices();
    FmtLiteral();
    assert ValidParamName("fmt") by {
      assert "fmt"[0] == 'f' && "fmt"[1] == 'm' && "fmt"[2] == 't';
    }
    EnumWithoutDefaults(g);
  }

  lemma FmtChoices()
    ensures Choices(FmtFlags()) == [VStr("a"), VStr("b"), VStr("c")]
  {
    var g := FmtFlags();
    assert g[..1][..0] == [];
    assert Choices(g[..1]) == [VStr("a")];
    assert g[..2][..1] == g[..1];
    assert Choices(g[..2]) == [VStr("a"), VStr("b")];
    assert g[..|g| - 1] == g[..2];
  }

  lemma FmtLiteral()
    ensures LiteralOf([VStr("a"), VStr("b"), VStr("c")]) == Literal([VStr("a"), VStr("b"), VStr("c")])
  {
    FmtDedup();
  }

  lemma FmtDedup()
    ensures Dedup([VStr("a"), VStr("b"), VStr("c")]) == [VStr("a"), VStr("b"), VStr("c")]
  {
    var c := [VStr("a"), VStr("b"), VStr("c")];
    assert c[..1][..0] == [];
    assert Dedup(c[..1]) == [VStr("a")];
    assert c[..2][..1] == c[..1];
    assert Dedup(c[..2]) == [VStr("a"), VStr("b")];
    assert c[..|c| - 1] == c[..2];
  }

  function FmtFlags(): seq<Action> {
    [ Action("fmt", StoreConst, Count(0), Unset, VNone, VStr("a"), false, None, []),
      Action("fmt", StoreConst, Count(0), Unset, VNone, VStr("b"), false, None, []),
      Action("fmt", StoreConst, Count(0), Unset, VNone, VStr("c"), false, None, []) ]
  }

  /** Two store_const flags with constants True and False are an enumeration
      (the set of constants has two members), not a bool pair. */
  lemma TrueFalseConstsAreEnum()
    ensures GroupParam(OnOffFlags()) ==
      Ok(Some(Param("on", Empty, Optional(Literal([VBool(true), VBool(false)])))))
  {
    OnOffIsEnum();
    OnOffEnumParam();
  }

  lemma OnOffIsEnum()
    ensures GroupParam(OnOffFlags()) == EnumParam(OnOffFlags())
  {
    var g := OnOffFlags();
    assert !PyEq(g[1].constant, g[0].constant);
    assert !IsSingletonBoolConsts(g);
    assert AllStoreConst(g);
    assert forall i | 0 <= i < |g| :: Hashable(g[i].constant);
    assert !ConstSetRaises(g) && !IsBoolPair(g) && IsEnumGroup(g);
  }

  lemma OnOffEnumParam()
    ensures EnumParam(OnOffFlags()) ==
      Ok(Some(Param("on", Empty, Optional(Literal([VBool(true), VBool(false)])))))
  {
    var g := OnOffFlags();
    OnOffChoices();
    OnOffLiteral();
    assert ValidParamName("on") by {
      assert "on"[0] == 'o' && "on"[1] == 'n';
    }
    EnumWithoutDefaults(g);
  }

  lemma OnOffChoices()
    ensures Choices(OnOffFlags()) == [VBool(true), VBool(false)]
  {
    var g := OnOffFlags();
    assert g[..1][..0] == [];
    assert Choices(g[..1]) == [VBool(true)];
    assert g[..|g| - 1] == g[..1];
  }

  lemma OnOffLiteral()
    ensures LiteralOf([VBool(true), VBool(false)]) == Literal([VBool(true), VBool(false)])
  {
    var c := [VBool(true), VBool(false)];
    assert c[..1][..0] == [];
    assert Dedup(c[..1]) == [VBool(true)];
    assert c[..|c| - 1] == c[..1];
    assert !PyEq(VBool(false), VBool(true));
  }



  function OnOffFlags(): seq<Action> {
    [ Action("on", StoreConst, Count(0), Unset, VNone, VBool(true), false, None, []),
      Action("on", StoreConst, Count(0), Unset, VNone, VBool(false), false, None, []) ]
  }

  /** A keyword destination is suffixed; a destination "help" gives nothing. */
  lemma NamingExample()
    ensures ActionToParam(Action("from", Store, Absent, TStr, VNone, VNone, true, None, []))
      == Ok(Some(Param("from_", Empty, Str)))
    ensures ActionToParam(Action("help", Help, Count(0), Unset, Suppress, VNone, false, None, [])) == Ok(None)
  {
    assert IsKeyword("from");
    assert ParamName("from") == "from_";
    assert IsIdentifier("from_") by {
      var s := "from_";
      assert s[0] == 'f' && s[1] == 'r' && s[2] == 'o' && s[3] == 'm' && s[4] == '_';
    }
  }
}
