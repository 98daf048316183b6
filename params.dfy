/**
 * The synthesized signature's vocabulary: type annotations, defaults
 * (with `inspect.Parameter.empty` kept apart from None) and parameters, plus
 * the keyword-suffix naming shared by synthesis and rehydration.
 */
module Params {
  import opened PyValues

  /** A type annotation. `Optional(t)` is `typing.Union[t, None]`; `OrNone(t)`
      is the PEP 604 form `t | None`, which is a different object. `ClassRef`
      names any other class; `FileTypeObj` and `CustomFnObj` are a declared
      `type=` object used directly as an annotation. */
  datatype Annot =
    | Str | Int | Float | Bool | Any
    | ListOf(elem: Annot)
    | Literal(choices: seq<Value>)
    | Optional(inner: Annot)
    | OrNone(inner: Annot)
    | ClassRef(name: string)
    | FileTypeObj
    | CustomFnObj
    | Context

  /** A parameter default: none at all (`inspect.Parameter.empty`) or a value. */
  datatype Default = Empty | Given(v: Value)

  datatype Param = Param(name: string, default: Default, annot: Annot)

  /** `type(v)` as an annotation. */
  function TypeOf(v: Value): Annot {
    match v
    case VNone => ClassRef("NoneType")
    case VBool(_) => Bool
    case VInt(_) => Int
    case VFloat(_) => Float
    case VStr(_) => Str
    case VList(_) => ClassRef("list")
    case VFile(_) => ClassRef("TextIOWrapper")
  }

  /** No keyword is empty or ends in "_". */
  lemma KeywordShape(k: string)
    requires IsKeyword(k)
    ensures |k| > 0 && k[|k| - 1] != '_'
  {
  }

  lemma SuffixedIsNotKeyword(d: string)
    ensures !IsKeyword(d + "_")
  {
    if IsKeyword(d + "_") {
      KeywordShape(d + "_");
    }
  }

  /** The parameter name for a destination: a Python keyword gets a trailing "_". */
  function ParamName(dest: string): (name: string)
    ensures IsKeyword(dest) ==> name == dest + "_"
    ensures !IsKeyword(dest) ==> name == dest
    ensures !IsKeyword(name)
  {
    if IsKeyword(dest) then
      SuffixedIsNotKeyword(dest);
      dest + "_"
    else dest
  }

  /** A name of the form keyword + "_". */
  predicate IsSuffixedKeyword(name: string) {
    |name| > 0 && name[|name| - 1] == '_' && IsKeyword(name[..|name| - 1])
  }

  /** The destination a parameter name maps back to: the trailing "_" is
      dropped exactly when what precedes it is a keyword. */
  function DestOf(name: string): (dest: string)
    ensures IsSuffixedKeyword(name) ==> dest + "_" == name && IsKeyword(dest)
    ensures !IsSuffixedKeyword(name) ==> dest == name
  {
    if IsSuffixedKeyword(name) then name[..|name| - 1] else name
  }

  /** Naming then mapping back returns the destination, except for a
      destination that itself already looks like keyword + "_". */
  lemma DestOfParamName(dest: string)
    ensures DestOf(ParamName(dest)) == dest <==> !IsSuffixedKeyword(dest)
  {
    if IsKeyword(dest) {
      KeywordShape(dest);
      var n := dest + "_";
      assert n[..|n| - 1] == dest;
    }
  }

  /** The destination "from_" (a common way to spell around the keyword) is
      mapped back to "from": naming and mapping back do not round-trip. */
  lemma FromUnderscoreDoesNotRoundTrip()
    ensures ParamName("from_") == "from_"
    ensures DestOf(ParamName("from_")) == "from"
  {
    assert "from_"[..4] == "from";
  }

  /** `inspect.Parameter` accepts a name only if it is an identifier and not
      a keyword; otherwise it raises ValueError. */
  predicate ValidParamName(name: string) {
    IsIdentifier(name) && !IsKeyword(name)
  }

  function InvalidNameError(name: string): PyException {
    PyException("ValueError", "'" + name + "' is not a valid parameter name", true)
  }

  function Names(ps: seq<Param>): seq<string> {
    seq(|ps|, i requires 0 <= i < |ps| => ps[i].name)
  }

  lemma NamesAppend(ps: seq<Param>, p: Param)
    ensures Names(ps + [p]) == Names(ps) + [p.name]
  {
    assert (ps + [p])[..|ps|] == ps;
  }

  lemma NamesConcat(ps: seq<Param>, qs: seq<Param>)
    ensures Names(ps + qs) == Names(ps) + Names(qs)
  {
    assert forall i | 0 <= i < |ps| + |qs| :: Names(ps + qs)[i] == (Names(ps) + Names(qs))[i];
  }

  predicate DistinctNames(ps: seq<Param>) {
    forall i, j | 0 <= i < j < |ps| :: ps[i].name != ps[j].name
  }
}
