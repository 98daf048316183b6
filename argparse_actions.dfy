/**
 * The argument declarations a plugin makes on its argparse parser, as plain
 * records. Only the attributes the signature compiler reads are kept.
 */
module Argparse {
  import opened PyValues

  /** The action class of a declaration. StoreTrue and StoreFalse are
      subclasses of StoreConst in argparse; `IsStoreConst` says so. */
  datatype Kind = Store | StoreTrue | StoreFalse | StoreConst | Append | Help | Other

  /** `nargs`: absent (None), the string forms `'?'`, `'*'`, `'+'`
      (`Opt` also stands for any other string, such as `'...'`), or a count. */
  datatype Nargs = Absent | Opt | Star | Plus | Count(n: int)

  /** `type=`: unset, the builtins str/int/float, an `argparse.FileType`
      object, a plain function, or some other class. */
  datatype ArgType = Unset | TStr | TInt | TFloat | TFileType | TCustomFn | TClass(name: string)

  /** One declaration (`argparse.Action`). `choices` is empty when none are
      declared; `help` is None when not given. */
  datatype Action = Action(
    dest: string,
    kind: Kind,
    nargs: Nargs,
    argType: ArgType,
    default: Value,
    constant: Value,
    required: bool,
    help: Option<string>,
    choices: seq<Value>)

  /** `argparse.SUPPRESS`. */
  const Suppress: Value := VStr("==SUPPRESS==")
  const SuppressText: string := "==SUPPRESS=="

  /** `isinstance(action, argparse._StoreConstAction)`. */
  predicate IsStoreConst(a: Action) {
    a.kind == StoreConst || a.kind == StoreTrue || a.kind == StoreFalse
  }

  /** `act.help and act.help != argparse.SUPPRESS`. */
  predicate HasUsableHelp(a: Action) {
    a.help.Some? && a.help.value != "" && a.help.value != SuppressText
  }

  /** `nargs` is `'*'`, `'+'` or a count above one. */
  predicate IsListArity(n: Nargs) {
    n == Star || n == Plus || (n.Count? && n.n > 1)
  }

  /** `nargs` is `'*'` or a count above one (the arities that default to `[]`). */
  predicate IsEmptyListArity(n: Nargs) {
    n == Star || (n.Count? && n.n > 1)
  }

  /** One entry of `actions_by_dest`: a destination and its declarations in
      declaration order. */
  datatype Group = Group(dest: string, actions: seq<Action>)

  /** Every group has at least one declaration. */
  predicate NonEmptyGroups(gs: seq<Group>) {
    forall i | 0 <= i < |gs| :: |gs[i].actions| > 0
  }
}
