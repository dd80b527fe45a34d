/** Python's binding of a call's arguments to a function's parameters, for functions with plain
    parameters only: keywords are matched first, then the count of positional arguments is
    checked, then every parameter without a default must have received a value. */
module Calls {
  import opened Wrappers

  /** A parameter after `self`: its name and whether it has a default value. */
  datatype Param = Param(name: string, hasDefault: bool)

  /** The `TypeError`s binding can raise. */
  datatype CallError =
    | UnexpectedKeyword(name: string)
    | MultipleValues(name: string)
    | TooManyPositional(given: nat)
    | MissingArgument(name: string)

  /** The parameter names, in order. */
  function Names(params: seq<Param>): (names: seq<string>)
    ensures |names| == |params|
    ensures forall i :: 0 <= i < |params| ==> names[i] == params[i].name
  {
    if params == [] then [] else [params[0].name] + Names(params[1..])
  }

  /** The first keyword, in call order, that names no parameter or names one a positional
      argument already filled. */
  function KeywordError(names: seq<string>, filled: seq<string>, keywords: seq<string>): (r: Option<CallError>)
    ensures r.None? <==> forall k :: k in keywords ==> k in names && k !in filled
    ensures r.Some? ==> r.value.UnexpectedKeyword? || r.value.MultipleValues?
  {
    if keywords == [] then None
    else if keywords[0] !in names then Some(UnexpectedKeyword(keywords[0]))
    else if keywords[0] in filled then Some(MultipleValues(keywords[0]))
    else KeywordError(names, filled, keywords[1..])
  }

  /** The first parameter from index `from` on that has no default and no keyword value. */
  function FirstMissing(params: seq<Param>, from: nat, keywords: seq<string>): (r: Option<string>)
    ensures r.None? <==>
      forall i :: from <= i < |params| && !params[i].hasDefault ==> params[i].name in keywords
    ensures r.Some? ==> r.value !in keywords
    ensures r.Some? ==>
      exists i :: from <= i < |params| && !params[i].hasDefault && params[i].name == r.value
    decreases |params| - from
  {
    if from >= |params| then None
    else if !params[from].hasDefault && params[from].name !in keywords then Some(params[from].name)
    else FirstMissing(params, from + 1, keywords)
  }

  /** The error of calling a function with parameters `params` with `positional` positional
      arguments and the keyword arguments `keywords`, or `None` when the call binds. */
  function Bind(params: seq<Param>, positional: nat, keywords: seq<string>): (r: Option<CallError>)
    ensures r.None? <==>
      (forall k :: k in keywords ==> k in Names(params) && k !in Names(params)[..Min(positional, |params|)]) &&
      positional <= |params| &&
      (forall i :: positional <= i < |params| && !params[i].hasDefault ==> params[i].name in keywords)
  {
    var names := Names(params);
    match KeywordError(names, names[..Min(positional, |params|)], keywords)
    case Some(e) => Some(e)
    case None =>
      if positional > |params| then Some(TooManyPositional(positional))
      else match FirstMissing(params, positional, keywords)
        case Some(n) => Some(MissingArgument(n))
        case None => None
  }

  function Min(a: nat, b: nat): nat
  {
    if a <= b then a else b
  }
}
