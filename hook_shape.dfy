/** The calling-shape check the manager applies to a callable before it accepts
    it as a global hook. `inspect.signature` is not modelled: a signature is the
    sequence of its parameters' kinds. */
module HookShape {
  import opened Wrappers
  import opened Errors

  /** The five kinds `inspect.Parameter.kind` distinguishes. */
  datatype ParamKind = PositionalOnly | PositionalOrKeyword | VarPositional | KeywordOnly | VarKeyword

  /** The name `inspect` gives each kind. */
  function KindName(k: ParamKind): string {
    match k
    case PositionalOnly => "POSITIONAL_ONLY"
    case PositionalOrKeyword => "POSITIONAL_OR_KEYWORD"
    case VarPositional => "VAR_POSITIONAL"
    case KeywordOnly => "KEYWORD_ONLY"
    case VarKeyword => "VAR_KEYWORD"
  }

  const GLOBAL_ON_SETUP_ARGS: nat := 1
  const GLOBAL_ON_ENTER_ARGS: nat := 2
  const GLOBAL_ON_LEAVE_ARGS: nat := 2
  /** The kinds that cannot be passed positionally, by name. */
  const KW_CONSIDER: seq<string> := ["VAR_KEYWORD", "KEYWORD_ONLY"]

  /** A parameter that cannot receive a positional argument: its kind's name is
      one of KW_CONSIDER. */
  predicate IsKeywordKind(k: ParamKind) {
    KindName(k) in KW_CONSIDER
  }

  lemma KeywordKinds(k: ParamKind)
    ensures IsKeywordKind(k) <==> k == KeywordOnly || k == VarKeyword
  {
    match k
    case PositionalOnly =>
      assert KindName(k)[0] == 'P';
    case PositionalOrKeyword =>
      assert KindName(k)[0] == 'P';
    case VarPositional =>
      assert KindName(k)[4] == 'P';
    case KeywordOnly =>
      assert KindName(k) == KW_CONSIDER[1];
    case VarKeyword =>
      assert KindName(k) == KW_CONSIDER[0];
  }

  /** How many parameters are keyword-only or variadic keyword. */
  function KeywordCount(params: seq<ParamKind>): nat {
    if params == [] then 0
    else KeywordCount(params[..|params| - 1]) + (if IsKeywordKind(params[|params| - 1]) then 1 else 0)
  }

  /** How many parameters are neither keyword-only nor variadic keyword. */
  function PositionalCount(params: seq<ParamKind>): nat {
    if params == [] then 0
    else PositionalCount(params[..|params| - 1]) + (if IsKeywordKind(params[|params| - 1]) then 0 else 1)
  }

  /** Every parameter is counted by exactly one of the two counters. */
  lemma {:induction false} CountsPartition(params: seq<ParamKind>)
    ensures KeywordCount(params) + PositionalCount(params) == |params|
  {
    if params != [] {
      CountsPartition(params[..|params| - 1]);
    }
  }

  /** The keyword count is zero exactly when no parameter is keyword-only or
      variadic keyword. */
  lemma {:induction false} KeywordCountZero(params: seq<ParamKind>)
    ensures KeywordCount(params) == 0 <==>
            forall i :: 0 <= i < |params| ==> params[i] != KeywordOnly && params[i] != VarKeyword
  {
    if params != [] {
      var init := params[..|params| - 1];
      KeywordCountZero(init);
      KeywordKinds(params[|params| - 1]);
      assert forall i :: 0 <= i < |init| ==> init[i] == params[i];
    }
  }

  /** `_get_kw_args`: counts the keyword-only and variadic-keyword parameters. */
  method GetKwArgs(params: seq<ParamKind>) returns (amount: nat)
    ensures amount == KeywordCount(params)
  {
    amount := 0;
    for i := 0 to |params|
      invariant amount == KeywordCount(params[..i])
    {
      assert params[..i + 1][..i] == params[..i];
      if IsKeywordKind(params[i]) {
        amount := amount + 1;
      }
    }
    assert params[..|params|] == params;
  }

  /** `_get_pos_args`: counts the remaining parameters. */
  method GetPosArgs(params: seq<ParamKind>) returns (amount: nat)
    ensures amount == PositionalCount(params)
  {
    amount := 0;
    for i := 0 to |params|
      invariant amount == PositionalCount(params[..i])
    {
      assert params[..i + 1][..i] == params[..i];
      if !IsKeywordKind(params[i]) {
        amount := amount + 1;
      }
    }
    assert params[..|params|] == params;
  }

  /** The test the three global-hook setters apply: exactly `arity` parameters in
      all, none of them keyword-only or variadic keyword. */
  predicate ShapeAccepted(params: seq<ParamKind>, arity: nat) {
    |params| == arity && KeywordCount(params) == 0
  }

  /** The shape test in terms of the parameters themselves. */
  lemma ShapeAcceptedIff(params: seq<ParamKind>, arity: nat)
    ensures ShapeAccepted(params, arity) <==>
            |params| == arity && forall i :: 0 <= i < |params| ==> params[i] != KeywordOnly && params[i] != VarKeyword
  {
    KeywordCountZero(params);
  }

  /** The body shared by the three setters: inspects the signature and raises
      `TypeError` when the shape does not match. */
  method ValidateSignature(params: seq<ParamKind>, arity: nat) returns (r: Outcome<Error>)
    ensures r.Pass? <==>
            |params| == arity && forall i :: 0 <= i < |params| ==> params[i] != KeywordOnly && params[i] != VarKeyword
    ensures r.Fail? ==> r.error == TypeError
  {
    // The positional count only feeds the error message.
    var posArgs := GetPosArgs(params);
    var kwArgs := GetKwArgs(params);
    ShapeAcceptedIff(params, arity);
    if |params| != arity || kwArgs != 0 {
      r := Fail(TypeError);
    } else {
      r := Pass;
    }
  }

  // ---------------------------------------------------------------------------
  // The membership test as the source writes it: `param.kind in _KW_CONSIDER`
  // compares the kind itself, an IntEnum member, with the strings of
  // KW_CONSIDER.

  /** The two sorts of Python value that membership test compares. */
  datatype PyValue = KindMember(kind: ParamKind) | Str(s: string)

  /** Python `==` on those values: an IntEnum member never equals a str (both
      sides' `__eq__` return NotImplemented and Python falls back to identity). */
  predicate PyEquals(a: PyValue, b: PyValue) {
    match (a, b)
    case (KindMember(x), KindMember(y)) => x == y
    case (Str(x), Str(y)) => x == y
    case _ => false
  }

  /** `param.kind in _KW_CONSIDER`, as written. */
  predicate InKwConsiderAsWritten(k: ParamKind) {
    exists i :: 0 <= i < |KW_CONSIDER| && PyEquals(KindMember(k), Str(KW_CONSIDER[i]))
  }

  /** `_get_kw_args` as written. */
  function KeywordCountAsWritten(params: seq<ParamKind>): nat {
    if params == [] then 0
    else KeywordCountAsWritten(params[..|params| - 1]) + (if InKwConsiderAsWritten(params[|params| - 1]) then 1 else 0)
  }

  /** `_get_pos_args` as written: `param.kind not in _KW_CONSIDER`. */
  function PositionalCountAsWritten(params: seq<ParamKind>): nat {
    if params == [] then 0
    else PositionalCountAsWritten(params[..|params| - 1]) + (if InKwConsiderAsWritten(params[|params| - 1]) then 0 else 1)
  }

  /** As written, `_get_pos_args` counts every parameter, keyword-only and
      variadic keyword ones included, so the error message reports the total. */
  lemma {:induction false} AsWrittenPositionalCountIsLength(params: seq<ParamKind>)
    ensures PositionalCountAsWritten(params) == |params|
    ensures PositionalCountAsWritten(params) == PositionalCount(params) + KeywordCount(params)
  {
    if params != [] {
      AsWrittenPositionalCountIsLength(params[..|params| - 1]);
    }
    CountsPartition(params);
  }

  /** `def hook(current, *, previous)`: as written two positional parameters are
      reported, the intended count is one. */
  lemma AsWrittenPositionalCountDiffers()
    ensures PositionalCountAsWritten([PositionalOrKeyword, KeywordOnly]) == 2
    ensures PositionalCount([PositionalOrKeyword, KeywordOnly]) == 1
  {
    AsWrittenPositionalCountIsLength([PositionalOrKeyword, KeywordOnly]);
    KeywordKinds(KeywordOnly);
    KeywordKinds(PositionalOrKeyword);
    assert [PositionalOrKeyword, KeywordOnly][..1] == [PositionalOrKeyword];
    assert [PositionalOrKeyword][..0] == [];
  }

  /** The setters' test as written. */
  predicate ShapeAcceptedAsWritten(params: seq<ParamKind>, arity: nat) {
    |params| == arity && KeywordCountAsWritten(params) == 0
  }

  /** As written, the keyword count is always zero, so only the total parameter
      count is checked. */
  lemma {:induction false} AsWrittenChecksCountOnly(params: seq<ParamKind>, arity: nat)
    ensures KeywordCountAsWritten(params) == 0
    ensures ShapeAcceptedAsWritten(params, arity) <==> |params| == arity
  {
    if params != [] {
      AsWrittenChecksCountOnly(params[..|params| - 1], arity);
    }
  }

  /** `def hook(current, *, previous)` assigned to `global_on_enter`, and
      `def hook(**kwargs)` assigned to `global_on_setup`: accepted as written,
      rejected by the intended check. */
  lemma AsWrittenAcceptsKeywordParameters()
    ensures ShapeAcceptedAsWritten([PositionalOrKeyword, KeywordOnly], GLOBAL_ON_ENTER_ARGS)
    ensures !ShapeAccepted([PositionalOrKeyword, KeywordOnly], GLOBAL_ON_ENTER_ARGS)
    ensures ShapeAcceptedAsWritten([VarKeyword], GLOBAL_ON_SETUP_ARGS)
    ensures !ShapeAccepted([VarKeyword], GLOBAL_ON_SETUP_ARGS)
  {
    AsWrittenChecksCountOnly([PositionalOrKeyword, KeywordOnly], GLOBAL_ON_ENTER_ARGS);
    AsWrittenChecksCountOnly([VarKeyword], GLOBAL_ON_SETUP_ARGS);
    ShapeAcceptedIff([PositionalOrKeyword, KeywordOnly], GLOBAL_ON_ENTER_ARGS);
    ShapeAcceptedIff([VarKeyword], GLOBAL_ON_SETUP_ARGS);
  }
}
