/**
 * The command-line front end's argument check (`validate_arguments` in apps/api/main.py):
 * four checks run in a fixed order and the first one that fails is raised. Whether the
 * dialogue file exists is a question for the file system, so it comes in as a parameter.
 */
module Cli {
  import opened Wrappers

  /**
   * The parsed command line, as far as the check reads it. The float arguments are exact
   * reals, so argparse's `nan` and `inf` values are not represented.
   */
  datatype Arguments = Arguments(dialogueFile: string, exaggeration: real, cfgWeight: real, silence: int)

  /** The exception raised: `FileNotFoundError` for the first, `ValueError` for the others. */
  datatype ArgumentError =
    | FileNotFound(path: string)
    | ExaggerationOutOfRange(exaggeration: real)
    | CfgWeightOutOfRange(cfgWeight: real)
    | NegativeSilence(silence: int)

  predicate IsValueError(e: ArgumentError)
  {
    !e.FileNotFound?
  }

  /** `1.0 <= exaggeration <= 3.0`, both ends included. */
  predicate ExaggerationInRange(x: real)
  {
    1.0 <= x <= 3.0
  }

  /** `0.0 <= cfg_weight <= 1.0`, both ends included. */
  predicate CfgWeightInRange(x: real)
  {
    0.0 <= x <= 1.0
  }

  /**
   * `validate_arguments`: None when every check passes, otherwise the first failing check,
   * in the order file, exaggeration, cfg weight, silence.
   */
  function ValidateArguments(args: Arguments, fileExists: bool): (r: Option<ArgumentError>)
    ensures r == None <==>
      fileExists && ExaggerationInRange(args.exaggeration) && CfgWeightInRange(args.cfgWeight) && args.silence >= 0
    ensures r == Some(FileNotFound(args.dialogueFile)) <==> !fileExists
    ensures r == Some(ExaggerationOutOfRange(args.exaggeration)) <==>
      fileExists && !ExaggerationInRange(args.exaggeration)
    ensures r == Some(CfgWeightOutOfRange(args.cfgWeight)) <==>
      fileExists && ExaggerationInRange(args.exaggeration) && !CfgWeightInRange(args.cfgWeight)
    ensures r == Some(NegativeSilence(args.silence)) <==>
      fileExists && ExaggerationInRange(args.exaggeration) && CfgWeightInRange(args.cfgWeight) && args.silence < 0
  {
    if !fileExists then Some(FileNotFound(args.dialogueFile))
    else if !ExaggerationInRange(args.exaggeration) then Some(ExaggerationOutOfRange(args.exaggeration))
    else if !CfgWeightInRange(args.cfgWeight) then Some(CfgWeightOutOfRange(args.cfgWeight))
    else if args.silence < 0 then Some(NegativeSilence(args.silence))
    else None
  }

  // ---------------------------------------------------------------------------------
  // An independent reading: each check on its own, and the first failure of the list.
  // ---------------------------------------------------------------------------------

  /** Each check alone, in the order the function runs them. */
  function Checks(args: Arguments, fileExists: bool): (r: seq<Option<ArgumentError>>)
    ensures |r| == 4
  {
    [ if fileExists then None else Some(FileNotFound(args.dialogueFile)),
      if ExaggerationInRange(args.exaggeration) then None else Some(ExaggerationOutOfRange(args.exaggeration)),
      if CfgWeightInRange(args.cfgWeight) then None else Some(CfgWeightOutOfRange(args.cfgWeight)),
      if args.silence >= 0 then None else Some(NegativeSilence(args.silence)) ]
  }

  /** The first failure in a list of checks, or None when all of them pass. */
  function FirstFailure(checks: seq<Option<ArgumentError>>): (r: Option<ArgumentError>)
  {
    if checks == [] then None
    else if checks[0].Some? then checks[0]
    else FirstFailure(checks[1..])
  }

  /** `FirstFailure` returns the first failing entry, with every entry before it passing. */
  lemma {:induction false} FirstFailureIsFirst(checks: seq<Option<ArgumentError>>)
    ensures FirstFailure(checks) == None <==> forall j :: 0 <= j < |checks| ==> checks[j] == None
    ensures FirstFailure(checks).Some? ==>
      exists k :: 0 <= k < |checks| && checks[k] == FirstFailure(checks) && forall j :: 0 <= j < k ==> checks[j] == None
  {
    if checks != [] && checks[0] == None {
      var rest := checks[1..];
      FirstFailureIsFirst(rest);
      assert forall j :: 1 <= j < |checks| ==> checks[j] == rest[j - 1];
      if FirstFailure(checks).Some? {
        var k :| 0 <= k < |rest| && rest[k] == FirstFailure(rest) && forall j :: 0 <= j < k ==> rest[j] == None;
        assert checks[k + 1] == FirstFailure(checks);
      }
    }
  }

  /** `validate_arguments` raises exactly the first failing check, or nothing when none fails. */
  lemma ValidateIsFirstFailure(args: Arguments, fileExists: bool)
    ensures ValidateArguments(args, fileExists) == FirstFailure(Checks(args, fileExists))
  {
    var c := Checks(args, fileExists);
    var c3 := c[3..];
    assert c3[1..] == [];
    assert FirstFailure(c3) == c[3];
    assert c[2..][1..] == c3;
    assert FirstFailure(c[2..]) == if c[2].Some? then c[2] else c[3];
    assert c[1..][1..] == c[2..];
    assert FirstFailure(c[1..]) == if c[1].Some? then c[1] else FirstFailure(c[2..]);
  }

  /**
   * A missing file is reported whatever the other arguments are: no range check runs first.
   * Only the first check raises `FileNotFoundError`; all later ones raise `ValueError`.
   */
  lemma MissingFileWins(args: Arguments)
    ensures ValidateArguments(args, false) == Some(FileNotFound(args.dialogueFile))
    ensures forall e :: ValidateArguments(args, true) == Some(e) ==> IsValueError(e)
  {
  }

  /**
   * The ranges are closed: the end points 1.0 and 3.0 for exaggeration, 0.0 and 1.0 for the
   * cfg weight and a silence of 0 ms are accepted, and no silence is too long.
   */
  lemma BoundsAccepted(file: string, silence: int)
    requires silence >= 0
    ensures ValidateArguments(Arguments(file, 1.0, 0.0, silence), true) == None
    ensures ValidateArguments(Arguments(file, 3.0, 1.0, silence), true) == None
    ensures ValidateArguments(Arguments(file, 1.0, 1.0, 0), true) == None
  {
  }
}
