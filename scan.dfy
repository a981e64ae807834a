/** The drift scan: the fail-fast stage sequence that produces the plan, the
    classification loop over its resource changes, and the exit code the
    scan command ends with. Every external effect (path resolution, the
    three terraform subprocesses, JSON decoding) is an outcome given in an
    `Environment`. */
module DriftScan {
  import opened DriftTypes
  import opened Severity
  import opened Classifier

  datatype Stage = ResolvePath | Init | Plan | Show | Decode

  /** The stages in the order the scan runs them. */
  const Stages: seq<Stage> := [ResolvePath, Init, Plan, Show, Decode]

  /** What one stage does when it runs: succeed, or fail with the text of the
      underlying error. */
  datatype Step = Succeeds | Fails(cause: string)

  /** What decoding the plan's JSON gives: its resource changes, or an error. */
  datatype PlanDecode = Decoded(changes: seq<ResourceChange>) | Undecodable(cause: string)

  /** The outcome each stage would have if it were run. */
  datatype Environment = Environment(
    resolve: Step,      // making the terraform directory absolute
    init: Step,         // terraform init -input=false
    plan: Step,         // terraform plan -out=plan.tfplan -input=false
    show: Step,         // terraform show -json <dir>/plan.tfplan
    decoded: PlanDecode)

  /** The error a failed scan returns; its message is all a caller sees. */
  datatype ScanError = ScanError(message: string)

  function StepOf(env: Environment, s: Stage): Step {
    match s
    case ResolvePath => env.resolve
    case Init => env.init
    case Plan => env.plan
    case Show => env.show
    case Decode => if env.decoded.Decoded? then Succeeds else Fails(env.decoded.cause)
  }

  /** How a stage wraps the error it failed with: each terraform stage and
      the decoding put their own prefix before the underlying error's text;
      path resolution passes the error on unwrapped. */
  function StageError(s: Stage, cause: string): (e: ScanError)
    ensures s == ResolvePath ==> e.message == cause
    ensures s == Init ==> e.message == "terraform init failed: " + cause
    ensures s == Plan ==> e.message == "terraform plan failed: " + cause
    ensures s == Show ==> e.message == "terraform show failed: " + cause
    ensures s == Decode ==> e.message == "failed to parse plan JSON: " + cause
  {
    var prefix :=
      match s
      case ResolvePath => ""
      case Init => "terraform init failed: "
      case Plan => "terraform plan failed: "
      case Show => "terraform show failed: "
      case Decode => "failed to parse plan JSON: ";
    ScanError(prefix + cause)
  }

  /** The message of a wrapped stage error tells which stage failed and with
      which underlying error: two such messages are equal only for the same
      stage and the same cause. */
  lemma StageErrorIdentifiesStage(s1: Stage, c1: string, s2: Stage, c2: string)
    requires s1 != ResolvePath && s2 != ResolvePath
    requires StageError(s1, c1) == StageError(s2, c2)
    ensures s1 == s2 && c1 == c2
  {
    var m := StageError(s1, c1).message;
    var p1 := m[..|m| - |c1|];
    var p2 := m[..|m| - |c2|];
    assert m == p1 + c1 && m == p2 + c2 by {
      match s1
      case Init => assert m == "terraform init failed: " + c1;
      case Plan => assert m == "terraform plan failed: " + c1;
      case Show => assert m == "terraform show failed: " + c1;
      case Decode => assert m == "failed to parse plan JSON: " + c1;
    }
    // The four prefixes already differ within their first eleven characters.
    assert m[0] == p1[0] == p2[0] && m[10] == p1[10] == p2[10];
    if s1 == s2 {
      assert |c1| == |c2|;
      assert c1 == m[|m| - |c1|..] == c2;
    }
  }

  /** Index of the first stage, from `k` on, that fails. */
  function FirstFailureFrom(env: Environment, k: nat): (r: Option<nat>)
    requires k <= |Stages|
    ensures r.Some? ==>
              k <= r.value < |Stages| && StepOf(env, Stages[r.value]).Fails? &&
              forall j :: k <= j < r.value ==> StepOf(env, Stages[j]).Succeeds?
    ensures r.None? ==> forall j :: k <= j < |Stages| ==> StepOf(env, Stages[j]).Succeeds?
    decreases |Stages| - k
  {
    if k == |Stages| then None
    else if StepOf(env, Stages[k]).Fails? then Some(k)
    else FirstFailureFrom(env, k + 1)
  }

  /** Index of the first failing stage, if any. */
  function FirstFailure(env: Environment): Option<nat> {
    FirstFailureFrom(env, 0)
  }

  /** The first failing stage, case by case in the order the scan runs them. */
  lemma FirstFailureCases(env: Environment)
    ensures FirstFailure(env) ==
              if env.resolve.Fails? then Some(0)
              else if env.init.Fails? then Some(1)
              else if env.plan.Fails? then Some(2)
              else if env.show.Fails? then Some(3)
              else if env.decoded.Undecodable? then Some(4)
              else None
  {
  }

  /** Runs the stages in order and stops at the first failure, returning its
      error with the still-empty result list; after the last stage it
      classifies every resource change of the plan, in plan order.
      `invoked` lists the stages that actually ran. */
  method RunDriftCheck(env: Environment)
    returns (results: seq<ScanResult>, err: Option<ScanError>, invoked: seq<Stage>)
    ensures FirstFailure(env).Some? ==>
              var k := FirstFailure(env).value;
              invoked == Stages[..k + 1] && results == [] &&
              err == Some(StageError(Stages[k], StepOf(env, Stages[k]).cause))
    ensures FirstFailure(env).None? ==>
              invoked == Stages && err == None &&
              env.decoded.Decoded? && results == ClassifyAll(env.decoded.changes)
  {
    FirstFailureCases(env);
    results := [];
    invoked := [ResolvePath];
    if env.resolve.Fails? {
      return results, Some(StageError(ResolvePath, env.resolve.cause)), invoked;
    }
    invoked := invoked + [Init];
    if env.init.Fails? {
      return results, Some(StageError(Init, env.init.cause)), invoked;
    }
    invoked := invoked + [Plan];
    if env.plan.Fails? {
      return results, Some(StageError(Plan, env.plan.cause)), invoked;
    }
    invoked := invoked + [Show];
    if env.show.Fails? {
      return results, Some(StageError(Show, env.show.cause)), invoked;
    }
    invoked := invoked + [Decode];
    if env.decoded.Undecodable? {
      return results, Some(StageError(Decode, env.decoded.cause)), invoked;
    }

    results := CollectDrift(env.decoded.changes);
    err := None;
  }

  /** The exit code the scan command picks once the scan succeeded. The
      threshold comparison and the fall-through compute the same value, so
      the threshold `failOn` never changes the outcome. */
  function ExitDecision(results: seq<ScanResult>, failOn: string): (code: int)
    ensures code == SeverityToExitCode(Highest(results))
  {
    var highest := Highest(results);
    if SeverityLevel(highest) >= SeverityLevel(failOn) then
      SeverityToExitCode(highest)
    else
      SeverityToExitCode(Highest(results))
  }

  /** The exit code of a successful scan, read off its findings: 3 exactly
      when some finding is critical, 2 exactly when some is a warning and
      none critical, 0 exactly when none is above "info". */
  lemma ExitDecisionByFindings(results: seq<ScanResult>, failOn: string)
    ensures ExitDecision(results, failOn) == 3 <==>
              exists i :: 0 <= i < |results| && results[i].severity == Critical
    ensures ExitDecision(results, failOn) == 2 <==>
              (exists i :: 0 <= i < |results| && results[i].severity == Warning) &&
              (forall i :: 0 <= i < |results| ==> results[i].severity != Critical)
    ensures ExitDecision(results, failOn) == 0 <==>
              forall i :: 0 <= i < |results| ==> SeverityLevel(results[i].severity) <= 1
  {
    HighestIsMaxLevel(results);
    MaxLevelIsMaximum(results);
  }

  /** The exit code of a successful scan, read off the plan: 3 when some
      entry deletes, else 2 when some entry updates or creates, else 0. */
  lemma DriftExitCode(changes: seq<ResourceChange>, failOn: string)
    ensures ExitDecision(ClassifyAll(changes), failOn) ==
              if EntriesWith(changes, ActionDelete) > 0 then 3
              else if EntriesWith(changes, ActionUpdate) > 0 || EntriesWith(changes, ActionCreate) > 0 then 2
              else 0
  {
    var rs := ClassifyAll(changes);
    ClassifyAllCounts(changes);
    ClassifyAllProvenance(changes);
    CountChangeTypePositive(rs, ActionDelete);
    CountChangeTypePositive(rs, ActionUpdate);
    CountChangeTypePositive(rs, ActionCreate);
    ExitDecisionByFindings(rs, failOn);
    if EntriesWith(changes, ActionDelete) > 0 {
      var i :| 0 <= i < |rs| && rs[i].changeType == ActionDelete;
      assert rs[i] in rs;
    } else if EntriesWith(changes, ActionUpdate) > 0 {
      var i :| 0 <= i < |rs| && rs[i].changeType == ActionUpdate;
      assert rs[i] in rs;
      forall j | 0 <= j < |rs| ensures rs[j].severity != Critical {
        assert rs[j] in rs;
      }
    } else if EntriesWith(changes, ActionCreate) > 0 {
      var i :| 0 <= i < |rs| && rs[i].changeType == ActionCreate;
      assert rs[i] in rs;
      forall j | 0 <= j < |rs| ensures rs[j].severity != Critical {
        assert rs[j] in rs;
      }
    } else {
      assert rs == [];
    }
  }

  /** The scan command: run the scan; a failed scan ends the process with
      exit code 1, a successful one with the code of its highest severity. */
  method Scan(env: Environment, failOn: string)
    returns (exitCode: int, results: seq<ScanResult>, err: Option<ScanError>)
    ensures err.Some? <==> FirstFailure(env).Some?
    ensures err.Some? ==>
              var k := FirstFailure(env).value;
              exitCode == 1 && results == [] && err.value == StageError(Stages[k], StepOf(env, Stages[k]).cause)
    ensures err.None? ==>
              env.decoded.Decoded? && results == ClassifyAll(env.decoded.changes) &&
              exitCode == SeverityToExitCode(Highest(results))
    ensures err.None? ==>
              var changes := env.decoded.changes;
              exitCode == if EntriesWith(changes, ActionDelete) > 0 then 3
                          else if EntriesWith(changes, ActionUpdate) > 0 || EntriesWith(changes, ActionCreate) > 0 then 2
                          else 0
  {
    var invoked;
    results, err, invoked := RunDriftCheck(env);
    if err.Some? {
      exitCode := 1;
      return;
    }
    exitCode := ExitDecision(results, failOn);
    DriftExitCode(env.decoded.changes, failOn);
  }
}
