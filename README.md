# envguard drift scan — a Dafny model

This project models the decision logic of envguard's `scan` command, which
detects Terraform drift. The command runs `terraform init`, `terraform plan`
and `terraform show -json` in order and stops at the first failure. It turns
every resource change of the plan into severity-tagged findings (`ScanResult`
records). It then reduces those findings to one highest severity and ends the
process with an exit code derived from it.

Modules:

- `DriftTypes` (types.dfy): the `ScanResult` record, with all five fields as
  strings as in the source, and the plan's resource changes (type, name,
  actions). Plan actions are their schema strings. `ResourceId` builds the
  `type.name` identifier.
- `Severity` (severity.dfy): the level map (`SeverityLevel`) and the
  severity-to-exit-code switch (`SeverityToExitCode`). It also holds the
  running-maximum loop `HighestSeverity`, proved equal to the function
  `Highest`. Lemmas prove that `Highest` bounds every record. They prove it is
  "info" or the first record reaching the maximum level, that it equals an
  order-free reference definition (`MaxLevel`), and that it does not depend on
  block order.
- `Classifier` (classifier.dfy): the early-return search `Contains`, the
  classification loop `CollectDrift`, and the
  findings of one resource change (`Classify`) and of a whole plan
  (`ClassifyAll`). The lemmas cover one finding per present action whatever
  the repetitions, the fixed change type, severity and message, the emission
  order update → delete → create, plan-order concatenation and provenance.
- `DriftScan` (scan.dfy): the fail-fast stage sequence as a method over an
  `Environment` of abstract stage outcomes, which hands the decoded plan to
  `CollectDrift`. The module also holds the exit-code decision of the command
  (`ExitDecision`) and the whole command (`Scan`). A failing scan exits with 1.

Severity stays a string throughout. A string outside info/warning/critical
therefore has level 0, as the source's map lookup gives it.

The threshold comparison at scan.go:57 has no effect on the exit code. When it
holds, scan.go:58 exits with `severityToExitCode(highest)`. When it does not,
scan.go:62-63 computes the same value again and exits with it. So
`failOnSeverity` never changes the exit code: a single warning with the
threshold at "critical" exits with 2. `ExitDecision` keeps both branches,
and its `ensures` states that the result does not depend on `failOn`.

## Model

| member | source | states |
|---|---|---|
| `DriftTypes.ResourceId` | scan.go:121 | the identifier is the resource type, one `.`, then the name, in that order and nothing else |
| `Classifier.Contains` | scan.go:155-162 | returns true exactly when the target action occurs somewhere in the list |
| `Classifier.CollectDrift` | scan.go:119-150 | the loop that appends an update, a delete and a create finding per plan entry computes exactly `ClassifyAll` of the plan |
| `Classifier.ClassifyOneRecordPerAction` | scan.go:123-149 | one resource yields exactly one "update", one "delete" and one "create" finding when that action is present (however often it is repeated) and none when absent; no other finding is produced |
| `Classifier.ClassifyRecordShape` | scan.go:121-149 | at most three findings; none exactly when update, delete and create are all absent (no-op, read, unknown actions or an empty list); each has source "terraform", resource `type.name`, a change type the resource carries, and update→warning, delete→critical, create→warning with the fixed message; findings are strictly ordered update, delete, create |
| `Classifier.ClassifyAllAppend` | scan.go:119-150 | the findings of a concatenated plan are the findings of the first part followed by those of the second (plan order is kept) |
| `Classifier.ClassifyAllCons` | scan.go:119-150 | a plan's findings are its first entry's findings followed by the rest's |
| `Classifier.ClassifyAllProvenance` | scan.go:119-150 | every finding of a plan has source "terraform", severity warning or critical (critical exactly for deletes), and is a finding of some entry whose `type.name` it carries |
| `Classifier.ClassifyAllCounts` | scan.go:119-150 | the number of update/delete/create findings equals the number of plan entries carrying that action, and there are no other findings |
| `Severity.SeverityLevel` | scan.go:186-189 | info→1, warning→2, critical→3, every other string (including "") → 0 |
| `Severity.SeverityToExitCode` | scan.go:175-184 | total: critical→3, warning→2, every other string → 0 |
| `Severity.ExitCodeFollowsLevel` | scan.go:175-189 | the exit code equals the level for warning and critical and is 0 for lower levels |
| `Severity.HighestSeverity` | scan.go:164-173 | the running-maximum loop starting from "info" with strict `>` computes `Highest` |
| `Severity.HighestIsFirstMaximum` | scan.go:164-173 | the aggregate's level is at least 1 and at least every record's level; the aggregate is "info" or the severity of the first record that reaches its level |
| `Severity.HighestIsMaxLevel` | scan.go:164-173 | the aggregate is the severity named by the maximum level of the records, floored at "info" (so "info" for an empty list) |
| `Severity.HighestCommutes` | scan.go:164-173 | swapping two blocks of records does not change the aggregate |
| `DriftScan.StageError` | scan.go:78-116 | the error message of each stage: path resolution passes its error on unwrapped; init, plan, show and decoding put "terraform init failed: ", "terraform plan failed: ", "terraform show failed: " and "failed to parse plan JSON: " before the underlying error's text |
| `DriftScan.StageErrorIdentifiesStage` | scan.go:89-116 | two wrapped stage errors have the same message only for the same stage and the same underlying error, so the message tells which stage failed |
| `DriftScan.FirstFailureFrom` | scan.go:78-116 | the first failing stage at or after position k: every earlier stage succeeds and it fails; none when all succeed |
| `DriftScan.RunDriftCheck` | scan.go:75-153 | on the first failing stage: exactly the stages up to it ran, its wrapped error is returned and the result list is empty; when all succeed: all five stages ran, no error, and the results are the plan's findings in plan order |
| `DriftScan.ExitDecision` | scan.go:54-63 | the exit code is the mapped code of the highest severity whatever the threshold `failOn` is: the threshold branch and the fall-through agree |
| `DriftScan.ExitDecisionByFindings` | scan.go:54-63 | the exit code is 3 exactly when some finding is critical, 2 exactly when some is a warning and none critical, 0 exactly when no finding is above info |
| `DriftScan.DriftExitCode` | scan.go:54-63 | for a successful scan: 3 when some plan entry deletes, otherwise 2 when some entry updates or creates, otherwise 0 |
| `DriftScan.Scan` | scan.go:32-63 | a failing scan returns the error of the first failing stage with no results and exit code 1; a successful one returns the plan's findings and the exit code read off the plan as in `DriftExitCode` |

## Left out

- Printing the banner, the stage progress lines and the findings, and the JSON rendering with `json.MarshalIndent` (scan.go:30, 37-52, 84, 94, 105): presentation only. The marshalling error branch (scan.go:38-41) is left out with it; it cannot fail on a record of five strings.
- Reading `terraform.dir`, `output.format` and `output.failOnSeverity` from the layered configuration and the `tf-dir` flag (scan.go:19-28, 54, 68-73) is left out; `failOn` is a parameter and the directory is only seen through the outcome of path resolution.
- `filepath.Abs` and the three `terraform` subprocesses (scan.go:78-111) become abstract stage outcomes in `Environment`. The command lines, the plan file path and the streaming of subprocess output are not modelled.
- JSON decoding of the plan (scan.go:113-116) becomes an abstract outcome that gives the resource changes (type, name, actions) directly; other plan fields are not modelled.
- `os.Exit` (scan.go:58, 63) and `cobra.CheckErr` (cmd/root.go:23) become the returned `exitCode` of `Scan`: 1 for a failed scan.
- Configuration loading and command registration (cmd/root.go) and the version subcommand (main.go) are glue and are not part of this model.
