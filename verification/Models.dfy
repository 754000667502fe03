/** The review harness's validated records, and the invariants their validators enforce. */
module Models {
  import opened Wrappers
  import opened Utf8
  import opened Manifest

  datatype Acceptance = Acceptance(
    id: string, isTest: bool, command: seq<string>, expectedExit: int,
    redCodes: seq<int>, redFingerprint: Option<string>, testPaths: seq<Text>)

  datatype Task = Task(
    version2: bool, taskId: string, baseSha: string, harness: string, requirements: seq<string>,
    reviewerPrompt: string, adversaryPrompt: string, acceptance: seq<Acceptance>)

  datatype PolicyReport = PolicyReport(
    taskId: string, taskSha: string, passed: bool, harness: string, baseSha: string, headSha: string,
    patch: Option<string>, files: seq<DiffFile>, violations: seq<string>)

  datatype Severity = Critical | High | Medium | Low

  datatype Finding = Finding(id: string, severity: Severity, requirement: Option<string>)

  datatype ReviewRole = Reviewer | Adversary

  datatype Decision = Accept | ChangesRequired | Blocked

  datatype Review = Review(
    taskId: string, taskSha: string, role: ReviewRole, reviewerId: string, sessionId: string,
    prompt: string, decision: Decision, baseSha: string, headSha: string, patch: string,
    findings: seq<Finding>, unverified: seq<string>, externalCalls: bool)

  datatype Gate = Gate(
    taskId: string, taskSha: string, headSha: string, patch: string, acceptanceId: string,
    command: seq<string>, expectedExit: int, passed: bool, exitCode: int, evidence: string)

  datatype Red = Red(exitCode: int, log: string, fingerprint: string, testPatch: string)

  datatype Green = Green(exitCode: int, log: string, testPatch: string)

  datatype Tdd = Tdd(
    version2: bool, taskId: string, taskSha: string, baseSha: string, headSha: string, patch: string,
    acceptanceId: string, command: seq<string>, testPaths: seq<Text>, manifest: Sha, testPatch: string,
    redSnapshot: Option<string>, greenSnapshot: Option<string>, red: Red, green: Green)

  datatype GateFault =
    | GateTaskId | GateTaskSha | GateHeadSha | GatePatch | GateCommand | GateExpectedExit | GateFailed

  datatype ReviewFault =
    | ReviewTaskId | ReviewTaskSha | ReviewBaseSha | ReviewHeadSha | ReviewPatch | ReviewPrompt
    | NotAccepted(decision: Decision)
    | UnknownRequirement(finding: string, requirement: string)

  /** The verdict's reasons, structured instead of rendered. */
  datatype Reason =
    | PolicyTaskId | PolicyTaskSha | PolicyBaseSha | PolicyHarness | PolicyViolation(violation: string)
    | PolicyNoPatch
    | TddBaseSha | TddTaskId | TddTaskSha | TddHeadSha | TddPatch
    | TddUnknownAcceptance | TddNotTest | TddCommand | TddTestPaths
    | RedExitCode | RedFingerprint | GreenExitCode | TestPatchChanged
    | SnapshotsMissing | SnapshotsEqual
    | PathsAbsent(paths: set<Text>) | ManifestUnderivable | ManifestMismatch
    | GatesMissing(ids: set<string>) | GatesUnknown(ids: set<string>) | GatesRepeated(ids: set<string>)
    | OfGate(id: string, gateFault: GateFault)
    | RolesMissing(roles: set<ReviewRole>) | RolesRepeated(roles: set<ReviewRole>)
    | OfReview(role: ReviewRole, reviewFault: ReviewFault)
    | SameReviewerId | SameSessionId
    | MediumOrUnverified | SelfReported
    | Attestation

  datatype Blocker = Blocker(role: ReviewRole, finding: string)

  datatype Status = Pass | Fail | HumanReview

  datatype Verdict = Verdict(
    taskId: string, taskSha: string, harness: string, baseSha: string, headSha: string,
    patch: Option<string>, status: Status, gates: seq<Gate>, blockers: seq<Blocker>, reasons: seq<Reason>)

  // ---------------------------------------------------------------- validators

  predicate Unique<T(==)>(values: seq<T>) {
    forall i, j :: 0 <= i < j < |values| ==> values[i] != values[j]
  }

  predicate ValidAcceptance(a: Acceptance) {
    && Unique(a.redCodes) && (forall i :: 0 <= i < |a.redCodes| ==> 0 <= a.redCodes[i] <= 255)
    && 0 <= a.expectedExit <= 255 && |a.command| > 0
    && Unique(a.testPaths) && SortPaths(a.testPaths) == a.testPaths
    && (if a.isTest then a.redCodes != [] && a.redFingerprint.Some? && a.expectedExit !in a.redCodes
        else a.redCodes == [] && a.redFingerprint.None? && a.testPaths == [])
  }

  predicate UniqueIds(acceptance: seq<Acceptance>) {
    forall i, j :: 0 <= i < j < |acceptance| ==> acceptance[i].id != acceptance[j].id
  }

  predicate ValidTask(task: Task) {
    && |task.requirements| > 0 && Unique(task.requirements)
    && |task.acceptance| > 0 && UniqueIds(task.acceptance)
    && (forall i :: 0 <= i < |task.acceptance| ==> ValidAcceptance(task.acceptance[i]))
    && (task.version2 ==>
          forall i :: 0 <= i < |task.acceptance| && task.acceptance[i].isTest ==>
            task.acceptance[i].testPaths != [])
  }

  predicate ValidPolicy(policy: PolicyReport) {
    && FramableFiles(policy.files)
    && (if policy.passed then
          && policy.violations == [] && policy.patch.Some? && policy.files != []
          && forall i :: 0 <= i < |policy.files| ==> policy.files[i].content.Some?
        else policy.violations != [])
  }

  predicate Severe(finding: Finding) {
    finding.severity.Critical? || finding.severity.High?
  }

  predicate UniqueFindings(findings: seq<Finding>) {
    forall i, j :: 0 <= i < j < |findings| ==> findings[i].id != findings[j].id
  }

  predicate ValidReview(review: Review) {
    && !review.externalCalls && UniqueFindings(review.findings)
    && (if review.decision.Accept? then forall i :: 0 <= i < |review.findings| ==> !Severe(review.findings[i])
        else review.findings != [])
  }

  predicate ValidGate(gate: Gate) {
    && 0 <= gate.exitCode <= 255 && 0 <= gate.expectedExit <= 255 && |gate.command| > 0
    && gate.passed == (gate.exitCode == gate.expectedExit)
  }

  predicate ValidTdd(tdd: Tdd) {
    && |tdd.command| > 0 && tdd.testPaths != [] && Unique(tdd.testPaths)
    && SortPaths(tdd.testPaths) == tdd.testPaths
    && 0 <= tdd.red.exitCode <= 255 && 0 <= tdd.green.exitCode <= 255
    && (if tdd.version2 then
          tdd.redSnapshot.Some? && tdd.greenSnapshot.Some? && tdd.redSnapshot != tdd.greenSnapshot
        else tdd.redSnapshot.None? && tdd.greenSnapshot.None?)
  }

  predicate AllPassed(gates: seq<Gate>) {
    forall i :: 0 <= i < |gates| ==> gates[i].passed
  }

  /** The verdict's own validator; constructing a verdict that fails it raises. */
  predicate ValidVerdict(v: Verdict) {
    && (v.status != Fail ==> v.gates != [] && AllPassed(v.gates) && v.blockers == [])
    && (v.status == Pass ==> v.blockers == [] && v.reasons == [] && v.patch.Some?)
    && (v.status != Pass ==> v.reasons != [])
  }

  function Find(acceptance: seq<Acceptance>, id: string): (found: Option<Acceptance>)
    ensures found.Some? ==> found.value in acceptance && found.value.id == id
    ensures found.None? ==> forall i :: 0 <= i < |acceptance| ==> acceptance[i].id != id
  {
    if acceptance == [] then None
    else if acceptance[0].id == id then Some(acceptance[0])
    else Find(acceptance[1..], id)
  }

  function Occurrences(gates: seq<Gate>, id: string): nat {
    if gates == [] then 0
    else Occurrences(gates[..|gates| - 1], id) + if gates[|gates| - 1].acceptanceId == id then 1 else 0
  }

  function RoleOccurrences(reviews: seq<Review>, role: ReviewRole): nat {
    if reviews == [] then 0
    else RoleOccurrences(reviews[..|reviews| - 1], role) + if reviews[|reviews| - 1].role == role then 1 else 0
  }

  function AcceptanceIds(task: Task): set<string> {
    set i | 0 <= i < |task.acceptance| :: task.acceptance[i].id
  }

  function GateIds(gates: seq<Gate>): set<string> {
    set i | 0 <= i < |gates| :: gates[i].acceptanceId
  }

  function Roles(reviews: seq<Review>): set<ReviewRole> {
    set i | 0 <= i < |reviews| :: reviews[i].role
  }

  function ChangedPaths(policy: PolicyReport): set<Text> {
    set i | 0 <= i < |policy.files| :: policy.files[i].path
  }

  /** `list(dict.fromkeys(values))` */
  function FirstOccurrences<T(==,!new)>(values: seq<T>): (kept: seq<T>)
    ensures forall v :: v in kept <==> v in values
    ensures kept == [] <==> values == []
    ensures Unique(kept)
  {
    if values == [] then []
    else
      var last := values[|values| - 1];
      var front := FirstOccurrences(values[..|values| - 1]);
      assert values == values[..|values| - 1] + [last];
      if last in front then front else front + [last]
  }
}
