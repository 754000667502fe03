/** The deterministic judge: which reasons it gives, when it is clean, and that its verdict is valid. */
module Judge {
  import opened Wrappers
  import opened Utf8
  import opened Manifest
  import opened Models

  // ---------------------------------------------------------------- when each reason is justified

  predicate PolicyReason(r: Reason, task: Task, policy: PolicyReport, taskSha: string) {
    match r
    case PolicyTaskId => policy.taskId != task.taskId
    case PolicyTaskSha => policy.taskSha != taskSha
    case PolicyBaseSha => policy.baseSha != task.baseSha
    case PolicyHarness => policy.harness != task.harness
    case PolicyViolation(violation) => !policy.passed && violation in policy.violations
    case PolicyNoPatch => policy.patch.None?
    case _ => false
  }

  predicate TddReason(r: Reason, task: Task, policy: PolicyReport, tdd: Tdd, taskSha: string)
    requires FramableFiles(policy.files)
  {
    var a := Find(task.acceptance, tdd.acceptanceId);
    var absent := PathSet(tdd.testPaths) - ChangedPaths(policy);
    var manifest := ManifestOf(policy.files, tdd.testPaths);
    match r
    case TddBaseSha => tdd.baseSha != task.baseSha
    case TddTaskId => tdd.taskId != task.taskId
    case TddTaskSha => tdd.taskSha != taskSha
    case TddHeadSha => tdd.headSha != policy.headSha
    case TddPatch => Some(tdd.patch) != policy.patch
    case TddUnknownAcceptance => a.None?
    case TddNotTest => a.Some? && !a.value.isTest
    case TddCommand => a.Some? && a.value.isTest && tdd.command != a.value.command
    case TddTestPaths =>
      && a.Some? && a.value.isTest && tdd.command == a.value.command
      && task.version2 && tdd.testPaths != a.value.testPaths
    case RedExitCode => a.Some? && tdd.red.exitCode !in a.value.redCodes
    case RedFingerprint => a.Some? && Some(tdd.red.fingerprint) != a.value.redFingerprint
    case GreenExitCode => a.Some? && tdd.green.exitCode != a.value.expectedExit
    case TestPatchChanged => tdd.red.testPatch != tdd.testPatch || tdd.green.testPatch != tdd.testPatch
    case SnapshotsMissing => tdd.version2 && (tdd.redSnapshot.None? || tdd.greenSnapshot.None?)
    case SnapshotsEqual =>
      tdd.version2 && tdd.redSnapshot.Some? && tdd.greenSnapshot.Some? && tdd.redSnapshot == tdd.greenSnapshot
    case PathsAbsent(paths) => paths == absent && absent != {}
    case ManifestUnderivable => manifest.None?
    case ManifestMismatch => manifest.Some? && Some(tdd.manifest) != manifest
    case _ => false
  }

  function PathSet(paths: seq<Text>): set<Text> {
    set i | 0 <= i < |paths| :: paths[i]
  }

  function RepeatedGates(gates: seq<Gate>): set<string> {
    set i | 0 <= i < |gates| && Occurrences(gates, gates[i].acceptanceId) != 1 :: gates[i].acceptanceId
  }

  function RepeatedRoles(reviews: seq<Review>): set<ReviewRole> {
    set i | 0 <= i < |reviews| && RoleOccurrences(reviews, reviews[i].role) != 1 :: reviews[i].role
  }

  predicate CoverageReason(r: Reason, task: Task, gates: seq<Gate>) {
    match r
    case GatesMissing(ids) => ids == AcceptanceIds(task) - GateIds(gates) && ids != {}
    case GatesUnknown(ids) => ids == GateIds(gates) - AcceptanceIds(task) && ids != {}
    case GatesRepeated(ids) => ids == RepeatedGates(gates) && ids != {}
    case _ => false
  }

  predicate GateReason(r: Reason, task: Task, policy: PolicyReport, gate: Gate, taskSha: string) {
    var a := Find(task.acceptance, gate.acceptanceId);
    r.OfGate? && r.id == gate.acceptanceId &&
    match r.gateFault
    case GateTaskId => gate.taskId != task.taskId
    case GateTaskSha => gate.taskSha != taskSha
    case GateHeadSha => gate.headSha != policy.headSha
    case GatePatch => Some(gate.patch) != policy.patch
    case GateCommand => a.Some? && gate.command != a.value.command
    case GateExpectedExit => a.Some? && gate.expectedExit != a.value.expectedExit
    case GateFailed => a.Some? && !gate.passed
  }

  predicate PanelReason(r: Reason, reviews: seq<Review>) {
    match r
    case RolesMissing(roles) => roles == {Reviewer, Adversary} - Roles(reviews) && roles != {}
    case RolesRepeated(roles) => roles == RepeatedRoles(reviews) && roles != {}
    case SameReviewerId => |reviews| == 2 && reviews[0].reviewerId == reviews[1].reviewerId
    case SameSessionId => |reviews| == 2 && reviews[0].sessionId == reviews[1].sessionId
    case _ => false
  }

  function ExpectedPrompt(task: Task, role: ReviewRole): string {
    if role.Reviewer? then task.reviewerPrompt else task.adversaryPrompt
  }

  predicate FindingReason(r: Reason, task: Task, role: ReviewRole, finding: Finding) {
    && finding.requirement.Some? && finding.requirement.value !in task.requirements
    && r == OfReview(role, UnknownRequirement(finding.id, finding.requirement.value))
  }

  predicate BindingReason(r: Reason, task: Task, policy: PolicyReport, review: Review, taskSha: string) {
    r.OfReview? && r.role == review.role &&
    match r.reviewFault
    case ReviewTaskId => review.taskId != task.taskId
    case ReviewTaskSha => review.taskSha != taskSha
    case ReviewBaseSha => review.baseSha != task.baseSha
    case ReviewHeadSha => review.headSha != policy.headSha
    case ReviewPatch => Some(review.patch) != policy.patch
    case ReviewPrompt => review.prompt != ExpectedPrompt(task, review.role)
    case NotAccepted(decision) => decision == review.decision && !decision.Accept?
    case UnknownRequirement(_, _) => false
  }

  predicate ReviewReason(r: Reason, task: Task, policy: PolicyReport, review: Review, taskSha: string) {
    || BindingReason(r, task, policy, review, taskSha)
    || exists j :: 0 <= j < |review.findings| && FindingReason(r, task, review.role, review.findings[j])
  }

  /** Everything the judge may hold against the evidence. */
  predicate Justified(
    r: Reason, task: Task, policy: PolicyReport, reviews: seq<Review>, gates: seq<Gate>, tdd: Tdd,
    taskSha: string)
    requires FramableFiles(policy.files)
  {
    || PolicyReason(r, task, policy, taskSha)
    || TddReason(r, task, policy, tdd, taskSha)
    || CoverageReason(r, task, gates)
    || (exists i :: 0 <= i < |gates| && GateReason(r, task, policy, gates[i], taskSha))
    || PanelReason(r, reviews)
    || (exists i :: 0 <= i < |reviews| && ReviewReason(r, task, policy, reviews[i], taskSha))
  }

  predicate Blocks(b: Blocker, review: Review) {
    && b.role == review.role
    && exists j :: 0 <= j < |review.findings| && Severe(review.findings[j]) && review.findings[j].id == b.finding
  }

  predicate IsBlocker(b: Blocker, reviews: seq<Review>) {
    exists i :: 0 <= i < |reviews| && Blocks(b, reviews[i])
  }

  // ---------------------------------------------------------------- the sections of the judge

  function When(condition: bool, reason: Reason): (s: seq<Reason>)
    ensures forall r :: r in s <==> condition && r == reason
  {
    if condition then [reason] else []
  }

  function Violations(violations: seq<string>): (s: seq<Reason>)
    ensures forall r :: r in s <==> r.PolicyViolation? && r.violation in violations
  {
    if violations == [] then []
    else
      var last := violations[|violations| - 1];
      assert violations == violations[..|violations| - 1] + [last];
      Violations(violations[..|violations| - 1]) + [PolicyViolation(last)]
  }

  method JudgePolicy(task: Task, policy: PolicyReport, taskSha: string) returns (reasons: seq<Reason>)
    ensures forall r :: r in reasons <==> PolicyReason(r, task, policy, taskSha)
  {
    reasons := When(policy.taskId != task.taskId, PolicyTaskId);
    reasons := reasons + When(policy.taskSha != taskSha, PolicyTaskSha);
    reasons := reasons + When(policy.baseSha != task.baseSha, PolicyBaseSha);
    reasons := reasons + When(policy.harness != task.harness, PolicyHarness);
    if !policy.passed {
      reasons := reasons + Violations(policy.violations);
    }
    reasons := reasons + When(policy.patch.None?, PolicyNoPatch);
  }

  method JudgeTddBindings(task: Task, policy: PolicyReport, tdd: Tdd, taskSha: string)
    returns (reasons: seq<Reason>)
    requires FramableFiles(policy.files)
    ensures forall r :: r in reasons <==>
              (r.TddBaseSha? || r.TddTaskId? || r.TddTaskSha? || r.TddHeadSha? || r.TddPatch?)
              && TddReason(r, task, policy, tdd, taskSha)
  {
    reasons := When(tdd.baseSha != task.baseSha, TddBaseSha);
    reasons := reasons + When(tdd.taskId != task.taskId, TddTaskId);
    reasons := reasons + When(tdd.taskSha != taskSha, TddTaskSha);
    reasons := reasons + When(tdd.headSha != policy.headSha, TddHeadSha);
    reasons := reasons + When(Some(tdd.patch) != policy.patch, TddPatch);
  }

  /** Both recorded runs against what the acceptance test demands of them. */
  method JudgeTddRuns(a: Acceptance, tdd: Tdd) returns (reasons: seq<Reason>)
    ensures forall r :: r in reasons <==>
              || (r == RedExitCode && tdd.red.exitCode !in a.redCodes)
              || (r == RedFingerprint && Some(tdd.red.fingerprint) != a.redFingerprint)
              || (r == GreenExitCode && tdd.green.exitCode != a.expectedExit)
  {
    reasons := When(tdd.red.exitCode !in a.redCodes, RedExitCode);
    reasons := reasons + When(Some(tdd.red.fingerprint) != a.redFingerprint, RedFingerprint);
    reasons := reasons + When(tdd.green.exitCode != a.expectedExit, GreenExitCode);
  }

  method JudgeTddContract(task: Task, policy: PolicyReport, tdd: Tdd, taskSha: string)
    returns (reasons: seq<Reason>)
    requires FramableFiles(policy.files)
    ensures forall r :: r in reasons <==>
              (r.TddUnknownAcceptance? || r.TddNotTest? || r.TddCommand? || r.TddTestPaths?
               || r.RedExitCode? || r.RedFingerprint? || r.GreenExitCode?)
              && TddReason(r, task, policy, tdd, taskSha)
  {
    var found := Find(task.acceptance, tdd.acceptanceId);
    if found.None? {
      return [TddUnknownAcceptance];
    }
    var a := found.value;
    reasons := [];
    if !a.isTest {
      reasons := [TddNotTest];
    } else if tdd.command != a.command {
      reasons := [TddCommand];
    } else if task.version2 && tdd.testPaths != a.testPaths {
      reasons := [TddTestPaths];
    }
    var runs := JudgeTddRuns(a, tdd);
    reasons := reasons + runs;
  }

  predicate ContentReason(r: Reason) {
    r.PathsAbsent? || r.ManifestUnderivable? || r.ManifestMismatch?
  }

  method JudgeTddFiles(task: Task, policy: PolicyReport, tdd: Tdd, taskSha: string)
    returns (reasons: seq<Reason>)
    requires FramableFiles(policy.files)
    ensures forall r :: r in reasons <==> ContentReason(r) && TddReason(r, task, policy, tdd, taskSha)
  {
    var absent := PathSet(tdd.testPaths) - ChangedPaths(policy);
    reasons := When(absent != {}, PathsAbsent(absent));
    var expected := BuildTestManifest(policy.files, tdd.testPaths);
    if expected.None? {
      reasons := reasons + [ManifestUnderivable];
    } else if Some(tdd.manifest) != expected {
      reasons := reasons + [ManifestMismatch];
    }
  }

  method JudgeTddContent(task: Task, policy: PolicyReport, tdd: Tdd, taskSha: string)
    returns (reasons: seq<Reason>)
    requires FramableFiles(policy.files)
    ensures forall r :: r in reasons <==>
              (r.TestPatchChanged? || r.SnapshotsMissing? || r.SnapshotsEqual? || ContentReason(r))
              && TddReason(r, task, policy, tdd, taskSha)
  {
    reasons := When(tdd.red.testPatch != tdd.testPatch || tdd.green.testPatch != tdd.testPatch, TestPatchChanged);
    if tdd.version2 {
      if tdd.redSnapshot.None? || tdd.greenSnapshot.None? {
        reasons := reasons + [SnapshotsMissing];
      } else if tdd.redSnapshot == tdd.greenSnapshot {
        reasons := reasons + [SnapshotsEqual];
      }
    }
    var files := JudgeTddFiles(task, policy, tdd, taskSha);
    reasons := reasons + files;
  }

  method JudgeCoverage(task: Task, gates: seq<Gate>) returns (reasons: seq<Reason>)
    ensures forall r :: r in reasons <==> CoverageReason(r, task, gates)
  {
    var missing := AcceptanceIds(task) - GateIds(gates);
    var unknown := GateIds(gates) - AcceptanceIds(task);
    var repeated := RepeatedGates(gates);
    reasons := When(missing != {}, GatesMissing(missing));
    reasons := reasons + When(unknown != {}, GatesUnknown(unknown));
    reasons := reasons + When(repeated != {}, GatesRepeated(repeated));
  }

  predicate GateBinding(r: Reason) {
    && r.OfGate?
    && (r.gateFault.GateTaskId? || r.gateFault.GateTaskSha? || r.gateFault.GateHeadSha? || r.gateFault.GatePatch?)
  }

  method JudgeGateBindings(task: Task, policy: PolicyReport, gate: Gate, taskSha: string)
    returns (reasons: seq<Reason>)
    ensures forall r :: r in reasons <==> GateBinding(r) && GateReason(r, task, policy, gate, taskSha)
  {
    var id := gate.acceptanceId;
    reasons := When(gate.taskId != task.taskId, OfGate(id, GateTaskId));
    reasons := reasons + When(gate.taskSha != taskSha, OfGate(id, GateTaskSha));
    reasons := reasons + When(gate.headSha != policy.headSha, OfGate(id, GateHeadSha));
    reasons := reasons + When(Some(gate.patch) != policy.patch, OfGate(id, GatePatch));
  }

  method JudgeGateContract(task: Task, policy: PolicyReport, gate: Gate, taskSha: string)
    returns (reasons: seq<Reason>)
    ensures forall r :: r in reasons <==> !GateBinding(r) && GateReason(r, task, policy, gate, taskSha)
  {
    var id := gate.acceptanceId;
    var a := Find(task.acceptance, id);
    if a.None? {
      return [];
    }
    reasons := When(gate.command != a.value.command, OfGate(id, GateCommand));
    reasons := reasons + When(gate.expectedExit != a.value.expectedExit, OfGate(id, GateExpectedExit));
    reasons := reasons + When(!gate.passed, OfGate(id, GateFailed));
  }

  method JudgeGate(task: Task, policy: PolicyReport, gate: Gate, taskSha: string)
    returns (reasons: seq<Reason>)
    ensures forall r :: r in reasons <==> GateReason(r, task, policy, gate, taskSha)
  {
    var bindings := JudgeGateBindings(task, policy, gate, taskSha);
    var contract := JudgeGateContract(task, policy, gate, taskSha);
    reasons := bindings + contract;
  }

  method JudgeGates(task: Task, policy: PolicyReport, gates: seq<Gate>, taskSha: string)
    returns (reasons: seq<Reason>)
    ensures forall r :: r in reasons <==>
              exists i :: 0 <= i < |gates| && GateReason(r, task, policy, gates[i], taskSha)
  {
    reasons := [];
    for i := 0 to |gates|
      invariant forall r :: r in reasons <==>
                  exists k :: 0 <= k < i && GateReason(r, task, policy, gates[k], taskSha)
    {
      var faults := JudgeGate(task, policy, gates[i], taskSha);
      reasons := reasons + faults;
    }
  }

  predicate ReviewBinding(r: Reason) {
    && r.OfReview?
    && (r.reviewFault.ReviewTaskId? || r.reviewFault.ReviewTaskSha? || r.reviewFault.ReviewBaseSha?
        || r.reviewFault.ReviewHeadSha?)
  }

  method JudgeReviewSource(task: Task, policy: PolicyReport, review: Review, taskSha: string)
    returns (reasons: seq<Reason>)
    ensures forall r :: r in reasons <==> ReviewBinding(r) && BindingReason(r, task, policy, review, taskSha)
  {
    var role := review.role;
    reasons := When(review.taskId != task.taskId, OfReview(role, ReviewTaskId));
    reasons := reasons + When(review.taskSha != taskSha, OfReview(role, ReviewTaskSha));
    reasons := reasons + When(review.baseSha != task.baseSha, OfReview(role, ReviewBaseSha));
    reasons := reasons + When(review.headSha != policy.headSha, OfReview(role, ReviewHeadSha));
  }

  method JudgeReviewDecision(task: Task, policy: PolicyReport, review: Review, taskSha: string)
    returns (reasons: seq<Reason>)
    ensures forall r :: r in reasons <==> !ReviewBinding(r) && BindingReason(r, task, policy, review, taskSha)
  {
    var role := review.role;
    reasons := When(Some(review.patch) != policy.patch, OfReview(role, ReviewPatch));
    reasons := reasons + When(review.prompt != ExpectedPrompt(task, role), OfReview(role, ReviewPrompt));
    reasons := reasons + When(!review.decision.Accept?, OfReview(role, NotAccepted(review.decision)));
  }

  method JudgeReviewBindings(task: Task, policy: PolicyReport, review: Review, taskSha: string)
    returns (reasons: seq<Reason>)
    ensures forall r :: r in reasons <==> BindingReason(r, task, policy, review, taskSha)
  {
    var source := JudgeReviewSource(task, policy, review, taskSha);
    var decision := JudgeReviewDecision(task, policy, review, taskSha);
    reasons := source + decision;
  }

  method JudgeFindings(task: Task, review: Review) returns (reasons: seq<Reason>, blockers: seq<Blocker>)
    ensures forall r :: r in reasons <==>
              exists j :: 0 <= j < |review.findings| && FindingReason(r, task, review.role, review.findings[j])
    ensures forall b :: b in blockers <==> Blocks(b, review)
  {
    reasons, blockers := [], [];
    for j := 0 to |review.findings|
      invariant forall r :: r in reasons <==>
                  exists k :: 0 <= k < j && FindingReason(r, task, review.role, review.findings[k])
      invariant forall b :: b in blockers <==>
                  && b.role == review.role
                  && exists k :: 0 <= k < j && Severe(review.findings[k]) && review.findings[k].id == b.finding
    {
      var finding := review.findings[j];
      if finding.requirement.Some? && finding.requirement.value !in task.requirements {
        reasons := reasons + [OfReview(review.role, UnknownRequirement(finding.id, finding.requirement.value))];
      }
      if Severe(finding) {
        blockers := blockers + [Blocker(review.role, finding.id)];
      }
    }
  }

  method JudgeReviews(task: Task, policy: PolicyReport, reviews: seq<Review>, taskSha: string)
    returns (reasons: seq<Reason>, blockers: seq<Blocker>)
    ensures forall r :: r in reasons <==>
              exists i :: 0 <= i < |reviews| && ReviewReason(r, task, policy, reviews[i], taskSha)
    ensures forall b :: b in blockers <==> IsBlocker(b, reviews)
  {
    reasons, blockers := [], [];
    for i := 0 to |reviews|
      invariant forall r :: r in reasons <==>
                  exists k :: 0 <= k < i && ReviewReason(r, task, policy, reviews[k], taskSha)
      invariant forall b :: b in blockers <==> exists k :: 0 <= k < i && Blocks(b, reviews[k])
    {
      var bindings := JudgeReviewBindings(task, policy, reviews[i], taskSha);
      var findings, severe := JudgeFindings(task, reviews[i]);
      reasons, blockers := reasons + bindings + findings, blockers + severe;
    }
  }

  method JudgePanel(reviews: seq<Review>) returns (before: seq<Reason>, after: seq<Reason>)
    ensures forall r :: r in before || r in after <==> PanelReason(r, reviews)
  {
    var missing := {Reviewer, Adversary} - Roles(reviews);
    var repeated := RepeatedRoles(reviews);
    before := When(missing != {}, RolesMissing(missing));
    before := before + When(repeated != {}, RolesRepeated(repeated));
    after := [];
    if |reviews| == 2 {
      after := After2(reviews);
    }
  }

  function After2(reviews: seq<Review>): seq<Reason>
    requires |reviews| == 2
  {
    When(reviews[0].reviewerId == reviews[1].reviewerId, SameReviewerId)
    + When(reviews[0].sessionId == reviews[1].sessionId, SameSessionId)
  }

  // ---------------------------------------------------------------- the verdict

  predicate MediumFinding(review: Review) {
    exists j :: 0 <= j < |review.findings| && review.findings[j].severity.Medium?
  }

  /** Something a human must weigh even when nothing is wrong. */
  predicate NeedsWeighing(reviews: seq<Review>) {
    exists i :: 0 <= i < |reviews| && (reviews[i].unverified != [] || MediumFinding(reviews[i]))
  }

  method CollectReasons(
    task: Task, policy: PolicyReport, reviews: seq<Review>, gates: seq<Gate>, tdd: Tdd, taskSha: string)
    returns (reasons: seq<Reason>, blockers: seq<Blocker>)
    requires FramableFiles(policy.files)
    ensures forall r :: r in reasons <==> Justified(r, task, policy, reviews, gates, tdd, taskSha)
    ensures forall b :: b in blockers <==> IsBlocker(b, reviews)
  {
    reasons := JudgePolicy(task, policy, taskSha);
    var tddReasons := JudgeTdd(task, policy, tdd, taskSha);
    var coverage := JudgeCoverage(task, gates);
    var gateReasons := JudgeGates(task, policy, gates, taskSha);
    var panel, pair := JudgePanel(reviews);
    var reviewReasons;
    reviewReasons, blockers := JudgeReviews(task, policy, reviews, taskSha);
    reasons := reasons + tddReasons + coverage + gateReasons + panel + reviewReasons + pair;
  }

  method JudgeTdd(task: Task, policy: PolicyReport, tdd: Tdd, taskSha: string)
    returns (reasons: seq<Reason>)
    requires FramableFiles(policy.files)
    ensures forall r :: r in reasons <==> TddReason(r, task, policy, tdd, taskSha)
  {
    var bindings := JudgeTddBindings(task, policy, tdd, taskSha);
    var contract := JudgeTddContract(task, policy, tdd, taskSha);
    var content := JudgeTddContent(task, policy, tdd, taskSha);
    reasons := bindings + contract + content;
  }
}
