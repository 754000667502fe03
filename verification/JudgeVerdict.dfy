/** What the judge's verdict means, and that it can always be constructed. */
module JudgeVerdict {
  import opened Wrappers
  import opened Utf8
  import opened Manifest
  import opened Models
  import opened Judge

  // ---------------------------------------------------------------- clean evidence

  predicate PolicyClean(task: Task, policy: PolicyReport, taskSha: string) {
    && policy.taskId == task.taskId && policy.taskSha == taskSha && policy.baseSha == task.baseSha
    && policy.harness == task.harness && policy.passed && policy.patch.Some?
  }

  predicate ContractMet(task: Task, a: Acceptance, tdd: Tdd) {
    && a.isTest && tdd.command == a.command && (task.version2 ==> tdd.testPaths == a.testPaths)
    && tdd.red.exitCode in a.redCodes && Some(tdd.red.fingerprint) == a.redFingerprint
    && tdd.green.exitCode == a.expectedExit
  }

  predicate TddBound(task: Task, policy: PolicyReport, tdd: Tdd, taskSha: string) {
    && tdd.baseSha == task.baseSha && tdd.taskId == task.taskId && tdd.taskSha == taskSha
    && tdd.headSha == policy.headSha && Some(tdd.patch) == policy.patch
  }

  predicate SomeContractMet(task: Task, tdd: Tdd) {
    exists i :: 0 <= i < |task.acceptance| && task.acceptance[i].id == tdd.acceptanceId
                && ContractMet(task, task.acceptance[i], tdd)
  }

  predicate ContentMet(policy: PolicyReport, tdd: Tdd)
    requires FramableFiles(policy.files)
  {
    && tdd.red.testPatch == tdd.testPatch == tdd.green.testPatch
    && PathSet(tdd.testPaths) <= ChangedPaths(policy)
    && ManifestOf(policy.files, tdd.testPaths) == Some(tdd.manifest)
  }

  /** The record shows the declared failure before and the declared success after, on this candidate. */
  predicate TddClean(task: Task, policy: PolicyReport, tdd: Tdd, taskSha: string)
    requires FramableFiles(policy.files)
  {
    && TddBound(task, policy, tdd, taskSha) && SomeContractMet(task, tdd) && ContentMet(policy, tdd)
  }

  predicate GateMet(task: Task, policy: PolicyReport, a: Acceptance, gate: Gate, taskSha: string) {
    && gate.acceptanceId == a.id && gate.taskId == task.taskId && gate.taskSha == taskSha
    && gate.headSha == policy.headSha && Some(gate.patch) == policy.patch
    && gate.command == a.command && gate.expectedExit == a.expectedExit && gate.passed
  }

  predicate MeetsSome(task: Task, policy: PolicyReport, gate: Gate, taskSha: string) {
    exists i :: 0 <= i < |task.acceptance| && GateMet(task, policy, task.acceptance[i], gate, taskSha)
  }

  /** Every acceptance has exactly one gate, and every gate is a passing gate of an acceptance. */
  predicate GatesClean(task: Task, policy: PolicyReport, gates: seq<Gate>, taskSha: string) {
    && (forall i :: 0 <= i < |task.acceptance| ==> Occurrences(gates, task.acceptance[i].id) == 1)
    && (forall j :: 0 <= j < |gates| ==> MeetsSome(task, policy, gates[j], taskSha))
  }

  predicate ReviewClean(task: Task, policy: PolicyReport, review: Review, taskSha: string) {
    && review.taskId == task.taskId && review.taskSha == taskSha && review.baseSha == task.baseSha
    && review.headSha == policy.headSha && Some(review.patch) == policy.patch
    && review.prompt == ExpectedPrompt(task, review.role) && review.decision.Accept?
    && forall j :: 0 <= j < |review.findings| && review.findings[j].requirement.Some? ==>
         review.findings[j].requirement.value in task.requirements
  }

  /** One review of each role by different reviewers in different sessions, all accepting. */
  predicate ReviewsClean(task: Task, policy: PolicyReport, reviews: seq<Review>, taskSha: string) {
    && |reviews| == 2 && reviews[0].role != reviews[1].role
    && reviews[0].reviewerId != reviews[1].reviewerId && reviews[0].sessionId != reviews[1].sessionId
    && ReviewClean(task, policy, reviews[0], taskSha) && ReviewClean(task, policy, reviews[1], taskSha)
  }

  predicate Clean(
    task: Task, policy: PolicyReport, reviews: seq<Review>, gates: seq<Gate>, tdd: Tdd, taskSha: string)
    requires FramableFiles(policy.files)
  {
    && PolicyClean(task, policy, taskSha) && TddClean(task, policy, tdd, taskSha)
    && GatesClean(task, policy, gates, taskSha) && ReviewsClean(task, policy, reviews, taskSha)
  }

  predicate ValidInputs(
    task: Task, policy: PolicyReport, reviews: seq<Review>, gates: seq<Gate>, tdd: Tdd)
  {
    && ValidTask(task) && ValidPolicy(policy) && ValidTdd(tdd)
    && (forall i :: 0 <= i < |reviews| ==> ValidReview(reviews[i]))
    && (forall i :: 0 <= i < |gates| ==> ValidGate(gates[i]))
  }

  // ---------------------------------------------------------------- no reason means clean

  lemma {:induction false} PolicyCleanIff(task: Task, policy: PolicyReport, taskSha: string)
    requires ValidPolicy(policy)
    ensures (forall r :: !PolicyReason(r, task, policy, taskSha)) <==> PolicyClean(task, policy, taskSha)
  {
    if forall r :: !PolicyReason(r, task, policy, taskSha) {
      assert !PolicyReason(PolicyTaskId, task, policy, taskSha);
      assert !PolicyReason(PolicyTaskSha, task, policy, taskSha);
      assert !PolicyReason(PolicyBaseSha, task, policy, taskSha);
      assert !PolicyReason(PolicyHarness, task, policy, taskSha);
      assert !PolicyReason(PolicyNoPatch, task, policy, taskSha);
      var first := if policy.violations == [] then "" else policy.violations[0];
      assert !PolicyReason(PolicyViolation(first), task, policy, taskSha);
    }
  }

  lemma {:induction false} FindUnique(acceptance: seq<Acceptance>, i: nat)
    requires i < |acceptance| && UniqueIds(acceptance)
    ensures Find(acceptance, acceptance[i].id) == Some(acceptance[i])
  {
    var found := Find(acceptance, acceptance[i].id);
    if found.Some? {
      var j :| 0 <= j < |acceptance| && acceptance[j] == found.value;
    }
  }

  lemma {:induction false} UniqueContract(task: Task, tdd: Tdd)
    requires UniqueIds(task.acceptance)
    ensures SomeContractMet(task, tdd)
       <==> && Find(task.acceptance, tdd.acceptanceId).Some?
            && ContractMet(task, Find(task.acceptance, tdd.acceptanceId).value, tdd)
  {
    if SomeContractMet(task, tdd) {
      var i :| 0 <= i < |task.acceptance| && task.acceptance[i].id == tdd.acceptanceId
               && ContractMet(task, task.acceptance[i], tdd);
      FindUnique(task.acceptance, i);
    }
  }

  lemma {:induction false} TddReasonless(task: Task, policy: PolicyReport, tdd: Tdd, taskSha: string)
    requires FramableFiles(policy.files) && UniqueIds(task.acceptance)
    requires forall r :: !TddReason(r, task, policy, tdd, taskSha)
    ensures TddClean(task, policy, tdd, taskSha)
  {
    assert TddBound(task, policy, tdd, taskSha) by {
      assert !TddReason(TddBaseSha, task, policy, tdd, taskSha);
      assert !TddReason(TddTaskId, task, policy, tdd, taskSha);
      assert !TddReason(TddTaskSha, task, policy, tdd, taskSha);
      assert !TddReason(TddHeadSha, task, policy, tdd, taskSha);
      assert !TddReason(TddPatch, task, policy, tdd, taskSha);
    }
    ContractReasonless(task, policy, tdd, taskSha);
    ContentReasonless(task, policy, tdd, taskSha);
  }

  lemma {:induction false} ContractReasonless(task: Task, policy: PolicyReport, tdd: Tdd, taskSha: string)
    requires FramableFiles(policy.files) && UniqueIds(task.acceptance)
    requires forall r :: !TddReason(r, task, policy, tdd, taskSha)
    ensures SomeContractMet(task, tdd)
  {
    assert !TddReason(TddUnknownAcceptance, task, policy, tdd, taskSha);
    assert !TddReason(TddNotTest, task, policy, tdd, taskSha);
    assert !TddReason(TddCommand, task, policy, tdd, taskSha);
    assert !TddReason(TddTestPaths, task, policy, tdd, taskSha);
    assert !TddReason(RedExitCode, task, policy, tdd, taskSha);
    assert !TddReason(RedFingerprint, task, policy, tdd, taskSha);
    assert !TddReason(GreenExitCode, task, policy, tdd, taskSha);
    UniqueContract(task, tdd);
  }

  lemma {:induction false} ContentReasonless(task: Task, policy: PolicyReport, tdd: Tdd, taskSha: string)
    requires FramableFiles(policy.files)
    requires forall r :: !TddReason(r, task, policy, tdd, taskSha)
    ensures ContentMet(policy, tdd)
  {
    var absent := PathSet(tdd.testPaths) - ChangedPaths(policy);
    assert !TddReason(TestPatchChanged, task, policy, tdd, taskSha);
    assert !TddReason(PathsAbsent(absent), task, policy, tdd, taskSha);
    assert !TddReason(ManifestUnderivable, task, policy, tdd, taskSha);
    assert !TddReason(ManifestMismatch, task, policy, tdd, taskSha);
    forall path | path in PathSet(tdd.testPaths) ensures path in ChangedPaths(policy) {
      assert path !in absent;
    }
  }

  lemma {:induction false} TddCleanNoReason(task: Task, policy: PolicyReport, tdd: Tdd, taskSha: string, r: Reason)
    requires FramableFiles(policy.files) && UniqueIds(task.acceptance) && ValidTdd(tdd)
    requires TddClean(task, policy, tdd, taskSha)
    ensures !TddReason(r, task, policy, tdd, taskSha)
  {
    UniqueContract(task, tdd);
    assert PathSet(tdd.testPaths) - ChangedPaths(policy) == {};
  }

  // ---------------------------------------------------------------- gates

  lemma {:induction false} OccurrencesSome(gates: seq<Gate>, id: string)
    ensures Occurrences(gates, id) > 0 <==> id in GateIds(gates)
  {
    if gates != [] {
      var front, last := gates[..|gates| - 1], gates[|gates| - 1];
      OccurrencesSome(front, id);
      assert gates == front + [last];
      if id in GateIds(front) {
        var k :| 0 <= k < |front| && front[k].acceptanceId == id;
        assert gates[k].acceptanceId == id;
      }
    }
  }

  lemma {:induction false} CoverageReasonless(task: Task, gates: seq<Gate>)
    requires forall r :: !CoverageReason(r, task, gates)
    ensures AcceptanceIds(task) == GateIds(gates) && RepeatedGates(gates) == {}
  {
    assert !CoverageReason(GatesMissing(AcceptanceIds(task) - GateIds(gates)), task, gates);
    assert !CoverageReason(GatesUnknown(GateIds(gates) - AcceptanceIds(task)), task, gates);
    assert !CoverageReason(GatesRepeated(RepeatedGates(gates)), task, gates);
    forall id ensures id in AcceptanceIds(task) <==> id in GateIds(gates) {
      assert id !in AcceptanceIds(task) - GateIds(gates) && id !in GateIds(gates) - AcceptanceIds(task);
    }
  }

  lemma {:induction false} GateReasonless(task: Task, policy: PolicyReport, gate: Gate, taskSha: string, i: nat)
    requires i < |task.acceptance| && Find(task.acceptance, gate.acceptanceId) == Some(task.acceptance[i])
    ensures (forall r :: !GateReason(r, task, policy, gate, taskSha))
       <==> GateMet(task, policy, task.acceptance[i], gate, taskSha)
  {
    if forall r :: !GateReason(r, task, policy, gate, taskSha) {
      var id := gate.acceptanceId;
      assert !GateReason(OfGate(id, GateTaskId), task, policy, gate, taskSha);
      assert !GateReason(OfGate(id, GateTaskSha), task, policy, gate, taskSha);
      assert !GateReason(OfGate(id, GateHeadSha), task, policy, gate, taskSha);
      assert !GateReason(OfGate(id, GatePatch), task, policy, gate, taskSha);
      assert !GateReason(OfGate(id, GateCommand), task, policy, gate, taskSha);
      assert !GateReason(OfGate(id, GateExpectedExit), task, policy, gate, taskSha);
      assert !GateReason(OfGate(id, GateFailed), task, policy, gate, taskSha);
    }
  }

  ghost predicate NoGateReason(task: Task, policy: PolicyReport, gates: seq<Gate>, taskSha: string) {
    && (forall r :: !CoverageReason(r, task, gates))
    && (forall r, j :: 0 <= j < |gates| ==> !GateReason(r, task, policy, gates[j], taskSha))
  }

  lemma {:induction false} GatesReasonless(task: Task, policy: PolicyReport, gates: seq<Gate>, taskSha: string)
    requires ValidTask(task) && NoGateReason(task, policy, gates, taskSha)
    ensures GatesClean(task, policy, gates, taskSha)
  {
    CoverageReasonless(task, gates);
    forall i | 0 <= i < |task.acceptance| ensures Occurrences(gates, task.acceptance[i].id) == 1 {
      var id := task.acceptance[i].id;
      OccurrencesSome(gates, id);
      assert id in AcceptanceIds(task);
      var j :| 0 <= j < |gates| && gates[j].acceptanceId == id;
      assert gates[j].acceptanceId !in RepeatedGates(gates);
    }
    forall j | 0 <= j < |gates|
      ensures MeetsSome(task, policy, gates[j], taskSha)
    {
      assert gates[j].acceptanceId in GateIds(gates);
      var i :| 0 <= i < |task.acceptance| && task.acceptance[i].id == gates[j].acceptanceId;
      FindUnique(task.acceptance, i);
      assert forall r :: !GateReason(r, task, policy, gates[j], taskSha);
      GateReasonless(task, policy, gates[j], taskSha, i);
      assert GateMet(task, policy, task.acceptance[i], gates[j], taskSha);
    }
  }

  lemma {:induction false} GatesCleanCovers(task: Task, policy: PolicyReport, gates: seq<Gate>, taskSha: string)
    requires ValidTask(task) && GatesClean(task, policy, gates, taskSha)
    ensures AcceptanceIds(task) == GateIds(gates) && RepeatedGates(gates) == {}
  {
    forall id | id in AcceptanceIds(task) ensures id in GateIds(gates) {
      var i :| 0 <= i < |task.acceptance| && task.acceptance[i].id == id;
      OccurrencesSome(gates, task.acceptance[i].id);
    }
    forall j | 0 <= j < |gates|
      ensures gates[j].acceptanceId in AcceptanceIds(task) && Occurrences(gates, gates[j].acceptanceId) == 1
    {
      assert MeetsSome(task, policy, gates[j], taskSha);
      var i :| 0 <= i < |task.acceptance| && GateMet(task, policy, task.acceptance[i], gates[j], taskSha);
      assert Occurrences(gates, task.acceptance[i].id) == 1;
    }
  }

  lemma {:induction false} GatesCleanNoReason(task: Task, policy: PolicyReport, gates: seq<Gate>, taskSha: string)
    requires ValidTask(task) && GatesClean(task, policy, gates, taskSha)
    ensures NoGateReason(task, policy, gates, taskSha)
  {
    GatesCleanCovers(task, policy, gates, taskSha);
    assert AcceptanceIds(task) - GateIds(gates) == {} && GateIds(gates) - AcceptanceIds(task) == {};
    forall r, j | 0 <= j < |gates| ensures !GateReason(r, task, policy, gates[j], taskSha) {
      assert MeetsSome(task, policy, gates[j], taskSha);
      var i :| 0 <= i < |task.acceptance| && GateMet(task, policy, task.acceptance[i], gates[j], taskSha);
      FindUnique(task.acceptance, i);
      GateReasonless(task, policy, gates[j], taskSha, i);
    }
  }

  // ---------------------------------------------------------------- reviews

  lemma {:induction false} RolesAddUp(reviews: seq<Review>)
    ensures RoleOccurrences(reviews, Reviewer) + RoleOccurrences(reviews, Adversary) == |reviews|
    ensures forall role :: RoleOccurrences(reviews, role) > 0 <==> role in Roles(reviews)
  {
    if reviews != [] {
      var front, last := reviews[..|reviews| - 1], reviews[|reviews| - 1];
      RolesAddUp(front);
      assert reviews == front + [last];
      forall role | role in Roles(front) ensures role in Roles(reviews) {
        var k :| 0 <= k < |front| && front[k].role == role;
        assert reviews[k].role == role;
      }
      forall role | role in Roles(reviews) ensures role in Roles(front) || role == last.role {
        var k :| 0 <= k < |reviews| && reviews[k].role == role;
        assert k < |front| ==> front[k].role == role;
      }
    }
  }

  lemma {:induction false} TwoRoles(reviews: seq<Review>)
    ensures Roles(reviews) == {Reviewer, Adversary} && RepeatedRoles(reviews) == {}
       <==> |reviews| == 2 && reviews[0].role != reviews[1].role
  {
    RolesAddUp(reviews);
    if Roles(reviews) == {Reviewer, Adversary} && RepeatedRoles(reviews) == {} {
      var i :| 0 <= i < |reviews| && reviews[i].role == Reviewer;
      var j :| 0 <= j < |reviews| && reviews[j].role == Adversary;
      assert reviews[i].role !in RepeatedRoles(reviews) && reviews[j].role !in RepeatedRoles(reviews);
    }
    if |reviews| == 2 && reviews[0].role != reviews[1].role {
      assert reviews[0].role in Roles(reviews) && reviews[1].role in Roles(reviews);
      assert Roles(reviews) == {reviews[0].role, reviews[1].role};
    }
  }

  lemma {:induction false} PanelReasonless(reviews: seq<Review>)
    ensures (forall r :: !PanelReason(r, reviews))
       <==> && |reviews| == 2 && reviews[0].role != reviews[1].role
            && reviews[0].reviewerId != reviews[1].reviewerId && reviews[0].sessionId != reviews[1].sessionId
  {
    TwoRoles(reviews);
    var missing := {Reviewer, Adversary} - Roles(reviews);
    if forall r :: !PanelReason(r, reviews) {
      assert !PanelReason(RolesMissing(missing), reviews);
      assert !PanelReason(RolesRepeated(RepeatedRoles(reviews)), reviews);
      assert !PanelReason(SameReviewerId, reviews) && !PanelReason(SameSessionId, reviews);
      assert Reviewer !in missing && Adversary !in missing;
      assert Roles(reviews) == {Reviewer, Adversary};
    }
  }

  lemma {:induction false} ReviewReasonless(task: Task, policy: PolicyReport, review: Review, taskSha: string)
    ensures (forall r :: !ReviewReason(r, task, policy, review, taskSha))
       <==> ReviewClean(task, policy, review, taskSha)
  {
    if forall r :: !ReviewReason(r, task, policy, review, taskSha) {
      var role := review.role;
      assert !ReviewReason(OfReview(role, ReviewTaskId), task, policy, review, taskSha);
      assert !ReviewReason(OfReview(role, ReviewTaskSha), task, policy, review, taskSha);
      assert !ReviewReason(OfReview(role, ReviewBaseSha), task, policy, review, taskSha);
      assert !ReviewReason(OfReview(role, ReviewHeadSha), task, policy, review, taskSha);
      assert !ReviewReason(OfReview(role, ReviewPatch), task, policy, review, taskSha);
      assert !ReviewReason(OfReview(role, ReviewPrompt), task, policy, review, taskSha);
      assert !ReviewReason(OfReview(role, NotAccepted(review.decision)), task, policy, review, taskSha);
      forall j | 0 <= j < |review.findings| && review.findings[j].requirement.Some?
        ensures review.findings[j].requirement.value in task.requirements
      {
        var f := review.findings[j];
        var r := OfReview(role, UnknownRequirement(f.id, f.requirement.value));
        assert !ReviewReason(r, task, policy, review, taskSha);
      }
    }
  }

  ghost predicate NoReviewReason(task: Task, policy: PolicyReport, reviews: seq<Review>, taskSha: string) {
    && (forall r :: !PanelReason(r, reviews))
    && (forall r, i :: 0 <= i < |reviews| ==> !ReviewReason(r, task, policy, reviews[i], taskSha))
  }

  lemma {:induction false} ReviewsCleanIff(task: Task, policy: PolicyReport, reviews: seq<Review>, taskSha: string)
    ensures NoReviewReason(task, policy, reviews, taskSha) <==> ReviewsClean(task, policy, reviews, taskSha)
  {
    PanelReasonless(reviews);
    if |reviews| == 2 {
      ReviewReasonless(task, policy, reviews[0], taskSha);
      ReviewReasonless(task, policy, reviews[1], taskSha);
    }
  }

  // ---------------------------------------------------------------- the whole judge

  ghost predicate NoReason(
    task: Task, policy: PolicyReport, reviews: seq<Review>, gates: seq<Gate>, tdd: Tdd, taskSha: string)
    requires FramableFiles(policy.files)
  {
    forall r :: !Justified(r, task, policy, reviews, gates, tdd, taskSha)
  }

  lemma {:induction false} NoReasonParts(
    task: Task, policy: PolicyReport, reviews: seq<Review>, gates: seq<Gate>, tdd: Tdd, taskSha: string)
    requires FramableFiles(policy.files)
    ensures NoReason(task, policy, reviews, gates, tdd, taskSha)
       <==> && (forall r :: !PolicyReason(r, task, policy, taskSha))
            && (forall r :: !TddReason(r, task, policy, tdd, taskSha))
            && NoGateReason(task, policy, gates, taskSha)
            && NoReviewReason(task, policy, reviews, taskSha)
  {
    if NoReason(task, policy, reviews, gates, tdd, taskSha) {
      forall r ensures && !PolicyReason(r, task, policy, taskSha) && !TddReason(r, task, policy, tdd, taskSha)
                       && !CoverageReason(r, task, gates) && !PanelReason(r, reviews)
      {
        assert !Justified(r, task, policy, reviews, gates, tdd, taskSha);
      }
      forall r, j | 0 <= j < |gates| ensures !GateReason(r, task, policy, gates[j], taskSha) {
        assert !Justified(r, task, policy, reviews, gates, tdd, taskSha);
      }
      forall r, i | 0 <= i < |reviews| ensures !ReviewReason(r, task, policy, reviews[i], taskSha) {
        assert !Justified(r, task, policy, reviews, gates, tdd, taskSha);
      }
    }
  }

  /** The judge has nothing to say exactly when the evidence is clean. */
  lemma {:induction false} CleanIff(
    task: Task, policy: PolicyReport, reviews: seq<Review>, gates: seq<Gate>, tdd: Tdd, taskSha: string)
    requires ValidInputs(task, policy, reviews, gates, tdd)
    ensures NoReason(task, policy, reviews, gates, tdd, taskSha)
       <==> Clean(task, policy, reviews, gates, tdd, taskSha)
  {
    NoReasonParts(task, policy, reviews, gates, tdd, taskSha);
    PolicyCleanIff(task, policy, taskSha);
    ReviewsCleanIff(task, policy, reviews, taskSha);
    if NoReason(task, policy, reviews, gates, tdd, taskSha) {
      TddReasonless(task, policy, tdd, taskSha);
      GatesReasonless(task, policy, gates, taskSha);
    }
    if Clean(task, policy, reviews, gates, tdd, taskSha) {
      GatesCleanNoReason(task, policy, gates, taskSha);
      forall r ensures !TddReason(r, task, policy, tdd, taskSha) {
        TddCleanNoReason(task, policy, tdd, taskSha, r);
      }
    }
  }

  /** A blocker never comes without a reason: a severe finding forbids an accepting decision. */
  lemma {:induction false} BlockersComeWithReasons(
    task: Task, policy: PolicyReport, reviews: seq<Review>, gates: seq<Gate>, tdd: Tdd, taskSha: string, b: Blocker)
    returns (r: Reason)
    requires ValidInputs(task, policy, reviews, gates, tdd) && IsBlocker(b, reviews)
    ensures Justified(r, task, policy, reviews, gates, tdd, taskSha)
  {
    var i :| 0 <= i < |reviews| && Blocks(b, reviews[i]);
    assert !reviews[i].decision.Accept?;
    r := OfReview(reviews[i].role, NotAccepted(reviews[i].decision));
    assert ReviewReason(r, task, policy, reviews[i], taskSha);
  }

  /** Clean evidence has at least one gate, and every gate passed. */
  lemma {:induction false} CleanGatesPass(task: Task, policy: PolicyReport, gates: seq<Gate>, taskSha: string)
    requires ValidTask(task) && GatesClean(task, policy, gates, taskSha)
    ensures gates != [] && AllPassed(gates)
  {
    OccurrencesSome(gates, task.acceptance[0].id);
    forall j | 0 <= j < |gates| ensures gates[j].passed {
      assert MeetsSome(task, policy, gates[j], taskSha);
    }
  }

  /**
   The same verdict for the same evidence: never a pass, clean exactly when it asks for a human, and
   otherwise a failure listing exactly the justified reasons and blockers, each once.
   */
  method JudgeEvidence(
    task: Task, policy: PolicyReport, reviews: seq<Review>, gates: seq<Gate>, tdd: Tdd, taskSha: string)
    returns (v: Verdict)
    requires ValidInputs(task, policy, reviews, gates, tdd)
    ensures ValidVerdict(v)
    ensures v.status == HumanReview <==> Clean(task, policy, reviews, gates, tdd, taskSha)
    ensures v.status == Fail <==> !Clean(task, policy, reviews, gates, tdd, taskSha)
    ensures v.status == Fail ==>
              && (forall r :: r in v.reasons <==> Justified(r, task, policy, reviews, gates, tdd, taskSha))
              && (forall b :: b in v.blockers <==> IsBlocker(b, reviews))
              && Unique(v.reasons) && Unique(v.blockers)
    ensures v.status == HumanReview ==>
              v.reasons == [if NeedsWeighing(reviews) then MediumOrUnverified else SelfReported]
    ensures v.taskId == task.taskId && v.taskSha == taskSha && v.harness == task.harness
    ensures v.baseSha == task.baseSha && v.headSha == policy.headSha && v.patch == policy.patch
    ensures v.gates == gates
  {
    var reasons, blockers := CollectReasons(task, policy, reviews, gates, tdd, taskSha);
    CleanIff(task, policy, reviews, gates, tdd, taskSha);
    reasons := FirstOccurrences(reasons);
    blockers := FirstOccurrences(blockers);
    if blockers != [] {
      var r := BlockersComeWithReasons(task, policy, reviews, gates, tdd, taskSha, blockers[0]);
      assert r in reasons;
    }
    if reasons == [] {
      forall r ensures !Justified(r, task, policy, reviews, gates, tdd, taskSha) {
        assert r !in reasons;
      }
      CleanGatesPass(task, policy, gates, taskSha);
    } else {
      assert reasons[0] in reasons;
    }
    var status := HumanReview;
    if reasons != [] || blockers != [] {
      status := Fail;
    } else if NeedsWeighing(reviews) {
      reasons := [MediumOrUnverified];
    } else {
      reasons := [SelfReported];
    }
    v := Verdict(task.taskId, taskSha, task.harness, task.baseSha, policy.headSha, policy.patch,
                 status, gates, blockers, reasons);
  }
}
