/** The attested verdict: valid in every case, and never a vacuous pass. */
module AttestedVerdict {
  import opened Wrappers
  import opened Utf8
  import opened Manifest
  import opened Models
  import opened Judge
  import opened JudgeVerdict
  import opened Derive
  import opened DeriveFacts
  import opened TrustedRequests
  import opened AttestedJudge
  import N = Nonces

  /** How the attestation set is verified. */
  datatype Verification = Verification(
    verifies: N.Envelope -> bool, now: int, maxAge: int, maxSkew: int, envelopes: seq<N.Envelope>,
    conditions: N.Conditions)

  function TermsOf(s: Submission, how: Verification): N.Terms
    requires Buildable(s)
  {
    N.Terms(ExpectationsOf(s), how.verifies, how.now, how.maxAge, how.maxSkew)
  }

  /** Expectations were built and a fresh set of signed statements met every one of them. */
  predicate Verified(s: Submission, how: Verification, used: set<string>) {
    && Buildable(s) && N.SetSound(TermsOf(s, how), how.envelopes)
    && N.Commits(how.conditions, used, N.NoncesOf(how.envelopes)) && !how.conditions.LostAfterClose?
  }

  ghost predicate AllClean(s: Submission)
    requires FramableFiles(s.policy.files)
  {
    forall i :: 0 <= i < |s.tdds| ==> Clean(s.task, s.policy, s.reviews, s.gates, s.tdds[i], s.taskSha)
  }

  // ---------------------------------------------------------------- one ordinary verdict per record

  ghost predicate OrdinaryFor(s: Submission, tdd: Tdd, v: Verdict)
    requires FramableFiles(s.policy.files)
  {
    var clean := Clean(s.task, s.policy, s.reviews, s.gates, tdd, s.taskSha);
    && (v.status == HumanReview <==> clean) && (v.status == Fail <==> !clean)
    && (clean ==> v.blockers == []
                  && v.reasons == [if NeedsWeighing(s.reviews) then MediumOrUnverified else SelfReported])
    && v.reasons != []
  }

  method OrdinaryVerdicts(s: Submission) returns (verdicts: seq<Verdict>)
    requires Consistent(s)
    ensures |verdicts| == |s.tdds|
    ensures forall i :: 0 <= i < |verdicts| ==> OrdinaryFor(s, s.tdds[i], verdicts[i])
  {
    verdicts := [];
    for i := 0 to |s.tdds|
      invariant |verdicts| == i
      invariant forall k :: 0 <= k < i ==> OrdinaryFor(s, s.tdds[k], verdicts[k])
    {
      var v := JudgeEvidence(s.task, s.policy, s.reviews, s.gates, s.tdds[i], s.taskSha);
      verdicts := verdicts + [v];
    }
  }

  /** All reasons and blockers of the ordinary verdicts, each once, in order. */
  method MergeVerdicts(verdicts: seq<Verdict>) returns (reasons: seq<Reason>, blockers: seq<Blocker>)
    ensures forall r :: r in reasons <==> exists i :: 0 <= i < |verdicts| && r in verdicts[i].reasons
    ensures forall b :: b in blockers <==> exists i :: 0 <= i < |verdicts| && b in verdicts[i].blockers
    ensures Unique(reasons) && Unique(blockers)
  {
    reasons, blockers := [], [];
    for i := 0 to |verdicts|
      invariant forall r :: r in reasons <==> exists k :: 0 <= k < i && r in verdicts[k].reasons
      invariant forall b :: b in blockers <==> exists k :: 0 <= k < i && b in verdicts[k].blockers
    {
      reasons, blockers := reasons + verdicts[i].reasons, blockers + verdicts[i].blockers;
    }
    reasons, blockers := FirstOccurrences(reasons), FirstOccurrences(blockers);
  }

  // ---------------------------------------------------------------- the verdict

  function Build(s: Submission, status: Status, blockers: seq<Blocker>, reasons: seq<Reason>): Verdict {
    Verdict(s.task.taskId, s.taskSha, s.task.harness, s.task.baseSha, s.policy.headSha, s.policy.patch,
            status, s.gates, blockers, reasons)
  }

  lemma {:induction false} CleanFacts(s: Submission, i: nat)
    requires Consistent(s) && i < |s.tdds| && AllClean(s)
    ensures s.gates != [] && AllPassed(s.gates) && s.policy.patch.Some?
  {
    assert Clean(s.task, s.policy, s.reviews, s.gates, s.tdds[i], s.taskSha);
    CleanGatesPass(s.task, s.policy, s.gates, s.taskSha);
  }

  lemma {:induction false} BuildableHasRecord(s: Submission)
    requires Buildable(s)
    ensures s.tdds != []
  {
    var e := EffectiveOf(s).value;
    assert e.tdds[0] in multiset(e.tdds);
    assert multiset(s.tdds) == multiset(e.tdds);
  }

  method FailVerdict(s: Submission, reasons: seq<Reason>, blockers: seq<Blocker>) returns (v: Verdict)
    ensures ValidVerdict(v) && v.status == Fail
    ensures v == Build(s, Fail, FirstOccurrences(blockers),
                       if reasons == [] then [Attestation] else FirstOccurrences(reasons))
  {
    var kept := FirstOccurrences(reasons);
    v := Build(s, Fail, FirstOccurrences(blockers), if kept == [] then [Attestation] else kept);
  }

  /**
   Upgrades only an otherwise clean submission with a complete, freshly verified attestation set.
   Whatever happens the verdict is valid, and nonces are consumed only by a sound set.
   */
  method JudgeAttested(s: Submission, ledger: N.SqliteNonceLedger, how: Verification) returns (v: Verdict)
    requires Consistent(s)
    modifies ledger
    ensures ValidVerdict(v)
    ensures v.status == Pass <==>
              Verified(s, how, old(ledger.used)) && AllClean(s) && !NeedsWeighing(s.reviews)
    ensures v.status == HumanReview <==>
              Verified(s, how, old(ledger.used)) && AllClean(s) && NeedsWeighing(s.reviews)
    ensures ledger.used == old(ledger.used)
              + if Buildable(s) && N.SetSound(TermsOf(s, how), how.envelopes)
                   && N.Commits(how.conditions, old(ledger.used), N.NoncesOf(how.envelopes))
                then N.SetOf(N.NoncesOf(how.envelopes)) else {}
    ensures v == Build(s, v.status, v.blockers, v.reasons)
  {
    var ordinary := OrdinaryVerdicts(s);
    var reasons, blockers := MergeVerdicts(ordinary);
    var expectations := BuildExpectations(s);
    if expectations.None? {
      v := FailVerdict(s, reasons + [Attestation], blockers);
      return;
    }
    var terms := N.Terms(expectations.value, how.verifies, how.now, how.maxAge, how.maxSkew);
    var verified := N.VerifyAttestationSet(ledger, terms, how.envelopes, how.conditions);
    if verified.None? {
      v := FailVerdict(s, reasons + [Attestation], blockers);
      return;
    }
    BuildableHasRecord(s);
    v := Upgrade(s, ordinary, reasons, blockers);
  }

  /** The verdict once the attestation set has been verified. */
  method Upgrade(s: Submission, ordinary: seq<Verdict>, reasons: seq<Reason>, blockers: seq<Blocker>)
    returns (v: Verdict)
    requires Consistent(s) && s.tdds != [] && |ordinary| == |s.tdds|
    requires forall i :: 0 <= i < |ordinary| ==> OrdinaryFor(s, s.tdds[i], ordinary[i])
    requires forall r :: r in reasons <==> exists i :: 0 <= i < |ordinary| && r in ordinary[i].reasons
    ensures ValidVerdict(v) && v == Build(s, v.status, v.blockers, v.reasons)
    ensures v.status == Pass <==> AllClean(s) && !NeedsWeighing(s.reviews)
    ensures v.status == HumanReview <==> AllClean(s) && NeedsWeighing(s.reviews)
  {
    if exists i :: 0 <= i < |ordinary| && ordinary[i].status == Fail {
      ghost var i :| 0 <= i < |ordinary| && ordinary[i].status == Fail;
      assert OrdinaryFor(s, s.tdds[i], ordinary[i]);
      assert !Clean(s.task, s.policy, s.reviews, s.gates, s.tdds[i], s.taskSha);
      v := FailVerdict(s, reasons, blockers);
      return;
    }
    forall i | 0 <= i < |s.tdds| ensures Clean(s.task, s.policy, s.reviews, s.gates, s.tdds[i], s.taskSha) {
      assert OrdinaryFor(s, s.tdds[i], ordinary[i]);
      assert ordinary[i].status != Fail;
    }
    CleanFacts(s, 0);
    MergedQuality(s, ordinary, reasons);
    var quality := WithoutSelfReported(reasons);
    assert NeedsWeighing(s.reviews) ==> MediumOrUnverified in quality;
    if quality != [] {
      assert quality[0] in quality;
      return Build(s, HumanReview, [], quality);
    }
    return Build(s, Pass, [], []);
  }

  function WithoutSelfReported(reasons: seq<Reason>): (kept: seq<Reason>)
    ensures forall r :: r in kept <==> r in reasons && r != SelfReported
  {
    if reasons == [] then []
    else
      var last := reasons[|reasons| - 1];
      assert reasons == reasons[..|reasons| - 1] + [last];
      WithoutSelfReported(reasons[..|reasons| - 1]) + if last == SelfReported then [] else [last]
  }

  lemma {:induction false} MergedQuality(s: Submission, ordinary: seq<Verdict>, reasons: seq<Reason>)
    requires FramableFiles(s.policy.files) && AllClean(s) && s.tdds != [] && |ordinary| == |s.tdds|
    requires forall i :: 0 <= i < |ordinary| ==> OrdinaryFor(s, s.tdds[i], ordinary[i])
    requires forall r :: r in reasons <==> exists i :: 0 <= i < |ordinary| && r in ordinary[i].reasons
    ensures forall r :: r in reasons <==>
              r == if NeedsWeighing(s.reviews) then MediumOrUnverified else SelfReported
  {
    var expected := if NeedsWeighing(s.reviews) then MediumOrUnverified else SelfReported;
    forall i | 0 <= i < |ordinary| ensures ordinary[i].reasons == [expected] {
      assert OrdinaryFor(s, s.tdds[i], ordinary[i]);
      assert Clean(s.task, s.policy, s.reviews, s.gates, s.tdds[i], s.taskSha);
    }
    assert expected in ordinary[0].reasons;
  }

  // ---------------------------------------------------------------- a pass is never vacuous

  predicate TestProved(task: Task, tdds: seq<Tdd>, a: Acceptance) {
    exists j :: 0 <= j < |tdds| && tdds[j].acceptanceId == a.id && ContractMet(task, a, tdds[j])
  }

  predicate Undisputed(review: Review) {
    && review.decision.Accept? && review.unverified == []
    && forall j :: 0 <= j < |review.findings| ==> review.findings[j].severity.Low?
  }

  /** The runs of one acceptance measured what the TaskSpec declares for them. */
  predicate RunsMeet(inputs: Inputs, reds: map<seq<Text>, RedSnapshot>, runs: map<Key, OfflineRun>, a: Acceptance) {
    var gate, phases := GateRun(inputs, runs, a), PhasesOf(inputs, reds, runs, a);
    && gate.Some? && gate.value.exitCode == a.expectedExit
    && (a.isTest ==>
          && phases.Some? && phases.value.red.exitCode in a.redCodes
          && phases.value.red.fingerprint == a.redFingerprint
          && phases.value.green.exitCode == a.expectedExit)
  }

  /** The submitted gates and records are those of verified runs, and the runs measured what they should. */
  ghost predicate RestsOnRuns(s: Submission) {
    && s.offline.Some? && Covered(s.offline.value)
    && var inputs := s.offline.value;
       var reds, runs := RedsByPaths(inputs), RunsByKey(inputs);
       && (exists d :: && Faithful(inputs, reds, runs, s.task.acceptance, d)
                       && multiset(s.gates) == multiset(d.gates) && multiset(s.tdds) == multiset(d.tdds))
       && forall i :: 0 <= i < |s.task.acceptance| ==> RunsMeet(inputs, reds, runs, s.task.acceptance[i])
  }

  /** What a pass asserts of the submission. */
  ghost predicate NonVacuous(s: Submission) {
    && TestIds(s.task) != {}
    && (forall i :: 0 <= i < |s.task.acceptance| ==> Occurrences(s.gates, s.task.acceptance[i].id) == 1)
    && (forall j :: 0 <= j < |s.gates| ==> MeetsSome(s.task, s.policy, s.gates[j], s.taskSha))
    && UniqueKeys(s.tdds, TddId)
    && (forall i :: 0 <= i < |s.task.acceptance| && s.task.acceptance[i].isTest ==>
          TestProved(s.task, s.tdds, s.task.acceptance[i]))
    && |s.reviews| == 2 && s.reviews[0].role != s.reviews[1].role
    && Undisputed(s.reviews[0]) && Undisputed(s.reviews[1])
    && RestsOnRuns(s)
  }

  lemma {:induction false} ReviewUndisputed(s: Submission, i: nat)
    requires Consistent(s) && i < |s.reviews| && s.reviews[i].decision.Accept? && !NeedsWeighing(s.reviews)
    ensures Undisputed(s.reviews[i])
  {
    var review := s.reviews[i];
    assert ValidReview(review);
    assert review.unverified == [] && !MediumFinding(review);
  }

  lemma {:induction false} ContractOf(task: Task, tdd: Tdd, i: nat)
    requires UniqueIds(task.acceptance) && SomeContractMet(task, tdd)
    requires i < |task.acceptance| && task.acceptance[i].id == tdd.acceptanceId
    ensures ContractMet(task, task.acceptance[i], tdd)
  {
    UniqueContract(task, tdd);
    FindUnique(task.acceptance, i);
  }

  lemma {:induction false} RecordOf(task: Task, e: Effective, tdds: seq<Tdd>, i: nat) returns (j: nat)
    requires ExactlyCovered(task, e) && multiset(tdds) == multiset(e.tdds)
    requires i < |task.acceptance| && task.acceptance[i].isTest
    ensures j < |tdds| && tdds[j].acceptanceId == task.acceptance[i].id
  {
    TddIdsCover(task, e.tdds);
    assert task.acceptance[i].id in TestIds(task);
    var k :| 0 <= k < |e.tdds| && e.tdds[k].acceptanceId == task.acceptance[i].id;
    assert e.tdds[k] in multiset(tdds);
    j :| 0 <= j < |tdds| && tdds[j] == e.tdds[k];
  }

  lemma {:induction false} RecordProves(s: Submission, e: Effective, i: nat)
    requires Consistent(s) && AllClean(s) && ExactlyCovered(s.task, e) && multiset(s.tdds) == multiset(e.tdds)
    requires i < |s.task.acceptance| && s.task.acceptance[i].isTest
    ensures TestProved(s.task, s.tdds, s.task.acceptance[i])
  {
    var j := RecordOf(s.task, e, s.tdds, i);
    assert Clean(s.task, s.policy, s.reviews, s.gates, s.tdds[j], s.taskSha);
    ContractOf(s.task, s.tdds[j], i);
  }

  lemma {:induction false} GateMet(s: Submission, d: Derived, runs: map<Key, OfflineRun>, i: nat)
    requires Consistent(s) && AllPassed(s.gates) && multiset(s.gates) == multiset(d.gates)
    requires s.offline.Some? && i < |s.task.acceptance| == |d.gates|
    requires IsGateOf(s.offline.value, runs, s.task.acceptance[i], d.gates[i])
    ensures GateRun(s.offline.value, runs, s.task.acceptance[i]).Some?
    ensures GateRun(s.offline.value, runs, s.task.acceptance[i]).value.exitCode == s.task.acceptance[i].expectedExit
  {
    assert d.gates[i] in multiset(s.gates);
    var j :| 0 <= j < |s.gates| && s.gates[j] == d.gates[i];
  }

  lemma {:induction false} PhasesMet(
    s: Submission, d: Derived, reds: map<seq<Text>, RedSnapshot>, runs: map<Key, OfflineRun>, a: Acceptance, k: nat)
    requires Consistent(s) && AllClean(s) && multiset(s.tdds) == multiset(d.tdds) && s.offline.Some?
    requires k < |d.tdds| && a in s.task.acceptance && IsTddOf(s.offline.value, reds, runs, a, d.tdds[k])
    ensures var phases := PhasesOf(s.offline.value, reds, runs, a);
            && phases.Some? && phases.value.red.exitCode in a.redCodes
            && phases.value.red.fingerprint == a.redFingerprint && phases.value.green.exitCode == a.expectedExit
  {
    assert d.tdds[k] in multiset(s.tdds);
    var j :| 0 <= j < |s.tdds| && s.tdds[j] == d.tdds[k];
    var i :| 0 <= i < |s.task.acceptance| && s.task.acceptance[i] == a;
    assert Clean(s.task, s.policy, s.reviews, s.gates, s.tdds[j], s.taskSha);
    ContractOf(s.task, s.tdds[j], i);
  }

  lemma {:induction false} TestAt(acceptance: seq<Acceptance>, i: nat) returns (k: nat)
    requires i < |acceptance| && acceptance[i].isTest
    ensures k < |TestsOf(acceptance)| && TestsOf(acceptance)[k] == acceptance[i]
  {
    TestsAreAcceptances(acceptance);
    assert acceptance[i] in TestsOf(acceptance);
    k :| 0 <= k < |TestsOf(acceptance)| && TestsOf(acceptance)[k] == acceptance[i];
  }

  /** Clean artifacts of verified runs mean that every run measured what the TaskSpec declares. */
  lemma {:induction false} CleanRestsOnRuns(s: Submission)
    requires Consistent(s) && Buildable(s) && AllClean(s) && AllPassed(s.gates)
    ensures RestsOnRuns(s)
  {
    var inputs := s.offline.value;
    var d := Artifacts(inputs).value;
    ArtifactsFaithful(inputs, d);
    var reds, runs := RedsByPaths(inputs), RunsByKey(inputs);
    forall i | 0 <= i < |s.task.acceptance| ensures RunsMeet(inputs, reds, runs, s.task.acceptance[i]) {
      GateMet(s, d, runs, i);
      if s.task.acceptance[i].isTest {
        var k := TestAt(s.task.acceptance, i);
        PhasesMet(s, d, reds, runs, s.task.acceptance[i], k);
      }
    }
  }

  // ---------------------------------------------------------------- what the statements sign

  function SignedArtifacts(s: Submission): map<N.RoleName, Artifact>
    requires Buildable(s)
  {
    ArtifactsByRole(s, EffectiveOf(s).value)
  }

  /** Each statement signs, for its own role, the digest of that role's artifact. */
  predicate Signs(artifacts: map<N.RoleName, Artifact>, digest: Artifact -> string, envelopes: seq<N.Envelope>) {
    && N.Roles(envelopes) == artifacts.Keys
    && forall k :: 0 <= k < |envelopes| ==>
         var binding := envelopes[k].statement.binding;
         binding.role in artifacts && binding.artifact == digest(artifacts[binding.role])
  }

  lemma {:induction false} VerifiedSigns(s: Submission, how: Verification, used: set<string>)
    requires Verified(s, how, used)
    ensures Signs(SignedArtifacts(s), s.digest, how.envelopes)
  {
    forall k | 0 <= k < |how.envelopes|
      ensures var binding := how.envelopes[k].statement.binding;
              && binding.role in ExpectedRoles(s.task)
              && binding == ExpectationsOf(s)[binding.role]
    {
      assert N.EnvelopeSound(TermsOf(s, how), how.envelopes[k]);
    }
  }

  /** The log a run of this artifact left, where the artifact records one. */
  function LogOf(x: Artifact): Option<string> {
    match x
    case GateArtifact(gate) => Some(gate.evidence)
    case RedArtifact(_, red) => Some(red.log)
    case GreenArtifact(_, _, _, green) => Some(green.log)
    case _ => None
  }

  /** What a statement signs of the setting: the TaskSpec, both commits, snapshot, image and recorded log. */
  predicate SignsSetting(g: Ground, x: Artifact, signed: N.Signed) {
    && signed.taskId == g.task.taskId && signed.taskSha == g.taskSha && signed.baseSha == g.task.baseSha
    && signed.headSha == g.policy.headSha && signed.candidate == g.policy.patch
    && signed.snapshot == SnapshotOf(g.context, x) && signed.runtimeManifest == g.context.runtimeManifest
    && signed.image == ImageOf(g.context, x) && (LogOf(x).Some? ==> signed.log == LogOf(x).value)
  }

  predicate AllSignSetting(g: Ground, artifacts: map<N.RoleName, Artifact>, envelopes: seq<N.Envelope>) {
    forall k :: 0 <= k < |envelopes| ==>
      var binding := envelopes[k].statement.binding;
      binding.role in artifacts && SignsSetting(g, artifacts[binding.role], binding.signed)
  }

  /** This run left the log the artifact records, if it records one. */
  predicate LeftLog(runs: map<N.RoleName, RunBinding>, role: N.RoleName, x: Artifact) {
    role in runs && (LogOf(x).Some? ==> runs[role].log == LogOf(x).value)
  }

  lemma {:induction false} GateRunLogs(
    s: Submission, gates: seq<Gate>, runs: map<N.RoleName, RunBinding>, artifacts: map<N.RoleName, Artifact>,
    i: nat)
    requires GateRequestsMet(s, runs, gates) && GatesIn(artifacts, gates) && i < |gates|
    ensures var role := N.GateRole(gates[i].acceptanceId); role in artifacts && LeftLog(runs, role, artifacts[role])
  {
    assert GateRequestMet(s, runs, gates[i]);
  }

  lemma {:induction false} PhaseRunLogs(
    s: Submission, tdds: seq<Tdd>, runs: map<N.RoleName, RunBinding>, artifacts: map<N.RoleName, Artifact>,
    i: nat)
    requires PhaseRequestsMet(s, runs, tdds) && TddsIn(artifacts, tdds) && i < |tdds|
    ensures var role := N.RedRole(tdds[i].acceptanceId); role in artifacts && LeftLog(runs, role, artifacts[role])
    ensures var role := N.GreenRole(tdds[i].acceptanceId); role in artifacts && LeftLog(runs, role, artifacts[role])
  {
    assert TddRequestsMet(s, runs, tdds[i]);
  }

  /** Where the gate, or the record, of a role stands. */
  lemma {:induction false} GateAt(task: Task, e: Effective, id: string) returns (i: nat)
    requires ExactlyCovered(task, e) && id in AcceptanceIds(task)
    ensures i < |e.gates| && e.gates[i].acceptanceId == id
  {
    assert id in ByKey(e.gates, GateId).Keys;
    var gate :| gate in e.gates && GateId(gate) == id;
    i :| 0 <= i < |e.gates| && e.gates[i] == gate;
  }

  lemma {:induction false} TddAt(task: Task, e: Effective, id: string) returns (i: nat)
    requires ExactlyCovered(task, e) && id in TestIds(task)
    ensures i < |e.tdds| && e.tdds[i].acceptanceId == id
  {
    TddIdsCover(task, e.tdds);
    i :| 0 <= i < |e.tdds| && e.tdds[i].acceptanceId == id;
  }

  /** The run behind every role that records a log left just that log. */
  lemma {:induction false} LogsMet(
    s: Submission, e: Effective, runs: map<N.RoleName, RunBinding>, artifacts: map<N.RoleName, Artifact>,
    role: N.RoleName)
    requires ExactlyCovered(s.task, e) && Ready(s, e, runs, artifacts) && AllRequestsMet(s, e, runs)
    requires role in ExpectedRoles(s.task)
    requires role.ReviewerRole? || role.AdversaryRole? ==> artifacts[role].ReviewArtifact?
    ensures LeftLog(runs, role, artifacts[role])
  {
    match role
    case GateRole(id) =>
      var i := GateAt(s.task, e, id);
      GateRunLogs(s, e.gates, runs, artifacts, i);
    case RedRole(id) =>
      var i := TddAt(s.task, e, id);
      PhaseRunLogs(s, e.tdds, runs, artifacts, i);
    case GreenRole(id) =>
      var i := TddAt(s.task, e, id);
      PhaseRunLogs(s, e.tdds, runs, artifacts, i);
    case _ =>
  }

  lemma {:induction false} SignedLogs(s: Submission, role: N.RoleName)
    requires Buildable(s) && role in ExpectedRoles(s.task)
    ensures LeftLog(ByKey(EffectiveOf(s).value.bindings, RoleOf), role, SignedArtifacts(s)[role])
  {
    var e := EffectiveOf(s).value;
    ArtifactsReady(s, e);
    LogsMet(s, e, ByKey(e.bindings, RoleOf), SignedArtifacts(s), role);
  }

  /** Every verified statement also signs the setting, and the log its artifact records. */
  lemma {:induction false} VerifiedSignsSetting(s: Submission, how: Verification, used: set<string>)
    requires Verified(s, how, used)
    ensures AllSignSetting(GroundOf(s), SignedArtifacts(s), how.envelopes)
  {
    forall k | 0 <= k < |how.envelopes|
      ensures var binding := how.envelopes[k].statement.binding;
              && binding.role in SignedArtifacts(s)
              && SignsSetting(GroundOf(s), SignedArtifacts(s)[binding.role], binding.signed)
    {
      assert N.EnvelopeSound(TermsOf(s, how), how.envelopes[k]);
      SignedLogs(s, how.envelopes[k].statement.binding.role);
    }
  }

  /** One set of statements signs at most one artifact for each role. */
  lemma {:induction false} SignedOnce(
    a: map<N.RoleName, Artifact>, b: map<N.RoleName, Artifact>, digest: Artifact -> string,
    envelopes: seq<N.Envelope>)
    requires CollisionFree(digest) && Signs(a, digest, envelopes) && Signs(b, digest, envelopes)
    ensures a == b
  {
    forall role | role in a ensures a[role] == b[role] {
      assert role in N.Roles(envelopes);
      var k :| 0 <= k < |envelopes| && envelopes[k].statement.binding.role == role;
      assert digest(a[role]) == digest(b[role]);
    }
  }

  /** Gates and records follow the acceptances they belong to. */
  predicate InOrder(acceptance: seq<Acceptance>, tests: seq<Acceptance>, e: Effective) {
    && |e.gates| == |acceptance| && |e.tdds| == |tests|
    && (forall i :: 0 <= i < |acceptance| ==> e.gates[i].acceptanceId == acceptance[i].id)
    && (forall i :: 0 <= i < |tests| ==> e.tdds[i].acceptanceId == tests[i].id)
  }

  lemma {:induction false} EffectiveInOrder(s: Submission)
    requires Buildable(s) && Consistent(s)
    ensures InOrder(s.task.acceptance, TestsOf(s.task.acceptance), EffectiveOf(s).value)
    ensures multiset(s.gates) == multiset(EffectiveOf(s).value.gates)
    ensures multiset(s.tdds) == multiset(EffectiveOf(s).value.tdds)
  {
    var inputs := s.offline.value;
    var d := Artifacts(inputs).value;
    ArtifactsFaithful(inputs, d);
    forall i | 0 <= i < |s.task.acceptance| ensures d.gates[i].acceptanceId == s.task.acceptance[i].id {
      assert IsGateOf(inputs, RunsByKey(inputs), s.task.acceptance[i], d.gates[i]);
    }
    forall i | 0 <= i < |d.tdds| ensures d.tdds[i].acceptanceId == TestsOf(s.task.acceptance)[i].id {
      assert IsTddOf(inputs, RedsByPaths(inputs), RunsByKey(inputs), TestsOf(s.task.acceptance)[i], d.tdds[i]);
    }
  }

  lemma {:induction false} GatesPinned(artifacts: map<N.RoleName, Artifact>, a: seq<Gate>, b: seq<Gate>)
    requires GatesIn(artifacts, a) && GatesIn(artifacts, b) && |a| == |b|
    requires forall i :: 0 <= i < |a| ==> a[i].acceptanceId == b[i].acceptanceId
    ensures a == b
  {
    forall i | 0 <= i < |a| ensures a[i] == b[i] {
      assert GateArtifact(a[i]) == artifacts[N.GateRole(a[i].acceptanceId)] == GateArtifact(b[i]);
    }
  }

  /** The RED and the GREEN artifact together are the whole record. */
  lemma {:induction false} RecordsPinned(artifacts: map<N.RoleName, Artifact>, a: seq<Tdd>, b: seq<Tdd>)
    requires TddsIn(artifacts, a) && TddsIn(artifacts, b) && |a| == |b|
    requires forall i :: 0 <= i < |a| ==> a[i].acceptanceId == b[i].acceptanceId
    ensures a == b
  {
    forall i | 0 <= i < |a| ensures a[i] == b[i] {
      assert RedOf(a[i]) == artifacts[N.RedRole(a[i].acceptanceId)] == RedOf(b[i]);
      assert GreenOf(a[i]) == artifacts[N.GreenRole(a[i].acceptanceId)] == GreenOf(b[i]);
    }
  }

  lemma {:induction false} ReviewsPinned(artifacts: map<N.RoleName, Artifact>, a: seq<Review>, b: seq<Review>)
    requires ReviewsIn(artifacts, a) && ReviewsIn(artifacts, b) && |a| == 2 && |b| == 2
    requires a[0].role != a[1].role && b[0].role != b[1].role
    ensures multiset(a) == multiset(b)
  {
    var first := if b[0].role == a[0].role then b[0] else b[1];
    var second := if b[0].role == a[0].role then b[1] else b[0];
    assert a[0] == first && a[1] == second;
    assert a == [a[0], a[1]] && b == [b[0], b[1]];
  }

  /** The artifacts a submission's statements sign are those of its own gates, records and reviews. */
  lemma {:induction false} SignedIn(s: Submission)
    requires Buildable(s)
    ensures var e := EffectiveOf(s).value;
            GatesIn(SignedArtifacts(s), e.gates) && TddsIn(SignedArtifacts(s), e.tdds)
            && ReviewsIn(SignedArtifacts(s), s.reviews)
  {
    ArtifactsReady(s, EffectiveOf(s).value);
  }

  lemma {:induction false} OfflinePinned(
    artifacts: map<N.RoleName, Artifact>, acceptance: seq<Acceptance>, tests: seq<Acceptance>,
    a: Effective, b: Effective)
    requires InOrder(acceptance, tests, a) && InOrder(acceptance, tests, b)
    requires GatesIn(artifacts, a.gates) && GatesIn(artifacts, b.gates)
    requires TddsIn(artifacts, a.tdds) && TddsIn(artifacts, b.tdds)
    ensures a.gates == b.gates && a.tdds == b.tdds
  {
    GatesPinned(artifacts, a.gates, b.gates);
    RecordsPinned(artifacts, a.tdds, b.tdds);
  }

  lemma {:induction false} SameOffline(s: Submission, t: Submission, artifacts: map<N.RoleName, Artifact>)
    requires Buildable(s) && Buildable(t) && Consistent(s) && Consistent(t) && s.task == t.task
    requires GatesIn(artifacts, EffectiveOf(s).value.gates) && GatesIn(artifacts, EffectiveOf(t).value.gates)
    requires TddsIn(artifacts, EffectiveOf(s).value.tdds) && TddsIn(artifacts, EffectiveOf(t).value.tdds)
    ensures multiset(s.gates) == multiset(t.gates) && multiset(s.tdds) == multiset(t.tdds)
  {
    EffectiveInOrder(s);
    EffectiveInOrder(t);
    OfflinePinned(artifacts, s.task.acceptance, TestsOf(s.task.acceptance), EffectiveOf(s).value,
                  EffectiveOf(t).value);
  }

  lemma {:induction false} SameReviews(s: Submission, t: Submission, artifacts: map<N.RoleName, Artifact>)
    requires PanelPresent(s.reviews) && PanelPresent(t.reviews)
    requires ReviewsIn(artifacts, s.reviews) && ReviewsIn(artifacts, t.reviews)
    ensures multiset(s.reviews) == multiset(t.reviews)
  {
    TwoReviews(s.reviews);
    TwoReviews(t.reviews);
    ReviewsPinned(artifacts, s.reviews, t.reviews);
  }

  lemma {:induction false} SameTask(s: Submission, t: Submission)
    requires Buildable(s) && Buildable(t) && SignedArtifacts(s) == SignedArtifacts(t)
    ensures s.task == t.task && s.policy == t.policy
  {
    var a, b := SignedArtifacts(s), SignedArtifacts(t);
    assert a[N.TaskRole] == TaskArtifact(s.task) && b[N.TaskRole] == TaskArtifact(t.task);
    assert a[N.PolicyRole] == PolicyArtifact(s.policy) && b[N.PolicyRole] == PolicyArtifact(t.policy);
  }

  /**
   One set of signed statements verifies for one submission only: the TaskSpec, the policy report and,
   up to order, the gates, the records and the reviews are pinned by what was signed.
   */
  lemma {:induction false} StatementsPinArtifacts(
    s: Submission, t: Submission, how: Verification, again: Verification, used: set<string>, later: set<string>)
    requires Consistent(s) && Consistent(t) && s.digest == t.digest && how.envelopes == again.envelopes
    requires Verified(s, how, used) && Verified(t, again, later)
    ensures s.task == t.task && s.policy == t.policy
    ensures multiset(s.gates) == multiset(t.gates) && multiset(s.tdds) == multiset(t.tdds)
    ensures multiset(s.reviews) == multiset(t.reviews)
  {
    VerifiedSigns(s, how, used);
    VerifiedSigns(t, again, later);
    SignedOnce(SignedArtifacts(s), SignedArtifacts(t), s.digest, how.envelopes);
    SameTask(s, t);
    SignedIn(s);
    SignedIn(t);
    SameOffline(s, t, SignedArtifacts(s));
    SameReviews(s, t, SignedArtifacts(s));
  }

  lemma {:induction false} CleanIsNotVacuous(s: Submission)
    requires Consistent(s) && Buildable(s) && AllClean(s) && !NeedsWeighing(s.reviews)
    ensures NonVacuous(s)
  {
    var e := EffectiveOf(s).value;
    BuildableHasRecord(s);
    CleanFacts(s, 0);
    CleanRestsOnRuns(s);
    assert Clean(s.task, s.policy, s.reviews, s.gates, s.tdds[0], s.taskSha);
    ReviewUndisputed(s, 0);
    ReviewUndisputed(s, 1);
    UniqueKeysReordered(e.tdds, s.tdds, TddId);
    TddIdsCover(s.task, e.tdds);
    assert e.tdds[0].acceptanceId in TestIds(s.task);
    forall i | 0 <= i < |s.task.acceptance| && s.task.acceptance[i].isTest
      ensures TestProved(s.task, s.tdds, s.task.acceptance[i])
    {
      RecordProves(s, e, i);
    }
  }

  /**
   A pass is never vacuous: there is a test acceptance; every acceptance has exactly one gate and it
   passes; every test has one record with the declared RED and GREEN results; gates and records are
   those of verified runs that measured just that; both roles accept with nothing above a low finding
   and nothing unverified; and the verified statements are exactly those the TaskSpec demands, each
   signing the digest of its role's artifact, the setting it came from and the log it records.
   */
  lemma {:induction false} PassIsNotVacuous(s: Submission, how: Verification, used: set<string>)
    requires Consistent(s)
    requires Verified(s, how, used) && AllClean(s) && !NeedsWeighing(s.reviews)
    ensures NonVacuous(s)
    ensures N.Roles(how.envelopes) == ExpectedRoles(s.task)
    ensures Signs(SignedArtifacts(s), s.digest, how.envelopes)
    ensures AllSignSetting(GroundOf(s), SignedArtifacts(s), how.envelopes)
  {
    CleanIsNotVacuous(s);
    VerifiedSigns(s, how, used);
    VerifiedSignsSetting(s, how, used);
  }
}
